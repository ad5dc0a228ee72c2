/** A strict reader of an OpenAI Responses event stream.

    The converters that write this protocol promise a trace that a strict client can follow: sequence
    numbers 1, 2, 3, ..., output items numbered 0, 1, 2, ..., each item's own events in their order and
    on the item they belong to, one `output_item.done` per item that agrees with what led up to it, and
    a terminal event that lists exactly the items that were done.  `Read` is that client.  It knows
    nothing of the converters. */
module ResponsesClient {

  /** What an output item is announced as. */
  datatype Opening =
    | Message
    | Reasoning
    | FunctionCall(callId: string, name: string)
    | CustomCall(callId: string, name: string)
    | SearchCall(callId: string)

  /** A finished output item.  Its id is its output index; `sealed` is the opaque part of a reasoning item. */
  datatype Item = Item(id: nat, opening: Opening, content: string, sealed: string)

  datatype Channel = TextChannel | SummaryChannel | ArgumentsChannel | InputChannel

  datatype Ending = Completed | Incomplete(reason: string) | Failed(message: string)

  datatype Event =
    | Created
    | InProgress
    | ItemAdded(index: nat, opening: Opening)
    | PartAdded(index: nat, channel: Channel)
    | Delta(index: nat, channel: Channel, text: string)
    | ValueDone(index: nat, channel: Channel, text: string)
    | PartDone(index: nat, channel: Channel, text: string)
    | ItemDone(index: nat, item: Item)
    | Ended(ending: Ending, output: seq<Item>)
    | Aborted(message: string)

  /** An event with its sequence number, or a bare error. */
  datatype Frame = Frame(number: nat, event: Event) | ErrorFrame(message: string)

  datatype Stage =
    | Announced
    | Flowing
    | Settled(text: string)
    | Wrapped(text: string)
    | Finished(item: Item)

  datatype Progress = Refused | Progress(opening: Opening, streamed: string, stage: Stage)

  datatype Phase =
    | Idle
    | Opened
    | Streaming
    | Over(ending: Ending, output: seq<Item>)
    | Broken(message: string)

  /** `finished` are the items that are done, in the order they were. */
  datatype Reader = Rejected | Reader(phase: Phase, count: nat, items: seq<Progress>, finished: seq<Item>)

  predicate HasParts(opening: Opening, channel: Channel) {
    (opening.Message? && channel.TextChannel?) || (opening.Reasoning? && channel.SummaryChannel?)
  }

  predicate HasValue(opening: Opening, channel: Channel) {
    (opening.FunctionCall? && channel.ArgumentsChannel?) || (opening.CustomCall? && channel.InputChannel?)
  }

  /** An item's own events, before it is done. */
  function Advance(p: Progress, e: Event): Progress {
    if p.Refused? then Refused
    else match e
      case PartAdded(_, channel) =>
        if p.stage.Announced? && HasParts(p.opening, channel) then p.(stage := Flowing) else Refused
      case Delta(_, channel, text) =>
        if text != "" && ((p.stage.Flowing? && HasParts(p.opening, channel))
                          || (p.stage.Announced? && p.opening.FunctionCall? && channel.ArgumentsChannel?))
        then p.(streamed := p.streamed + text) else Refused
      case ValueDone(_, channel, text) =>
        if p.stage.Flowing? && HasParts(p.opening, channel) then p.(stage := Settled(text))
        else if p.stage.Announced? && HasValue(p.opening, channel) then p.(stage := Wrapped(text))
        else Refused
      case PartDone(_, channel, text) =>
        if p.stage == Settled(text) && HasParts(p.opening, channel) then p.(stage := Wrapped(text)) else Refused
      case ItemDone(_, item) =>
        if item.opening == p.opening
           && (p.stage == Wrapped(item.content)
               || (p.stage.Announced? && (p.opening.Reasoning? || p.opening.SearchCall?)))
        then p.(stage := Finished(item)) else Refused
      case _ => Refused
  }

  function Update(r: Reader, index: nat, e: Event): Reader {
    if r.Rejected? || index >= |r.items| || Advance(r.items[index], e).Refused? then Rejected
    else r.(items := r.items[index := Advance(r.items[index], e)])
  }

  function Respond(r: Reader, e: Event): Reader {
    if r.Rejected? then Rejected
    else match e
      case Created => if r.phase.Idle? then r.(phase := Opened) else Rejected
      case InProgress => if r.phase.Opened? then r.(phase := Streaming) else Rejected
      case ItemAdded(index, opening) =>
        if r.phase.Streaming? && index == |r.items|
        then r.(items := r.items + [Progress(opening, "", Announced)]) else Rejected
      case ItemDone(index, item) =>
        if r.phase.Streaming? && item.id == index && Update(r, index, e).Reader?
        then Update(r, index, e).(finished := r.finished + [item]) else Rejected
      case Ended(ending, output) =>
        if r.phase.Streaming? && multiset(output) == multiset(r.finished)
        then r.(phase := Over(ending, output)) else Rejected
      case Aborted(message) => if r.phase.Streaming? then r.(phase := Broken(message)) else Rejected
      case _ => if r.phase.Streaming? then Update(r, e.index, e) else Rejected
  }

  /** The next event in sequence. */
  function Hear(r: Reader, e: Event): Reader {
    if r.Rejected? then Rejected else Respond(r.(count := r.count + 1), e)
  }

  function Accept(r: Reader, f: Frame): Reader {
    if r.Rejected? then Rejected
    else match f
      case Frame(number, event) => if number == r.count + 1 then Hear(r, event) else Rejected
      case ErrorFrame(message) =>
        if r.phase.Idle? || r.phase.Streaming? then r.(phase := Broken(message)) else Rejected
  }

  function Read(trace: seq<Frame>): Reader {
    if trace == [] then Reader(Idle, 0, [], [])
    else Accept(Read(trace[..|trace| - 1]), trace[|trace| - 1])
  }

  lemma {:induction false} ReadAppend(trace: seq<Frame>, f: Frame)
    ensures Read(trace + [f]) == Accept(Read(trace), f)
  {
    assert (trace + [f])[..|trace|] == trace;
  }

  // ---- writing in sequence ---------------------------------------------------------------------

  /** A numbered log: the last sequence number used, and everything written. */
  datatype Tape = Tape(number: nat, log: seq<Frame>)

  function Post(tape: Tape, e: Event): Tape {
    Tape(tape.number + 1, tape.log + [Frame(tape.number + 1, e)])
  }

  /** The client that reads the tape is in state `r`, and expects the tape's next number. */
  ghost predicate Hears(tape: Tape, r: Reader) {
    match tape
    case Tape(n, log) => Read(log) == r && n == |log| && (r.Reader? ==> r.count == n)
  }

  lemma PostHears(tape: Tape, r: Reader, e: Event)
    requires Hears(tape, r)
    ensures Hears(Post(tape, e), Hear(r, e))
  {
    ReadAppend(tape.log, Frame(tape.number + 1, e));
  }

  /** Nothing mends a trace the client has rejected. */
  lemma {:induction false} RejectedForGood(trace: seq<Frame>, n: nat)
    requires n <= |trace| && Read(trace[..n]).Rejected?
    ensures Read(trace).Rejected?
  {
    if n < |trace| {
      assert trace[..|trace| - 1][..n] == trace[..n];
      RejectedForGood(trace[..|trace| - 1], n);
    } else {
      assert trace[..n] == trace;
    }
  }

  // ---- what acceptance means -------------------------------------------------------------------

  /** Every item announced has been done. */
  predicate Whole(r: Reader) {
    r.Reader? && forall k :: 0 <= k < |r.items| ==> r.items[k].Progress? && r.items[k].stage.Finished?
  }

  /** How often item `k` is announced, and done. */
  function Announcements(trace: seq<Frame>, k: nat): nat {
    if trace == [] then 0
    else
      var f := trace[|trace| - 1];
      Announcements(trace[..|trace| - 1], k)
      + (if f.Frame? && f.event.ItemAdded? && f.event.index == k then 1 else 0)
  }

  function Completions(trace: seq<Frame>, k: nat): nat {
    if trace == [] then 0
    else
      var f := trace[|trace| - 1];
      Completions(trace[..|trace| - 1], k)
      + (if f.Frame? && f.event.ItemDone? && f.event.index == k then 1 else 0)
  }

  /** The events of an accepted trace are numbered 1, 2, 3, ... */
  lemma {:induction false} NumberedInSequence(trace: seq<Frame>, i: nat)
    requires Read(trace).Reader? && i < |trace| && trace[i].Frame?
    ensures trace[i].number == i + 1
  {
    NumbersCount(trace);
    if i < |trace| - 1 {
      NumberedInSequence(trace[..|trace| - 1], i);
    } else {
      NumbersCount(trace[..i]);
    }
  }

  lemma {:induction false} NumbersCount(trace: seq<Frame>)
    requires Read(trace).Reader?
    ensures Read(trace).count <= |trace|
    ensures Read(trace).count == |trace| || Read(trace).phase.Broken?
  {
    if trace != [] {
      NumbersCount(trace[..|trace| - 1]);
    }
  }

  /** In an accepted trace every item is announced once and done at most once, and is done exactly when
      the client has it finished. */
  lemma {:induction false} OncePerItem(trace: seq<Frame>, k: nat)
    requires Read(trace).Reader?
    ensures var r := Read(trace);
            && Announcements(trace, k) == (if k < |r.items| then 1 else 0)
            && Completions(trace, k)
               == (if k < |r.items| && r.items[k].Progress? && r.items[k].stage.Finished? then 1 else 0)
            && (k < |r.items| ==> r.items[k].Progress?)
  {
    if trace != [] {
      OncePerItem(trace[..|trace| - 1], k);
      OneMoreFrame(Read(trace[..|trace| - 1]), trace[|trace| - 1], k);
    }
  }

  lemma OneMoreFrame(r: Reader, f: Frame, k: nat)
    requires r.Reader? && Accept(r, f).Reader? && (k < |r.items| ==> r.items[k].Progress?)
    ensures var next := Accept(r, f);
            && |r.items| <= |next.items|
            && (k < |next.items| ==> next.items[k].Progress?)
            && (k < |r.items| ==> ((f.Frame? && f.event.ItemDone? && f.event.index == k)
                                   <==> (next.items[k].stage.Finished? && !r.items[k].stage.Finished?)))
            && (k < |r.items| && r.items[k].stage.Finished? ==> next.items[k].stage.Finished?)
            && (|r.items| <= k < |next.items| ==> !next.items[k].stage.Finished?)
            && ((f.Frame? && f.event.ItemAdded? && f.event.index == k) <==> |r.items| <= k < |next.items|)
            && (f.Frame? && f.event.ItemDone? && f.event.index == k ==> k < |r.items|)
  {
  }
}
