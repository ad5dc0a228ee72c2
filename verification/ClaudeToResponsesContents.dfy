/** What a Responses client is given of what Claude said, in terms of the pieces Claude sent.

    A block is told by the pieces sent to its index from its start until it is stopped or begun again. */
module ClaudeToResponsesContents {
  import opened ClaudeToResponsesDocument
  import opened ClaudeToResponsesFidelity
  import opened MapOrder
  import opened ResponsesClient
  import opened Sequences
  import opened ToolDialect
  import Text

  // ---- what the upstream sent ------------------------------------------------------------------

  predicate Begins(e: Upstream) {
    e.BlockStart? && !e.start.UnknownStart?
  }

  predicate Ends(e: Upstream, i: int) {
    (e.BlockStop? || Begins(e)) && e.index == i
  }

  /** The block begun at event `s` is neither stopped nor begun again. */
  predicate StaysOpen(events: seq<Upstream>, s: nat)
    requires s < |events| && Begins(events[s])
  {
    var last := |events| - 1;
    s == last || (StaysOpen(events[..last], s) && !Ends(events[last], events[s].index))
  }

  /** It was stopped, and not begun again before that. */
  predicate Stopped(events: seq<Upstream>, s: nat)
    requires s < |events| && Begins(events[s])
  {
    var last := |events| - 1;
    s < last
    && (Stopped(events[..last], s)
        || (StaysOpen(events[..last], s) && events[last].BlockStop? && events[last].index == events[s].index))
  }

  /** The pieces sent to it while it was open. */
  function Told(events: seq<Upstream>, s: nat): seq<Piece>
    requires s < |events| && Begins(events[s])
  {
    var last := |events| - 1;
    if s == last then []
    else Told(events[..last], s)
         + (if StaysOpen(events[..last], s) && events[last].BlockDelta? && events[last].index == events[s].index
            then [events[last].piece] else [])
  }

  function TextOf(piece: Piece): string {
    match piece
    case TextPiece(text) => text
    case JsonPiece(text) => text
    case ThoughtPiece(text) => text
    case _ => ""
  }

  /** All that pieces say, joined. */
  function Texts(pieces: seq<Piece>): string {
    if pieces == [] then "" else Texts(pieces[..|pieces| - 1]) + TextOf(pieces[|pieces| - 1])
  }

  /** The signature last given. */
  function Signed(first: string, pieces: seq<Piece>): string {
    if pieces == [] then first
    else
      var last := pieces[|pieces| - 1];
      if last.SignaturePiece? && last.text != "" then last.text else Signed(first, pieces[..|pieces| - 1])
  }

  function StartText(start: Start): string {
    if start.TextStart? || start.ThoughtStart? then start.text else ""
  }

  function StartSignature(start: Start): string {
    if start.ThoughtStart? then start.signature else ""
  }

  /** The pieces a client is passed as they come: text always, arguments but those of custom and search calls,
      and thinking on a thinking block that may be seen. */
  predicate PassedOn(dialect: Dialect, start: Start, piece: Piece) {
    match start
    case TextStart(_) => piece.TextPiece? || piece.JsonPiece?
    case ToolStart(_, name, _) => piece.TextPiece? || (piece.JsonPiece? && dialect.tools.shape(name).FunctionShape?)
    case ThoughtStart(visible, _, _, _) =>
      piece.TextPiece? || piece.JsonPiece? || (piece.ThoughtPiece? && visible)
    case UnknownStart => false
  }

  function Passed(dialect: Dialect, start: Start, pieces: seq<Piece>): string {
    if pieces == [] then ""
    else
      var last := pieces[|pieces| - 1];
      Passed(dialect, start, pieces[..|pieces| - 1]) + (if PassedOn(dialect, start, last) then TextOf(last) else "")
  }

  /** A block's own kind of piece: text to text, arguments to calls, thinking and signatures to thinking. */
  predicate OfKind(start: Start, piece: Piece) {
    match start
    case TextStart(_) => piece.TextPiece?
    case ToolStart(_, _, _) => piece.JsonPiece?
    case ThoughtStart(_, _, _, _) => piece.ThoughtPiece? || piece.SignaturePiece?
    case UnknownStart => false
  }

  // ---- entries are made of what was sent -------------------------------------------------------

  /** The entry that a start and pieces make. */
  function Made(dialect: Dialect, start: Start, pieces: seq<Piece>, closed: bool): Entry {
    Entry(start, StartText(start) + Texts(pieces), Passed(dialect, start, pieces),
          Signed(StartSignature(start), pieces), closed)
  }

  lemma BeginIsMade(dialect: Dialect, start: Start)
    ensures Begin(start) == Made(dialect, start, [], false)
  {
    Neutral(StartText(start));
  }

  lemma HoldIsMade(dialect: Dialect, start: Start, pieces: seq<Piece>, piece: Piece)
    requires !start.UnknownStart?
    ensures Hold(dialect, Made(dialect, start, pieces, false), piece) == Made(dialect, start, pieces + [piece], false)
  {
    Front(pieces, piece);
    Associate(StartText(start), Texts(pieces), TextOf(piece));
    Neutral(Passed(dialect, start, pieces));
    Neutral(Texts(pieces));
  }

  /** Entry `k` is `entry`; index `i` stands for it as long as it is `open`, and no other index does. */
  ghost predicate Holds(doc: Document, k: nat, i: int, entry: Entry, open: bool) {
    var holds :=
      && k < |doc.items| && doc.items[k] == entry
      && (open <==> i in doc.latest && doc.latest[i] == k && !entry.closed)
      && (forall j :: j in doc.latest && doc.latest[j] == k ==> j == i);
    holds
  }

  function After(dialect: Dialect, entry: Entry, open: bool, e: Upstream, i: int): Entry {
    if open && e.BlockDelta? && e.index == i then Hold(dialect, entry, e.piece)
    else if open && e.BlockStop? && e.index == i then entry.(closed := true)
    else entry
  }

  lemma StepHolds(dialect: Dialect, doc: Document, e: Upstream, k: nat, i: int, entry: Entry, open: bool)
    requires Holds(doc, k, i, entry, open)
    ensures Holds(Step(doc, dialect, e), k, i, After(dialect, entry, open, e, i), open && !Ends(e, i))
  {
  }

  lemma StartHolds(dialect: Dialect, doc: Document, e: Upstream)
    requires Sound(doc) && Begins(e)
    ensures Holds(Step(doc, dialect, e), |doc.items|, e.index, Begin(e.start), true)
  {
  }

  /** One more event does to what was made of a block what it does to what was sent to it. */
  lemma MadeNext(dialect: Dialect, events: seq<Upstream>, s: nat)
    requires s < |events| - 1 && Begins(events[s])
    ensures var before, e := events[..|events| - 1], events[|events| - 1];
            After(dialect, Made(dialect, events[s].start, Told(before, s), Stopped(before, s)), StaysOpen(before, s), e,
                  events[s].index)
            == Made(dialect, events[s].start, Told(events, s), Stopped(events, s))
  {
    var before, e := events[..|events| - 1], events[|events| - 1];
    if StaysOpen(before, s) {
      OpenIsNotStopped(before, s);
      if e.BlockDelta? && e.index == events[s].index {
        HoldIsMade(dialect, events[s].start, Told(before, s), e.piece);
      }
    }
    Neutral(Told(before, s));
  }

  /** The entry of the block begun at `s` holds what the block began with and all that was sent to it while it
      was open; and its index stands for it just that long. */
  ghost predicate HoldsTold(dialect: Dialect, events: seq<Upstream>, s: nat)
    requires s < |events| && Begins(events[s])
  {
    Holds(Meaning(dialect, events), Begun(events[..s]), events[s].index,
          Made(dialect, events[s].start, Told(events, s), Stopped(events, s)), StaysOpen(events, s))
  }

  lemma StartHoldsTold(dialect: Dialect, events: seq<Upstream>)
    requires events != [] && Begins(events[|events| - 1])
    ensures HoldsTold(dialect, events, |events| - 1)
  {
    var last := |events| - 1;
    MeaningSound(dialect, events[..last]);
    OneItemPerBlock(dialect, events[..last]);
    StartHolds(dialect, Meaning(dialect, events[..last]), events[last]);
    BeginIsMade(dialect, events[last].start);
  }

  lemma HoldsNext(dialect: Dialect, events: seq<Upstream>, k: nat, i: int, was: Entry, open: bool, now: Entry)
    requires events != [] && Holds(Meaning(dialect, events[..|events| - 1]), k, i, was, open)
    requires now == After(dialect, was, open, events[|events| - 1], i)
    ensures Holds(Meaning(dialect, events), k, i, now, open && !Ends(events[|events| - 1], i))
  {
    StepHolds(dialect, Meaning(dialect, events[..|events| - 1]), events[|events| - 1], k, i, was, open);
  }

  lemma NextHoldsTold(dialect: Dialect, events: seq<Upstream>, s: nat)
    requires s < |events| - 1 && Begins(events[s]) && HoldsTold(dialect, events[..|events| - 1], s)
    ensures HoldsTold(dialect, events, s)
  {
    var before, start := events[..|events| - 1], events[s].start;
    TakeTake(events, s, |events| - 1);
    MadeNext(dialect, events, s);
    HoldsNext(dialect, events, Begun(events[..s]), events[s].index,
              Made(dialect, start, Told(before, s), Stopped(before, s)), StaysOpen(before, s),
              Made(dialect, start, Told(events, s), Stopped(events, s)));
  }

  /** On every run, for every block. */
  lemma {:induction false} EntryHoldsWhatWasTold(dialect: Dialect, events: seq<Upstream>, s: nat)
    requires s < |events| && Begins(events[s])
    ensures HoldsTold(dialect, events, s)
  {
    if s == |events| - 1 {
      StartHoldsTold(dialect, events);
    } else {
      EntryHoldsWhatWasTold(dialect, events[..|events| - 1], s);
      NextHoldsTold(dialect, events, s);
    }
  }

  lemma {:induction false} OpenIsNotStopped(events: seq<Upstream>, s: nat)
    requires s < |events| && Begins(events[s]) && StaysOpen(events, s)
    ensures !Stopped(events, s)
  {
    if s < |events| - 1 {
      OpenIsNotStopped(events[..|events| - 1], s);
    }
  }

  lemma StartIsCounted(dialect: Dialect, events: seq<Upstream>, s: nat)
    requires s < |events| && Begins(events[s])
    ensures Begun(events[..s]) < Begun(events) == |Meaning(dialect, events).items|
    ensures Meaning(dialect, events).items[Begun(events[..s])]
         == Made(dialect, events[s].start, Told(events, s), Stopped(events, s))
  {
    EntryHoldsWhatWasTold(dialect, events, s);
    OneItemPerBlock(dialect, events);
  }

  // ---- what blocks end up as -------------------------------------------------------------------

  /** A call's arguments are the fragments sent, unless those are blank; then what the call began with, unless
      that is blank; then an empty object. */
  function Given(json: string, input: string): string {
    if Text.TrimSpace(json) != "" then json else if Text.TrimSpace(input) != "" then input else "{}"
  }

  /** A finished item says what was sent: of a text its start and its pieces, of a call its arguments, handed
      over to a custom tool as its input, and of thinking also the signature last given. */
  predicate Says(dialect: Dialect, item: Item, start: Start, pieces: seq<Piece>) {
    match start
    case TextStart(text) => item.opening.Message? && item.content == text + Texts(pieces) && item.sealed == ""
    case ToolStart(id, name, input) =>
      && CalledAs(dialect.tools, item.opening, dialect.tools.callId(id), name) && item.sealed == ""
      && var arguments := Given(Texts(pieces), input);
         item.content == if dialect.tools.shape(name).CustomShape? then dialect.tools.unwrap(arguments) else arguments
    case ThoughtStart(visible, text, source, signature) =>
      && item.opening.Reasoning? && item.content == text + Texts(pieces)
      && item.sealed == dialect.seal(visible, source, text + Texts(pieces), Signed(signature, pieces))
    case UnknownStart => false
  }

  lemma MadeSays(dialect: Dialect, k: nat, start: Start, pieces: seq<Piece>, closed: bool)
    requires !start.UnknownStart?
    ensures Says(dialect, ItemOf(dialect, k, Made(dialect, start, pieces, closed)), start, pieces)
  {
    Neutral(Texts(pieces));
  }

  lemma GivenIsNotBlank(json: string, input: string)
    ensures Text.TrimSpace(Given(json, input)) != ""
  {
    EmptyObjectIsNotBlank();
  }

  /** A call, held back or not, ends with the fragments sent for it, or its start input, or an empty object, in
      that order and never with blank arguments; a custom tool is handed what is in them. */
  lemma FinalArguments(dialect: Dialect, events: seq<Upstream>, s: nat, k: nat) returns (f: string)
    requires s < |events| && Begins(events[s]) && events[s].start.ToolStart? && k == Begun(events[..s])
    ensures k < |Meaning(dialect, events).items|
    ensures var json, start, item := Texts(Told(events, s)), events[s].start,
                                     ItemOf(dialect, k, Meaning(dialect, events).items[k]);
            && item.content == (if dialect.tools.shape(start.name).CustomShape? then dialect.tools.unwrap(f) else f)
            && Text.TrimSpace(f) != ""
            && (Text.TrimSpace(json) != "" ==> f == json)
            && (Text.TrimSpace(json) == "" && Text.TrimSpace(start.input) != "" ==> f == start.input)
            && (Text.TrimSpace(json) == "" && Text.TrimSpace(start.input) == "" ==> f == "{}")
  {
    f := Given(Texts(Told(events, s)), events[s].start.input);
    StartIsCounted(dialect, events, s);
    MadeSays(dialect, k, events[s].start, Told(events, s), Stopped(events, s));
    GivenIsNotBlank(Texts(Told(events, s)), events[s].start.input);
  }

  // ---- what was streamed -----------------------------------------------------------------------

  predicate AllOfKind(start: Start, pieces: seq<Piece>) {
    pieces == [] || (AllOfKind(start, pieces[..|pieces| - 1]) && OfKind(start, pieces[|pieces| - 1]))
  }

  /** Blocks of which nothing is shown before they are done. */
  predicate Hidden(dialect: Dialect, start: Start) {
    (start.ToolStart? && !dialect.tools.shape(start.name).FunctionShape?) || (start.ThoughtStart? && !start.visible)
  }

  lemma {:induction false} PassedIsAll(dialect: Dialect, start: Start, pieces: seq<Piece>)
    requires AllOfKind(start, pieces)
    ensures Passed(dialect, start, pieces) == if Hidden(dialect, start) then "" else Texts(pieces)
  {
    if pieces != [] {
      PassedIsAll(dialect, start, pieces[..|pieces| - 1]);
    }
  }

  /** Where a block is sent only pieces of its kind, a client is passed all of them as they come, or nothing of
      a hidden block; and a text or visible thinking is done with what it began with and what was passed. */
  lemma MatchedIsStreamed(dialect: Dialect, events: seq<Upstream>, s: nat, k: nat)
    requires s < |events| && Begins(events[s]) && k == Begun(events[..s])
    requires AllOfKind(events[s].start, Told(events, s))
    ensures k < |Meaning(dialect, events).items|
    ensures var entry, start, pieces := Meaning(dialect, events).items[k], events[s].start, Told(events, s);
            && entry.streamed == (if Hidden(dialect, start) then "" else Texts(pieces))
            && (start.TextStart? || (start.ThoughtStart? && start.visible)
                ==> ItemOf(dialect, k, entry).content == start.text + entry.streamed)
  {
    EntryHoldsWhatWasTold(dialect, events, s);
    PassedIsAll(dialect, events[s].start, Told(events, s));
    MadeSays(dialect, k, events[s].start, Told(events, s), Stopped(events, s));
  }

  /** The text of a block's own kind of pieces. */
  function OwnTexts(start: Start, pieces: seq<Piece>): string {
    if pieces == [] then ""
    else
      var last := pieces[|pieces| - 1];
      OwnTexts(start, pieces[..|pieces| - 1]) + (if OfKind(start, last) then TextOf(last) else "")
  }

  predicate SaysForeign(start: Start, pieces: seq<Piece>) {
    pieces != []
    && (SaysForeign(start, pieces[..|pieces| - 1])
        || (!OfKind(start, pieces[|pieces| - 1]) && TextOf(pieces[|pieces| - 1]) != ""))
  }

  lemma {:induction false} OwnTextsNotLonger(start: Start, pieces: seq<Piece>)
    ensures |OwnTexts(start, pieces)| <= |Texts(pieces)|
    ensures SaysForeign(start, pieces) ==> |OwnTexts(start, pieces)| < |Texts(pieces)|
  {
    if pieces != [] {
      OwnTextsNotLonger(start, pieces[..|pieces| - 1]);
    }
  }

  /** Pieces of other kinds are put into a block too: it holds just the text of its own kind if and only if no
      piece of another kind said anything. */
  lemma {:induction false} OwnTextsIff(start: Start, pieces: seq<Piece>)
    ensures Texts(pieces) == OwnTexts(start, pieces) <==> !SaysForeign(start, pieces)
  {
    OwnTextsNotLonger(start, pieces);
    if !SaysForeign(start, pieces) && pieces != [] {
      OwnTextsIff(start, pieces[..|pieces| - 1]);
    }
  }

  // ---- open blocks, misfits and blocks begun over ----------------------------------------------

  lemma LiveBefore(dialect: Dialect, doc: Document, e: Upstream, i: int)
    requires Sound(doc) && Live(Step(doc, dialect, e), i)
    ensures !Ends(e, i) ==> Live(doc, i)
    ensures Ends(e, i) ==> Begins(e)
  {
  }

  /** The start of the block an index stands for. */
  lemma {:induction false} LiveHasStart(dialect: Dialect, events: seq<Upstream>, i: int) returns (s: nat)
    requires Live(Meaning(dialect, events), i)
    ensures s < |events| && Begins(events[s]) && events[s].index == i && StaysOpen(events, s)
    ensures Meaning(dialect, events).latest[i] == Begun(events[..s])
  {
    var last := |events| - 1;
    if Begins(events[last]) && events[last].index == i {
      s := last;
    } else {
      MeaningSound(dialect, events[..last]);
      LiveBefore(dialect, Meaning(dialect, events[..last]), events[last], i);
      s := LiveHasStart(dialect, events[..last], i);
      TakeTake(events, s, last);
    }
    EntryHoldsWhatWasTold(dialect, events, s);
  }

  /** A piece that is passed on to a block of another kind. */
  predicate Stray(dialect: Dialect, start: Start, piece: Piece) {
    PassedOn(dialect, start, piece) && TextOf(piece) != "" && !OfKind(start, piece)
  }

  predicate AnyStray(dialect: Dialect, start: Start, pieces: seq<Piece>) {
    pieces != []
    && (AnyStray(dialect, start, pieces[..|pieces| - 1]) || Stray(dialect, start, pieces[|pieces| - 1]))
  }

  predicate StraysTo(dialect: Dialect, events: seq<Upstream>, s: nat) {
    s < |events| && Begins(events[s]) && AnyStray(dialect, events[s].start, Told(events, s))
  }

  /** Some block is passed a piece of another kind. */
  ghost predicate Misaddressed(dialect: Dialect, events: seq<Upstream>) {
    exists s: nat :: StraysTo(dialect, events, s)
  }

  lemma StrayIsMisfit(dialect: Dialect, start: Start, piece: Piece)
    requires !start.UnknownStart?
    ensures Stray(dialect, start, piece) <==> Streams(dialect, start, piece) && !Belongs(start, piece)
  {
  }

  /** The last event adds a stray piece to the block begun at `s`. */
  predicate StrayNow(dialect: Dialect, events: seq<Upstream>, s: nat)
    requires s < |events| - 1 && Begins(events[s])
  {
    var last := |events| - 1;
    StaysOpen(events[..last], s) && events[last].BlockDelta? && events[last].index == events[s].index
    && Stray(dialect, events[s].start, events[last].piece)
  }

  lemma StraysNext(dialect: Dialect, events: seq<Upstream>, s: nat)
    requires s < |events| - 1 && Begins(events[s])
    ensures StraysTo(dialect, events, s)
            <==> StraysTo(dialect, events[..|events| - 1], s) || StrayNow(dialect, events, s)
  {
    var last := |events| - 1;
    Neutral(Told(events[..last], s));
    if events[last].BlockDelta? {
      Front(Told(events[..last], s), events[last].piece);
    }
  }

  predicate MisfitNow(dialect: Dialect, doc: Document, e: Upstream) {
    e.BlockDelta? && Live(doc, e.index)
    && Streams(dialect, doc.items[doc.latest[e.index]].start, e.piece)
    && !Belongs(doc.items[doc.latest[e.index]].start, e.piece)
  }

  lemma StrayNowIsMisfit(dialect: Dialect, events: seq<Upstream>, s: nat)
    requires s < |events| - 1 && Begins(events[s]) && StrayNow(dialect, events, s)
    ensures MisfitNow(dialect, Meaning(dialect, events[..|events| - 1]), events[|events| - 1])
  {
    EntryHoldsWhatWasTold(dialect, events[..|events| - 1], s);
    StrayIsMisfit(dialect, events[s].start, events[|events| - 1].piece);
  }

  lemma MisfitNowStrays(dialect: Dialect, events: seq<Upstream>) returns (s: nat)
    requires events != [] && MisfitNow(dialect, Meaning(dialect, events[..|events| - 1]), events[|events| - 1])
    ensures s < |events| - 1 && Begins(events[s]) && StrayNow(dialect, events, s)
  {
    var last := |events| - 1;
    s := LiveHasStart(dialect, events[..last], events[last].index);
    EntryHoldsWhatWasTold(dialect, events[..last], s);
    StrayIsMisfit(dialect, events[s].start, events[last].piece);
  }

  /** A client loses the thread if and only if a piece was passed on to a block of another kind. */
  lemma {:induction false} MisfitIff(dialect: Dialect, events: seq<Upstream>)
    ensures Misfit(dialect, events) <==> Misaddressed(dialect, events)
  {
    if events != [] {
      var last := |events| - 1;
      MisfitIff(dialect, events[..last]);
      if Misaddressed(dialect, events) {
        var s: nat :| StraysTo(dialect, events, s);
        StraysNext(dialect, events, s);
        if StrayNow(dialect, events, s) {
          StrayNowIsMisfit(dialect, events, s);
        }
      }
      if Misaddressed(dialect, events[..last]) {
        var s: nat :| StraysTo(dialect, events[..last], s);
        StraysNext(dialect, events, s);
      } else if MisfitNow(dialect, Meaning(dialect, events[..last]), events[last]) {
        var s := MisfitNowStrays(dialect, events);
        StraysNext(dialect, events, s);
      }
    }
  }

  lemma {:induction false} KindNeverStrays(dialect: Dialect, start: Start, pieces: seq<Piece>)
    requires AllOfKind(start, pieces)
    ensures !AnyStray(dialect, start, pieces)
  {
    if pieces != [] {
      KindNeverStrays(dialect, start, pieces[..|pieces| - 1]);
    }
  }

  /** A client can follow a stream that sends every block only pieces of its kind. */
  lemma MatchedFits(dialect: Dialect, events: seq<Upstream>)
    requires forall s: nat :: s < |events| && Begins(events[s]) ==> AllOfKind(events[s].start, Told(events, s))
    ensures Meaning(dialect, events).fits
  {
    FitsIff(dialect, events);
    MisfitIff(dialect, events);
    forall s: nat ensures !StraysTo(dialect, events, s) {
      if s < |events| && Begins(events[s]) {
        KindNeverStrays(dialect, events[s].start, Told(events, s));
      }
    }
  }

  predicate IsOpen(events: seq<Upstream>, s: nat, i: int) {
    s < |events| && Begins(events[s]) && events[s].index == i && StaysOpen(events, s)
  }

  /** Some block is begun at an index whose block is still open. */
  ghost predicate BegunOver(events: seq<Upstream>) {
    events != []
    && var last := |events| - 1;
       BegunOver(events[..last])
       || (Begins(events[last]) && exists s: nat :: IsOpen(events[..last], s, events[last].index))
  }

  lemma LiveIff(dialect: Dialect, events: seq<Upstream>, i: int)
    ensures Live(Meaning(dialect, events), i) <==> exists s: nat :: IsOpen(events, s, i)
  {
    if Live(Meaning(dialect, events), i) {
      var s := LiveHasStart(dialect, events, i);
      assert IsOpen(events, s, i);
    }
    if s: nat :| IsOpen(events, s, i) {
      EntryHoldsWhatWasTold(dialect, events, s);
    }
  }

  lemma {:induction false} AbandonsIff(dialect: Dialect, events: seq<Upstream>)
    ensures Abandons(dialect, events) <==> BegunOver(events)
  {
    if events != [] {
      var last := |events| - 1;
      AbandonsIff(dialect, events[..last]);
      if Begins(events[last]) {
        LiveIff(dialect, events[..last], events[last].index);
      }
    }
  }

  // ---- what a client holds at the end ----------------------------------------------------------

  /** An item is done, was streamed just the pieces that are passed on, and says what was sent. */
  predicate Arrived(dialect: Dialect, p: Progress, k: nat, start: Start, pieces: seq<Piece>) {
    && p.Progress? && p.streamed == Passed(dialect, start, pieces)
    && p.stage.Finished? && p.stage.item.id == k && Says(dialect, p.stage.item, start, pieces)
  }

  lemma ClosedArrives(dialect: Dialect, k: nat, start: Start, pieces: seq<Piece>, closed: bool)
    requires !start.UnknownStart?
    ensures var entry := Made(dialect, start, pieces, closed);
            && Arrived(dialect, Image(dialect, k, entry.(closed := true)), k, start, pieces)
            && Image(dialect, k, entry.(closed := true)).stage.item == ItemOf(dialect, k, entry)
  {
    MadeSays(dialect, k, start, pieces, true);
  }

  /** A turn that showed something, finished or cut, passed no piece to a block of another kind and began no
      block over an open one: each block the upstream began is an item of the client, was streamed just the
      pieces that are passed on, is done, says what was sent, and is listed once by the terminal event. */
  lemma EveryBlockArrivesWhole(dialect: Dialect, events: seq<Upstream>, order: seq<int>, n: nat, s: nat)
    requires Faultless(events) && Showed(events)
    requires Lists(order, LiveBlocks(Meaning(dialect, events)))
    requires !Misaddressed(dialect, events) && !BegunOver(events) && s < |events| && Begins(events[s])
    ensures var r, k := Delivered(dialect, events, order, n), Begun(events[..s]);
            && r.Reader? && r.phase.Over? && |r.items| == Begun(events) && k < |r.items|
            && Arrived(dialect, r.items[k], k, events[s].start, Told(events, s))
            && r.items[k].stage.item in r.phase.output
            && (forall i, j :: 0 <= i < j < |r.phase.output| ==> r.phase.output[i].id != r.phase.output[j].id)
  {
    var k := Begun(events[..s]);
    MisfitIff(dialect, events);
    AbandonsIff(dialect, events);
    StartIsCounted(dialect, events, s);
    EveryBlockDoneOnce(dialect, events, order, n, k);
    ClosedArrives(dialect, k, events[s].start, Told(events, s), Stopped(events, s));
  }

  /** An item while its turn goes on: it was streamed just the pieces that are passed on, and is done, saying
      what was sent, once its block was stopped. */
  predicate SoFar(dialect: Dialect, p: Progress, k: nat, start: Start, pieces: seq<Piece>, stopped: bool) {
    && p.Progress? && p.streamed == Passed(dialect, start, pieces)
    && (p.stage.Finished? <==> stopped) && (stopped ==> Arrived(dialect, p, k, start, pieces))
  }

  /** When the upstream reports an error, a client that was passed no piece to a block of another kind is left
      with an item for each block begun, as far as it had come; no block is closed for it. */
  lemma HeldAtFault(dialect: Dialect, events: seq<Upstream>, order: seq<int>, n: nat, k: nat, s: nat)
    requires k < |events| && events[k].Fault? && Faultless(events[..k]) && !Misaddressed(dialect, events[..k])
    requires s < k && Begins(events[s])
    ensures var r, i := Delivered(dialect, events, order, n), Begun(events[..s]);
            && r.Reader? && r.phase == Broken(events[k].message) && |r.items| == Begun(events[..k]) && i < |r.items|
            && SoFar(dialect, r.items[i], i, events[s].start, Told(events[..k], s), Stopped(events[..k], s))
  {
    var front := events[..k];
    MisfitIff(dialect, front);
    FirstFaultEnds(dialect, events, order, n, k);
    FaultImages(dialect, events, order, n, k);
    TakeTake(events, s, k);
    StartIsCounted(dialect, front, s);
    MadeSoFar(dialect, Begun(events[..s]), events[s].start, Told(front, s), Stopped(front, s));
  }

  lemma FaultImages(dialect: Dialect, events: seq<Upstream>, order: seq<int>, n: nat, k: nat)
    requires k < |events| && events[k].Fault? && Faultless(events[..k])
    ensures var r := Delivered(dialect, events, order, n);
            r.Reader? ==> r.items == Images(dialect, Meaning(dialect, events[..k]).items)
  {
    assert forall j :: 0 <= j < k ==> events[j] == events[..k][j];
    assert FirstFault(events) == k;
  }

  lemma MadeSoFar(dialect: Dialect, k: nat, start: Start, pieces: seq<Piece>, stopped: bool)
    requires !start.UnknownStart?
    ensures SoFar(dialect, Image(dialect, k, Made(dialect, start, pieces, stopped)), k, start, pieces, stopped)
  {
    MadeSays(dialect, k, start, pieces, true);
  }
}
