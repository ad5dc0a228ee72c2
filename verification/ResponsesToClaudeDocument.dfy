/** What a Responses stream says, event by event, about the Claude message it stands for.

    This is the meaning the converter in `ResponsesToClaudeStream` is held to: a page edited by
    upstream events, with no block counters, no open flags and no wire events. */
module ResponsesToClaudeDocument {
  import opened ClaudeClient
  import opened ClaudePage
  import Text

  datatype Upstream =
    | Fault(message: string)
    | TextDelta(delta: string)
    | ReasoningDelta(delta: string)
    | CallAdded(callId: string, name: string, itemId: string, outputIndex: int)
    | ReasoningAdded(signed: Restored)
    | ArgumentsDelta(itemId: string, outputIndex: int, delta: string)
    | ArgumentsDone(itemId: string, outputIndex: int, arguments: string)
    | CallDone(callId: string, itemId: string, outputIndex: int, arguments: string)
    | Terminal(response: Summary)
    | Other

  /** The result of decoding `encrypted_content`. */
  datatype Restored = Foreign | Ours(payload: string)

  datatype Summary = NoResponse | Response(status: string, incompleteReason: string)

  /** The calls known so far: which are open and where, whom item ids and output positions name, and
      the argument text already passed on. */
  datatype Calls = Calls(
    open: map<string, nat>,
    byItem: map<string, string>,
    byOutput: map<int, string>,
    sent: map<string, string>)

  datatype Closing = Closing(hasToolUse: bool, stopReason: string, closed: bool)

  datatype Document = Document(page: Page, calls: Calls, ending: Closing)

  const NoCalls := Calls(map[], map[], map[], map[])
  const StillOpen := Closing(false, "end_turn", false)
  const Blank := Document(Page([], false), NoCalls, StillOpen)

  // ---- calls -----------------------------------------------------------------------------------

  /** The call an event belongs to: by call id, then item id, then output position. */
  function Resolve(calls: Calls, callId: string, itemId: string, outputIndex: int): string {
    if callId != "" then callId
    else if itemId != "" && itemId in calls.byItem then calls.byItem[itemId]
    else if outputIndex >= 0 && outputIndex in calls.byOutput then calls.byOutput[outputIndex]
    else ""
  }

  function Identify(calls: Calls, callId: string, itemId: string, outputIndex: int): Calls {
    calls.(byItem := if itemId != "" then calls.byItem[itemId := callId] else calls.byItem,
           byOutput := if outputIndex >= 0 then calls.byOutput[outputIndex := callId] else calls.byOutput)
  }

  function Sent(calls: Calls, callId: string): string {
    if callId in calls.sent then calls.sent[callId] else ""
  }

  function Send(calls: Calls, callId: string, text: string): Calls {
    calls.(sent := calls.sent[callId := Sent(calls, callId) + text])
  }

  /** The part of the final arguments not sent yet; the whole of them when they do not extend it. */
  function Unsent(full: string, sent: string): string {
    if sent <= full then full[|sent|..] else full
  }

  // ---- the document ----------------------------------------------------------------------------

  function OpenCall(doc: Document, callId: string, opening: Opening): Document {
    if callId in doc.calls.open then doc
    else Document(Begin(doc.page, opening, ""),
                  doc.calls.(open := doc.calls.open[callId := |doc.page.blocks|]),
                  doc.ending.(hasToolUse := true))
  }

  function AddArguments(doc: Document, callId: string, text: string): Document {
    doc.(page := if callId in doc.calls.open && text != ""
                 then doc.page.(blocks := Extend(doc.page.blocks, doc.calls.open[callId], text)) else doc.page,
         calls := Send(doc.calls, callId, text))
  }

  function Complete(doc: Document, callId: string, arguments: string): Document {
    var rest := Unsent(arguments, Sent(doc.calls, callId));
    if callId == "" || arguments == "" || arguments == "{}" || rest == "" then doc
    else AddArguments(doc, callId, rest)
  }

  function CloseCall(doc: Document, callId: string): Document {
    doc.(calls := doc.calls.(open := doc.calls.open - {callId}))
  }

  function StopReasonFor(status: string, incompleteReason: string, hasToolUse: bool): string {
    if hasToolUse then "tool_use"
    else if Text.TrimSpace(status) == "incomplete" then
      if incompleteReason == "content_filter" then "refusal" else "max_tokens"
    else "end_turn"
  }

  function Finish(ending: Closing, response: Summary): Closing {
    match response
    case NoResponse => ending.(closed := true)
    case Response(status, reason) =>
      ending.(closed := true, stopReason := StopReasonFor(status, reason, ending.hasToolUse))
  }

  function Step(doc: Document, toolId: string -> string, e: Upstream): Document {
    match e
    case Fault(_) => doc
    case TextDelta(delta) => doc.(page := Say(doc.page, TextBlock, delta))
    case ReasoningDelta(delta) => doc.(page := Say(doc.page, ThinkingBlock, delta))
    case CallAdded(callId, name, itemId, outputIndex) =>
      if callId == "" || name == "" then doc
      else OpenCall(doc.(calls := Identify(doc.calls, callId, itemId, outputIndex)),
                    callId, ToolBlock(toolId(callId), name))
    case ReasoningAdded(Foreign) => doc
    case ReasoningAdded(Ours(payload)) => doc.(page := Begin(doc.page, SignedBlock(payload), ""))
    case ArgumentsDelta(itemId, outputIndex, delta) =>
      var callId := Resolve(doc.calls, "", itemId, outputIndex);
      if callId == "" then doc else AddArguments(doc, callId, delta)
    case ArgumentsDone(itemId, outputIndex, arguments) =>
      Complete(doc, Resolve(doc.calls, "", itemId, outputIndex), arguments)
    case CallDone(callId, itemId, outputIndex, arguments) =>
      var owner := Resolve(doc.calls, callId, itemId, outputIndex);
      CloseCall(Complete(doc, owner, arguments), owner)
    case Terminal(response) => doc.(ending := Finish(doc.ending, response))
    case Other => doc
  }

  /** The document after a run of events. */
  function Meaning(toolId: string -> string, events: seq<Upstream>): Document {
    if events == [] then Blank
    else Step(Meaning(toolId, events[..|events| - 1]), toolId, events[|events| - 1])
  }

  // ---- the blocks of calls ---------------------------------------------------------------------

  predicate Opens(doc: Document, e: Upstream, c: string) {
    e.CallAdded? && e.callId == c && c != "" && e.name != "" && c !in doc.calls.open
  }

  /** The block call `c` was last given, or -1. */
  function Latest(toolId: string -> string, events: seq<Upstream>, c: string): int {
    if events == [] then -1
    else
      var doc := Meaning(toolId, events[..|events| - 1]);
      if Opens(doc, events[|events| - 1], c) then |doc.page.blocks|
      else Latest(toolId, events[..|events| - 1], c)
  }

  /** Blocks are only ever added at the end, and keep what they were announced as. */
  lemma StepKeepsOpenings(doc: Document, toolId: string -> string, e: Upstream)
    ensures var blocks, next := doc.page.blocks, Step(doc, toolId, e).page.blocks;
            |blocks| <= |next| && forall n :: 0 <= n < |blocks| ==> next[n].opening == blocks[n].opening
  {
  }

  lemma {:induction false} LatestIsTool(toolId: string -> string, events: seq<Upstream>, c: string)
    ensures var blocks, n := Meaning(toolId, events).page.blocks, Latest(toolId, events, c);
            -1 <= n < |blocks| && (n >= 0 ==> blocks[n].opening.ToolBlock? && blocks[n].opening.id == toolId(c))
  {
    if events != [] {
      var before, e := events[..|events| - 1], events[|events| - 1];
      LatestIsTool(toolId, before, c);
      StepKeepsOpenings(Meaning(toolId, before), toolId, e);
      if Opens(Meaning(toolId, before), e, c) {
        assert Meaning(toolId, events).page.blocks
            == Meaning(toolId, before).page.blocks + [Block(ToolBlock(toolId(c), e.name), "")];
      }
    }
  }

  lemma {:induction false} LatestDistinct(toolId: string -> string, events: seq<Upstream>, c: string, d: string)
    requires c != d && Latest(toolId, events, c) >= 0
    ensures Latest(toolId, events, c) != Latest(toolId, events, d)
  {
    if events != [] {
      var before := events[..|events| - 1];
      LatestIsTool(toolId, before, c);
      LatestIsTool(toolId, before, d);
      if Latest(toolId, before, c) >= 0 {
        LatestDistinct(toolId, before, c, d);
      }
    }
  }

  lemma {:induction false} OpenIsLatest(toolId: string -> string, events: seq<Upstream>, c: string)
    requires c in Meaning(toolId, events).calls.open
    ensures Meaning(toolId, events).calls.open[c] == Latest(toolId, events, c)
  {
    if events != [] {
      var before := events[..|events| - 1];
      if c in Meaning(toolId, before).calls.open {
        OpenIsLatest(toolId, before, c);
      }
    }
  }

  /** Open calls have blocks of their own, blocks that exist. */
  ghost predicate Separate(open: map<string, nat>, n: nat) {
    && (forall c :: c in open ==> open[c] < n)
    && (forall c, d :: c in open && d in open && c != d ==> open[c] != open[d])
  }

  lemma MeaningSeparate(toolId: string -> string, events: seq<Upstream>)
    ensures var doc := Meaning(toolId, events); Separate(doc.calls.open, |doc.page.blocks|)
  {
    var doc := Meaning(toolId, events);
    forall c | c in doc.calls.open ensures doc.calls.open[c] == Latest(toolId, events, c) < |doc.page.blocks| {
      OpenIsLatest(toolId, events, c);
      LatestIsTool(toolId, events, c);
    }
    forall c, d | c in doc.calls.open && d in doc.calls.open && c != d
      ensures Latest(toolId, events, c) != Latest(toolId, events, d)
    {
      LatestDistinct(toolId, events, c, d);
    }
  }

  // ---- how a run ends --------------------------------------------------------------------------

  datatype Outcome = Completed | UpstreamError(message: string) | Interrupted | NothingSent

  function FirstFault(events: seq<Upstream>): (n: nat)
    ensures n <= |events|
    ensures forall i :: 0 <= i < n ==> !events[i].Fault?
    ensures n < |events| ==> events[n].Fault?
  {
    if events == [] || events[0].Fault? then 0 else 1 + FirstFault(events[1..])
  }

  /** A reported fault ends the run; a body without a terminal event was cut; a run that began no
      block has nothing to close. */
  function Verdict(toolId: string -> string, events: seq<Upstream>): Outcome {
    if FirstFault(events) < |events| then UpstreamError(events[FirstFault(events)].message)
    else
      var doc := Meaning(toolId, events);
      if events != [] && !doc.ending.closed then Interrupted
      else if doc.page.blocks == [] then NothingSent
      else Completed
  }

  function FinalReason(ending: Closing): string {
    if ending.hasToolUse && ending.stopReason == "end_turn" then "tool_use" else ending.stopReason
  }

  /** What a strict client holds when the run is over. */
  function Delivered(toolId: string -> string, events: seq<Upstream>): Reader {
    var doc := Meaning(toolId, events[..FirstFault(events)]);
    match Verdict(toolId, events)
    case Completed => Reader(Finished(FinalReason(doc.ending)), doc.page.blocks, false, {})
    case UpstreamError(_) => Reader(Broken, doc.page.blocks, doc.page.speaking, doc.calls.open.Values)
    case Interrupted =>
      if doc.page.blocks == [] then Reader(Idle, [], false, {}) else Reader(Cut, doc.page.blocks, false, {})
    case NothingSent => Reader(Idle, [], false, {})
  }
}
