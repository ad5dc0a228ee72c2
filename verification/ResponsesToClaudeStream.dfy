/** The Responses -> Claude stream converter.

    The Go function keeps its state in local variables that a dozen closures update; here those
    variables are the record `Turn`, each closure is a function on it, and `Stream` is the scanner
    loop.  Every closure comes with the lemma that says what its writes mean to the client. */
module ResponsesToClaudeStream {
  import opened ClaudeClient
  import opened ClaudePage
  import opened ClaudeWire
  import opened ResponsesToClaudeDocument

  datatype Turn = Turn(wire: Wire, calls: Calls, ending: Closing)

  const Start := Turn(NotStarted, NoCalls, StillOpen)

  function StartThinkingBlock(w: Wire): Wire {
    if w.thinkingBlockOpen then w
    else
      var w1 := CloseTextBlock(w);
      Emit(w1, BlockStart(w1.blockIndex, ThinkingBlock)).(thinkingBlockOpen := true)
  }

  function EmitThinkingDelta(w: Wire, text: string): Wire {
    if text == "" then w
    else
      var w1 := StartThinkingBlock(EnsureMessageStart(w));
      Emit(w1, Delta(w1.blockIndex, ThinkingLane, text))
  }

  /** A signed thinking block is announced whole, in a block of its own. */
  function RestoreThinkingBlock(w: Wire, payload: string): Wire {
    var w1 := Hush(w);
    Emit(w1, BlockStart(w1.blockIndex, SignedBlock(payload))).(thinkingBlockOpen := true)
  }

  function StartToolBlock(w: Wire, opening: Opening): Wire {
    var w1 := Hush(w);
    Emit(w1, BlockStart(w1.blockIndex, opening)).(blockIndex := w1.blockIndex + 1)
  }

  function OpenToolBlock(t: Turn, callId: string, opening: Opening): Turn {
    if callId in t.calls.open then t
    else
      var w := StartToolBlock(t.wire, opening);
      Turn(w, t.calls.(open := t.calls.open[callId := w.blockIndex - 1]), t.ending.(hasToolUse := true))
  }

  function EmitToolArgsDelta(t: Turn, callId: string, partial: string): Wire {
    if partial == "" || callId !in t.calls.open then t.wire
    else Emit(t.wire, Delta(t.calls.open[callId], ArgumentLane, partial))
  }

  /** A fragment goes out, and is remembered as sent. */
  function SendArguments(t: Turn, callId: string, partial: string): Turn {
    t.(wire := EmitToolArgsDelta(t, callId, partial), calls := Send(t.calls, callId, partial))
  }

  /** The final arguments: only what has not been sent yet goes out. */
  function SendRest(t: Turn, callId: string, arguments: string): Turn {
    if callId == "" || arguments == "" || arguments == "{}" then t
    else
      var tail := Unsent(arguments, Sent(t.calls, callId));
      if tail == "" then t else SendArguments(t, callId, tail)
  }

  function CloseToolBlock(t: Turn, callId: string): Turn {
    if callId !in t.calls.open then t
    else t.(wire := Emit(t.wire, BlockStop(t.calls.open[callId])),
            calls := t.calls.(open := t.calls.open - {callId}))
  }

  function Handle(t: Turn, toolId: string -> string, e: Upstream): Turn {
    match e
    case Fault(_) => t
    case TextDelta(delta) => t.(wire := EmitTextDelta(t.wire, delta))
    case ReasoningDelta(delta) => t.(wire := EmitThinkingDelta(t.wire, delta))
    case CallAdded(callId, name, itemId, outputIndex) =>
      if callId == "" || name == "" then t
      else OpenToolBlock(t.(calls := Identify(t.calls, callId, itemId, outputIndex)),
                         callId, ToolBlock(toolId(callId), name))
    case ReasoningAdded(Foreign) => t
    case ReasoningAdded(Ours(payload)) => t.(wire := RestoreThinkingBlock(t.wire, payload))
    case ArgumentsDelta(itemId, outputIndex, delta) =>
      var callId := Resolve(t.calls, "", itemId, outputIndex);
      if callId == "" then t else SendArguments(t, callId, delta)
    case ArgumentsDone(itemId, outputIndex, arguments) =>
      SendRest(t, Resolve(t.calls, "", itemId, outputIndex), arguments)
    case CallDone(callId, itemId, outputIndex, arguments) =>
      var owner := Resolve(t.calls, callId, itemId, outputIndex);
      CloseToolBlock(SendRest(t, owner, arguments), owner)
    case Terminal(response) => t.(ending := Finish(t.ending, response))
    case Other => t
  }

  // ---- what each closure means to the client ---------------------------------------------------

  lemma StartThinkingBlockFollows(w: Wire, page: Page, tools: set<nat>)
    requires Follows(w, page, tools) && w.messageStarted && !w.thinkingBlockOpen
    ensures Follows(StartThinkingBlock(w), Begin(page, ThinkingBlock, ""), tools)
  {
    OpenBlocksExist(w.emitted);
    CloseTextBlockFollows(w, page, tools);
    var w1 := CloseTextBlock(w);
    ReadAppend(w1.emitted, BlockStart(w1.blockIndex, ThinkingBlock));
  }

  lemma EmitThinkingDeltaFollows(w: Wire, page: Page, tools: set<nat>, text: string)
    requires Follows(w, page, tools)
    ensures Follows(EmitThinkingDelta(w, text), Say(page, ThinkingBlock, text), tools)
  {
    if text != "" {
      EnsureMessageStartFollows(w, page, tools);
      var w1 := EnsureMessageStart(w);
      var open := if w1.thinkingBlockOpen then page else Begin(page, ThinkingBlock, "");
      if !w1.thinkingBlockOpen {
        StartThinkingBlockFollows(w1, page, tools);
      }
      SayOnFresh(page, ThinkingBlock, text);
      SpeakFollows(StartThinkingBlock(w1), open, tools, ThinkingLane, text);
    }
  }

  lemma HushedAnnounces(w: Wire, page: Page, tools: set<nat>, opening: Opening)
    requires Follows(w, page, tools) && w.messageStarted && !page.speaking && opening.SignedBlock?
    ensures Follows(Emit(w, BlockStart(w.blockIndex, opening)).(thinkingBlockOpen := true),
                    Begin(page, opening, ""), tools)
  {
    ReadAppend(w.emitted, BlockStart(w.blockIndex, opening));
  }

  lemma RestoreThinkingBlockFollows(w: Wire, page: Page, tools: set<nat>, payload: string)
    requires Follows(w, page, tools)
    ensures Follows(RestoreThinkingBlock(w, payload), Begin(page, SignedBlock(payload), ""), tools)
  {
    HushFollows(w, page, tools);
    HushedAnnounces(Hush(w), page.(speaking := false), tools, SignedBlock(payload));
  }

  lemma StartToolBlockFollows(w: Wire, page: Page, tools: set<nat>, opening: Opening)
    requires Follows(w, page, tools) && opening.ToolBlock?
    ensures Follows(StartToolBlock(w, opening), Begin(page, opening, ""), tools + {|page.blocks|})
    ensures StartToolBlock(w, opening).blockIndex == |page.blocks| + 1
  {
    HushFollows(w, page, tools);
    var w1 := Hush(w);
    ReadAppend(w1.emitted, BlockStart(w1.blockIndex, opening));
  }

  lemma OneMoreOpen(open: map<string, nat>, callId: string, n: nat)
    requires callId !in open
    ensures open[callId := n].Values == open.Values + {n}
  {
    assert forall c :: c in open ==> open[callId := n][c] == open[c];
    assert open[callId := n][callId] == n;
  }

  lemma OneLessOpen(open: map<string, nat>, callId: string, n: nat)
    requires callId in open && Separate(open, n)
    ensures (open - {callId}).Values == open.Values - {open[callId]}
  {
    forall i | i in open.Values - {open[callId]} ensures i in (open - {callId}).Values {
      var c :| c in open && open[c] == i;
      assert (open - {callId})[c] == i;
    }
  }

  /** Converter and document in step: the client holds the document, and both know the same calls. */
  ghost predicate InStep(t: Turn, doc: Document) {
    match t
    case Turn(wire, calls, ending) =>
      && Follows(wire, doc.page, calls.open.Values)
      && (wire.messageStarted ==> doc.page.blocks != [])
      && calls == doc.calls
      && ending == doc.ending
  }

  lemma OpenToolBlockInStep(t: Turn, doc: Document, callId: string, opening: Opening)
    requires InStep(t, doc) && opening.ToolBlock?
    ensures InStep(OpenToolBlock(t, callId, opening), OpenCall(doc, callId, opening))
  {
    if callId !in t.calls.open {
      StartToolBlockFollows(t.wire, doc.page, doc.calls.open.Values, opening);
      OneMoreOpen(doc.calls.open, callId, |doc.page.blocks|);
    }
  }

  lemma SendArgumentsInStep(t: Turn, doc: Document, callId: string, partial: string)
    requires InStep(t, doc)
    ensures InStep(SendArguments(t, callId, partial), AddArguments(doc, callId, partial))
  {
    if callId in t.calls.open && partial != "" {
      ArgumentsFollow(t.wire, doc.page, doc.calls.open.Values, t.calls.open[callId], partial);
    }
  }

  lemma SendRestInStep(t: Turn, doc: Document, callId: string, arguments: string)
    requires InStep(t, doc)
    ensures InStep(SendRest(t, callId, arguments), Complete(doc, callId, arguments))
  {
    SendArgumentsInStep(t, doc, callId, Unsent(arguments, Sent(doc.calls, callId)));
  }

  lemma CloseToolBlockInStep(t: Turn, doc: Document, callId: string)
    requires InStep(t, doc) && Separate(doc.calls.open, |doc.page.blocks|)
    ensures InStep(CloseToolBlock(t, callId), CloseCall(doc, callId))
  {
    if callId in t.calls.open {
      OpenBlocksExist(t.wire.emitted);
      ReadAppend(t.wire.emitted, BlockStop(t.calls.open[callId]));
      OneLessOpen(doc.calls.open, callId, |doc.page.blocks|);
    } else {
      assert doc.calls.open - {callId} == doc.calls.open;
    }
  }

  lemma SpeechInStep(t: Turn, doc: Document, toolId: string -> string, e: Upstream)
    requires InStep(t, doc) && (e.TextDelta? || e.ReasoningDelta? || e.ReasoningAdded?)
    ensures InStep(Handle(t, toolId, e), Step(doc, toolId, e))
  {
    match e
    case TextDelta(delta) => EmitTextDeltaFollows(t.wire, doc.page, doc.calls.open.Values, delta);
    case ReasoningDelta(delta) => EmitThinkingDeltaFollows(t.wire, doc.page, doc.calls.open.Values, delta);
    case ReasoningAdded(Ours(payload)) =>
      RestoreThinkingBlockFollows(t.wire, doc.page, doc.calls.open.Values, payload);
    case ReasoningAdded(Foreign) =>
  }

  lemma CallDoneInStep(t: Turn, doc: Document, owner: string, arguments: string)
    requires InStep(t, doc) && Separate(doc.calls.open, |doc.page.blocks|)
    ensures InStep(CloseToolBlock(SendRest(t, owner, arguments), owner),
                   CloseCall(Complete(doc, owner, arguments), owner))
  {
    SendRestInStep(t, doc, owner, arguments);
    CloseToolBlockInStep(SendRest(t, owner, arguments), Complete(doc, owner, arguments), owner);
  }

  /** One event keeps the converter in step. */
  lemma HandleInStep(t: Turn, doc: Document, toolId: string -> string, e: Upstream)
    requires InStep(t, doc) && Separate(doc.calls.open, |doc.page.blocks|)
    ensures InStep(Handle(t, toolId, e), Step(doc, toolId, e))
  {
    match e
    case CallAdded(callId, name, itemId, outputIndex) =>
      var known := Identify(doc.calls, callId, itemId, outputIndex);
      OpenToolBlockInStep(t.(calls := known), doc.(calls := known), callId, ToolBlock(toolId(callId), name));
    case ArgumentsDelta(itemId, outputIndex, delta) =>
      SendArgumentsInStep(t, doc, Resolve(doc.calls, "", itemId, outputIndex), delta);
    case ArgumentsDone(itemId, outputIndex, arguments) =>
      SendRestInStep(t, doc, Resolve(doc.calls, "", itemId, outputIndex), arguments);
    case CallDone(callId, itemId, outputIndex, arguments) =>
      CallDoneInStep(t, doc, Resolve(doc.calls, callId, itemId, outputIndex), arguments);
    case Fault(_) =>
    case Terminal(_) =>
    case Other =>
    case _ => SpeechInStep(t, doc, toolId, e);
  }

  // ---- the scanner loop ------------------------------------------------------------------------

  /** A turn that ran to its end: everything is closed, and the stop reason and the stop follow. */
  method CloseCompleted(t: Turn, ghost page: Page) returns (out: seq<Event>)
    requires Follows(t.wire, page, t.calls.open.Values) && t.wire.messageStarted
    ensures Read(out) == Reader(Finished(FinalReason(t.ending)), page.blocks, false, {})
  {
    HushFollows(t.wire, page, t.calls.open.Values);
    var w := CloseTools(CloseThinkingBlock(CloseTextBlock(t.wire)), t.calls.open.Values, page.(speaking := false));
    var reason := t.ending.stopReason;
    if t.ending.hasToolUse && reason == "end_turn" {
      reason := "tool_use";
    }
    FinishFollows(w, page.(speaking := false), reason);
    out := w.emitted + [MessageDelta(reason)] + [MessageStop];
  }

  /** A fault the upstream reports is passed on, on a started message. */
  method ReportFault(w: Wire, ghost page: Page, ghost tools: set<nat>, message: string) returns (out: seq<Event>)
    requires Follows(w, page, tools)
    ensures Read(out) == Reader(Broken, page.blocks, page.speaking, tools)
  {
    EnsureMessageStartFollows(w, page, tools);
    ReadAppend(EnsureMessageStart(w).emitted, Error(message));
    out := EnsureMessageStart(w).emitted + [Error(message)];
  }

  /** The scanner loop: it stops at the first fault the upstream reports, or when the body ends. */
  method Scan(toolId: string -> string, events: seq<Upstream>) returns (t: Turn, n: nat)
    ensures n == FirstFault(events)
    ensures InStep(t, Meaning(toolId, events[..n]))
  {
    t, n := Start, 0;
    while n < |events| && !events[n].Fault?
      invariant n <= |events|
      invariant forall i :: 0 <= i < n ==> !events[i].Fault?
      invariant InStep(t, Meaning(toolId, events[..n]))
    {
      MeaningSeparate(toolId, events[..n]);
      HandleInStep(t, Meaning(toolId, events[..n]), toolId, events[n]);
      assert events[..n + 1][..n] == events[..n];
      t := Handle(t, toolId, events[n]);
      n := n + 1;
    }
  }

  /** The whole conversion: whatever the upstream sends, the client can follow what it is sent, and
      ends up with exactly what the upstream said. */
  method Stream(toolId: string -> string, events: seq<Upstream>) returns (out: seq<Event>, outcome: Outcome)
    ensures outcome == Verdict(toolId, events)
    ensures Read(out) == Delivered(toolId, events)
  {
    var t, n := Scan(toolId, events);
    ghost var doc := Meaning(toolId, events[..n]);
    MeaningSeparate(toolId, events[..n]);
    assert n == |events| ==> events[..n] == events;
    if n < |events| {
      outcome := UpstreamError(events[n].message);
      out := ReportFault(t.wire, doc.page, doc.calls.open.Values, events[n].message);
    } else if events != [] && !t.ending.closed {
      outcome := Interrupted;
      out := CloseInterrupted(t.wire, t.calls.open.Values, doc.page);
    } else if !t.wire.messageStarted {
      out, outcome := t.wire.emitted, NothingSent;
    } else {
      outcome := Completed;
      out := CloseCompleted(t, doc.page);
    }
  }
}
