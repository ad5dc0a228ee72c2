/** The Chat -> Claude stream converter: as in Go, local state updated by closures in a scanner loop. */
module ChatToClaudeStream {
  import opened ClaudeClient
  import opened ClaudePage
  import opened ClaudeWire
  import opened ChatUpstream
  import opened ChatToClaudeDocument

  datatype Turn = Turn(
    wire: Wire,
    textBlocksStarted: nat,
    toolCallsInOrder: seq<int>,
    toolBlockIndexByCall: map<int, nat>)

  const Start := Turn(NotStarted, 0, [], map[])

  /** Reasoning opens a thinking block where it finds none; it never closes anything. */
  function EmitThinking(w: Wire, text: string): Wire {
    var w1 := if w.thinkingBlockOpen then w
              else Emit(w, BlockStart(w.blockIndex, ThinkingBlock)).(thinkingBlockOpen := true);
    Emit(w1, Delta(w1.blockIndex, ThinkingLane, text))
  }

  function StartToolBlock(w: Wire, opening: Opening): Wire {
    var w1 := CloseTextBlock(CloseThinkingBlock(w));
    Emit(w1, BlockStart(w1.blockIndex, opening)).(blockIndex := w1.blockIndex + 1)
  }

  function OpenToolCall(t: Turn, call: CallDelta, opening: Opening): Turn {
    if call.index in t.toolBlockIndexByCall then t
    else
      var w := StartToolBlock(t.wire, opening);
      t.(wire := w,
         toolCallsInOrder := t.toolCallsInOrder + [call.index],
         toolBlockIndexByCall := t.toolBlockIndexByCall[call.index := w.blockIndex - 1])
  }

  function HandleToolCall(t: Turn, declared: string -> string, call: CallDelta): Turn {
    var t1 := OpenToolCall(t, call, ToolBlock(call.id, declared(call.name)));
    if call.arguments == "" then t1
    else t1.(wire := Emit(t1.wire, Delta(t1.toolBlockIndexByCall[call.index], ArgumentLane, call.arguments)))
  }

  function HandleText(t: Turn, text: string): Turn {
    var opening := if t.wire.textBlockOpen then 0 else 1;
    var w := StartTextBlock(t.wire);
    t.(wire := Emit(w, Delta(w.blockIndex, TextLane, text)), textBlocksStarted := t.textBlocksStarted + opening)
  }

  // ---- in step with the meaning ----------------------------------------------------------------

  /** Converter and page in step: the client holds the page, and each call index has its block. */
  ghost predicate InStep(t: Turn, d: Draft) {
    match t
    case Turn(wire, _, _, toolBlockIndexByCall) =>
      Follows(wire, d.page, d.blockOf.Values) && toolBlockIndexByCall == d.blockOf
  }

  lemma EmitThinkingFollows(w: Wire, page: Page, tools: set<nat>, text: string)
    requires Follows(w, page, tools) && w.messageStarted && !w.textBlockOpen && text != ""
    ensures Follows(EmitThinking(w, text), Say(page, ThinkingBlock, text), tools)
  {
    OpenBlocksExist(w.emitted);
    SayOnFresh(page, ThinkingBlock, text);
    if w.thinkingBlockOpen {
      SpeakFollows(w, page, tools, ThinkingLane, text);
    } else {
      ReadAppend(w.emitted, BlockStart(w.blockIndex, ThinkingBlock));
      var w1 := Emit(w, BlockStart(w.blockIndex, ThinkingBlock)).(thinkingBlockOpen := true);
      SpeakFollows(w1, Begin(page, ThinkingBlock, ""), tools, ThinkingLane, text);
    }
  }

  lemma EmitThinkingInStep(t: Turn, declared: string -> string, acts: seq<Act>, text: string)
    requires InStep(t, Draw(declared, acts)) && t.wire.messageStarted && !t.wire.textBlockOpen && text != ""
    ensures InStep(t.(wire := EmitThinking(t.wire, text)), Draw(declared, acts + [Think(text)]))
  {
    DrawAppend(declared, acts, Think(text));
    EmitThinkingFollows(t.wire, Draw(declared, acts).page, Draw(declared, acts).blockOf.Values, text);
  }

  lemma HandleTextInStep(t: Turn, declared: string -> string, acts: seq<Act>, text: string)
    requires InStep(t, Draw(declared, acts)) && t.wire.messageStarted && text != ""
    ensures InStep(HandleText(t, text), Draw(declared, acts + [Talk(text)]))
  {
    DrawAppend(declared, acts, Talk(text));
    EmitTextDeltaFollows(t.wire, Draw(declared, acts).page, Draw(declared, acts).blockOf.Values, text);
  }

  lemma StartToolBlockFollows(w: Wire, page: Page, tools: set<nat>, opening: Opening)
    requires Follows(w, page, tools) && w.messageStarted && opening.ToolBlock?
    ensures Follows(StartToolBlock(w, opening), Begin(page, opening, ""), tools + {|page.blocks|})
    ensures StartToolBlock(w, opening).blockIndex == |page.blocks| + 1
  {
    OpenBlocksExist(w.emitted);
    CloseThinkingBlockFollows(w, page, tools);
    var w1 := CloseThinkingBlock(w);
    CloseTextBlockFollows(w1, if w.thinkingBlockOpen then page.(speaking := false) else page, tools);
    var w2 := CloseTextBlock(w1);
    ReadAppend(w2.emitted, BlockStart(w2.blockIndex, opening));
  }

  lemma OneMoreOpen(open: map<int, nat>, call: int, n: nat)
    requires call !in open
    ensures open[call := n].Values == open.Values + {n}
  {
    assert forall c :: c in open ==> open[call := n][c] == open[c];
    assert open[call := n][call] == n;
  }

  lemma OpenToolCallInStep(t: Turn, d: Draft, call: CallDelta, opening: Opening)
    requires InStep(t, d) && t.wire.messageStarted && opening.ToolBlock?
    ensures InStep(OpenToolCall(t, call, opening), Announce(d, call, opening))
  {
    if call.index !in d.blockOf {
      StartToolBlockFollows(t.wire, d.page, d.blockOf.Values, opening);
      OneMoreOpen(d.blockOf, call.index, |d.page.blocks|);
    }
  }

  lemma HandleToolCallInStep(t: Turn, declared: string -> string, acts: seq<Act>, call: CallDelta)
    requires InStep(t, Draw(declared, acts)) && t.wire.messageStarted
    ensures InStep(HandleToolCall(t, declared, call), Draw(declared, acts + [Call(call)]))
  {
    DrawAppend(declared, acts, Call(call));
    var opening := ToolBlock(call.id, declared(call.name));
    OpenToolCallInStep(t, Draw(declared, acts), call, opening);
    var t1 := OpenToolCall(t, call, opening);
    if call.arguments != "" {
      var d1 := Announce(Draw(declared, acts), call, opening);
      ArgumentsFollow(t1.wire, d1.page, d1.blockOf.Values, d1.blockOf[call.index], call.arguments);
    }
  }

  // ---- the order of the tool blocks ------------------------------------------------------------

  /** The block indexes that walking `toolCallsInOrder` yields. */
  function OrderIndexes(order: seq<int>, blockOf: map<int, nat>): seq<nat> {
    if order == [] then []
    else OrderIndexes(order[..|order| - 1], blockOf)
         + [if order[|order| - 1] in blockOf then blockOf[order[|order| - 1]] else 0]
  }

  function Elements(indexes: seq<nat>): set<nat> {
    set n | n in indexes
  }

  /** The order list names the tool blocks of the page, as they were opened, and all of them are open. */
  ghost predicate Ordered(t: Turn, d: Draft) {
    match t
    case Turn(_, _, toolCallsInOrder, toolBlockIndexByCall) =>
      && OrderIndexes(toolCallsInOrder, toolBlockIndexByCall) == ToolIndexes(d.page.blocks)
      && (forall c :: c in toolCallsInOrder ==> c in toolBlockIndexByCall)
      && d.blockOf.Values == Elements(ToolIndexes(d.page.blocks))
  }

  lemma {:induction false} OrderIndexesKeep(order: seq<int>, blockOf: map<int, nat>, c: int, n: nat)
    requires c !in order
    ensures OrderIndexes(order, blockOf[c := n]) == OrderIndexes(order, blockOf)
  {
    if order != [] {
      OrderIndexesKeep(order[..|order| - 1], blockOf, c, n);
    }
  }

  lemma OrderIndexesGrow(order: seq<int>, blockOf: map<int, nat>, c: int, n: nat)
    requires c !in order
    ensures OrderIndexes(order + [c], blockOf[c := n]) == OrderIndexes(order, blockOf) + [n]
  {
    OrderIndexesKeep(order, blockOf, c, n);
    assert (order + [c])[..|order|] == order;
  }

  lemma {:induction false} OrderIndexAt(order: seq<int>, blockOf: map<int, nat>, i: nat)
    requires i < |order|
    ensures |OrderIndexes(order, blockOf)| == |order|
    ensures OrderIndexes(order, blockOf)[i] == if order[i] in blockOf then blockOf[order[i]] else 0
  {
    if |order| > 1 {
      OrderIndexAt(order[..|order| - 1], blockOf, if i < |order| - 1 then i else 0);
    }
  }

  lemma AnnounceOrdered(t: Turn, d: Draft, call: CallDelta, opening: Opening)
    requires InStep(t, d) && t.wire.messageStarted && Ordered(t, d) && opening.ToolBlock?
    ensures Ordered(OpenToolCall(t, call, opening), Announce(d, call, opening))
  {
    if call.index !in d.blockOf {
      var n := |d.page.blocks|;
      StartToolBlockFollows(t.wire, d.page, d.blockOf.Values, opening);
      ToolIndexesBegin(d.page.blocks, Block(opening, ""));
      OneMoreOpen(d.blockOf, call.index, n);
      OrderIndexesGrow(t.toolCallsInOrder, t.toolBlockIndexByCall, call.index, n);
    }
  }

  lemma HandleToolCallOrdered(t: Turn, declared: string -> string, acts: seq<Act>, call: CallDelta)
    requires InStep(t, Draw(declared, acts)) && t.wire.messageStarted && Ordered(t, Draw(declared, acts))
    ensures Ordered(HandleToolCall(t, declared, call), Draw(declared, acts + [Call(call)]))
  {
    DrawAppend(declared, acts, Call(call));
    var d, opening := Draw(declared, acts), ToolBlock(call.id, declared(call.name));
    AnnounceOrdered(t, d, call, opening);
    var known := Announce(d, call, opening);
    if call.arguments != "" {
      FragmentOrdered(OpenToolCall(t, call, opening), HandleToolCall(t, declared, call), known,
                      known.blockOf[call.index], call.arguments);
    }
  }

  /** A fragment of arguments changes neither the order nor the blocks' kinds. */
  lemma FragmentOrdered(t: Turn, t1: Turn, d: Draft, n: nat, text: string)
    requires Ordered(t, d)
    requires t1.toolCallsInOrder == t.toolCallsInOrder && t1.toolBlockIndexByCall == t.toolBlockIndexByCall
    ensures Ordered(t1, d.(page := d.page.(blocks := Extend(d.page.blocks, n, text))))
  {
    ToolIndexesExtend(d.page.blocks, n, text);
  }

  lemma NarrativeOrdered(t: Turn, t1: Turn, declared: string -> string, acts: seq<Act>, act: Act)
    requires Ordered(t, Draw(declared, acts)) && !act.Call?
    requires t1.toolCallsInOrder == t.toolCallsInOrder && t1.toolBlockIndexByCall == t.toolBlockIndexByCall
    ensures Ordered(t1, Draw(declared, acts + [act]))
  {
    DrawAppend(declared, acts, act);
    ToolIndexesSay(Draw(declared, acts).page, if act.Think? then ThinkingBlock else TextBlock, act.text);
  }

  // ---- the scanner loop ------------------------------------------------------------------------

  /** Everything the loop keeps. */
  ghost predicate Kept(t: Turn, declared: string -> string, acts: seq<Act>) {
    match t
    case Turn(wire, textBlocksStarted, _, _) =>
      && InStep(t, Draw(declared, acts))
      && Ordered(t, Draw(declared, acts))
      && (textBlocksStarted > 0) == Talked(acts)
      && (wire.textBlockOpen ==> textBlocksStarted > 0)
  }

  lemma OneMoreCall(acts: seq<Act>, calls: seq<CallDelta>, n: nat)
    requires n < |calls|
    ensures acts + CallActs(calls[..n]) + [Call(calls[n])] == acts + CallActs(calls[..n + 1])
  {
    assert CallActs(calls[..n + 1]) == CallActs(calls[..n]) + [Call(calls[n])];
  }

  method HandleToolCalls(t0: Turn, declared: string -> string, calls: seq<CallDelta>, ghost acts: seq<Act>)
    returns (t: Turn)
    requires Kept(t0, declared, acts) && t0.wire.messageStarted
    ensures Kept(t, declared, acts + CallActs(calls)) && t.wire.messageStarted
  {
    t := t0;
    ghost var told := acts;
    assert acts + CallActs([]) == acts;
    for n := 0 to |calls|
      invariant told == acts + CallActs(calls[..n])
      invariant Kept(t, declared, told) && t.wire.messageStarted
    {
      HandleToolCallKept(t, declared, told, calls[n]);
      t := HandleToolCall(t, declared, calls[n]);
      OneMoreCall(acts, calls, n);
      told := told + [Call(calls[n])];
    }
    assert calls[..|calls|] == calls;
  }

  lemma HandleToolCallKept(t: Turn, declared: string -> string, acts: seq<Act>, call: CallDelta)
    requires Kept(t, declared, acts) && t.wire.messageStarted
    ensures Kept(HandleToolCall(t, declared, call), declared, acts + [Call(call)])
    ensures HandleToolCall(t, declared, call).wire.messageStarted
  {
    HandleToolCallInStep(t, declared, acts, call);
    HandleToolCallOrdered(t, declared, acts, call);
    TalkedAppend(acts, Call(call));
  }

  lemma TalkedAppend(acts: seq<Act>, act: Act)
    ensures Talked(acts + [act]) == (Talked(acts) || act.Talk?)
  {
    if Talked(acts) {
      var i :| 0 <= i < |acts| && acts[i].Talk?;
      assert (acts + [act])[i].Talk?;
    }
    if act.Talk? {
      assert (acts + [act])[|acts|].Talk?;
    }
  }

  lemma ThinkKept(t: Turn, declared: string -> string, acts: seq<Act>, text: string)
    requires Kept(t, declared, acts) && t.wire.messageStarted && !t.wire.textBlockOpen && text != ""
    ensures Kept(t.(wire := EmitThinking(t.wire, text)), declared, acts + [Think(text)])
  {
    EmitThinkingInStep(t, declared, acts, text);
    NarrativeOrdered(t, t.(wire := EmitThinking(t.wire, text)), declared, acts, Think(text));
    TalkedAppend(acts, Think(text));
  }

  lemma TalkKept(t: Turn, declared: string -> string, acts: seq<Act>, text: string)
    requires Kept(t, declared, acts) && t.wire.messageStarted && text != ""
    ensures Kept(HandleText(t, text), declared, acts + [Talk(text)])
  {
    HandleTextInStep(t, declared, acts, text);
    NarrativeOrdered(t, HandleText(t, text), declared, acts, Talk(text));
    TalkedAppend(acts, Talk(text));
  }

  lemma StartKept(t: Turn, declared: string -> string, acts: seq<Act>)
    requires Kept(t, declared, acts)
    ensures Kept(t.(wire := EnsureMessageStart(t.wire)), declared, acts)
  {
    EnsureMessageStartFollows(t.wire, Draw(declared, acts).page, Draw(declared, acts).blockOf.Values);
  }

  /** The opening reasoning, if the answer has not begun. */
  method HandleReasoning(t0: Turn, declared: string -> string, text: string, ghost acts: seq<Act>)
    returns (t: Turn, ghost told: seq<Act>)
    requires Kept(t0, declared, acts) && t0.wire.messageStarted
    ensures Kept(t, declared, told) && t.wire.messageStarted
    ensures told == acts + ReasoningActs(Talked(acts), text)
    ensures Talked(told) == Talked(acts)
  {
    t, told := t0, acts;
    TalkedAppend(acts, Think(text));
    if text != "" && t.textBlocksStarted == 0 && !t.wire.textBlockOpen {
      ThinkKept(t, declared, acts, text);
      t, told := t.(wire := EmitThinking(t.wire, text)), acts + [Think(text)];
    }
  }

  /** What follows the reasoning: the calls of a chunk, or else its text. */
  method HandleAnswer(t0: Turn, declared: string -> string, chunk: Chunk, ghost acts: seq<Act>)
    returns (t: Turn, ghost told: seq<Act>)
    requires Kept(t0, declared, acts) && t0.wire.messageStarted && chunk.Choice?
    ensures Kept(t, declared, told) && t.wire.messageStarted
    ensures told == acts + AnswerActs(chunk.calls, chunk.content)
  {
    t, told := t0, acts;
    if chunk.calls != [] {
      t := HandleToolCalls(t, declared, chunk.calls, told);
      told := told + CallActs(chunk.calls);
    } else if chunk.content != "" {
      TalkKept(t, declared, told, chunk.content);
      t := HandleText(t, chunk.content);
      told := told + [Talk(chunk.content)];
    }
  }

  lemma Associate(a: seq<Act>, b: seq<Act>, c: seq<Act>)
    ensures a + b + c == a + (b + c)
  {
  }

  /** One chunk with a choice: `message_start`, then what of the chunk counts. */
  method HandleChoice(t0: Turn, declared: string -> string, chunk: Chunk, ghost acts: seq<Act>) returns (t: Turn)
    requires Kept(t0, declared, acts) && chunk.Choice?
    ensures Kept(t, declared, acts + ActsOf(Talked(acts), chunk)) && t.wire.messageStarted
  {
    StartKept(t0, declared, acts);
    ghost var told;
    t, told := HandleReasoning(t0.(wire := EnsureMessageStart(t0.wire)), declared, chunk.reasoning, acts);
    t, told := HandleAnswer(t, declared, chunk, told);
    Associate(acts, ReasoningActs(Talked(acts), chunk.reasoning), AnswerActs(chunk.calls, chunk.content));
  }

  /** What one more chunk adds to everything the loop computes. */
  lemma OneMoreChunk(names: string -> string, chunks: seq<Chunk>, n: nat)
    requires n < |chunks|
    ensures Acts(chunks[..n + 1])
         == if chunks[n].Choice? then Acts(chunks[..n]) + ActsOf(Talked(Acts(chunks[..n])), chunks[n])
            else Acts(chunks[..n])
    ensures Started(chunks[..n + 1]) == (Started(chunks[..n]) || chunks[n].Choice?)
    ensures (DoneMarker in chunks[..n + 1]) == (DoneMarker in chunks[..n] || chunks[n].DoneMarker?)
    ensures StopReason(names, chunks[..n + 1])
         == if chunks[n].Choice? && chunks[n].finishReason != "" then names(chunks[n].finishReason)
            else StopReason(names, chunks[..n])
  {
    var before, after := chunks[..n], chunks[..n + 1];
    assert after[..n] == before && after == before + [chunks[n]];
    if Started(before) {
      var i :| 0 <= i < n && before[i].Choice?;
      assert after[i].Choice?;
    }
    if chunks[n].Choice? {
      assert after[n].Choice?;
    }
  }

  /** What the loop knows once it has taken in some chunks. */
  ghost predicate Taken(t: Turn, declared: string -> string, names: string -> string, taken: seq<Chunk>,
                        closed: bool, stopReason: string) {
    var known :=
      && Kept(t, declared, Acts(taken)) && t.wire.messageStarted == Started(taken)
      && closed == (DoneMarker in taken) && stopReason == StopReason(names, taken);
    known
  }

  ghost predicate TakenTo(t: Turn, declared: string -> string, names: string -> string, chunks: seq<Chunk>, n: nat,
                          closed: bool, stopReason: string) {
    var known :=
      && n <= |chunks| && (forall i :: 0 <= i < n ==> !chunks[i].Fault?)
      && Taken(t, declared, names, chunks[..n], closed, stopReason);
    known
  }

  lemma NoneTaken(declared: string -> string, names: string -> string, chunks: seq<Chunk>)
    ensures TakenTo(Start, declared, names, chunks, 0, false, "end_turn")
  {
  }

  lemma AllTaken(t: Turn, declared: string -> string, names: string -> string, chunks: seq<Chunk>, n: nat,
                 closed: bool, stopReason: string)
    requires TakenTo(t, declared, names, chunks, n, closed, stopReason) && (n < |chunks| ==> chunks[n].Fault?)
    ensures n == FirstFault(chunks) && Taken(t, declared, names, chunks[..n], closed, stopReason)
  {
  }

  method TakeChunk(t0: Turn, declared: string -> string, names: string -> string, chunks: seq<Chunk>, n: nat,
                   closed0: bool, stopReason0: string) returns (t: Turn, closed: bool, stopReason: string)
    requires n < |chunks| && !chunks[n].Fault?
    requires TakenTo(t0, declared, names, chunks, n, closed0, stopReason0)
    ensures TakenTo(t, declared, names, chunks, n + 1, closed, stopReason)
  {
    t, stopReason := t0, stopReason0;
    OneMoreChunk(names, chunks, n);
    if chunks[n].Choice? {
      t := HandleChoice(t, declared, chunks[n], Acts(chunks[..n]));
      if chunks[n].finishReason != "" {
        stopReason := names(chunks[n].finishReason);
      }
    }
    closed := closed0 || chunks[n].DoneMarker?;
  }

  /** The loop: it stops at the first fault the upstream reports, or when the body ends. */
  method Scan(declared: string -> string, names: string -> string, chunks: seq<Chunk>)
    returns (t: Turn, n: nat, closed: bool, stopReason: string)
    ensures n == FirstFault(chunks) && Taken(t, declared, names, chunks[..n], closed, stopReason)
  {
    t, n, closed, stopReason := Start, 0, false, "end_turn";
    NoneTaken(declared, names, chunks);
    while n < |chunks| && !chunks[n].Fault?
      invariant n <= |chunks|
      invariant TakenTo(t, declared, names, chunks, n, closed, stopReason)
    {
      t, closed, stopReason := TakeChunk(t, declared, names, chunks, n, closed, stopReason);
      n := n + 1;
    }
    AllTaken(t, declared, names, chunks, n, closed, stopReason);
  }

  // ---- endings ---------------------------------------------------------------------------------

  lemma ElementsRest(tools: seq<nat>)
    requires tools != []
    requires forall j, k :: 0 <= j < k < |tools| ==> tools[j] < tools[k]
    ensures tools[0] in Elements(tools) && Elements(tools[1..]) == Elements(tools) - {tools[0]}
  {
    assert tools[0] !in tools[1..];
    assert forall n :: n in tools <==> n == tools[0] || n in tools[1..];
  }

  /** The tool blocks before the `i`-th are stopped, the others still open. */
  ghost predicate Stopping(w: Wire, w0: Wire, page: Page, tools: seq<nat>, i: nat) {
    match w
    case Wire(messageStarted, _, _, _, emitted) =>
      && i <= |tools|
      && Follows(w, page, Elements(tools[i..]))
      && messageStarted == w0.messageStarted
      && emitted == w0.emitted + Stops(tools[..i])
  }

  lemma StopNext(w: Wire, w0: Wire, page: Page, tools: seq<nat>, i: nat)
    requires Stopping(w, w0, page, tools, i) && i < |tools|
    requires forall j, k :: 0 <= j < k < |tools| ==> tools[j] < tools[k]
    ensures Stopping(Emit(w, BlockStop(tools[i])), w0, page, tools, i + 1)
  {
    OpenBlocksExist(w.emitted);
    ReadAppend(w.emitted, BlockStop(tools[i]));
    ElementsRest(tools[i..]);
    assert tools[i..][1..] == tools[i + 1..];
    assert Stops(tools[..i + 1]) == Stops(tools[..i]) + [BlockStop(tools[i])];
  }

  /** Tool blocks close in the order they opened. */
  method CloseInOrder(w0: Wire, order: seq<int>, blockOf: map<int, nat>, ghost page: Page) returns (w: Wire)
    requires forall i :: 0 <= i < |order| ==> order[i] in blockOf
    requires OrderIndexes(order, blockOf) == ToolIndexes(page.blocks)
    requires Follows(w0, page, Elements(ToolIndexes(page.blocks)))
    ensures Follows(w, page, {}) && w.messageStarted == w0.messageStarted
    ensures w.emitted == w0.emitted + Stops(ToolIndexes(page.blocks))
  {
    ghost var tools := ToolIndexes(page.blocks);
    ToolIndexesAscend(page.blocks);
    if order != [] {
      OrderIndexAt(order, blockOf, 0);
    }
    w := w0;
    StoppingNone(w0, page, tools);
    for i := 0 to |order|
      invariant |tools| == |order| && Stopping(w, w0, page, tools, i)
    {
      OrderIndexAt(order, blockOf, i);
      StopNext(w, w0, page, tools, i);
      w := Emit(w, BlockStop(blockOf[order[i]]));
    }
    StoppingAll(w, w0, page, tools);
  }

  lemma StoppingNone(w: Wire, page: Page, tools: seq<nat>)
    requires Follows(w, page, Elements(tools))
    ensures Stopping(w, w, page, tools, 0)
  {
    assert tools[0..] == tools && w.emitted + Stops(tools[..0]) == w.emitted;
  }

  lemma StoppingAll(w: Wire, w0: Wire, page: Page, tools: seq<nat>)
    requires Stopping(w, w0, page, tools, |tools|)
    ensures Follows(w, page, {}) && w.messageStarted == w0.messageStarted
    ensures w.emitted == w0.emitted + Stops(tools)
  {
    assert tools[..|tools|] == tools && Elements(tools[|tools|..]) == {};
  }

  /** The trace ends with the stops of `tools`, in that order, and then the message does. */
  ghost predicate EndsInOrder(out: seq<Event>, tools: seq<nat>, reason: string) {
    exists k :: 0 <= k <= |out| && out[k..] == Stops(tools) + [MessageDelta(reason), MessageStop]
  }

  lemma EndsInOrderIntro(before: seq<Event>, tools: seq<nat>, reason: string)
    ensures EndsInOrder(before + Stops(tools) + [MessageDelta(reason)] + [MessageStop], tools, reason)
  {
    var out := before + Stops(tools) + [MessageDelta(reason)] + [MessageStop];
    assert out[|before|..] == Stops(tools) + [MessageDelta(reason), MessageStop];
  }

  method CloseCompleted(t: Turn, reason: string, ghost d: Draft) returns (out: seq<Event>)
    requires InStep(t, d) && Ordered(t, d) && t.wire.messageStarted
    ensures Read(out) == Reader(Finished(reason), d.page.blocks, false, {})
    ensures EndsInOrder(out, ToolIndexes(d.page.blocks), reason)
  {
    ghost var quiet := d.page.(speaking := false);
    HushInOrder(t.wire, d.page, d.blockOf.Values);
    var w := CloseTextBlock(CloseThinkingBlock(t.wire));
    EndsInOrderIntro(w.emitted, ToolIndexes(d.page.blocks), reason);
    assert forall c :: c in t.toolCallsInOrder ==> c in t.toolBlockIndexByCall;
    w := CloseInOrder(w, t.toolCallsInOrder, t.toolBlockIndexByCall, quiet);
    FinishFollows(w, quiet, reason);
    out := w.emitted + [MessageDelta(reason)] + [MessageStop];
  }

  lemma HushInOrder(w: Wire, page: Page, tools: set<nat>)
    requires Follows(w, page, tools) && w.messageStarted
    ensures Follows(CloseTextBlock(CloseThinkingBlock(w)), page.(speaking := false), tools)
    ensures CloseTextBlock(CloseThinkingBlock(w)).messageStarted
  {
    OpenBlocksExist(w.emitted);
    CloseThinkingBlockFollows(w, page, tools);
    CloseTextBlockFollows(CloseThinkingBlock(w), if w.thinkingBlockOpen then page.(speaking := false) else page, tools);
  }

  /** The whole conversion: the client can follow what it is sent, and ends up with the page that the
      acts of the stream draw; a finished turn stops its tool blocks in the order they opened. */
  method Stream(declared: string -> string, names: string -> string, chunks: seq<Chunk>)
    returns (out: seq<Event>, outcome: Outcome)
    ensures outcome == Verdict(chunks)
    ensures Read(out) == Delivered(declared, names, chunks)
    ensures outcome.Completed? ==>
              EndsInOrder(out, ToolIndexes(Draw(declared, Acts(chunks)).page.blocks), StopReason(names, chunks))
  {
    var t, n, closed, reason := Scan(declared, names, chunks);
    ghost var acts := Acts(chunks[..n]);
    ghost var d := Draw(declared, acts);
    assert n == |chunks| ==> chunks[..n] == chunks;
    NarrativeFlags(t.wire, d.page, d.blockOf.Values);
    if n < |chunks| {
      ReadAppend(t.wire.emitted, Error(chunks[n].message));
      out, outcome := t.wire.emitted + [Error(chunks[n].message)], UpstreamError(chunks[n].message);
    } else if chunks != [] && !closed {
      outcome := Interrupted;
      out := CloseInterrupted(t.wire, t.toolBlockIndexByCall.Values, d.page);
    } else if !t.wire.messageStarted {
      out, outcome := t.wire.emitted, NothingSent;
    } else {
      outcome := Completed;
      out := CloseCompleted(t, reason, d);
    }
  }
}
