/** The part of a Claude stream writer that both converters share: the message, its block counter and
    the two flags for the narrative block that is open.

    In Go these are local variables of each converter and closures over them; here they are the record
    `Wire` and functions on it.  `Follows` says what they owe the client. */
module ClaudeWire {
  import opened ClaudeClient
  import opened ClaudePage
  import opened Interruption

  datatype Wire = Wire(
    messageStarted: bool,
    blockIndex: nat,
    textBlockOpen: bool,
    thinkingBlockOpen: bool,
    emitted: seq<Event>)

  const NotStarted := Wire(false, 0, false, false, [])

  function Emit(w: Wire, e: Event): Wire {
    w.(emitted := w.emitted + [e])
  }

  function EnsureMessageStart(w: Wire): Wire {
    if w.messageStarted then w else Emit(w, MessageStart).(messageStarted := true)
  }

  function CloseTextBlock(w: Wire): Wire {
    if !w.textBlockOpen then w
    else Emit(w, BlockStop(w.blockIndex)).(textBlockOpen := false, blockIndex := w.blockIndex + 1)
  }

  function CloseThinkingBlock(w: Wire): Wire {
    if !w.thinkingBlockOpen then w
    else Emit(w, BlockStop(w.blockIndex)).(thinkingBlockOpen := false, blockIndex := w.blockIndex + 1)
  }

  function StartTextBlock(w: Wire): Wire {
    if w.textBlockOpen then w
    else
      var w1 := CloseThinkingBlock(w);
      Emit(w1, BlockStart(w1.blockIndex, TextBlock)).(textBlockOpen := true)
  }

  function EmitTextDelta(w: Wire, text: string): Wire {
    if text == "" then w
    else
      var w1 := StartTextBlock(EnsureMessageStart(w));
      Emit(w1, Delta(w1.blockIndex, TextLane, text))
  }

  /** Both closers, on a started message: what every block start of its own does first. */
  function Hush(w: Wire): Wire {
    CloseThinkingBlock(CloseTextBlock(EnsureMessageStart(w)))
  }

  // ---- what each closure means to the client ---------------------------------------------------

  /** The client has accepted everything emitted and holds the page; the flags say what is open. */
  ghost predicate Follows(w: Wire, page: Page, tools: set<nat>) {
    match w
    case Wire(messageStarted, blockIndex, textBlockOpen, thinkingBlockOpen, emitted) =>
      && Read(emitted) == Reader(if messageStarted then Streaming else Idle, page.blocks, page.speaking, tools)
      && (page.blocks != [] ==> messageStarted)
      && textBlockOpen == Speaks(page, TextLane)
      && thinkingBlockOpen == Speaks(page, ThinkingLane)
      && blockIndex == |page.blocks| - (if page.speaking then 1 else 0)
  }

  lemma EnsureMessageStartFollows(w: Wire, page: Page, tools: set<nat>)
    requires Follows(w, page, tools)
    ensures Follows(EnsureMessageStart(w), page, tools)
  {
    OpenBlocksExist(w.emitted);
    ReadAppend(w.emitted, MessageStart);
  }

  lemma CloseTextBlockFollows(w: Wire, page: Page, tools: set<nat>)
    requires Follows(w, page, tools)
    ensures Follows(CloseTextBlock(w), if w.textBlockOpen then page.(speaking := false) else page, tools)
  {
    OpenBlocksExist(w.emitted);
    ReadAppend(w.emitted, BlockStop(w.blockIndex));
  }

  lemma CloseThinkingBlockFollows(w: Wire, page: Page, tools: set<nat>)
    requires Follows(w, page, tools)
    ensures Follows(CloseThinkingBlock(w), if w.thinkingBlockOpen then page.(speaking := false) else page, tools)
  {
    OpenBlocksExist(w.emitted);
    ReadAppend(w.emitted, BlockStop(w.blockIndex));
  }

  lemma StartTextBlockFollows(w: Wire, page: Page, tools: set<nat>)
    requires Follows(w, page, tools) && w.messageStarted && !w.textBlockOpen
    ensures Follows(StartTextBlock(w), Begin(page, TextBlock, ""), tools)
  {
    OpenBlocksExist(w.emitted);
    CloseThinkingBlockFollows(w, page, tools);
    var w1 := CloseThinkingBlock(w);
    ReadAppend(w1.emitted, BlockStart(w1.blockIndex, TextBlock));
  }

  lemma SpeakFollows(w: Wire, page: Page, tools: set<nat>, lane: Lane, text: string)
    requires Follows(w, page, tools) && Speaks(page, lane) && text != "" && !lane.ArgumentLane?
    ensures Follows(Emit(w, Delta(w.blockIndex, lane, text)),
                    page.(blocks := Extend(page.blocks, |page.blocks| - 1, text)), tools)
  {
    ReadAppend(w.emitted, Delta(w.blockIndex, lane, text));
  }

  lemma ArgumentsFollow(w: Wire, page: Page, tools: set<nat>, i: nat, text: string)
    requires Follows(w, page, tools) && i in tools && text != ""
    ensures Follows(Emit(w, Delta(i, ArgumentLane, text)), page.(blocks := Extend(page.blocks, i, text)), tools)
  {
    OpenBlocksExist(w.emitted);
    ReadAppend(w.emitted, Delta(i, ArgumentLane, text));
  }

  lemma EmitTextDeltaFollows(w: Wire, page: Page, tools: set<nat>, text: string)
    requires Follows(w, page, tools)
    ensures Follows(EmitTextDelta(w, text), Say(page, TextBlock, text), tools)
  {
    if text != "" {
      EnsureMessageStartFollows(w, page, tools);
      var w1 := EnsureMessageStart(w);
      var open := if w1.textBlockOpen then page else Begin(page, TextBlock, "");
      if !w1.textBlockOpen {
        StartTextBlockFollows(w1, page, tools);
      }
      SayOnFresh(page, TextBlock, text);
      SpeakFollows(StartTextBlock(w1), open, tools, TextLane, text);
    }
  }

  lemma HushFollows(w: Wire, page: Page, tools: set<nat>)
    requires Follows(w, page, tools)
    ensures Follows(Hush(w), page.(speaking := false), tools)
  {
    OpenBlocksExist(w.emitted);
    EnsureMessageStartFollows(w, page, tools);
    var w1 := EnsureMessageStart(w);
    CloseTextBlockFollows(w1, page, tools);
    CloseThinkingBlockFollows(CloseTextBlock(w1), if w1.textBlockOpen then page.(speaking := false) else page, tools);
  }

  // ---- endings ---------------------------------------------------------------------------------

  /** Open tool blocks are stopped in whatever order a Go map yields them. */
  method CloseTools(w0: Wire, tools: set<nat>, ghost page: Page) returns (w: Wire)
    requires Follows(w0, page, tools)
    ensures Follows(w, page, {}) && w.messageStarted == w0.messageStarted
  {
    w := w0;
    var left := tools;
    while left != {}
      invariant Follows(w, page, left) && w.messageStarted == w0.messageStarted
      decreases left
    {
      var index :| index in left;
      OpenBlocksExist(w.emitted);
      ReadAppend(w.emitted, BlockStop(index));
      w := Emit(w, BlockStop(index));
      left := left - {index};
    }
  }

  lemma StopFollows(w: Wire, page: Page)
    requires Follows(w, page, {}) && (w.textBlockOpen || w.thinkingBlockOpen)
    ensures Read(Emit(w, BlockStop(w.blockIndex)).emitted) == Reader(Streaming, page.blocks, false, {})
  {
    ReadAppend(w.emitted, BlockStop(w.blockIndex));
  }

  lemma BreakFollows(trace: seq<Event>, blocks: seq<Block>)
    requires Read(trace) == Reader(Streaming, blocks, false, {})
    ensures Read(trace + [Error(CUT_MESSAGE)] + [MessageStop]) == Reader(Cut, blocks, false, {})
  {
    ReadAppend(trace, Error(CUT_MESSAGE));
    ReadAppend(trace + [Error(CUT_MESSAGE)], MessageStop);
  }

  lemma NarrativeFlags(w: Wire, page: Page, tools: set<nat>)
    requires Follows(w, page, tools)
    ensures page.speaking == (w.textBlockOpen || w.thinkingBlockOpen)
    ensures !w.messageStarted ==> Read(w.emitted) == Reader(Idle, [], false, {})
  {
    OpenBlocksExist(w.emitted);
    assert !w.messageStarted ==> tools == {};
  }

  /** A turn cut mid-answer: open blocks are stopped, and an error ends the message. */
  method CloseInterrupted(w0: Wire, tools: set<nat>, ghost page: Page) returns (out: seq<Event>)
    requires Follows(w0, page, tools)
    ensures Read(out) == if w0.messageStarted then Reader(Cut, page.blocks, false, {}) else Reader(Idle, [], false, {})
  {
    NarrativeFlags(w0, page, tools);
    if !w0.messageStarted {
      return w0.emitted;
    }
    var w := CloseTools(w0, tools, page);
    NarrativeFlags(w, page, {});
    out := w.emitted;
    if w.textBlockOpen || w.thinkingBlockOpen {
      StopFollows(w, page);
      out := Emit(w, BlockStop(w.blockIndex)).emitted;
    }
    BreakFollows(out, page.blocks);
    out := out + [Error(CUT_MESSAGE)] + [MessageStop];
  }

  /** A finished turn: the stop reason and the stop follow the last block. */
  lemma FinishFollows(w: Wire, page: Page, reason: string)
    requires Follows(w, page, {}) && w.messageStarted && !page.speaking
    ensures Read(w.emitted + [MessageDelta(reason)] + [MessageStop]) == Reader(Finished(reason), page.blocks, false, {})
  {
    ReadAppend(w.emitted, MessageDelta(reason));
    ReadAppend(w.emitted + [MessageDelta(reason)], MessageStop);
  }
}
