/** What a Chat Completions stream says about the Claude message it stands for: the meaning the
    converter in `ChatToClaudeStream` is held to, and what that meaning amounts to.

    The meaning has two halves.  `Acts` is what of the stream counts: reasoning only until the answer
    begins, and of a chunk that carries tool calls nothing but the calls.  `Draw` is the page those acts
    make. */
module ChatToClaudeDocument {
  import opened ClaudeClient
  import opened ClaudePage
  import opened ChatUpstream

  datatype Act = Think(text: string) | Talk(text: string) | Call(call: CallDelta)

  predicate Talked(acts: seq<Act>) {
    exists i :: 0 <= i < |acts| && acts[i].Talk?
  }

  function CallActs(calls: seq<CallDelta>): seq<Act> {
    seq(|calls|, i requires 0 <= i < |calls| => Call(calls[i]))
  }

  function ReasoningActs(answering: bool, reasoning: string): seq<Act> {
    if reasoning != "" && !answering then [Think(reasoning)] else []
  }

  function AnswerActs(calls: seq<CallDelta>, content: string): seq<Act> {
    if calls != [] then CallActs(calls) else if content != "" then [Talk(content)] else []
  }

  function ActsOf(answering: bool, chunk: Chunk): seq<Act> {
    if chunk.Choice? then ReasoningActs(answering, chunk.reasoning) + AnswerActs(chunk.calls, chunk.content) else []
  }

  function Acts(chunks: seq<Chunk>): seq<Act> {
    if chunks == [] then []
    else
      var before := Acts(chunks[..|chunks| - 1]);
      before + ActsOf(Talked(before), chunks[|chunks| - 1])
  }

  /** `blockOf` is the block of each upstream call index. */
  datatype Draft = Draft(page: Page, blockOf: map<int, nat>)

  /** An upstream call index is given a block when first heard of; its fragments go there. */
  function Announce(d: Draft, call: CallDelta, opening: Opening): Draft {
    if call.index in d.blockOf then d
    else Draft(Begin(d.page, opening, ""), d.blockOf[call.index := |d.page.blocks|])
  }

  function Perform(d: Draft, declared: string -> string, act: Act): Draft {
    match act
    case Think(text) => d.(page := Say(d.page, ThinkingBlock, text))
    case Talk(text) => d.(page := Say(d.page, TextBlock, text))
    case Call(call) =>
      var known := Announce(d, call, ToolBlock(call.id, declared(call.name)));
      if call.arguments == "" then known
      else known.(page := known.page.(blocks := Extend(known.page.blocks, known.blockOf[call.index], call.arguments)))
  }

  function Draw(declared: string -> string, acts: seq<Act>): Draft {
    if acts == [] then Draft(Page([], false), map[])
    else Perform(Draw(declared, acts[..|acts| - 1]), declared, acts[|acts| - 1])
  }

  lemma {:induction false} DrawAppend(declared: string -> string, acts: seq<Act>, act: Act)
    ensures Draw(declared, acts + [act]) == Perform(Draw(declared, acts), declared, act)
  {
    assert (acts + [act])[..|acts|] == acts;
  }

  // ---- how a run ends --------------------------------------------------------------------------

  datatype Outcome = Completed | UpstreamError(message: string) | Interrupted | NothingSent

  predicate Started(chunks: seq<Chunk>) {
    exists i :: 0 <= i < |chunks| && chunks[i].Choice?
  }

  function StopReason(names: string -> string, chunks: seq<Chunk>): string {
    if chunks == [] then "end_turn"
    else
      var last := chunks[|chunks| - 1];
      if last.Choice? && last.finishReason != "" then names(last.finishReason)
      else StopReason(names, chunks[..|chunks| - 1])
  }

  function Verdict(chunks: seq<Chunk>): Outcome {
    if FirstFault(chunks) < |chunks| then UpstreamError(chunks[FirstFault(chunks)].message)
    else if chunks != [] && DoneMarker !in chunks then Interrupted
    else if !Started(chunks) then NothingSent
    else Completed
  }

  /** What a strict client holds when the run is over. */
  function Delivered(declared: string -> string, names: string -> string, chunks: seq<Chunk>): Reader {
    var before := chunks[..FirstFault(chunks)];
    var draft := Draw(declared, Acts(before));
    match Verdict(chunks)
    case Completed => Reader(Finished(StopReason(names, chunks)), draft.page.blocks, false, {})
    case UpstreamError(_) => Reader(Broken, draft.page.blocks, draft.page.speaking, draft.blockOf.Values)
    case Interrupted =>
      if Started(chunks) then Reader(Cut, draft.page.blocks, false, {}) else Reader(Idle, [], false, {})
    case NothingSent => Reader(Idle, [], false, {})
  }

  // ---- tool blocks and their order -------------------------------------------------------------

  /** A message's tool blocks, in the order they were opened. */
  function ToolIndexes(blocks: seq<Block>): seq<nat> {
    if blocks == [] then []
    else ToolIndexes(blocks[..|blocks| - 1])
         + (if blocks[|blocks| - 1].opening.ToolBlock? then [|blocks| - 1] else [])
  }

  lemma {:induction false} ToolIndexesAscend(blocks: seq<Block>)
    ensures var tools := ToolIndexes(blocks);
            && (forall n :: n in tools <==> 0 <= n < |blocks| && blocks[n].opening.ToolBlock?)
            && (forall j, k :: 0 <= j < k < |tools| ==> tools[j] < tools[k])
  {
    if blocks != [] {
      ToolIndexesAscend(blocks[..|blocks| - 1]);
      var before := ToolIndexes(blocks[..|blocks| - 1]);
      assert forall k :: 0 <= k < |before| ==> before[k] in before;
    }
  }

  lemma ToolIndexesBegin(blocks: seq<Block>, block: Block)
    ensures ToolIndexes(blocks + [block])
         == ToolIndexes(blocks) + (if block.opening.ToolBlock? then [|blocks|] else [])
  {
    assert (blocks + [block])[..|blocks|] == blocks;
  }

  lemma {:induction false} ToolIndexesExtend(blocks: seq<Block>, n: nat, text: string)
    ensures ToolIndexes(Extend(blocks, n, text)) == ToolIndexes(blocks)
  {
    if n < |blocks| {
      var last := |blocks| - 1;
      assert Extend(blocks, n, text)[..last] == Extend(blocks[..last], n, text);
      ToolIndexesExtend(blocks[..last], n, text);
    }
  }

  lemma ToolIndexesSay(page: Page, opening: Opening, text: string)
    requires !opening.ToolBlock?
    ensures ToolIndexes(Say(page, opening, text).blocks) == ToolIndexes(page.blocks)
  {
    if page.blocks != [] {
      ToolIndexesExtend(page.blocks, |page.blocks| - 1, text);
    }
    ToolIndexesBegin(page.blocks, Block(opening, text));
  }

  function Stops(indexes: seq<nat>): seq<Event> {
    seq(|indexes|, i requires 0 <= i < |indexes| => BlockStop(indexes[i]))
  }
}
