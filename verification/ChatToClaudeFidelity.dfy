/** What the meaning of a Chat Completions stream preserves: thinking stays ahead of the answer, every
    upstream call index has one block of its own holding all its fragments, and what counts is shown
    in the order it was said. */
module ChatToClaudeFidelity {
  import opened ClaudeClient
  import opened ClaudePage
  import opened ChatUpstream
  import opened ChatToClaudeDocument
  import opened Sequences

  // ---- thinking before the answer --------------------------------------------------------------

  lemma {:induction false} NoThoughtAfterAnswer(chunks: seq<Chunk>, i: nat, j: nat)
    requires i < j < |Acts(chunks)| && Acts(chunks)[i].Talk?
    ensures !Acts(chunks)[j].Think?
  {
    if chunks != [] {
      var before := Acts(chunks[..|chunks| - 1]);
      if j < |before| {
        NoThoughtAfterAnswer(chunks[..|chunks| - 1], i, j);
      } else if i < |before| {
        assert Talked(before);
      }
    }
  }

  /** No thinking block follows a text block. */
  ghost predicate ThinkingFirst(blocks: seq<Block>) {
    forall i, j :: 0 <= i < j < |blocks| && blocks[i].opening.TextBlock? ==> LaneOf(blocks[j].opening) != ThinkingLane
  }

  ghost predicate HasText(blocks: seq<Block>) {
    exists i :: 0 <= i < |blocks| && blocks[i].opening.TextBlock?
  }

  /** Pages grow at the end, and blocks keep what they were announced as. */
  lemma PerformGrows(d: Draft, declared: string -> string, act: Act)
    ensures var now, next := d.page.blocks, Perform(d, declared, act).page.blocks;
            && |now| <= |next| <= |now| + 1
            && (forall n :: 0 <= n < |now| ==> next[n].opening == now[n].opening)
            && (|next| > |now| ==> next[|now|].opening.TextBlock? == act.Talk?)
            && (|next| > |now| && LaneOf(next[|now|].opening) == ThinkingLane ==> act.Think?)
  {
  }

  lemma {:induction false} DrawThinkingFirst(declared: string -> string, acts: seq<Act>)
    requires forall i, j :: 0 <= i < j < |acts| && acts[i].Talk? ==> !acts[j].Think?
    ensures ThinkingFirst(Draw(declared, acts).page.blocks)
    ensures HasText(Draw(declared, acts).page.blocks) ==> Talked(acts)
  {
    if acts != [] {
      var before, act := acts[..|acts| - 1], acts[|acts| - 1];
      DrawThinkingFirst(declared, before);
      PerformGrows(Draw(declared, before), declared, act);
      var now, next := Draw(declared, before).page.blocks, Draw(declared, acts).page.blocks;
      if HasText(now) {
        var i :| 0 <= i < |before| && before[i].Talk?;
        assert acts[i].Talk?;
      } else if HasText(next) {
        assert acts[|acts| - 1].Talk?;
      }
    }
  }

  lemma {:induction false} OpeningsKept(trace: seq<Event>, n: nat)
    requires n <= |trace| && Read(trace).Reader?
    ensures Read(trace[..n]).Reader?
    ensures var early, late := Read(trace[..n]).blocks, Read(trace).blocks;
            |early| <= |late| && forall k :: 0 <= k < |early| ==> late[k].opening == early[k].opening
    decreases |trace| - n
  {
    ReadPrefix(trace, n);
    if n < |trace| {
      OpeningsKept(trace, n + 1);
      ReadNext(trace, n);
    } else {
      TakeAll(trace);
    }
  }

  predicate Thinks(e: Event) {
    (e.BlockStart? && LaneOf(e.opening) == ThinkingLane) || (e.Delta? && e.lane == ThinkingLane)
  }

  predicate BeginsAnswer(e: Event) {
    e.BlockStart? && e.opening.TextBlock?
  }

  /** The block a text block's start announces, in the finished message. */
  lemma AnswerBlock(trace: seq<Event>, i: nat)
    requires i < |trace| && Read(trace).Reader? && BeginsAnswer(trace[i])
    ensures Read(trace[..i + 1]).Reader? && |Read(trace[..i + 1]).blocks| == trace[i].index + 1
    ensures trace[i].index < |Read(trace).blocks| && Read(trace).blocks[trace[i].index].opening.TextBlock?
  {
    OpeningsKept(trace, i);
    OpeningsKept(trace, i + 1);
    ReadNext(trace, i);
  }

  /** The block a thinking event belongs to, in the finished message. */
  lemma ThoughtBlock(trace: seq<Event>, j: nat)
    requires j < |trace| && Read(trace).Reader? && Thinks(trace[j])
    ensures Read(trace[..j]).Reader? && |Read(trace[..j]).blocks| <= trace[j].index + 1
    ensures trace[j].index < |Read(trace).blocks| && LaneOf(Read(trace).blocks[trace[j].index].opening) == ThinkingLane
  {
    OpeningsKept(trace, j);
    OpeningsKept(trace, j + 1);
    ReadNext(trace, j);
  }

  lemma BlocksOnlyGrow(trace: seq<Event>, i: nat, j: nat)
    requires i <= j <= |trace| && Read(trace).Reader?
    ensures Read(trace[..i]).Reader? && Read(trace[..j]).Reader?
    ensures |Read(trace[..i]).blocks| <= |Read(trace[..j]).blocks|
  {
    ReadPrefix(trace, j);
    TakeTake(trace, i, j);
    OpeningsKept(trace[..j], i);
  }

  /** The same on the wire: once a text block has begun, no thinking block does, and no thinking is
      added to one. */
  lemma WireThinkingFirst(trace: seq<Event>, i: nat, j: nat)
    requires Read(trace).Reader? && ThinkingFirst(Read(trace).blocks)
    requires i < j < |trace| && BeginsAnswer(trace[i])
    ensures !Thinks(trace[j])
  {
    if Thinks(trace[j]) {
      AnswerBlock(trace, i);
      ThoughtBlock(trace, j);
      BlocksOnlyGrow(trace, i + 1, j);
      NoThoughtAfter(Read(trace).blocks, trace[i].index, trace[j].index);
    }
  }

  lemma NoThoughtAfter(blocks: seq<Block>, i: nat, j: nat)
    requires ThinkingFirst(blocks) && i < |blocks| && j < |blocks| && i <= j && blocks[i].opening.TextBlock?
    ensures LaneOf(blocks[j].opening) != ThinkingLane
  {
  }

  /** Whatever the upstream sends, the trace the converter delivers keeps thinking ahead of the answer. */
  lemma ThinkingPrecedesAnswer(declared: string -> string, names: string -> string, chunks: seq<Chunk>,
                               out: seq<Event>, i: nat, j: nat)
    requires Read(out) == Delivered(declared, names, chunks)
    requires i < j < |out| && BeginsAnswer(out[i])
    ensures !Thinks(out[j])
  {
    var before := chunks[..FirstFault(chunks)];
    forall i, j | 0 <= i < j < |Acts(before)| && Acts(before)[i].Talk? ensures !Acts(before)[j].Think? {
      NoThoughtAfterAnswer(before, i, j);
    }
    DrawThinkingFirst(declared, Acts(before));
    WireThinkingFirst(out, i, j);
  }

  // ---- parallel calls --------------------------------------------------------------------------

  /** Where upstream call `c` is first heard of; past the end when it never is. */
  function FirstOf(calls: seq<CallDelta>, c: int): (n: nat)
    ensures n <= |calls|
    ensures n < |calls| ==> calls[n].index == c
    ensures forall k :: 0 <= k < n ==> calls[k].index != c
  {
    if calls == [] || calls[0].index == c then 0 else 1 + FirstOf(calls[1..], c)
  }

  /** The calls among the acts. */
  function Called(acts: seq<Act>): seq<CallDelta> {
    if acts == [] then []
    else Called(acts[..|acts| - 1]) + (if acts[|acts| - 1].Call? then [acts[|acts| - 1].call] else [])
  }

  lemma {:induction false} CalledJoin(acts: seq<Act>, more: seq<Act>)
    ensures Called(acts + more) == Called(acts) + Called(more)
  {
    if more == [] {
      Neutral(acts);
      Neutral(Called(acts));
    } else {
      FrontOfJoin(acts, more);
      CalledJoin(acts, more[..|more| - 1]);
      Associate(Called(acts), Called(more[..|more| - 1]),
                if more[|more| - 1].Call? then [more[|more| - 1].call] else []);
    }
  }

  lemma {:induction false} CalledCallActs(calls: seq<CallDelta>)
    ensures Called(CallActs(calls)) == calls
  {
    if calls != [] {
      assert CallActs(calls)[..|calls| - 1] == CallActs(calls[..|calls| - 1]);
      CalledCallActs(calls[..|calls| - 1]);
    }
  }

  /** No call is ever dropped, whatever is dropped around it. */
  lemma {:induction false} EveryCallCounts(chunks: seq<Chunk>)
    ensures Called(Acts(chunks)) == Calls(chunks)
  {
    if chunks != [] {
      var before, chunk := Acts(chunks[..|chunks| - 1]), chunks[|chunks| - 1];
      EveryCallCounts(chunks[..|chunks| - 1]);
      CalledJoin(before, ActsOf(Talked(before), chunk));
      CalledOf(Talked(before), chunk);
    }
  }

  lemma CalledOf(answering: bool, chunk: Chunk)
    ensures Called(ActsOf(answering, chunk)) == if chunk.Choice? then chunk.calls else []
  {
    if chunk.Choice? {
      CalledJoin(ReasoningActs(answering, chunk.reasoning), AnswerActs(chunk.calls, chunk.content));
      CalledCallActs(chunk.calls);
      NarrativeCallsNothing(ReasoningActs(answering, chunk.reasoning));
      if chunk.calls == [] {
        NarrativeCallsNothing(AnswerActs(chunk.calls, chunk.content));
      }
      Neutral(chunk.calls);
    }
  }

  lemma {:induction false} NarrativeCallsNothing(acts: seq<Act>)
    requires forall i :: 0 <= i < |acts| ==> !acts[i].Call?
    ensures Called(acts) == []
  {
    if acts != [] {
      NarrativeCallsNothing(acts[..|acts| - 1]);
    }
  }

  ghost predicate OwnsBlock(d: Draft, declared: string -> string, calls: seq<CallDelta>, c: int) {
    match d
    case Draft(page, blockOf) =>
      var first := FirstOf(calls, c);
      && (c in blockOf <==> first < |calls|)
      && (c in blockOf ==>
            && blockOf[c] < |page.blocks|
            && page.blocks[blockOf[c]]
               == Block(ToolBlock(calls[first].id, declared(calls[first].name)), Fragments(calls, c)))
  }

  lemma {:induction false} FirstOfAppend(calls: seq<CallDelta>, call: CallDelta, c: int)
    ensures FirstOf(calls + [call], c)
         == if FirstOf(calls, c) < |calls| || call.index == c then FirstOf(calls, c) else |calls| + 1
  {
    if calls == [] {
      assert FirstOf([call], c) == if call.index == c then 0 else 1 + FirstOf([call][1..], c);
    } else if calls[0].index != c {
      assert (calls + [call])[1..] == calls[1..] + [call];
      FirstOfAppend(calls[1..], call, c);
    }
  }

  lemma {:induction false} UnheardOf(calls: seq<CallDelta>, c: int)
    requires FirstOf(calls, c) == |calls|
    ensures Fragments(calls, c) == ""
  {
    if calls != [] {
      var before := calls[..|calls| - 1];
      assert before + [calls[|calls| - 1]] == calls;
      FirstOfAppend(before, calls[|calls| - 1], c);
      UnheardOf(before, c);
    }
  }

  /** A block apart from the others: nobody else's fragments go there. */
  ghost predicate Apart(d: Draft, c: int) {
    match d
    case Draft(page, blockOf) =>
      c in blockOf ==> blockOf[c] < |page.blocks| && page.blocks[blockOf[c]].opening.ToolBlock?
                       && forall e :: e in blockOf && e != c ==> blockOf[e] != blockOf[c]
  }

  lemma PerformApart(d: Draft, declared: string -> string, act: Act, c: int)
    requires Apart(d, c) && forall e :: e in d.blockOf ==> d.blockOf[e] < |d.page.blocks|
    ensures Apart(Perform(d, declared, act), c)
    ensures forall e :: e in Perform(d, declared, act).blockOf ==>
              Perform(d, declared, act).blockOf[e] < |Perform(d, declared, act).page.blocks|
  {
    PerformGrows(d, declared, act);
  }

  lemma {:induction false} DrawApart(declared: string -> string, acts: seq<Act>, c: int)
    ensures Apart(Draw(declared, acts), c)
    ensures forall e :: e in Draw(declared, acts).blockOf ==>
              Draw(declared, acts).blockOf[e] < |Draw(declared, acts).page.blocks|
  {
    if acts != [] {
      DrawApart(declared, acts[..|acts| - 1], c);
      PerformApart(Draw(declared, acts[..|acts| - 1]), declared, acts[|acts| - 1], c);
    }
  }

  /** Narrative never touches a tool block. */
  lemma NarrativeApart(d: Draft, declared: string -> string, act: Act, c: int)
    requires Apart(d, c) && c in d.blockOf && !act.Call?
    ensures var next := Perform(d, declared, act);
            next.blockOf == d.blockOf && d.blockOf[c] < |next.page.blocks|
            && next.page.blocks[d.blockOf[c]] == d.page.blocks[d.blockOf[c]]
  {
  }

  lemma CallOwns(d: Draft, declared: string -> string, calls: seq<CallDelta>, call: CallDelta, c: int)
    requires OwnsBlock(d, declared, calls, c) && Apart(d, c)
    requires call.index in d.blockOf ==> d.blockOf[call.index] < |d.page.blocks|
    ensures OwnsBlock(Perform(d, declared, Call(call)), declared, calls + [call], c)
  {
    FirstOfAppend(calls, call, c);
    FragmentsAppend(calls, call, c);
    if c !in d.blockOf {
      UnheardOf(calls, c);
      ExtendFresh(d.page.blocks, ToolBlock(call.id, declared(call.name)), call.arguments);
      Neutral(call.arguments);
    } else {
      Neutral(d.page.blocks[d.blockOf[c]].body);
    }
  }

  lemma FragmentsAppend(calls: seq<CallDelta>, call: CallDelta, c: int)
    ensures Fragments(calls + [call], c) == Fragments(calls, c) + (if call.index == c then call.arguments else "")
  {
    Front(calls, call);
  }

  /** Each upstream call index owns one block: announced with the id and name it was first heard with,
      and holding every fragment of that index and none of any other. */
  lemma {:induction false} EachCallOwnsABlock(declared: string -> string, acts: seq<Act>, c: int)
    ensures OwnsBlock(Draw(declared, acts), declared, Called(acts), c)
  {
    if acts != [] {
      var before, act := acts[..|acts| - 1], acts[|acts| - 1];
      var d := Draw(declared, before);
      EachCallOwnsABlock(declared, before, c);
      DrawApart(declared, before, c);
      if act.Call? {
        CallOwns(d, declared, Called(before), act.call, c);
      } else {
        assert Called(acts) == Called(before);
        if c in d.blockOf {
          NarrativeApart(d, declared, act, c);
        }
      }
    }
  }

  /** On a completed run every upstream call arrives whole, in a block no other call shares, however
      its fragments were interleaved with other calls, reasoning and text. */
  lemma ParallelCallsArriveWhole(declared: string -> string, names: string -> string, chunks: seq<Chunk>, c: int,
                                 e: int)
    requires Verdict(chunks).Completed? && c != e
    requires FirstOf(Calls(chunks), c) < |Calls(chunks)| && FirstOf(Calls(chunks), e) < |Calls(chunks)|
    ensures var d, blocks := Draw(declared, Acts(chunks)), Delivered(declared, names, chunks).blocks;
            && c in d.blockOf && e in d.blockOf && d.blockOf[c] != d.blockOf[e]
            && d.blockOf[c] < |blocks|
            && blocks[d.blockOf[c]].body == Fragments(Calls(chunks), c)
            && blocks[d.blockOf[c]].opening
               == ToolBlock(Calls(chunks)[FirstOf(Calls(chunks), c)].id,
                            declared(Calls(chunks)[FirstOf(Calls(chunks), c)].name))
  {
    assert chunks[..FirstFault(chunks)] == chunks;
    EveryCallCounts(chunks);
    EachCallOwnsABlock(declared, Acts(chunks), c);
    EachCallOwnsABlock(declared, Acts(chunks), e);
    DrawApart(declared, Acts(chunks), c);
  }

  // ---- nothing lost ----------------------------------------------------------------------------

  /** What one act adds to what a reader sees. */
  function Adds(declared: string -> string, before: seq<Act>, act: Act): seq<Piece> {
    match act
    case Think(text) => Spoken(ThinkingLane, text)
    case Talk(text) => Spoken(TextLane, text)
    case Call(call) =>
      if FirstOf(Called(before), call.index) < |Called(before)| then []
      else [Announced(ToolBlock(call.id, declared(call.name)))]
  }

  function Said(declared: string -> string, acts: seq<Act>): seq<Piece> {
    if acts == [] then []
    else Said(declared, acts[..|acts| - 1]) + Adds(declared, acts[..|acts| - 1], acts[|acts| - 1])
  }

  lemma CallShown(d: Draft, declared: string -> string, call: CallDelta)
    requires forall c :: c in d.blockOf ==>
               d.blockOf[c] < |d.page.blocks| && d.page.blocks[d.blockOf[c]].opening.ToolBlock?
    ensures Shown(Perform(d, declared, Call(call)).page.blocks)
         == Shown(d.page.blocks)
            + if call.index in d.blockOf then [] else [Announced(ToolBlock(call.id, declared(call.name)))]
  {
    var opening := ToolBlock(call.id, declared(call.name));
    var known := Announce(d, call, opening);
    if call.index !in d.blockOf {
      ShownBegin(d.page, opening, "");
    } else {
      assert Shown(d.page.blocks) + [] == Shown(d.page.blocks);
    }
    ShownArguments(known.page.blocks, known.blockOf[call.index], call.arguments);
  }

  /** The page shows what the acts say, each once and in order: coalescing fragments into blocks and
      routing arguments loses, duplicates and reorders nothing. */
  lemma {:induction false} NothingLost(declared: string -> string, acts: seq<Act>)
    ensures Shown(Draw(declared, acts).page.blocks) == Said(declared, acts)
  {
    if acts != [] {
      var before, act := acts[..|acts| - 1], acts[|acts| - 1];
      var d := Draw(declared, before);
      NothingLost(declared, before);
      match act
      case Think(text) => ShownSay(d.page, ThinkingBlock, text);
      case Talk(text) => ShownSay(d.page, TextBlock, text);
      case Call(call) =>
        forall c | c in d.blockOf
          ensures d.blockOf[c] < |d.page.blocks| && d.page.blocks[d.blockOf[c]].opening.ToolBlock?
        {
          DrawApart(declared, before, c);
        }
        EachCallOwnsABlock(declared, before, call.index);
        CallShown(d, declared, call);
    }
  }

  // ---- what is dropped -------------------------------------------------------------------------

  /** The text that counts. */
  function Spelled(acts: seq<Act>): string {
    if acts == [] then ""
    else Spelled(acts[..|acts| - 1]) + (if acts[|acts| - 1].Talk? then acts[|acts| - 1].text else "")
  }

  lemma {:induction false} SpelledJoin(acts: seq<Act>, more: seq<Act>)
    ensures Spelled(acts + more) == Spelled(acts) + Spelled(more)
  {
    if more == [] {
      assert acts + more == acts;
    } else {
      assert (acts + more)[..|acts + more| - 1] == acts + more[..|more| - 1];
      SpelledJoin(acts, more[..|more| - 1]);
    }
  }

  lemma {:induction false} CallsSpellNothing(calls: seq<CallDelta>)
    ensures Spelled(CallActs(calls)) == ""
  {
    if calls != [] {
      assert CallActs(calls)[..|calls| - 1] == CallActs(calls[..|calls| - 1]);
      CallsSpellNothing(calls[..|calls| - 1]);
    }
  }

  predicate DropsText(chunk: Chunk) {
    chunk.Choice? && chunk.calls != [] && chunk.content != ""
  }

  predicate DropsAny(chunks: seq<Chunk>) {
    exists i :: 0 <= i < |chunks| && DropsText(chunks[i])
  }

  lemma DropsAnyStep(chunks: seq<Chunk>)
    requires chunks != []
    ensures DropsAny(chunks) == (DropsAny(chunks[..|chunks| - 1]) || DropsText(chunks[|chunks| - 1]))
  {
    if DropsAny(chunks[..|chunks| - 1]) {
      var i :| 0 <= i < |chunks| - 1 && DropsText(chunks[i]);
    }
  }

  /** What of the text one chunk adds. */
  lemma ChunkSpells(answering: bool, chunk: Chunk)
    ensures Spelled(ActsOf(answering, chunk))
         == if chunk.Choice? && !DropsText(chunk) then chunk.content else ""
  {
    if chunk.Choice? {
      SpelledJoin(ReasoningActs(answering, chunk.reasoning), AnswerActs(chunk.calls, chunk.content));
      CallsSpellNothing(chunk.calls);
    }
  }

  lemma {:induction false} TextNeverGrows(chunks: seq<Chunk>)
    ensures |Spelled(Acts(chunks))| <= |Carried(chunks)|
  {
    if chunks != [] {
      var before := Acts(chunks[..|chunks| - 1]);
      TextNeverGrows(chunks[..|chunks| - 1]);
      SpelledJoin(before, ActsOf(Talked(before), chunks[|chunks| - 1]));
      ChunkSpells(Talked(before), chunks[|chunks| - 1]);
    }
  }

  /** The whole answer arrives if and only if no chunk carries text beside tool calls. */
  lemma {:induction false} WholeAnswerIff(chunks: seq<Chunk>)
    ensures Spelled(Acts(chunks)) == Carried(chunks) <==> !DropsAny(chunks)
  {
    if chunks != [] {
      var last := |chunks| - 1;
      var before := Acts(chunks[..last]);
      WholeAnswerIff(chunks[..last]);
      TextNeverGrows(chunks[..last]);
      SpelledJoin(before, ActsOf(Talked(before), chunks[last]));
      ChunkSpells(Talked(before), chunks[last]);
      SameTail(Spelled(before), Carried(chunks[..last]), Spelled(ActsOf(Talked(before), chunks[last])));
      DropsAnyStep(chunks);
    }
  }

  lemma SameTail(a: string, b: string, tail: string)
    ensures a + tail == b + tail <==> a == b
  {
    if a + tail == b + tail {
      assert |a| == |b|;
      assert a == (a + tail)[..|a|] && b == (b + tail)[..|b|];
    }
  }
}
