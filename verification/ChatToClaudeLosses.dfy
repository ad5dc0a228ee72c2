/** What a Claude client never sees of a Chat Completions stream beside text sent with calls: reasoning
    that comes after the answer began, and what a call was told of itself after it was announced. */
module ChatToClaudeLosses {
  import opened ClaudeClient
  import opened ClaudePage
  import opened ChatUpstream
  import opened ChatToClaudeDocument
  import opened ChatToClaudeFidelity
  import opened Sequences

  // ---- late reasoning --------------------------------------------------------------------------

  /** The reasoning that counts. */
  function Thought(acts: seq<Act>): string {
    if acts == [] then ""
    else Thought(acts[..|acts| - 1]) + (if acts[|acts| - 1].Think? then acts[|acts| - 1].text else "")
  }

  /** A chunk whose text is delivered. */
  predicate Answers(chunk: Chunk) {
    chunk.Choice? && chunk.calls == [] && chunk.content != ""
  }

  predicate Answered(chunks: seq<Chunk>) {
    chunks != [] && (Answered(chunks[..|chunks| - 1]) || Answers(chunks[|chunks| - 1]))
  }

  /** A chunk carries reasoning and an earlier one text that was delivered. */
  predicate LateReasoning(chunks: seq<Chunk>) {
    chunks != []
    && (LateReasoning(chunks[..|chunks| - 1])
        || (Answered(chunks[..|chunks| - 1])
            && chunks[|chunks| - 1].Choice? && chunks[|chunks| - 1].reasoning != ""))
  }

  lemma {:induction false} ThoughtJoin(acts: seq<Act>, more: seq<Act>)
    ensures Thought(acts + more) == Thought(acts) + Thought(more)
  {
    if more == [] {
      Neutral(acts);
      Neutral(Thought(acts));
    } else {
      FrontOfJoin(acts, more);
      ThoughtJoin(acts, more[..|more| - 1]);
      Associate(Thought(acts), Thought(more[..|more| - 1]),
                if more[|more| - 1].Think? then more[|more| - 1].text else "");
    }
  }

  lemma {:induction false} NothingThought(acts: seq<Act>)
    requires forall i :: 0 <= i < |acts| ==> !acts[i].Think?
    ensures Thought(acts) == ""
  {
    if acts != [] {
      NothingThought(acts[..|acts| - 1]);
    }
  }

  /** What of the reasoning one chunk adds. */
  lemma ChunkThinks(answering: bool, chunk: Chunk)
    ensures Thought(ActsOf(answering, chunk)) == if chunk.Choice? && !answering then chunk.reasoning else ""
  {
    if chunk.Choice? {
      var reasoning := ReasoningActs(answering, chunk.reasoning);
      ThoughtJoin(reasoning, AnswerActs(chunk.calls, chunk.content));
      NothingThought(AnswerActs(chunk.calls, chunk.content));
      Neutral(Thought(reasoning));
      if reasoning != [] {
        OneThought(chunk.reasoning);
      }
    }
  }

  lemma OneThought(text: string)
    ensures Thought([Think(text)]) == text
  {
    assert [Think(text)][..0] == [];
  }

  lemma TalkedJoin(acts: seq<Act>, more: seq<Act>)
    ensures Talked(acts + more) <==> Talked(acts) || Talked(more)
  {
    var all := acts + more;
    if i :| 0 <= i < |acts| && acts[i].Talk? {
      assert all[i] == acts[i];
    }
    if i :| 0 <= i < |more| && more[i].Talk? {
      assert all[|acts| + i] == more[i];
    }
    if i :| 0 <= i < |all| && all[i].Talk? {
      assert i < |acts| ==> all[i] == acts[i];
      assert i >= |acts| ==> all[i] == more[i - |acts|];
    }
  }

  lemma ChunkTalks(answering: bool, chunk: Chunk)
    ensures Talked(ActsOf(answering, chunk)) <==> Answers(chunk)
  {
    if chunk.Choice? {
      TalkedJoin(ReasoningActs(answering, chunk.reasoning), AnswerActs(chunk.calls, chunk.content));
      if Answers(chunk) {
        assert AnswerActs(chunk.calls, chunk.content)[0].Talk?;
      }
    }
  }

  lemma {:induction false} AnsweredIsTalked(chunks: seq<Chunk>)
    ensures Talked(Acts(chunks)) <==> Answered(chunks)
  {
    if chunks != [] {
      var before := Acts(chunks[..|chunks| - 1]);
      AnsweredIsTalked(chunks[..|chunks| - 1]);
      TalkedJoin(before, ActsOf(Talked(before), chunks[|chunks| - 1]));
      ChunkTalks(Talked(before), chunks[|chunks| - 1]);
    }
  }

  lemma {:induction false} ReasoningNeverGrows(chunks: seq<Chunk>)
    ensures |Thought(Acts(chunks))| <= |Reasoned(chunks)|
  {
    if chunks != [] {
      var before := Acts(chunks[..|chunks| - 1]);
      ReasoningNeverGrows(chunks[..|chunks| - 1]);
      ThoughtJoin(before, ActsOf(Talked(before), chunks[|chunks| - 1]));
      ChunkThinks(Talked(before), chunks[|chunks| - 1]);
    }
  }

  /** The whole reasoning arrives if and only if none comes after text that was delivered. */
  lemma {:induction false} WholeReasoningIff(chunks: seq<Chunk>)
    ensures Thought(Acts(chunks)) == Reasoned(chunks) <==> !LateReasoning(chunks)
  {
    if chunks != [] {
      var last := |chunks| - 1;
      var before := Acts(chunks[..last]);
      WholeReasoningIff(chunks[..last]);
      ReasoningNeverGrows(chunks[..last]);
      AnsweredIsTalked(chunks[..last]);
      ThoughtJoin(before, ActsOf(Talked(before), chunks[last]));
      ChunkThinks(Talked(before), chunks[last]);
      SameTail(Thought(before), Reasoned(chunks[..last]), Thought(ActsOf(Talked(before), chunks[last])));
    }
  }

  // ---- late identity ---------------------------------------------------------------------------

  /** The first id, or name, that upstream call `c` is given; blank if it never is given one. */
  function FirstSaid(calls: seq<CallDelta>, c: int, field: CallDelta -> string): string {
    if calls == [] then ""
    else if calls[0].index == c && field(calls[0]) != "" then field(calls[0])
    else FirstSaid(calls[1..], c, field)
  }

  predicate IsGiven(calls: seq<CallDelta>, c: int, field: CallDelta -> string) {
    calls != [] && ((calls[0].index == c && field(calls[0]) != "") || IsGiven(calls[1..], c, field))
  }

  /** The first delta of call `c` lacks what another brings. */
  predicate ComesLate(calls: seq<CallDelta>, c: int, field: CallDelta -> string) {
    var first := FirstOf(calls, c);
    first < |calls| && field(calls[first]) == "" && IsGiven(calls, c, field)
  }

  const ID: CallDelta -> string := (call: CallDelta) => call.id

  /** The name a call is given, in the client's spelling. */
  function NameIn(declared: string -> string): CallDelta -> string {
    (call: CallDelta) => declared(call.name)
  }

  lemma {:induction false} FirstIsSaidIff(calls: seq<CallDelta>, c: int, field: CallDelta -> string)
    requires FirstOf(calls, c) < |calls|
    ensures field(calls[FirstOf(calls, c)]) == FirstSaid(calls, c, field) <==> !ComesLate(calls, c, field)
    ensures field(calls[FirstOf(calls, c)]) != FirstSaid(calls, c, field) ==> field(calls[FirstOf(calls, c)]) == ""
  {
    if calls[0].index == c {
      SaidIffGiven(calls, c, field);
    } else {
      FirstIsSaidIff(calls[1..], c, field);
    }
  }

  lemma {:induction false} SaidIffGiven(calls: seq<CallDelta>, c: int, field: CallDelta -> string)
    ensures FirstSaid(calls, c, field) != "" <==> IsGiven(calls, c, field)
  {
    if calls != [] {
      SaidIffGiven(calls[1..], c, field);
    }
  }

  /** A call's block bears the first id and the first name the call was given if and only if neither
      came after the call's first delta. */
  lemma AnnouncedInFullIff(declared: string -> string, chunks: seq<Chunk>, c: int)
    requires FirstOf(Calls(chunks), c) < |Calls(chunks)|
    ensures var d, calls := Draw(declared, Acts(chunks)), Calls(chunks);
            && c in d.blockOf && d.blockOf[c] < |d.page.blocks|
            && (d.page.blocks[d.blockOf[c]].opening
                == ToolBlock(FirstSaid(calls, c, ID), FirstSaid(calls, c, NameIn(declared)))
                <==> !ComesLate(calls, c, ID) && !ComesLate(calls, c, NameIn(declared)))
  {
    EveryCallCounts(chunks);
    EachCallOwnsABlock(declared, Acts(chunks), c);
    FirstIsSaidIff(Calls(chunks), c, ID);
    FirstIsSaidIff(Calls(chunks), c, NameIn(declared));
  }
}
