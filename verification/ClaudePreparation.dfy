/** Making a nested conversation acceptable to Anthropic: neighbours merged, every call answered, no
    turn left ending in thinking, and the user first.

    Each step is a method with the source's loop, tied to a function of the messages; what the steps
    promise together is at the end. */
module ClaudePreparation {
  import opened ClaudeHistory
  import opened Sequences

  const UNAVAILABLE :=
    "[The result of this tool call is unavailable: the turn was interrupted before it returned output.]"

  // ---- merging ---------------------------------------------------------------------------------

  /** One step of the merging loops: a message joins the last one when they share a role. */
  function Join(out: seq<Message>, m: Message): seq<Message> {
    var n := |out|;
    if n > 0 && out[n - 1].role == m.role
    then out[..n - 1] + [Message(m.role, out[n - 1].blocks + m.blocks)]
    else out + [m]
  }

  /** Merged, a conversation is its blocks grouped by role. */
  function Merged(messages: seq<Message>): seq<Message> {
    Group(Flat(messages))
  }

  lemma JoinFlat(out: seq<Message>, m: Message)
    ensures Flat(Join(out, m)) == Flat(out) + InRole(m.role, m.blocks)
  {
    var n := |out|;
    if n > 0 && out[n - 1].role == m.role {
      FlatAppend(out[..n - 1], Message(m.role, out[n - 1].blocks + m.blocks));
      InRoleJoin(m.role, out[n - 1].blocks, m.blocks);
      Associate(Flat(out[..n - 1]), InRole(m.role, out[n - 1].blocks), InRole(m.role, m.blocks));
    } else {
      FlatAppend(out, m);
    }
  }

  lemma JoinIsMerging(messages: seq<Message>, i: nat)
    requires i < |messages| && NoneEmpty(messages)
    ensures Join(Merged(messages[..i]), messages[i]) == Merged(messages[..i + 1])
  {
    var out, m := Merged(messages[..i]), messages[i];
    GroupShape(Flat(messages[..i]));
    GroupFlat(Flat(messages[..i]));
    JoinFlat(out, m);
    TakeNext(messages, i);
    FlatAppend(messages[..i], m);
    GroupShape(Flat(messages[..i + 1]));
    GroupFlat(Flat(messages[..i + 1]));
    JoinShape(out, m);
    SameBlocksSameHistory(Join(out, m), Merged(messages[..i + 1]));
  }

  lemma JoinShape(out: seq<Message>, m: Message)
    requires Alternates(out) && NoneEmpty(out) && m.blocks != []
    ensures Alternates(Join(out, m)) && NoneEmpty(Join(out, m))
  {
  }

  /** `mergeAdjacentClaudeMessages`. */
  method MergeAdjacent(messages: seq<Message>) returns (out: seq<Message>)
    requires NoneEmpty(messages)
    ensures out == Merged(messages)
  {
    out := [];
    for i := 0 to |messages|
      invariant out == Merged(messages[..i])
    {
      JoinIsMerging(messages, i);
      out := Join(out, messages[i]);
    }
    assert messages[..|messages|] == messages;
  }

  // ---- answering calls -------------------------------------------------------------------------

  function ResultIds(blocks: seq<Block>): set<string> {
    set i | 0 <= i < |blocks| && blocks[i].ToolResult? && blocks[i].toolUseId != "" :: blocks[i].toolUseId
  }

  /** The calls some user message answers. */
  function Answered(messages: seq<Message>): set<string> {
    if messages == [] then {}
    else
      var last := messages[|messages| - 1];
      Answered(messages[..|messages| - 1]) + (if last.role.User? then ResultIds(last.blocks) else {})
  }

  /** The calls of an assistant message nobody has answered, each once and in order. */
  function Missing(answered: set<string>, blocks: seq<Block>): seq<string> {
    if blocks == [] then []
    else
      var before, last := Missing(answered, blocks[..|blocks| - 1]), blocks[|blocks| - 1];
      if last.ToolUse? && last.id != "" && last.id !in answered && last.id !in before then before + [last.id]
      else before
  }

  function Ids(ids: seq<string>): set<string> {
    set i | 0 <= i < |ids| :: ids[i]
  }

  /** The stand-in results for calls that have none. */
  function StandIns(ids: seq<string>): seq<Block> {
    seq(|ids|, i requires 0 <= i < |ids| => ToolResult(ids[i], Plain(UNAVAILABLE), false))
  }

  /** A message and those after it, each call answered right after its message. */
  function Paired(answered: set<string>, messages: seq<Message>): seq<Message>
    decreases |messages|
  {
    if messages == [] then []
    else
      var m, rest := messages[0], messages[1..];
      if m.role.User? then [m] + Paired(answered, rest)
      else
        var missing := Missing(answered, m.blocks);
        if missing == [] then [m] + Paired(answered, rest)
        else if rest != [] && rest[0].role.User? then
          [m, Message(User, StandIns(missing) + rest[0].blocks)] + Paired(answered + Ids(missing), rest[1..])
        else [m, Message(User, StandIns(missing))] + Paired(answered + Ids(missing), rest)
  }

  method CollectAnswered(messages: seq<Message>) returns (answered: set<string>)
    ensures answered == Answered(messages)
  {
    answered := {};
    for i := 0 to |messages|
      invariant answered == Answered(messages[..i])
    {
      assert messages[..i + 1][..i] == messages[..i];
      if messages[i].role.User? {
        answered := answered + ResultIds(messages[i].blocks);
      }
    }
    assert messages[..|messages|] == messages;
  }

  method CollectMissing(answered: set<string>, blocks: seq<Block>) returns (missing: seq<string>)
    ensures missing == Missing(answered, blocks)
  {
    missing := [];
    for i := 0 to |blocks|
      invariant missing == Missing(answered, blocks[..i])
    {
      assert blocks[..i + 1][..i] == blocks[..i];
      var b := blocks[i];
      if b.ToolUse? && b.id != "" && b.id !in answered && b.id !in missing {
        missing := missing + [b.id];
      }
    }
    assert blocks[..|blocks|] == blocks;
  }

  /** `pairClaudeToolUsesWithResults`: walking the list, extending it where a result has to be put in. */
  method PairToolUses(messages0: seq<Message>) returns (messages: seq<Message>)
    ensures messages == Paired(Answered(messages0), messages0)
  {
    messages := messages0;
    var answered := CollectAnswered(messages0);
    ghost var goal := Paired(answered, messages0);
    var i := 0;
    while i < |messages|
      invariant i <= |messages|
      invariant messages[..i] + Paired(answered, messages[i..]) == goal
      decreases |messages| - i
    {
      ghost var rest := messages[i..];
      var missing: seq<string> := [];
      if messages[i].role.Assistant? {
        missing := CollectMissing(answered, messages[i].blocks);
      }
      if missing == [] {
        WalkOn(answered, messages, i);
        i := i + 1;
      } else {
        ghost var before := messages;
        var j := i + 1;
        if j < |messages| && messages[j].role.User? {
          messages := messages[j := Message(User, StandIns(missing) + messages[j].blocks)];
        } else {
          messages := messages[..j] + [Message(User, StandIns(missing))] + messages[j..];
        }
        WalkPast(answered, before, messages, i, missing);
        answered := answered + Ids(missing);
        i := i + 2;
      }
    }
  }

  lemma WalkOn(answered: set<string>, messages: seq<Message>, i: nat)
    requires i < |messages|
    requires messages[i].role.Assistant? ==> Missing(answered, messages[i].blocks) == []
    ensures messages[..i] + Paired(answered, messages[i..]) == messages[..i + 1] + Paired(answered, messages[i + 1..])
  {
    assert messages[i..][1..] == messages[i + 1..];
    assert messages[..i + 1] == messages[..i] + [messages[i]];
    Associate(messages[..i], [messages[i]], Paired(answered, messages[i + 1..]));
  }

  lemma WalkPast(answered: set<string>, messages: seq<Message>, next: seq<Message>, i: nat, missing: seq<string>)
    requires i < |messages| && messages[i].role.Assistant? && missing == Missing(answered, messages[i].blocks) != []
    requires next == if i + 1 < |messages| && messages[i + 1].role.User?
                     then messages[i + 1 := Message(User, StandIns(missing) + messages[i + 1].blocks)]
                     else messages[..i + 1] + [Message(User, StandIns(missing))] + messages[i + 1..]
    ensures |next| >= i + 2
    ensures messages[..i] + Paired(answered, messages[i..])
         == next[..i + 2] + Paired(answered + Ids(missing), next[i + 2..])
  {
    var rest := messages[i..];
    assert rest[1..] == messages[i + 1..];
    if i + 1 < |messages| && messages[i + 1].role.User? {
      assert rest[1..][1..] == messages[i + 2..] == next[i + 2..];
    } else {
      assert next[i + 2..] == messages[i + 1..];
    }
    assert next[..i + 2] == messages[..i] + [messages[i], next[i + 1]];
    Associate(messages[..i], [messages[i], next[i + 1]], Paired(answered + Ids(missing), next[i + 2..]));
  }

  // ---- trailing thinking -----------------------------------------------------------------------

  function TrimThinking(blocks: seq<Block>): seq<Block> {
    if blocks != [] && blocks[|blocks| - 1].Thinking? then TrimThinking(blocks[..|blocks| - 1]) else blocks
  }

  predicate HasRedacted(blocks: seq<Block>) {
    exists i :: 0 <= i < |blocks| && blocks[i].Thinking? && blocks[i].thought.redacted
  }

  const Placeholder := Thinking(Thought(false, "", Null))

  /** What is left of one message: its trailing thinking is trimmed; a turn of nothing but thinking
      goes, or keeps its place as one empty thinking block when some of it was redacted. */
  function Keep(m: Message): seq<Message> {
    if m.role.User? then [m]
    else if TrimThinking(m.blocks) != [] then [Message(m.role, TrimThinking(m.blocks))]
    else if HasRedacted(m.blocks) then [Message(m.role, [Placeholder])]
    else []
  }

  function KeptOf(messages: seq<Message>): seq<Message> {
    if messages == [] then [] else KeptOf(messages[..|messages| - 1]) + Keep(messages[|messages| - 1])
  }

  method CountUntrimmed(blocks: seq<Block>) returns (trimmed: nat)
    ensures trimmed <= |blocks| && blocks[..trimmed] == TrimThinking(blocks)
  {
    trimmed := |blocks|;
    assert blocks[..|blocks|] == blocks;
    while trimmed > 0 && blocks[trimmed - 1].Thinking?
      invariant trimmed <= |blocks| && TrimThinking(blocks[..trimmed]) == TrimThinking(blocks)
    {
      assert blocks[..trimmed][..trimmed - 1] == blocks[..trimmed - 1];
      trimmed := trimmed - 1;
    }
  }

  method KeepMessage(m: Message) returns (kept: seq<Message>)
    ensures kept == Keep(m)
  {
    kept := [m];
    if m.role.Assistant? {
      var trimmed := CountUntrimmed(m.blocks);
      if trimmed > 0 {
        kept := [Message(m.role, m.blocks[..trimmed])];
      } else if HasRedacted(m.blocks) {
        kept := [Message(m.role, [Placeholder])];
      } else {
        kept := [];
      }
    }
  }

  lemma {:induction false} KeptNonEmpty(messages: seq<Message>)
    requires NoneEmpty(messages)
    ensures NoneEmpty(KeptOf(messages))
  {
    if messages != [] {
      KeptNonEmpty(messages[..|messages| - 1]);
    }
  }

  /** `dropTrailingAssistantThinking`. */
  method DropTrailingThinking(messages: seq<Message>) returns (result: seq<Message>)
    requires NoneEmpty(messages)
    ensures result == Merged(KeptOf(messages))
  {
    var out: seq<Message> := [];
    for i := 0 to |messages|
      invariant out == Merged(KeptOf(messages[..i]))
    {
      var kept := KeepMessage(messages[i]);
      KeptStep(messages, i);
      if kept != [] {
        JoinKept(messages, i, kept[0]);
        out := Join(out, kept[0]);
      } else {
        Neutral(KeptOf(messages[..i]));
      }
    }
    assert messages[..|messages|] == messages;
    KeptNonEmpty(messages);
    GroupShape(Flat(KeptOf(messages)));
    result := MergeAdjacent(out);
    GroupFlat(Flat(KeptOf(messages)));
  }

  lemma KeptStep(messages: seq<Message>, i: nat)
    requires i < |messages|
    ensures KeptOf(messages[..i + 1]) == KeptOf(messages[..i]) + Keep(messages[i])
  {
    assert messages[..i + 1][..i] == messages[..i];
  }

  lemma JoinKept(messages: seq<Message>, i: nat, m: Message)
    requires i < |messages| && NoneEmpty(messages) && Keep(messages[i]) == [m]
    ensures Join(Merged(KeptOf(messages[..i])), m) == Merged(KeptOf(messages[..i + 1]))
  {
    KeptStep(messages, i);
    var kept := KeptOf(messages[..i + 1]);
    KeptNonEmpty(messages[..i + 1]);
    assert kept[..|kept| - 1] == KeptOf(messages[..i]) && kept[|kept| - 1] == m;
    JoinIsMerging(kept, |kept| - 1);
    assert kept[..|kept|] == kept;
  }

  // ---- the user first --------------------------------------------------------------------------

  const Lead := Message(User, [Text(".")])

  /** `ensureLeadingClaudeUser`. */
  function WithLead(messages: seq<Message>): seq<Message> {
    if messages == [] || messages[0].role.User? then messages else [Lead] + messages
  }

  function Answering(messages: seq<Message>): seq<Message> {
    Paired(Answered(Merged(messages)), Merged(messages))
  }

  function Prepared(messages: seq<Message>): seq<Message> {
    WithLead(Merged(KeptOf(Answering(messages))))
  }

  /** The four steps of a request, in their order. */
  method Prepare(messages: seq<Message>) returns (result: seq<Message>)
    requires NoneEmpty(messages)
    ensures result == Prepared(messages)
  {
    GroupShape(Flat(messages));
    result := MergeAdjacent(messages);
    PairedNonEmpty(Answered(result), result);
    result := PairToolUses(result);
    result := DropTrailingThinking(result);
    result := WithLead(result);
  }

  lemma {:induction false} PairedNonEmpty(answered: set<string>, messages: seq<Message>)
    requires NoneEmpty(messages)
    ensures NoneEmpty(Paired(answered, messages))
    decreases |messages|
  {
    if messages != [] {
      var m, rest := messages[0], messages[1..];
      var missing := if m.role.User? then [] else Missing(answered, m.blocks);
      if missing == [] {
        PairedNonEmpty(answered, rest);
      } else if rest != [] && rest[0].role.User? {
        PairedNonEmpty(answered + Ids(missing), rest[1..]);
      } else {
        PairedNonEmpty(answered + Ids(missing), rest);
      }
    }
  }
}
