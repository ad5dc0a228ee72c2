/** Claude conversations: messages of blocks, and the same conversation as a flat list of blocks with
    their roles. */
module ClaudeHistory {
  import opened Sequences

  datatype Json =
    | Null
    | Flag(bool)
    | Number(text: string)
    | String(string)
    | List(seq<Json>)
    | Object(fields: seq<(string, Json)>)

  datatype Role = User | Assistant

  /** A thinking or redacted thinking block, carried whole; `rest` is everything beside its text. */
  datatype Thought = Thought(redacted: bool, text: string, rest: Json)

  datatype ResultPart = TextPart(text: string) | ImagePart(mediaType: string, data: string) | LinkPart(url: string)

  datatype ResultContent = Plain(text: string) | Parts(parts: seq<ResultPart>)

  datatype Block =
    | Text(text: string)
    | Image(mediaType: string, data: string)
    | LinkedImage(url: string)
    | ToolUse(id: string, name: string, input: Json)
    | ToolResult(toolUseId: string, content: ResultContent, failed: bool)
    | Thinking(thought: Thought)

  datatype Message = Message(role: Role, blocks: seq<Block>)

  datatype Placed = Placed(role: Role, block: Block)

  /** A message as a client sends it: content that is one string, or a list of blocks. */
  datatype Content = Words(text: string) | Blocks(blocks: seq<Block>)

  datatype Turn = Turn(role: Role, content: Content)

  // ---- flat and grouped ------------------------------------------------------------------------

  function InRole(role: Role, blocks: seq<Block>): seq<Placed> {
    seq(|blocks|, i requires 0 <= i < |blocks| => Placed(role, blocks[i]))
  }

  function Flat(messages: seq<Message>): seq<Placed> {
    if messages == [] then []
    else Flat(messages[..|messages| - 1]) + InRole(messages[|messages| - 1].role, messages[|messages| - 1].blocks)
  }

  /** A block joins the last message when that has its role, and begins a message otherwise. */
  function Push(messages: seq<Message>, p: Placed): seq<Message> {
    var n := |messages|;
    if n > 0 && messages[n - 1].role == p.role
    then messages[..n - 1] + [Message(p.role, messages[n - 1].blocks + [p.block])]
    else messages + [Message(p.role, [p.block])]
  }

  function Group(placed: seq<Placed>): seq<Message> {
    if placed == [] then [] else Push(Group(placed[..|placed| - 1]), placed[|placed| - 1])
  }

  ghost predicate Alternates(messages: seq<Message>) {
    forall i :: 0 <= i < |messages| - 1 ==> messages[i].role != messages[i + 1].role
  }

  ghost predicate NoneEmpty(messages: seq<Message>) {
    forall i :: 0 <= i < |messages| ==> messages[i].blocks != []
  }

  lemma FlatAppend(messages: seq<Message>, m: Message)
    ensures Flat(messages + [m]) == Flat(messages) + InRole(m.role, m.blocks)
  {
    assert (messages + [m])[..|messages|] == messages;
  }

  lemma {:induction false} FlatJoin(a: seq<Message>, b: seq<Message>)
    ensures Flat(a + b) == Flat(a) + Flat(b)
  {
    if b == [] {
      Neutral(a);
      Neutral(Flat(a));
    } else {
      FrontOfJoin(a, b);
      FlatJoin(a, b[..|b| - 1]);
      Associate(Flat(a), Flat(b[..|b| - 1]), InRole(b[|b| - 1].role, b[|b| - 1].blocks));
    }
  }

  lemma InRoleAppend(role: Role, blocks: seq<Block>, block: Block)
    ensures InRole(role, blocks + [block]) == InRole(role, blocks) + [Placed(role, block)]
  {
  }

  lemma InRoleJoin(role: Role, a: seq<Block>, b: seq<Block>)
    ensures InRole(role, a + b) == InRole(role, a) + InRole(role, b)
  {
  }

  lemma PushFlat(messages: seq<Message>, p: Placed)
    ensures Flat(Push(messages, p)) == Flat(messages) + [p]
  {
    var n := |messages|;
    if n > 0 && messages[n - 1].role == p.role {
      var front, last := messages[..n - 1], messages[n - 1];
      FlatAppend(front, Message(p.role, last.blocks + [p.block]));
      InRoleAppend(p.role, last.blocks, p.block);
      assert Flat(messages) == Flat(front) + InRole(last.role, last.blocks);
    } else {
      FlatAppend(messages, Message(p.role, [p.block]));
      assert InRole(p.role, [p.block]) == [p];
    }
  }

  /** Grouping loses and reorders nothing. */
  lemma {:induction false} GroupFlat(placed: seq<Placed>)
    ensures Flat(Group(placed)) == placed
  {
    if placed != [] {
      GroupFlat(placed[..|placed| - 1]);
      PushFlat(Group(placed[..|placed| - 1]), placed[|placed| - 1]);
      ButLast(placed);
    }
  }

  lemma {:induction false} GroupShape(placed: seq<Placed>)
    ensures Alternates(Group(placed)) && NoneEmpty(Group(placed))
  {
    if placed != [] {
      GroupShape(placed[..|placed| - 1]);
    }
  }

  lemma GroupAppend(placed: seq<Placed>, p: Placed)
    ensures Group(placed + [p]) == Push(Group(placed), p)
  {
    assert (placed + [p])[..|placed|] == placed;
  }

  lemma {:induction false} GroupMessage(placed: seq<Placed>, m: Message)
    requires m.blocks != []
    requires Group(placed) == [] || Group(placed)[|Group(placed)| - 1].role != m.role
    ensures Group(placed + InRole(m.role, m.blocks)) == Group(placed) + [m]
    decreases |m.blocks|
  {
    var k := |m.blocks| - 1;
    var front := m.blocks[..k];
    assert m.blocks == front + [m.blocks[k]];
    InRoleAppend(m.role, front, m.blocks[k]);
    assert placed + InRole(m.role, m.blocks) == placed + InRole(m.role, front) + [Placed(m.role, m.blocks[k])];
    GroupAppend(placed + InRole(m.role, front), Placed(m.role, m.blocks[k]));
    if k == 0 {
      assert placed + InRole(m.role, front) == placed;
    } else {
      GroupMessage(placed, Message(m.role, front));
    }
  }

  /** A conversation whose roles alternate and whose messages are not empty is its own grouping. */
  lemma {:induction false} GroupOfFlat(messages: seq<Message>)
    requires Alternates(messages) && NoneEmpty(messages)
    ensures Group(Flat(messages)) == messages
  {
    if messages != [] {
      var n := |messages| - 1;
      var front := messages[..n];
      GroupOfFlat(front);
      LastAlternates(messages);
      GroupMessage(Flat(front), messages[n]);
      ButLast(messages);
    }
  }

  lemma LastAlternates(messages: seq<Message>)
    requires Alternates(messages) && messages != []
    ensures var n := |messages| - 1;
            Alternates(messages[..n]) && (n > 0 ==> messages[..n][n - 1].role != messages[n].role)
  {
    var n := |messages| - 1;
    forall i | 0 <= i < n - 1 ensures messages[..n][i].role != messages[..n][i + 1].role {
      assert messages[i].role != messages[i + 1].role;
    }
    assert n > 0 ==> messages[n - 1].role != messages[n - 1 + 1].role;
  }

  /** Two alternating conversations of non-empty messages are the same when their blocks are. */
  lemma SameBlocksSameHistory(a: seq<Message>, b: seq<Message>)
    requires Alternates(a) && NoneEmpty(a) && Alternates(b) && NoneEmpty(b) && Flat(a) == Flat(b)
    ensures a == b
  {
    GroupOfFlat(a);
    GroupOfFlat(b);
  }

  // ---- thinking left out -----------------------------------------------------------------------

  function WithoutThinking(placed: seq<Placed>): seq<Placed> {
    if placed == [] then []
    else
      var last := placed[|placed| - 1];
      WithoutThinking(placed[..|placed| - 1]) + (if last.block.Thinking? then [] else [last])
  }

  lemma {:induction false} WithoutThinkingJoin(a: seq<Placed>, b: seq<Placed>)
    ensures WithoutThinking(a + b) == WithoutThinking(a) + WithoutThinking(b)
  {
    if b == [] {
      Neutral(a);
      Neutral(WithoutThinking(a));
    } else {
      var front, last := b[..|b| - 1], b[|b| - 1];
      WithoutThinkingJoin(a, front);
      SplitLast(a, b);
      assert (a + b)[..|a + b| - 1] == a + front;
      Associate(WithoutThinking(a), WithoutThinking(front), if last.block.Thinking? then [] else [last]);
    }
  }
}
