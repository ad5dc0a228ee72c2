/** Thinking blocks an upstream refuses because they were signed elsewhere: what is cut when it does,
    and the memory that spares the next turn the same refusal. */
module ThinkingRefusal {
  import opened ClaudeHistory
  import opened Sequences
  import Strings = Text

  // ---- messages as they are sent ---------------------------------------------------------------

  /** A string content is the one text block it stands for; a blank one is none. */
  function BlocksIn(content: Content): seq<Block> {
    match content
    case Words(text) => if Strings.TrimSpace(text) == "" then [] else [Text(text)]
    case Blocks(blocks) => blocks
  }

  function FlatTurns(turns: seq<Turn>): seq<Placed> {
    if turns == [] then []
    else
      var last := turns[|turns| - 1];
      FlatTurns(turns[..|turns| - 1]) + InRole(last.role, BlocksIn(last.content))
  }

  /** Neighbours of one role joined, as one message of blocks. */
  function JoinTurn(out: seq<Turn>, t: Turn): seq<Turn> {
    var n := |out|;
    if n > 0 && out[n - 1].role == t.role
    then out[..n - 1] + [Turn(t.role, Blocks(BlocksIn(out[n - 1].content) + BlocksIn(t.content)))]
    else out + [t]
  }

  function MergeTurns(turns: seq<Turn>): seq<Turn> {
    if turns == [] then [] else JoinTurn(MergeTurns(turns[..|turns| - 1]), turns[|turns| - 1])
  }

  /** `mergeAdjacentClaudePassThroughMessages`. */
  method MergeAdjacent(turns: seq<Turn>) returns (out: seq<Turn>)
    ensures out == MergeTurns(turns)
  {
    out := [];
    for i := 0 to |turns|
      invariant out == MergeTurns(turns[..i])
    {
      assert turns[..i + 1][..i] == turns[..i];
      out := JoinTurn(out, turns[i]);
    }
    assert turns[..|turns|] == turns;
  }

  lemma FlatTurnsAppend(turns: seq<Turn>, t: Turn)
    ensures FlatTurns(turns + [t]) == FlatTurns(turns) + InRole(t.role, BlocksIn(t.content))
  {
    assert (turns + [t])[..|turns|] == turns;
  }

  lemma JoinTurnFlat(out: seq<Turn>, t: Turn)
    ensures FlatTurns(JoinTurn(out, t)) == FlatTurns(out) + InRole(t.role, BlocksIn(t.content))
  {
    var n := |out|;
    if n > 0 && out[n - 1].role == t.role {
      var a, b := BlocksIn(out[n - 1].content), BlocksIn(t.content);
      FlatTurnsAppend(out[..n - 1], Turn(t.role, Blocks(a + b)));
      InRoleJoin(t.role, a, b);
      Associate(FlatTurns(out[..n - 1]), InRole(t.role, a), InRole(t.role, b));
    } else {
      FlatTurnsAppend(out, t);
    }
  }

  lemma {:induction false} MergeTurnsFlat(turns: seq<Turn>)
    ensures FlatTurns(MergeTurns(turns)) == FlatTurns(turns)
  {
    if turns != [] {
      MergeTurnsFlat(turns[..|turns| - 1]);
      JoinTurnFlat(MergeTurns(turns[..|turns| - 1]), turns[|turns| - 1]);
    }
  }

  // ---- leaving blocks out ----------------------------------------------------------------------

  /** Which blocks stay, by message, position and block. */
  type Keeping = (nat, nat, Block) -> bool

  function KeptBlocks(keep: Keeping, m: nat, blocks: seq<Block>): seq<Block> {
    if blocks == [] then []
    else
      var n := |blocks| - 1;
      KeptBlocks(keep, m, blocks[..n]) + (if keep(m, n, blocks[n]) then [blocks[n]] else [])
  }

  function KeptTurn(keep: Keeping, m: nat, t: Turn): seq<Block> {
    match t.content
    case Words(_) => BlocksIn(t.content)
    case Blocks(blocks) => KeptBlocks(keep, m, blocks)
  }

  predicate Loses(keep: Keeping, m: nat, t: Turn) {
    t.content.Blocks? && KeptBlocks(keep, m, t.content.blocks) != t.content.blocks
  }

  /** A message that loses nothing stays as it is; one that loses everything goes. */
  function RetainTurn(keep: Keeping, m: nat, t: Turn): seq<Turn> {
    if !Loses(keep, m, t) then [t]
    else if KeptTurn(keep, m, t) == [] then []
    else [Turn(t.role, Blocks(KeptTurn(keep, m, t)))]
  }

  function Retain(keep: Keeping, turns: seq<Turn>): seq<Turn> {
    if turns == [] then []
    else Retain(keep, turns[..|turns| - 1]) + RetainTurn(keep, |turns| - 1, turns[|turns| - 1])
  }

  predicate Changes(keep: Keeping, turns: seq<Turn>) {
    exists m :: 0 <= m < |turns| && Loses(keep, m, turns[m])
  }

  predicate LosesAll(keep: Keeping, m: nat, t: Turn) {
    Loses(keep, m, t) && KeptTurn(keep, m, t) == []
  }

  predicate DropsTurn(keep: Keeping, turns: seq<Turn>) {
    exists m :: 0 <= m < |turns| && LosesAll(keep, m, turns[m])
  }

  /** Only where a whole message goes are neighbours joined. */
  function Stripped(keep: Keeping, turns: seq<Turn>): seq<Turn> {
    if DropsTurn(keep, turns) then MergeTurns(Retain(keep, turns)) else Retain(keep, turns)
  }

  method KeepBlocks(keep: Keeping, m: nat, blocks: seq<Block>) returns (kept: seq<Block>, gone: bool)
    ensures kept == KeptBlocks(keep, m, blocks) && gone == (kept != blocks)
  {
    kept, gone := [], false;
    for b := 0 to |blocks|
      invariant kept == KeptBlocks(keep, m, blocks[..b])
      invariant |kept| <= b && gone == (|kept| < b) && (!gone ==> kept == blocks[..b])
    {
      assert blocks[..b + 1][..b] == blocks[..b];
      if keep(m, b, blocks[b]) {
        kept := kept + [blocks[b]];
      } else {
        gone := true;
      }
    }
    assert blocks[..|blocks|] == blocks;
  }

  lemma RetainStep(keep: Keeping, turns: seq<Turn>, m: nat)
    requires m < |turns|
    ensures Retain(keep, turns[..m + 1]) == Retain(keep, turns[..m]) + RetainTurn(keep, m, turns[m])
    ensures Changes(keep, turns[..m + 1]) == (Changes(keep, turns[..m]) || Loses(keep, m, turns[m]))
    ensures DropsTurn(keep, turns[..m + 1]) == (DropsTurn(keep, turns[..m]) || LosesAll(keep, m, turns[m]))
  {
    TakeNext(turns, m);
    RetainAppend(keep, turns[..m], turns[m]);
    ChangesAppend(keep, turns[..m], turns[m]);
    DropsAppend(keep, turns[..m], turns[m]);
  }

  lemma RetainAppend(keep: Keeping, turns: seq<Turn>, t: Turn)
    ensures Retain(keep, turns + [t]) == Retain(keep, turns) + RetainTurn(keep, |turns|, t)
  {
    Front(turns, t);
  }

  lemma ChangesAppend(keep: Keeping, turns: seq<Turn>, t: Turn)
    ensures Changes(keep, turns + [t]) == (Changes(keep, turns) || Loses(keep, |turns|, t))
  {
    var after := turns + [t];
    assert after[|turns|] == t;
    if k :| 0 <= k < |turns| && Loses(keep, k, turns[k]) {
      assert after[k] == turns[k];
    }
  }

  lemma DropsAppend(keep: Keeping, turns: seq<Turn>, t: Turn)
    ensures DropsTurn(keep, turns + [t]) == (DropsTurn(keep, turns) || LosesAll(keep, |turns|, t))
  {
    var after := turns + [t];
    assert after[|turns|] == t;
    if k :| 0 <= k < |turns| && LosesAll(keep, k, turns[k]) {
      assert after[k] == turns[k];
    }
  }

  /** The loop both strippers are built on. */
  method Strip(keep: Keeping, turns: seq<Turn>) returns (changed: bool, result: seq<Turn>)
    ensures changed == Changes(keep, turns) && result == if changed then Stripped(keep, turns) else turns
  {
    var out: seq<Turn>, droppedAny := [], false;
    changed := false;
    for m := 0 to |turns|
      invariant out == Retain(keep, turns[..m])
      invariant changed == Changes(keep, turns[..m]) && droppedAny == DropsTurn(keep, turns[..m])
    {
      RetainStep(keep, turns, m);
      match turns[m].content {
        case Words(_) => out := out + [turns[m]];
        case Blocks(blocks) =>
          var kept, gone := KeepBlocks(keep, m, blocks);
          if !gone {
            out := out + [turns[m]];
          } else {
            changed := true;
            if kept == [] {
              droppedAny := true;
            } else {
              out := out + [Turn(turns[m].role, Blocks(kept))];
            }
          }
      }
    }
    assert turns[..|turns|] == turns;
    result := turns;
    if changed {
      result := out;
      if droppedAny {
        result := MergeAdjacent(out);
      }
    }
  }

  // ---- what stripping leaves -------------------------------------------------------------------

  /** The blocks that stay, in their order and roles. */
  function FlatKept(keep: Keeping, turns: seq<Turn>): seq<Placed> {
    if turns == [] then []
    else
      var last := turns[|turns| - 1];
      FlatKept(keep, turns[..|turns| - 1]) + InRole(last.role, KeptTurn(keep, |turns| - 1, last))
  }

  lemma {:induction false} RetainFlat(keep: Keeping, turns: seq<Turn>)
    ensures FlatTurns(Retain(keep, turns)) == FlatKept(keep, turns)
  {
    if turns != [] {
      var n := |turns| - 1;
      var before, kept := Retain(keep, turns[..n]), RetainTurn(keep, n, turns[n]);
      RetainFlat(keep, turns[..n]);
      if kept == [] {
        Neutral(before);
        Neutral(FlatKept(keep, turns[..n]));
      } else {
        FlatTurnsAppend(before, kept[0]);
        assert kept == [kept[0]];
      }
    }
  }

  /** Stripping leaves exactly the blocks to be kept; merging afterwards moves none of them. */
  lemma StrippedFlat(keep: Keeping, turns: seq<Turn>)
    ensures FlatTurns(Stripped(keep, turns)) == FlatKept(keep, turns)
  {
    RetainFlat(keep, turns);
    MergeTurnsFlat(Retain(keep, turns));
  }

  function Thoughts(placed: seq<Placed>): nat {
    if placed == [] then 0
    else Thoughts(placed[..|placed| - 1]) + (if placed[|placed| - 1].block.Thinking? then 1 else 0)
  }

  lemma {:induction false} ThoughtsJoin(a: seq<Placed>, b: seq<Placed>)
    ensures Thoughts(a + b) == Thoughts(a) + Thoughts(b)
  {
    if b == [] {
      Neutral(a);
    } else {
      ThoughtsJoin(a, b[..|b| - 1]);
      SplitLast(a, b);
      assert (a + b)[..|a + b| - 1] == a + b[..|b| - 1];
    }
  }

  /** Nothing but thinking is left out. */
  ghost predicate SparesOthers(keep: Keeping) {
    forall m: nat, b: nat, block: Block :: !block.Thinking? ==> keep(m, b, block)
  }

  lemma {:induction false} KeptBlocksSpare(keep: Keeping, m: nat, role: Role, blocks: seq<Block>)
    requires SparesOthers(keep)
    ensures WithoutThinking(InRole(role, KeptBlocks(keep, m, blocks))) == WithoutThinking(InRole(role, blocks))
    ensures Thoughts(InRole(role, KeptBlocks(keep, m, blocks))) <= Thoughts(InRole(role, blocks))
    ensures KeptBlocks(keep, m, blocks) != blocks ==>
              Thoughts(InRole(role, KeptBlocks(keep, m, blocks))) < Thoughts(InRole(role, blocks))
  {
    if blocks != [] {
      var n := |blocks| - 1;
      var front, last := blocks[..n], [blocks[n]];
      KeptBlocksSpare(keep, m, role, front);
      ButLast(blocks);
      var mine := if keep(m, n, blocks[n]) then last else [];
      InRoleJoin(role, front, last);
      InRoleJoin(role, KeptBlocks(keep, m, front), mine);
      ThoughtsJoin(InRole(role, front), InRole(role, last));
      ThoughtsJoin(InRole(role, KeptBlocks(keep, m, front)), InRole(role, mine));
      WithoutThinkingJoin(InRole(role, front), InRole(role, last));
      WithoutThinkingJoin(InRole(role, KeptBlocks(keep, m, front)), InRole(role, mine));
      OneThought(role, blocks[n]);
      Neutral(WithoutThinking(InRole(role, front)));
    }
  }

  lemma OneThought(role: Role, block: Block)
    ensures Thoughts(InRole(role, [block])) == if block.Thinking? then 1 else 0
    ensures WithoutThinking(InRole(role, [block])) == if block.Thinking? then [] else InRole(role, [block])
    ensures InRole(role, []) == []
  {
    assert InRole(role, [block]) == [Placed(role, block)];
    assert InRole(role, [block])[..0] == [];
  }

  /** Blocks that are not thinking keep their roles and their order, and any change leaves fewer
      thinking blocks. */
  lemma {:induction false} KeptSpares(keep: Keeping, turns: seq<Turn>)
    requires SparesOthers(keep)
    ensures WithoutThinking(FlatKept(keep, turns)) == WithoutThinking(FlatTurns(turns))
    ensures Thoughts(FlatKept(keep, turns)) <= Thoughts(FlatTurns(turns))
    ensures Changes(keep, turns) ==> Thoughts(FlatKept(keep, turns)) < Thoughts(FlatTurns(turns))
  {
    if turns != [] {
      var n := |turns| - 1;
      var last := turns[n];
      KeptSpares(keep, turns[..n]);
      if last.content.Blocks? {
        KeptBlocksSpare(keep, n, last.role, last.content.blocks);
      }
      var all, mine := InRole(last.role, BlocksIn(last.content)), InRole(last.role, KeptTurn(keep, n, last));
      ThoughtsJoin(FlatTurns(turns[..n]), all);
      ThoughtsJoin(FlatKept(keep, turns[..n]), mine);
      WithoutThinkingJoin(FlatTurns(turns[..n]), all);
      WithoutThinkingJoin(FlatKept(keep, turns[..n]), mine);
      RetainStep(keep, turns, n);
      assert turns[..n + 1] == turns;
    }
  }

  // ---- turns as they were said -----------------------------------------------------------------

  /** What one turn says: a string is one text, and none if it is blank. */
  function SaidIn(t: Turn): seq<Placed> {
    match t.content
    case Words(text) => if Strings.TrimSpace(text) == "" then [] else [Placed(t.role, Text(text))]
    case Blocks(blocks) => InRole(t.role, blocks)
  }

  function SaidFrom(turns: seq<Turn>): seq<Placed> {
    if turns == [] then [] else SaidIn(turns[0]) + SaidFrom(turns[1..])
  }

  lemma {:induction false} FlatFirst(turns: seq<Turn>)
    requires turns != []
    ensures FlatTurns(turns) == InRole(turns[0].role, BlocksIn(turns[0].content)) + FlatTurns(turns[1..])
  {
    var first := InRole(turns[0].role, BlocksIn(turns[0].content));
    if |turns| == 1 {
      assert turns[..0] == [] && turns[1..] == [];
      Neutral(first);
    } else {
      var front, last := turns[..|turns| - 1], turns[|turns| - 1];
      FlatFirst(front);
      assert front[1..] == turns[1..][..|turns[1..]| - 1];
      assert FlatTurns(turns[1..]) == FlatTurns(front[1..]) + InRole(last.role, BlocksIn(last.content));
      Associate(first, FlatTurns(front[1..]), InRole(last.role, BlocksIn(last.content)));
    }
  }

  /** The blocks of a history are what its turns say, one after the other. */
  lemma {:induction false} FlatIsSaid(turns: seq<Turn>)
    ensures FlatTurns(turns) == SaidFrom(turns)
  {
    if turns != [] {
      FlatFirst(turns);
      FlatIsSaid(turns[1..]);
      InRoleOne(turns[0]);
    }
  }

  lemma InRoleOne(t: Turn)
    ensures InRole(t.role, BlocksIn(t.content)) == SaidIn(t)
  {
  }

  /** Where neighbours are joined no two of one role are left. */
  lemma {:induction false} JoinedAlternate(turns: seq<Turn>, i: nat)
    requires i + 1 < |MergeTurns(turns)|
    ensures MergeTurns(turns)[i].role != MergeTurns(turns)[i + 1].role
  {
    if turns != [] {
      var before := MergeTurns(turns[..|turns| - 1]);
      if i + 1 < |before| {
        JoinedAlternate(turns[..|turns| - 1], i);
      }
    }
  }
}
