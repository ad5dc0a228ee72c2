/** The memory of refused thinking, and what a signature refusal does to a conversation. */
module ThinkingMemory {
  import opened ClaudeHistory
  import opened Sequences
  import opened ThinkingRefusal

  const MOST := 0x4000

  /** Who refused which signature. */
  type Refusals = set<(string, string)>

  /** Where a refusal says the block is, if it says anything. */
  datatype Refusal = Silent | Nowhere | At(message: nat, block: nat)

  function Pairs(owner: string, keys: seq<string>): Refusals {
    set i | 0 <= i < |keys| :: (owner, keys[i])
  }

  predicate Overflows(memory: Refusals, keys: seq<string>) {
    |memory| + |keys| > MOST
  }

  /** Past its bound the memory starts again. */
  function Remember(memory: Refusals, owner: string, keys: seq<string>): Refusals {
    if keys == [] then memory
    else (if Overflows(memory, keys) then {} else memory) + Pairs(owner, keys)
  }

  // ---- where the cut is ------------------------------------------------------------------------

  /** The position named, if there is a thinking block there; else the beginning. */
  function Position(turns: seq<Turn>, at: Refusal): (nat, nat) {
    if at.At? && at.message < |turns| && turns[at.message].content.Blocks?
       && at.block < |turns[at.message].content.blocks| && turns[at.message].content.blocks[at.block].Thinking?
    then (at.message, at.block) else (0, 0)
  }

  predicate Reached(from: (nat, nat), m: nat, b: nat) {
    m > from.0 || (m == from.0 && b >= from.1)
  }

  function CutFrom(from: (nat, nat)): Keeping {
    (m: nat, b: nat, block: Block) => !(Reached(from, m, b) && block.Thinking?)
  }

  /** Keys of thinking at or after the cut that are not refused yet. */
  function NewKeysIn(memory: Refusals, owner: string, key: Thought -> string, from: (nat, nat), m: nat,
                     blocks: seq<Block>): seq<string> {
    if blocks == [] then []
    else
      var b := |blocks| - 1;
      NewKeysIn(memory, owner, key, from, m, blocks[..b])
      + (if Reached(from, m, b) && blocks[b].Thinking? && (owner, key(blocks[b].thought)) !in memory
         then [key(blocks[b].thought)] else [])
  }

  function NewKeys(memory: Refusals, owner: string, key: Thought -> string, from: (nat, nat),
                   turns: seq<Turn>): seq<string> {
    if turns == [] then []
    else
      var m := |turns| - 1;
      NewKeys(memory, owner, key, from, turns[..m])
      + (if turns[m].content.Blocks? then NewKeysIn(memory, owner, key, from, m, turns[m].content.blocks) else [])
  }

  /** What of a conversation this owner has refused before. */
  function Unrefused(memory: Refusals, owner: string, key: Thought -> string): Keeping {
    (m: nat, b: nat, block: Block) => !(block.Thinking? && (owner, key(block.thought)) in memory)
  }

  // ---- the memory ------------------------------------------------------------------------------

  class RefusalMemory {
    const key: Thought -> string
    var refused: Refusals

    constructor (key: Thought -> string)
      ensures refused == {} && this.key == key
    {
      this.key := key;
      refused := {};
    }

    /** `refuseClaudeThinking`. */
    method Refuse(owner: string, keys: seq<string>)
      modifies this
      ensures refused == Remember(old(refused), owner, keys)
    {
      if |keys| == 0 {
        return;
      }
      if |refused| + |keys| > MOST {
        refused := {};
      }
      AddAll(owner, keys);
    }

    method AddAll(owner: string, keys: seq<string>)
      modifies this
      ensures refused == old(refused) + Pairs(owner, keys)
    {
      for i := 0 to |keys|
        invariant refused == old(refused) + Pairs(owner, keys[..i])
      {
        PairsStep(old(refused), owner, keys, i);
        refused := refused + {(owner, keys[i])};
      }
      TakeAll(keys);
    }

    /** `stripRefusedClaudeThinking`: what was refused before does not go out again. */
    method StripRefused(owner: string, turns: seq<Turn>) returns (changed: bool, result: seq<Turn>)
      ensures changed == Changes(Unrefused(refused, owner, key), turns)
      ensures result == if changed then Stripped(Unrefused(refused, owner, key), turns) else turns
    {
      if refused == {} {
        KeepsEverything(Unrefused(refused, owner, key), turns);
        return false, turns;
      }
      changed, result := Strip(Unrefused(refused, owner, key), turns);
    }

    method CollectNewKeys(owner: string, turns: seq<Turn>, from: (nat, nat)) returns (keys: seq<string>)
      ensures keys == NewKeys(refused, owner, key, from, turns)
    {
      keys := [];
      for m := 0 to |turns|
        invariant keys == NewKeys(refused, owner, key, from, turns[..m])
      {
        assert turns[..m + 1][..m] == turns[..m];
        if turns[m].content.Blocks? {
          var mine := CollectIn(owner, turns[m].content.blocks, from, m);
          keys := keys + mine;
        }
      }
      assert turns[..|turns|] == turns;
    }

    method CollectIn(owner: string, blocks: seq<Block>, from: (nat, nat), m: nat) returns (keys: seq<string>)
      ensures keys == NewKeysIn(refused, owner, key, from, m, blocks)
    {
      keys := [];
      for b := 0 to |blocks|
        invariant keys == NewKeysIn(refused, owner, key, from, m, blocks[..b])
      {
        assert blocks[..b + 1][..b] == blocks[..b];
        if Reached(from, m, b) && blocks[b].Thinking? && (owner, key(blocks[b].thought)) !in refused {
          keys := keys + [key(blocks[b].thought)];
        }
      }
      assert blocks[..|blocks|] == blocks;
    }

    /** `stripBoundClaudeThinking`: the refused block and all thinking after it go, and are remembered.
        It reports a change just when something there was not refused before. */
    method StripBound(owner: string, turns: seq<Turn>, at: Refusal) returns (changed: bool, result: seq<Turn>)
      modifies this
      ensures var keys := NewKeys(old(refused), owner, key, Position(turns, at), turns);
              && changed == (!at.Silent? && keys != [])
              && refused == (if changed then Remember(old(refused), owner, keys) else old(refused))
              && result == if changed then Stripped(CutFrom(Position(turns, at)), turns) else turns
    {
      if at.Silent? || turns == [] {
        return false, turns;
      }
      var from := Position(turns, at);
      var keys := CollectNewKeys(owner, turns, from);
      if keys == [] {
        return false, turns;
      }
      NewKeysChange(refused, owner, key, from, turns);
      Refuse(owner, keys);
      changed, result := Strip(CutFrom(from), turns);
    }
  }

  lemma PairsStep(kept: Refusals, owner: string, keys: seq<string>, i: nat)
    requires i < |keys|
    ensures kept + Pairs(owner, keys[..i + 1]) == kept + Pairs(owner, keys[..i]) + {(owner, keys[i])}
  {
    PairsOneMore(owner, keys, i);
  }

  lemma PairsOneMore(owner: string, keys: seq<string>, i: nat)
    requires i < |keys|
    ensures Pairs(owner, keys[..i + 1]) == Pairs(owner, keys[..i]) + {(owner, keys[i])}
  {
    forall p | p in Pairs(owner, keys[..i]) ensures p in Pairs(owner, keys[..i + 1]) {
      var j :| 0 <= j < i && (owner, keys[..i][j]) == p;
      assert keys[..i + 1][j] == keys[..i][j];
    }
    assert keys[..i + 1][i] == keys[i];
    forall p | p in Pairs(owner, keys[..i + 1]) ensures p in Pairs(owner, keys[..i]) + {(owner, keys[i])} {
      var j :| 0 <= j < i + 1 && (owner, keys[..i + 1][j]) == p;
      assert j < i ==> keys[..i][j] == keys[..i + 1][j];
    }
  }

  lemma {:induction false} KeepsAll(keep: Keeping, m: nat, blocks: seq<Block>)
    requires forall b :: 0 <= b < |blocks| ==> keep(m, b, blocks[b])
    ensures KeptBlocks(keep, m, blocks) == blocks
  {
    if blocks != [] {
      KeepsAll(keep, m, blocks[..|blocks| - 1]);
      ButLast(blocks);
    }
  }

  lemma KeepsEverything(keep: Keeping, turns: seq<Turn>)
    requires forall m: nat, b: nat, block: Block :: keep(m, b, block)
    ensures !Changes(keep, turns)
  {
    forall m | 0 <= m < |turns| && turns[m].content.Blocks? ensures !Loses(keep, m, turns[m]) {
      KeepsAll(keep, m, turns[m].content.blocks);
    }
  }

  // ---- where there is a new key there is something to cut --------------------------------------

  lemma {:induction false} KeptLength(keep: Keeping, m: nat, blocks: seq<Block>, b: nat)
    requires b < |blocks| && !keep(m, b, blocks[b])
    ensures |KeptBlocks(keep, m, blocks)| < |blocks|
  {
    KeptNoLonger(keep, m, blocks[..|blocks| - 1]);
    if b < |blocks| - 1 {
      KeptLength(keep, m, blocks[..|blocks| - 1], b);
    }
  }

  lemma {:induction false} KeptNoLonger(keep: Keeping, m: nat, blocks: seq<Block>)
    ensures |KeptBlocks(keep, m, blocks)| <= |blocks|
  {
    if blocks != [] {
      KeptNoLonger(keep, m, blocks[..|blocks| - 1]);
    }
  }

  /** Thinking at or after the cut that this owner has not refused. */
  predicate NewThought(memory: Refusals, owner: string, key: Thought -> string, from: (nat, nat), m: nat, b: nat,
                       block: Block) {
    Reached(from, m, b) && block.Thinking? && (owner, key(block.thought)) !in memory
  }

  lemma {:induction false} NewKeyAt(memory: Refusals, owner: string, key: Thought -> string, from: (nat, nat), m: nat,
                                    blocks: seq<Block>)
    ensures NewKeysIn(memory, owner, key, from, m, blocks) != []
            <==> exists b :: 0 <= b < |blocks| && NewThought(memory, owner, key, from, m, b, blocks[b])
  {
    if blocks != [] {
      var front := blocks[..|blocks| - 1];
      NewKeyAt(memory, owner, key, from, m, front);
      if b :| 0 <= b < |front| && NewThought(memory, owner, key, from, m, b, front[b]) {
        assert NewThought(memory, owner, key, from, m, b, blocks[b]);
      }
      if NewThought(memory, owner, key, from, m, |blocks| - 1, blocks[|blocks| - 1]) {
        assert NewKeysIn(memory, owner, key, from, m, blocks) != [];
      }
      if b :| 0 <= b < |blocks| && NewThought(memory, owner, key, from, m, b, blocks[b]) {
        assert b < |front| ==> front[b] == blocks[b];
      }
    }
  }

  /** Some thinking of the conversation is new. */
  predicate HasNew(memory: Refusals, owner: string, key: Thought -> string, from: (nat, nat), turns: seq<Turn>) {
    exists m, b :: 0 <= m < |turns| && turns[m].content.Blocks? && 0 <= b < |turns[m].content.blocks|
                   && NewThought(memory, owner, key, from, m, b, turns[m].content.blocks[b])
  }

  lemma {:induction false} NewKeysIff(memory: Refusals, owner: string, key: Thought -> string, from: (nat, nat),
                                      turns: seq<Turn>)
    ensures NewKeys(memory, owner, key, from, turns) != [] <==> HasNew(memory, owner, key, from, turns)
  {
    if turns != [] {
      var m := |turns| - 1;
      var front := turns[..m];
      NewKeysIff(memory, owner, key, from, front);
      if HasNew(memory, owner, key, from, front) {
        var k, b :| 0 <= k < |front| && front[k].content.Blocks? && 0 <= b < |front[k].content.blocks|
                    && NewThought(memory, owner, key, from, k, b, front[k].content.blocks[b]);
        assert turns[k] == front[k];
      }
      if turns[m].content.Blocks? {
        NewKeyAt(memory, owner, key, from, m, turns[m].content.blocks);
      }
      if HasNew(memory, owner, key, from, turns) {
        var k, b :| 0 <= k < |turns| && turns[k].content.Blocks? && 0 <= b < |turns[k].content.blocks|
                    && NewThought(memory, owner, key, from, k, b, turns[k].content.blocks[b]);
        assert k < m ==> front[k] == turns[k];
      }
    }
  }

  lemma NewKeysChange(memory: Refusals, owner: string, key: Thought -> string, from: (nat, nat), turns: seq<Turn>)
    requires NewKeys(memory, owner, key, from, turns) != []
    ensures Changes(CutFrom(from), turns)
  {
    NewKeysIff(memory, owner, key, from, turns);
    var m, b :| 0 <= m < |turns| && turns[m].content.Blocks? && 0 <= b < |turns[m].content.blocks|
                && NewThought(memory, owner, key, from, m, b, turns[m].content.blocks[b]);
    KeptLength(CutFrom(from), m, turns[m].content.blocks, b);
    assert Loses(CutFrom(from), m, turns[m]);
  }

  // ---- what a cut does -------------------------------------------------------------------------

  /** A message's blocks before position `b`, and from it on. */
  function HeadOf(t: Turn, b: nat): seq<Placed> {
    var blocks := BlocksIn(t.content);
    InRole(t.role, blocks[..if b < |blocks| then b else |blocks|])
  }

  function TailOf(t: Turn, b: nat): seq<Placed> {
    var blocks := BlocksIn(t.content);
    InRole(t.role, blocks[if b < |blocks| then b else |blocks|..])
  }

  /** The blocks of a conversation before a position, and from it on. */
  function Before(turns: seq<Turn>, from: (nat, nat)): seq<Placed> {
    if from.0 >= |turns| then FlatTurns(turns) else FlatTurns(turns[..from.0]) + HeadOf(turns[from.0], from.1)
  }

  function From(turns: seq<Turn>, from: (nat, nat)): seq<Placed> {
    if from.0 >= |turns| then [] else TailOf(turns[from.0], from.1) + FlatTurns(turns[from.0 + 1..])
  }

  /** One message of which everything, or nothing, is at the cut. */
  lemma {:induction false} CutBlocks(from: (nat, nat), m: nat, role: Role, blocks: seq<Block>)
    ensures m < from.0 ==> KeptBlocks(CutFrom(from), m, blocks) == blocks
    ensures m > from.0 ==> InRole(role, KeptBlocks(CutFrom(from), m, blocks)) == WithoutThinking(InRole(role, blocks))
    ensures var b := if from.1 < |blocks| then from.1 else |blocks|;
            m == from.0 ==> InRole(role, KeptBlocks(CutFrom(from), m, blocks))
                            == InRole(role, blocks[..b]) + WithoutThinking(InRole(role, blocks[b..]))
  {
    if blocks == [] {
      assert InRole(role, []) == [];
    } else {
      var n := |blocks| - 1;
      var front, last := blocks[..n], blocks[n];
      CutBlocks(from, m, role, front);
      ButLast(blocks);
      var mine := if CutFrom(from)(m, n, last) then [last] else [];
      InRoleJoin(role, front, [last]);
      InRoleJoin(role, KeptBlocks(CutFrom(from), m, front), mine);
      WithoutThinkingJoin(InRole(role, front), InRole(role, [last]));
      OneThought(role, last);
      if m == from.0 {
        CutLast(from.1, role, front, last);
      }
      Neutral(WithoutThinking(InRole(role, front)));
      Neutral(InRole(role, KeptBlocks(CutFrom(from), m, front)));
    }
  }

  /** The message the cut is in, one block longer. */
  lemma CutLast(cut: nat, role: Role, front: seq<Block>, last: Block)
    ensures var blocks := front + [last];
            var b, c := if cut < |blocks| then cut else |blocks|, if cut < |front| then cut else |front|;
            InRole(role, blocks[..b]) + WithoutThinking(InRole(role, blocks[b..]))
            == InRole(role, front[..c]) + WithoutThinking(InRole(role, front[c..]))
               + InRole(role, if cut <= |front| && last.Thinking? then [] else [last])
  {
    var blocks := front + [last];
    OneThought(role, last);
    if cut <= |front| {
      var tail := front[cut..];
      assert blocks[..cut] == front[..cut] && blocks[cut..] == tail + [last];
      InRoleJoin(role, tail, [last]);
      WithoutThinkingJoin(InRole(role, tail), InRole(role, [last]));
      Associate(InRole(role, front[..cut]), WithoutThinking(InRole(role, tail)), WithoutThinking(InRole(role, [last])));
    } else {
      assert blocks[..|blocks|] == blocks && blocks[|blocks|..] == []
             && front[..|front|] == front && front[|front|..] == [];
      InRoleJoin(role, front, [last]);
      Neutral(InRole(role, blocks));
      Neutral(InRole(role, front));
    }
  }

  /** A cut leaves everything before it as it was, thinking included, and everything from it on but the
      thinking, in the same roles and the same order. */
  lemma {:induction false} CutExactly(turns: seq<Turn>, from: (nat, nat))
    ensures FlatKept(CutFrom(from), turns) == Before(turns, from) + WithoutThinking(From(turns, from))
  {
    if turns == [] {
      Neutral(Before(turns, from));
    } else {
      var n := |turns| - 1;
      CutExactly(turns[..n], from);
      CutBlocks(from, n, turns[n].role, BlocksIn(turns[n].content));
      KeptWords(from, n, turns[n]);
      if n < from.0 {
        Neutral(FlatTurns(turns));
        Neutral(FlatTurns(turns[..n]));
      } else if n == from.0 {
        CutHere(turns, from);
      } else {
        CutAfter(turns, from);
      }
    }
  }

  lemma CutHere(turns: seq<Turn>, from: (nat, nat))
    requires |turns| == from.0 + 1
    ensures var n := |turns| - 1;
            && Before(turns[..n], from) + WithoutThinking(From(turns[..n], from)) == FlatTurns(turns[..n])
            && Before(turns, from) + WithoutThinking(From(turns, from))
               == FlatTurns(turns[..n]) + (HeadOf(turns[n], from.1) + WithoutThinking(TailOf(turns[n], from.1)))
  {
    var n := |turns| - 1;
    Neutral(FlatTurns(turns[..n]));
    assert turns[n + 1..] == [];
    Neutral(TailOf(turns[n], from.1));
    Associate(FlatTurns(turns[..n]), HeadOf(turns[n], from.1), WithoutThinking(TailOf(turns[n], from.1)));
  }

  /** Text is not thinking, wherever the cut is. */
  lemma KeptWords(from: (nat, nat), m: nat, t: Turn)
    ensures KeptTurn(CutFrom(from), m, t) == KeptBlocks(CutFrom(from), m, BlocksIn(t.content))
  {
    if t.content.Words? {
      KeepsAll(CutFrom(from), m, BlocksIn(t.content));
    }
  }

  lemma CutAfter(turns: seq<Turn>, from: (nat, nat))
    requires |turns| > from.0 + 1
    ensures var n := |turns| - 1;
            Before(turns, from) + WithoutThinking(From(turns, from))
            == Before(turns[..n], from) + WithoutThinking(From(turns[..n], from))
               + WithoutThinking(InRole(turns[n].role, BlocksIn(turns[n].content)))
  {
    var n := |turns| - 1;
    var front, mine := turns[..n], InRole(turns[n].role, BlocksIn(turns[n].content));
    BeforeStays(turns, from);
    FromGrows(turns, from);
    CutJoins(Before(turns, from), Before(front, from), From(turns, from), From(front, from), mine);
  }

  lemma CutJoins(a: seq<Placed>, same: seq<Placed>, all: seq<Placed>, b: seq<Placed>, mine: seq<Placed>)
    requires a == same && all == b + mine
    ensures a + WithoutThinking(all) == same + WithoutThinking(b) + WithoutThinking(mine)
  {
    WithoutThinkingJoin(b, mine);
    Associate(a, WithoutThinking(b), WithoutThinking(mine));
  }

  lemma BeforeStays(turns: seq<Turn>, from: (nat, nat))
    requires |turns| > from.0 + 1
    ensures Before(turns, from) == Before(turns[..|turns| - 1], from)
  {
    TakeTake(turns, from.0, |turns| - 1);
  }

  lemma FromGrows(turns: seq<Turn>, from: (nat, nat))
    requires |turns| > from.0 + 1
    ensures var n := |turns| - 1;
            From(turns, from) == From(turns[..n], from) + InRole(turns[n].role, BlocksIn(turns[n].content))
  {
    var n := |turns| - 1;
    assert turns[from.0 + 1..] == turns[..n][from.0 + 1..] + [turns[n]];
    FlatTurnsAppend(turns[..n][from.0 + 1..], turns[n]);
    Associate(TailOf(turns[from.0], from.1), FlatTurns(turns[..n][from.0 + 1..]),
              InRole(turns[n].role, BlocksIn(turns[n].content)));
  }

  /** What a reported refusal leaves of a conversation: less thinking, none from the cut on, and all the
      rest of it. */
  lemma BoundCut(memory: Refusals, owner: string, key: Thought -> string, turns: seq<Turn>, at: Refusal)
    requires NewKeys(memory, owner, key, Position(turns, at), turns) != []
    ensures var from := Position(turns, at);
            var result := FlatTurns(Stripped(CutFrom(from), turns));
            && result == Before(turns, from) + WithoutThinking(From(turns, from))
            && WithoutThinking(result) == WithoutThinking(FlatTurns(turns))
            && Thoughts(result) < Thoughts(FlatTurns(turns))
  {
    var from := Position(turns, at);
    NewKeysChange(memory, owner, key, from, turns);
    StrippedFlat(CutFrom(from), turns);
    CutExactly(turns, from);
    KeptSpares(CutFrom(from), turns);
  }

  // ---- the memory over a run -------------------------------------------------------------------

  lemma {:induction false} NewKeysInAreNew(memory: Refusals, owner: string, key: Thought -> string, from: (nat, nat),
                                           m: nat, blocks: seq<Block>)
    ensures forall i :: 0 <= i < |NewKeysIn(memory, owner, key, from, m, blocks)| ==>
              (owner, NewKeysIn(memory, owner, key, from, m, blocks)[i]) !in memory
  {
    if blocks != [] {
      NewKeysInAreNew(memory, owner, key, from, m, blocks[..|blocks| - 1]);
    }
  }

  /** Only what was not refused before is newly refused. */
  lemma {:induction false} NewKeysAreNew(memory: Refusals, owner: string, key: Thought -> string, from: (nat, nat),
                                         turns: seq<Turn>)
    ensures Pairs(owner, NewKeys(memory, owner, key, from, turns)) !! memory
  {
    if turns != [] {
      var m := |turns| - 1;
      NewKeysAreNew(memory, owner, key, from, turns[..m]);
      var before := NewKeys(memory, owner, key, from, turns[..m]);
      var mine := if turns[m].content.Blocks? then NewKeysIn(memory, owner, key, from, m, turns[m].content.blocks)
        else [];
      if turns[m].content.Blocks? {
        NewKeysInAreNew(memory, owner, key, from, m, turns[m].content.blocks);
      }
      forall i | 0 <= i < |before + mine| ensures (owner, (before + mine)[i]) !in memory {
        if i < |before| {
          assert (owner, before[i]) in Pairs(owner, before);
        }
      }
    }
  }

  /** One refusal: whose, of what, and where. */
  datatype Episode = Episode(owner: string, turns: seq<Turn>, at: Refusal)

  /** What an episode newly refuses. */
  function NewlyKeys(memory: Refusals, key: Thought -> string, e: Episode): seq<string> {
    if e.at.Silent? then [] else NewKeys(memory, e.owner, key, Position(e.turns, e.at), e.turns)
  }

  function Newly(memory: Refusals, key: Thought -> string, e: Episode): Refusals {
    Pairs(e.owner, NewlyKeys(memory, key, e))
  }

  /** The memory after a run of refusals. */
  function MemoryAfter(memory: Refusals, key: Thought -> string, run: seq<Episode>): Refusals {
    if run == [] then memory
    else
      var before, last := MemoryAfter(memory, key, run[..|run| - 1]), run[|run| - 1];
      Remember(before, last.owner, NewlyKeys(before, key, last))
  }

  /** The memory starts again at episode `k`. */
  predicate StartsAgain(memory: Refusals, key: Thought -> string, run: seq<Episode>, k: nat)
    requires k < |run|
  {
    var before := MemoryAfter(memory, key, run[..k]);
    NewlyKeys(before, key, run[k]) != [] && Overflows(before, NewlyKeys(before, key, run[k]))
  }

  lemma {:induction false} RefusedStays(memory: Refusals, key: Thought -> string, run: seq<Episode>, i: nat, j: nat,
                                        p: (string, string))
    requires i < j <= |run| && p in Newly(MemoryAfter(memory, key, run[..i]), key, run[i])
    requires forall k :: i < k < j ==> !StartsAgain(memory, key, run, k)
    ensures p in MemoryAfter(memory, key, run[..j])
  {
    if j - 1 > i {
      RefusedStays(memory, key, run, i, j - 1, p);
      StaysOneMore(memory, key, run, j - 1, p);
    } else {
      RefusedThen(memory, key, run, i, p);
    }
  }

  lemma StaysOneMore(memory: Refusals, key: Thought -> string, run: seq<Episode>, k: nat, p: (string, string))
    requires k < |run| && p in MemoryAfter(memory, key, run[..k]) && !StartsAgain(memory, key, run, k)
    ensures p in MemoryAfter(memory, key, run[..k + 1])
  {
    MemoryNext(memory, key, run, k);
    var before := MemoryAfter(memory, key, run[..k]);
    RememberKeeps(before, run[k].owner, NewlyKeys(before, key, run[k]), p);
  }

  lemma RefusedThen(memory: Refusals, key: Thought -> string, run: seq<Episode>, k: nat, p: (string, string))
    requires k < |run| && p in Newly(MemoryAfter(memory, key, run[..k]), key, run[k])
    ensures p in MemoryAfter(memory, key, run[..k + 1])
  {
    MemoryNext(memory, key, run, k);
    var before := MemoryAfter(memory, key, run[..k]);
    RememberAdds(before, run[k].owner, NewlyKeys(before, key, run[k]), p);
  }

  lemma RememberKeeps(memory: Refusals, owner: string, keys: seq<string>, p: (string, string))
    requires p in memory && !(keys != [] && Overflows(memory, keys))
    ensures p in Remember(memory, owner, keys)
  {
  }

  lemma RememberAdds(memory: Refusals, owner: string, keys: seq<string>, p: (string, string))
    requires p in Pairs(owner, keys)
    ensures p in Remember(memory, owner, keys)
  {
  }

  lemma MemoryNext(memory: Refusals, key: Thought -> string, run: seq<Episode>, k: nat)
    requires k < |run|
    ensures var before := MemoryAfter(memory, key, run[..k]);
            MemoryAfter(memory, key, run[..k + 1]) == Remember(before, run[k].owner, NewlyKeys(before, key, run[k]))
  {
    TakeTake(run, k, k + 1);
  }

  /** A signature is newly refused by one owner at most once, until the memory starts again. */
  lemma RefusedOnceAlone(memory: Refusals, key: Thought -> string, run: seq<Episode>, i: nat, j: nat,
                         p: (string, string))
    requires i < j < |run|
    requires p in Newly(MemoryAfter(memory, key, run[..i]), key, run[i])
    requires p in Newly(MemoryAfter(memory, key, run[..j]), key, run[j])
    ensures exists k :: i < k < j && StartsAgain(memory, key, run, k)
  {
    if forall k :: i < k < j ==> !StartsAgain(memory, key, run, k) {
      RefusedStays(memory, key, run, i, j, p);
      var now, e := MemoryAfter(memory, key, run[..j]), run[j];
      if !e.at.Silent? {
        NewKeysAreNew(now, e.owner, key, Position(e.turns, e.at), e.turns);
      }
    }
  }

  // ---- stripped before sending -----------------------------------------------------------------

  /** No thinking of the conversation has been refused by this owner. */
  predicate Clean(memory: Refusals, owner: string, key: Thought -> string, placed: seq<Placed>) {
    forall i :: 0 <= i < |placed| && placed[i].block.Thinking? ==> (owner, key(placed[i].block.thought)) !in memory
  }

  lemma {:induction false} KeptBlocksClean(memory: Refusals, owner: string, key: Thought -> string, m: nat,
                                           role: Role, blocks: seq<Block>)
    ensures Clean(memory, owner, key, InRole(role, KeptBlocks(Unrefused(memory, owner, key), m, blocks)))
  {
    if blocks != [] {
      KeptBlocksClean(memory, owner, key, m, role, blocks[..|blocks| - 1]);
      var kept := KeptBlocks(Unrefused(memory, owner, key), m, blocks[..|blocks| - 1]);
      assert forall i :: 0 <= i < |kept| ==> InRole(role, kept)[i] == Placed(role, kept[i]);
    }
  }

  lemma {:induction false} KeptClean(memory: Refusals, owner: string, key: Thought -> string, turns: seq<Turn>)
    ensures Clean(memory, owner, key, FlatKept(Unrefused(memory, owner, key), turns))
  {
    if turns != [] {
      var m := |turns| - 1;
      KeptClean(memory, owner, key, turns[..m]);
      if turns[m].content.Blocks? {
        KeptBlocksClean(memory, owner, key, m, turns[m].role, turns[m].content.blocks);
      }
    }
  }

  lemma {:induction false} NothingLost(keep: Keeping, turns: seq<Turn>)
    requires !Changes(keep, turns)
    ensures FlatKept(keep, turns) == FlatTurns(turns)
  {
    if turns != [] {
      RetainStep(keep, turns, |turns| - 1);
      assert turns[..|turns| - 1 + 1] == turns;
      NothingLost(keep, turns[..|turns| - 1]);
    }
  }

  /** What is sent holds nothing its owner refused before, and is otherwise the conversation it was. */
  lemma SentClean(memory: Refusals, owner: string, key: Thought -> string, turns: seq<Turn>)
    ensures var keep := Unrefused(memory, owner, key);
            var sent := if Changes(keep, turns) then Stripped(keep, turns) else turns;
            && Clean(memory, owner, key, FlatTurns(sent))
            && WithoutThinking(FlatTurns(sent)) == WithoutThinking(FlatTurns(turns))
  {
    var keep := Unrefused(memory, owner, key);
    KeptClean(memory, owner, key, turns);
    KeptSpares(keep, turns);
    StrippedFlat(keep, turns);
    if !Changes(keep, turns) {
      NothingLost(keep, turns);
    }
  }

  predicate Thinks(placed: seq<Placed>) {
    exists i :: 0 <= i < |placed| && placed[i].block.Thinking?
  }

  lemma ThinksEither(a: seq<Placed>, b: seq<Placed>)
    requires Thinks(a + b)
    ensures Thinks(a) || Thinks(b)
  {
    var i :| 0 <= i < |a + b| && (a + b)[i].block.Thinking?;
    assert i < |a| ==> a[i] == (a + b)[i];
    assert i >= |a| ==> b[i - |a|] == (a + b)[i];
  }

  lemma {:induction false} ThoughtAt(turns: seq<Turn>) returns (m: nat, b: nat)
    requires turns != [] && Thinks(FlatTurns(turns))
    ensures m < |turns| && turns[m].content.Blocks? && b < |turns[m].content.blocks|
    ensures turns[m].content.blocks[b].Thinking?
  {
    var n := |turns| - 1;
    var mine := InRole(turns[n].role, BlocksIn(turns[n].content));
    if i :| 0 <= i < |mine| && mine[i].block.Thinking? {
      m, b := n, i;
    } else {
      ThinksEither(FlatTurns(turns[..n]), mine);
      m, b := ThoughtAt(turns[..n]);
    }
  }

  lemma {:induction false} BlockIsPlaced(turns: seq<Turn>, m: nat, b: nat)
    requires m < |turns| && turns[m].content.Blocks? && b < |turns[m].content.blocks|
    ensures Placed(turns[m].role, turns[m].content.blocks[b]) in FlatTurns(turns)
  {
    var n := |turns| - 1;
    if m < n {
      BlockIsPlaced(turns[..n], m, b);
    } else {
      assert InRole(turns[n].role, turns[n].content.blocks)[b] == Placed(turns[n].role, turns[n].content.blocks[b]);
    }
  }

  /** A refusal of what was sent clean is always answered, as long as any thinking is left in it: asking
      again can go otherwise if and only if there was thinking to leave out. */
  lemma AnsweredIffThinking(memory: Refusals, owner: string, key: Thought -> string, sent: seq<Turn>, at: Refusal)
    requires Clean(memory, owner, key, FlatTurns(sent)) && !at.Silent?
    ensures NewKeys(memory, owner, key, Position(sent, at), sent) != [] <==> Thinks(FlatTurns(sent))
  {
    var from := Position(sent, at);
    NewKeysIff(memory, owner, key, from, sent);
    if HasNew(memory, owner, key, from, sent) {
      var m, b :| 0 <= m < |sent| && sent[m].content.Blocks? && 0 <= b < |sent[m].content.blocks|
                  && NewThought(memory, owner, key, from, m, b, sent[m].content.blocks[b]);
      BlockIsPlaced(sent, m, b);
    }
    if Thinks(FlatTurns(sent)) {
      var m, b := from.0, from.1;
      if from == (0, 0) {
        m, b := ThoughtAt(sent);
      }
      BlockIsPlaced(sent, m, b);
      assert NewThought(memory, owner, key, from, m, b, sent[m].content.blocks[b]);
    }
  }

  /** The memory never outgrows its bound by more than one refusal can bring. */
  lemma {:induction false} MemoryBounded(memory: Refusals, owner: string, keys: seq<string>)
    requires |memory| <= MOST
    ensures |Remember(memory, owner, keys)| <= if |keys| <= MOST then MOST else |keys|
  {
    PairsSize(owner, keys);
    var base: Refusals := if Overflows(memory, keys) then {} else memory;
    UnionSize(base, Pairs(owner, keys));
  }

  lemma UnionSize(a: Refusals, b: Refusals)
    ensures |a + b| <= |a| + |b|
  {
    assert a + b == a + (b - a);
    assert |a + (b - a)| == |a| + |b - a|;
  }

  lemma {:induction false} PairsSize(owner: string, keys: seq<string>)
    ensures |Pairs(owner, keys)| <= |keys|
  {
    if keys != [] {
      var n := |keys| - 1;
      PairsSize(owner, keys[..n]);
      PairsOneMore(owner, keys, n);
      assert keys[..n + 1] == keys;
    }
  }

  // ---- the block a refusal names, and a full memory ----------------------------------------------

  /** A refusal names block `b` of message `m`, and it is thinking. */
  predicate Names(at: Refusal, turns: seq<Turn>, m: nat, b: nat) {
    at == At(m, b) && m < |turns| && turns[m].content.Blocks? && b < |turns[m].content.blocks|
    && turns[m].content.blocks[b].Thinking?
  }

  /** A cut spares what stands before the block the refusal names, thinking included, and takes the thinking from
      there on. */
  lemma CutAtNamed(memory: Refusals, owner: string, key: Thought -> string, turns: seq<Turn>, at: Refusal, m: nat,
                   b: nat)
    requires Names(at, turns, m, b) && NewKeys(memory, owner, key, Position(turns, at), turns) != []
    ensures var role, blocks := turns[m].role, turns[m].content.blocks;
            FlatTurns(Stripped(CutFrom(Position(turns, at)), turns))
            == FlatTurns(turns[..m]) + InRole(role, blocks[..b])
               + WithoutThinking(InRole(role, blocks[b..]) + FlatTurns(turns[m + 1..]))
  {
    NamedParts(turns, at, m, b);
    BoundCut(memory, owner, key, turns, at);
  }

  lemma NamedParts(turns: seq<Turn>, at: Refusal, m: nat, b: nat)
    requires Names(at, turns, m, b)
    ensures var role, blocks := turns[m].role, turns[m].content.blocks;
            && Position(turns, at) == (m, b)
            && Before(turns, (m, b)) == FlatTurns(turns[..m]) + InRole(role, blocks[..b])
            && From(turns, (m, b)) == InRole(role, blocks[b..]) + FlatTurns(turns[m + 1..])
  {
  }

  /** Where it names no thinking, all thinking is taken. */
  lemma CutEverywhere(memory: Refusals, owner: string, key: Thought -> string, turns: seq<Turn>, at: Refusal)
    requires forall m: nat, b: nat :: !Names(at, turns, m, b)
    requires NewKeys(memory, owner, key, Position(turns, at), turns) != []
    ensures FlatTurns(Stripped(CutFrom(Position(turns, at)), turns)) == WithoutThinking(FlatTurns(turns))
  {
    BoundCut(memory, owner, key, turns, at);
    assert at.At? ==> !Names(at, turns, at.message, at.block);
    assert Before(turns, (0, 0)) == [] && turns[..0] == [];
    AllFromStart(turns);
    Neutral(WithoutThinking(FlatTurns(turns)));
  }

  /** Everything is what is from the start. */
  lemma {:induction false} AllFromStart(turns: seq<Turn>)
    requires turns != []
    ensures From(turns, (0, 0)) == FlatTurns(turns)
  {
    var blocks := BlocksIn(turns[0].content);
    assert blocks[0..] == blocks;
    FlatFirst(turns);
  }

  /** What is refused is remembered beside what was, up to 16384 keys in all; one more, and only what is refused
      now is. */
  lemma RememberedUntilFull(memory: Refusals, owner: string, keys: seq<string>, pair: (string, string))
    requires keys != []
    ensures pair in Remember(memory, owner, keys)
            <==> (pair.0 == owner && pair.1 in keys) || (pair in memory && |memory| + |keys| <= 16384)
  {
  }
}
