/** The refusal memory under concurrent refusals.

    A refusal asks the memory for one signature at a time and then has it remember all it did not know.
    Each question takes the lock and so does the remembering, but nothing is held in between: other
    refusals may be remembered after a signature was asked for. */
module RefusalRaces {
  import opened Sequences
  import opened ThinkingMemory

  /** A caller asks for a signature of an owner, or has what it found new remembered. */
  datatype Action =
    | Ask(caller: nat, owner: string, key: string)
    | Record(caller: nat, owner: string)

  /** `found` is what each caller has found new for each owner since it last had it remembered. */
  datatype State = State(memory: Refusals, found: map<(nat, string), seq<string>>)

  function FoundBy(s: State, caller: nat, owner: string): seq<string> {
    if (caller, owner) in s.found then s.found[(caller, owner)] else []
  }

  function Step(s: State, a: Action): State {
    match a
    case Ask(caller, owner, key) =>
      if (owner, key) in s.memory then s
      else s.(found := s.found[(caller, owner) := FoundBy(s, caller, owner) + [key]])
    case Record(caller, owner) =>
      State(Remember(s.memory, owner, FoundBy(s, caller, owner)), s.found[(caller, owner) := []])
  }

  function After(s: State, run: seq<Action>): State {
    if run == [] then s else Step(After(s, run[..|run| - 1]), run[|run| - 1])
  }

  /** Action `i` is a caller's remembering of `key` as newly refused. */
  predicate Refuses(s: State, run: seq<Action>, i: nat, owner: string, key: string)
    requires i < |run|
  {
    run[i].Record? && run[i].owner == owner && key in FoundBy(After(s, run[..i]), run[i].caller, owner)
  }

  predicate Overflowing(s: State, a: Action) {
    a.Record? && var keys := FoundBy(s, a.caller, a.owner); keys != [] && Overflows(s.memory, keys)
  }

  /** The memory starts again at action `k`. */
  predicate StartsAgain(s: State, run: seq<Action>, k: nat)
    requires k < |run|
  {
    Overflowing(After(s, run[..k]), run[k])
  }

  lemma AfterNext(s: State, run: seq<Action>, k: nat)
    requires k < |run|
    ensures After(s, run[..k + 1]) == Step(After(s, run[..k]), run[k])
  {
    TakeTake(run, k, k + 1);
  }

  lemma StepKeeps(s: State, a: Action, p: (string, string))
    requires p in s.memory && !Overflowing(s, a)
    ensures p in Step(s, a).memory
  {
    if a.Record? {
      RememberKeeps(s.memory, a.owner, FoundBy(s, a.caller, a.owner), p);
    }
  }

  lemma StepRefuses(s: State, a: Action, key: string)
    requires a.Record? && key in FoundBy(s, a.caller, a.owner)
    ensures (a.owner, key) in Step(s, a).memory
  {
    RememberAdds(s.memory, a.owner, FoundBy(s, a.caller, a.owner), (a.owner, key));
  }

  lemma StepFinds(s: State, a: Action, caller: nat, owner: string, key: string)
    requires key in FoundBy(Step(s, a), caller, owner)
    ensures (a == Ask(caller, owner, key) && (owner, key) !in s.memory)
            || (key in FoundBy(s, caller, owner) && a != Record(caller, owner))
  {
  }

  /** What is refused stays refused until the memory starts again. */
  lemma {:induction false} RefusedStays(s: State, run: seq<Action>, i: nat, n: nat, owner: string, key: string)
    requires i < n <= |run| && Refuses(s, run, i, owner, key)
    requires forall k :: i < k < n ==> !StartsAgain(s, run, k)
    ensures (owner, key) in After(s, run[..n]).memory
  {
    AfterNext(s, run, n - 1);
    if n - 1 > i {
      RefusedStays(s, run, i, n - 1, owner, key);
      assert !StartsAgain(s, run, n - 1);
      StepKeeps(After(s, run[..n - 1]), run[n - 1], (owner, key));
    } else {
      StepRefuses(After(s, run[..i]), run[i], key);
    }
  }

  /** A caller has found a signature new only because it asked, and the memory did not know it then; and it
      has had nothing remembered since. */
  lemma {:induction false} FoundByAsking(s: State, run: seq<Action>, n: nat, caller: nat, owner: string, key: string)
    returns (l: nat)
    requires s.found == map[] && n <= |run| && key in FoundBy(After(s, run[..n]), caller, owner)
    ensures l < n && run[l] == Ask(caller, owner, key) && (owner, key) !in After(s, run[..l]).memory
    ensures forall k :: l < k < n ==> run[k] != Record(caller, owner)
  {
    if n > 0 {
      AfterNext(s, run, n - 1);
      var before := After(s, run[..n - 1]);
      StepFinds(before, run[n - 1], caller, owner, key);
      if run[n - 1] == Ask(caller, owner, key) && (owner, key) !in before.memory {
        l := n - 1;
      } else {
        l := FoundByAsking(s, run, n - 1, caller, owner, key);
      }
    } else {
      assert false;
    }
  }

  /** Over every interleaving, an owner's signature is newly refused a second time only if the memory
      started again in between, or the second caller had asked for it before the first had it remembered. */
  lemma NewlyRefusedOnce(s: State, run: seq<Action>, i: nat, j: nat, owner: string, key: string) returns (l: nat)
    requires s.found == map[] && i < j < |run|
    requires Refuses(s, run, i, owner, key) && Refuses(s, run, j, owner, key)
    ensures l < j && run[l] == Ask(run[j].caller, owner, key)
    ensures forall k :: l < k < j ==> run[k] != run[j]
    ensures l < i || exists k :: i < k < j && StartsAgain(s, run, k)
  {
    l := FoundByAsking(s, run, j, run[j].caller, owner, key);
    if l >= i && forall k :: i < k < j ==> !StartsAgain(s, run, k) {
      RefusedStays(s, run, i, l, owner, key);
    }
  }

  /** Both do happen: two callers that ask before either records each refuse the signature anew. */
  lemma BothRefuse(owner: string, key: string) returns (run: seq<Action>)
    ensures |run| == 4 && Refuses(State({}, map[]), run, 2, owner, key) && Refuses(State({}, map[]), run, 3, owner, key)
    ensures !StartsAgain(State({}, map[]), run, 2) && !StartsAgain(State({}, map[]), run, 3)
  {
    var s := State({}, map[]);
    run := [Ask(0, owner, key), Ask(1, owner, key), Record(0, owner), Record(1, owner)];
    AfterNext(s, run, 0);
    AfterNext(s, run, 1);
    AfterNext(s, run, 2);
    assert run[..0] == [];
    assert FoundBy(s, 0, owner) + [key] == [key];
    var s1 := State({}, map[(0, owner) := [key]]);
    assert After(s, run[..1]) == s1;
    assert FoundBy(s1, 1, owner) + [key] == [key];
    var s2 := State({}, map[(0, owner) := [key], (1, owner) := [key]]);
    assert After(s, run[..2]) == s2;
    assert FoundBy(s2, 0, owner) == [key];
    OnePair(owner, key);
    assert After(s, run[..3]) == Step(s2, run[2]);
  }

  lemma OnePair(owner: string, key: string)
    ensures Pairs(owner, [key]) == {(owner, key)}
    ensures !Overflows({}, [key])
  {
    assert [key][0] == key;
    assert (owner, [key][0]) in Pairs(owner, [key]);
  }
}
