/** The coalescing writer of "last used" times: requests note the time of a key's last use, and one
    flusher writes the newest of them to the store now and then.

    Noting is one step and so is taking a batch, both under the lock; the writes of a batch are steps of
    their own, in any order, and anything may be noted between them. */
module LastUsed {
  import opened MapOrder
  import opened Sequences

  /** Seconds. */
  const MIN_GAP := 300

  type Times = map<string, string>

  /** The lock's share of the state: what is not written yet, and when each key last was. */
  class Toucher {
    var pending: Times
    var persisted: map<string, int>

    constructor ()
      ensures pending == map[] && persisted == map[]
    {
      pending, persisted := map[], map[];
    }

    /** `Touch`, under the lock. */
    method Touch(id: string, ts: string)
      modifies this
      ensures pending == (if id == "" then old(pending) else old(pending)[id := ts]) && persisted == old(persisted)
    {
      if id == "" {
        return;
      }
      pending := pending[id := ts];
    }

    /** The first half of `flush`: keys that are due leave the pending ones. */
    method TakeBatch(force: bool, now: int) returns (batch: Times)
      modifies this
      ensures batch == DueOf(old(pending), old(persisted), force, now)
      ensures pending == old(pending) - batch.Keys
      ensures persisted == Stamped(old(persisted), batch.Keys, now)
    {
      batch := map[];
      ghost var before, stamped := pending, persisted;
      var left := pending.Keys;
      while left != {}
        invariant left <= before.Keys
        invariant forall id :: id in batch <==> id in before && id !in left && Due(stamped, force, now, id)
        invariant forall id :: id in batch ==> batch[id] == before[id]
        invariant pending == before - batch.Keys
        invariant persisted == Stamped(stamped, batch.Keys, now)
        decreases left
      {
        SomeLeft(left);
        var id :| id in left;
        var seen := id in persisted;
        if force || !seen || now - persisted[id] >= MIN_GAP {
          OneMoreDue(before, batch, stamped, id, now);
          batch := batch[id := pending[id]];
          persisted := persisted[id := now];
          pending := pending - {id};
        }
        left := left - {id};
      }
    }
  }

  /** A key is written when forced, when it never was, or when that is long enough ago. */
  predicate Due(persisted: map<string, int>, force: bool, now: int, id: string) {
    force || id !in persisted || now - persisted[id] >= MIN_GAP
  }

  function DueOf(pending: Times, persisted: map<string, int>, force: bool, now: int): Times {
    map id | id in pending && Due(persisted, force, now, id) :: pending[id]
  }

  lemma OneMoreDue(pending: Times, batch: Times, persisted: map<string, int>, id: string, now: int)
    requires id in pending
    ensures var more := batch[id := pending[id]];
            && Stamped(persisted, more.Keys, now) == Stamped(persisted, batch.Keys, now)[id := now]
            && pending - more.Keys == pending - batch.Keys - {id}
  {
  }

  function Stamped(persisted: map<string, int>, ids: set<string>, now: int): map<string, int> {
    map id | id in persisted.Keys + ids :: if id in ids then now else persisted[id]
  }

  // ---- interleavings ---------------------------------------------------------------------------

  datatype Action =
    | Touch(id: string, ts: string)
    | Take(force: bool, now: int)
    | WriteOne(id: string, at: int)

  /** A write to the store: when its batch was taken, and when it was made. */
  datatype Write = Write(id: string, taken: int, at: int, forced: bool)

  /** `batch` is what the flusher has taken, at `taken`, and not written yet; `last` the last time noted
      for each key, and `writes` every write, in order. */
  datatype State = State(
    pending: Times,
    persisted: map<string, int>,
    batch: Times,
    taken: int,
    forced: bool,
    store: Times,
    last: Times,
    writes: seq<Write>)

  const Fresh := State(map[], map[], map[], 0, false, map[], map[], [])

  /** One step: the flusher takes a batch only when it has written the one before, and writes only what
      it has taken.  Its clock does not go back. */
  ghost predicate Next(s: State, a: Action, t: State) {
    match a
    case Touch(id, ts) =>
      t == if id == "" then s else s.(pending := s.pending[id := ts], last := s.last[id := ts])
    case Take(force, now) =>
      && s.batch == map[]
      && (forall id :: id in s.persisted ==> s.persisted[id] <= now)
      && t == s.(batch := DueOf(s.pending, s.persisted, force, now),
                 pending := s.pending - DueOf(s.pending, s.persisted, force, now).Keys,
                 persisted := Stamped(s.persisted, DueOf(s.pending, s.persisted, force, now).Keys, now),
                 taken := now,
                 forced := force)
    case WriteOne(id, at) =>
      && id in s.batch && s.taken <= at
      && t == s.(batch := s.batch - {id}, store := s.store[id := s.batch[id]],
                 writes := s.writes + [Write(id, s.taken, at, s.forced)])
  }

  ghost predicate Run(states: seq<State>, actions: seq<Action>) {
    && |states| == |actions| + 1 && states[0] == Fresh
    && forall i :: 0 <= i < |actions| ==> Next(states[i], actions[i], states[i + 1])
  }

  // ---- nothing is lost -------------------------------------------------------------------------

  /** Where the last time noted for a key is. */
  predicate Kept(s: State, id: string) {
    id in s.last ==>
      if id in s.pending then s.pending[id] == s.last[id]
      else if id in s.batch then s.batch[id] == s.last[id]
      else id in s.store && s.store[id] == s.last[id]
  }

  predicate Sound(s: State) {
    && (forall id :: id in s.last ==> Kept(s, id))
    && s.pending.Keys <= s.last.Keys && s.batch.Keys <= s.last.Keys && s.store.Keys <= s.last.Keys
  }

  lemma NextKeeps(s: State, a: Action, t: State)
    requires Sound(s) && Next(s, a, t)
    ensures Sound(t)
  {
  }

  /** Over every interleaving, the last time noted for a key is pending, on its way, or in the store. */
  lemma {:induction false} NothingIsLost(states: seq<State>, actions: seq<Action>, n: nat, id: string)
    requires Run(states, actions) && n <= |actions|
    ensures Sound(states[n]) && (id in states[n].last ==> Kept(states[n], id))
  {
    if n > 0 {
      NothingIsLost(states, actions, n - 1, id);
      NextKeeps(states[n - 1], actions[n - 1], states[n]);
    }
  }

  /** A time is on its way in the batch, or in the store. */
  predicate Landing(s: State, id: string, ts: string) {
    if id in s.batch then s.batch[id] == ts else id in s.store && s.store[id] == ts
  }

  /** After a forced taking the last time of every key noted before it is on its way, whatever is noted
      while the batch is written, until another batch is taken; and once the batch is written it is in the
      store. */
  lemma {:induction false} ForcedFlushLands(states: seq<State>, actions: seq<Action>, f: nat, n: nat, id: string)
    requires Run(states, actions) && f < n <= |actions|
    requires actions[f].Take? && actions[f].force && id in states[f].last
    requires forall k :: f < k < n ==> !actions[k].Take?
    ensures Landing(states[n], id, states[f].last[id])
    ensures states[n].batch == map[] ==> id in states[n].store && states[n].store[id] == states[f].last[id]
  {
    if n == f + 1 {
      NothingIsLost(states, actions, f, id);
      assert Next(states[f], actions[f], states[n]);
    } else {
      ForcedFlushLands(states, actions, f, n - 1, id);
      assert Next(states[n - 1], actions[n - 1], states[n]);
    }
  }

  // ---- not too often ---------------------------------------------------------------------------

  /** Every key written was stamped when it was taken, and what is taken or written unforced was taken
      long enough after anything written of it before. */
  ghost predicate Spaced(s: State) {
    var spaced :=
      && (forall id :: id in s.batch ==> id in s.persisted && s.taken <= s.persisted[id])
      && (forall i :: 0 <= i < |s.writes| ==> Stamp(s.persisted, s.writes[i]))
      && (forall i :: 0 <= i < |s.writes| && s.writes[i].id in s.batch && !s.forced
                      ==> s.taken - s.writes[i].taken >= MIN_GAP)
      && (forall i, j :: 0 <= i < j < |s.writes| ==> FarApart(s.writes[i], s.writes[j]));
    spaced
  }

  predicate Stamp(persisted: map<string, int>, w: Write) {
    w.id in persisted && w.taken <= persisted[w.id] && w.taken <= w.at
  }

  predicate FarApart(earlier: Write, later: Write) {
    earlier.id == later.id && !later.forced ==> later.taken - earlier.taken >= MIN_GAP
  }

  lemma NextSpaced(s: State, a: Action, t: State)
    requires Spaced(s) && Next(s, a, t)
    ensures Spaced(t)
  {
    if a.Take? {
      forall i | 0 <= i < |t.writes|
        ensures Stamp(t.persisted, t.writes[i])
        ensures t.writes[i].id in t.batch && !t.forced ==> t.taken - t.writes[i].taken >= MIN_GAP
      {
        assert Stamp(s.persisted, s.writes[i]);
      }
    } else if a.WriteOne? {
      OneMoreWrite(s, Write(a.id, s.taken, a.at, s.forced));
    }
  }

  lemma OneMoreWrite(s: State, w: Write)
    requires Spaced(s) && w.id in s.batch && w.taken == s.taken && w.forced == s.forced && w.taken <= w.at
    ensures Spaced(s.(batch := s.batch - {w.id}, store := s.store[w.id := s.batch[w.id]], writes := s.writes + [w]))
  {
    var writes := s.writes + [w];
    forall i | 0 <= i < |writes| ensures Stamp(s.persisted, writes[i]) {
      assert i < |s.writes| ==> writes[i] == s.writes[i] && Stamp(s.persisted, s.writes[i]);
    }
    forall i, j | 0 <= i < j < |writes| ensures FarApart(writes[i], writes[j]) {
      assert writes[i] == s.writes[i];
      assert j < |s.writes| ==> writes[j] == s.writes[j] && FarApart(s.writes[i], s.writes[j]);
    }
  }

  lemma {:induction false} AllSpaced(states: seq<State>, actions: seq<Action>, n: nat)
    requires Run(states, actions) && n <= |actions|
    ensures Spaced(states[n])
  {
    if n > 0 {
      AllSpaced(states, actions, n - 1);
      NextSpaced(states[n - 1], actions[n - 1], states[n]);
    }
  }

  /** Unforced writes of one key are taken at least five minutes after any written before, and so made at
      least five minutes after it, less the time the earlier one had waited on the store. */
  lemma WritesAreSpaced(states: seq<State>, actions: seq<Action>, n: nat, i: nat, j: nat)
    requires Run(states, actions) && n <= |actions| && i < j < |states[n].writes|
    requires states[n].writes[i].id == states[n].writes[j].id && !states[n].writes[j].forced
    ensures var earlier, later := states[n].writes[i], states[n].writes[j];
            && later.taken - earlier.taken >= MIN_GAP
            && later.at - earlier.at >= MIN_GAP - (earlier.at - earlier.taken)
  {
    AllSpaced(states, actions, n);
    var writes := states[n].writes;
    assert FarApart(writes[i], writes[j]) && Stamp(states[n].persisted, writes[j]);
  }

  /** And no further: a write that waits on the store is followed that much sooner by the next. */
  lemma GapIsTight(id: string, ts: string, wait: nat) returns (states: seq<State>, actions: seq<Action>)
    requires id != ""
    ensures Run(states, actions) && |states[|actions|].writes| == 2
    ensures var writes := states[|actions|].writes;
            && writes[0] == Write(id, 0, wait, false) && writes[1].id == id && !writes[1].forced
            && writes[1].at - writes[0].at == if wait <= MIN_GAP then MIN_GAP - wait else 0
  {
    var again := if wait <= MIN_GAP then MIN_GAP else wait;
    var times := map[id := ts];
    var s1 := State(times, map[], map[], 0, false, map[], times, []);
    var s2 := State(map[], map[id := 0], times, 0, false, map[], times, []);
    var s3 := State(map[], map[id := 0], map[], 0, false, times, times, [Write(id, 0, wait, false)]);
    var s4 := State(times, map[id := 0], map[], 0, false, times, times, [Write(id, 0, wait, false)]);
    var s5 := State(map[], map[id := again], times, again, false, times, times, [Write(id, 0, wait, false)]);
    var s6 := State(map[], map[id := again], map[], again, false, times, times,
                    [Write(id, 0, wait, false), Write(id, again, again, false)]);
    states := [Fresh, s1, s2, s3, s4, s5, s6];
    actions := [Touch(id, ts), Take(false, 0), WriteOne(id, wait), Touch(id, ts),
                Take(false, again), WriteOne(id, again)];
    assert Next(Fresh, Touch(id, ts), s1) && Next(s1, Take(false, 0), s2) && Next(s2, WriteOne(id, wait), s3);
    assert Next(s3, Touch(id, ts), s4) && Next(s4, Take(false, again), s5) && Next(s5, WriteOne(id, again), s6);
  }

  // ---- what a flush takes ----------------------------------------------------------------------

  /** A flush takes a pending time if and only if it is forced, or the key was never taken, or was taken five
      minutes ago or more; what it does not take stays pending, and so nothing is put off for longer. */
  lemma TakenIff(s: State, force: bool, now: int, t: State, id: string)
    requires Next(s, Take(force, now), t) && id in s.pending
    ensures id in t.batch <==> force || id !in s.persisted || s.persisted[id] + 300 <= now
    ensures if id in t.batch then t.batch[id] == s.pending[id] && id !in t.pending
            else id in t.pending && t.pending[id] == s.pending[id]
  {
  }

  /** Step `i` of a run took a batch with this key. */
  predicate TookAt(states: seq<State>, actions: seq<Action>, i: int, id: string)
    requires |states| == |actions| + 1
  {
    0 <= i < |actions| && actions[i].Take? && id in states[i + 1].batch
  }

  lemma {:induction false} LatestTaking(states: seq<State>, actions: seq<Action>, n: nat, id: string)
    requires Run(states, actions) && n <= |actions|
    ensures forall i :: 0 <= i < n && TookAt(states, actions, i, id)
                        ==> id in states[n].persisted && actions[i].now <= states[n].persisted[id]
    ensures id in states[n].persisted
            ==> exists i :: 0 <= i < n && TookAt(states, actions, i, id) && actions[i].now == states[n].persisted[id]
  {
    if n > 0 {
      LatestTaking(states, actions, n - 1, id);
      assert Next(states[n - 1], actions[n - 1], states[n]);
      if TookAt(states, actions, n - 1, id) {
        assert states[n].persisted[id] == actions[n - 1].now;
      }
    }
  }

  /** On every run, an unforced flush takes a pending time if and only if no flush took one of that key in the
      last five minutes. */
  lemma TakenIffNotLately(states: seq<State>, actions: seq<Action>, n: nat, id: string)
    requires Run(states, actions) && n < |actions| && actions[n].Take? && !actions[n].force
    requires id in states[n].pending
    ensures TookAt(states, actions, n, id)
            <==> forall i :: 0 <= i < n && TookAt(states, actions, i, id) ==> actions[i].now + 300 <= actions[n].now
  {
    LatestTaking(states, actions, n, id);
    assert Next(states[n], actions[n], states[n + 1]);
  }
}
