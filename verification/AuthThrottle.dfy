/** The login throttle: failures counted per source and per account in windows of ten minutes, which
    begin with a failure and end when they are ten minutes old. */
module AuthThrottle {
  import opened MapOrder
  import opened Sequences

  /** Seconds. */
  const WINDOW := 600
  const SOURCE_LIMIT := 8
  const ACCOUNT_LIMIT := 32
  const SWEEP_AT := 1024

  /** Failures are counted twice: for the source, whatever the name, and for the account, whatever the
      source. */
  datatype Key = Source(client: string) | Account(user: string)

  datatype Entry = Entry(windowStart: int, count: nat)

  type Entries = map<Key, Entry>

  predicate Current(e: Entry, now: int) {
    now - e.windowStart < WINDOW
  }

  predicate Blocked(entries: Entries, key: Key, limit: nat, now: int) {
    key in entries && Current(entries[key], now) && entries[key].count >= limit
  }

  /** Without the sweep: an entry out of its window begins again. */
  function Counted(entries: Entries, key: Key, now: int): Entries {
    var e := if key in entries && Current(entries[key], now) then entries[key] else Entry(now, 0);
    entries[key := e.(count := e.count + 1)]
  }

  function Swept(entries: Entries, now: int): Entries {
    map key | key in entries && Current(entries[key], now) :: entries[key]
  }

  function Failed(entries: Entries, key: Key, now: int): Entries {
    Counted(if |entries| >= SWEEP_AT then Swept(entries, now) else entries, key, now)
  }

  class Throttle {
    var entries: Entries

    constructor ()
      ensures entries == map[]
    {
      entries := map[];
    }

    /** Whether a key is blocked, and for how long yet. */
    method IsBlocked(key: Key, limit: nat, now: int) returns (blocked: bool, wait: int)
      ensures blocked == Blocked(entries, key, limit, now)
      ensures wait == if blocked then entries[key].windowStart + WINDOW - now else 0
      ensures blocked ==> wait > 0
    {
      if key !in entries || now - entries[key].windowStart >= WINDOW || entries[key].count < limit {
        return false, 0;
      }
      return true, WINDOW - (now - entries[key].windowStart);
    }

    /** Expired entries go, in whatever order the map yields them. */
    method Sweep(now: int)
      modifies this
      ensures entries == Swept(old(entries), now)
    {
      ghost var before := entries;
      var left := entries.Keys;
      while left != {}
        invariant left <= before.Keys
        invariant forall key :: key in entries <==> key in before && (key in left || Current(before[key], now))
        invariant forall key :: key in entries ==> entries[key] == before[key]
        decreases left
      {
        SomeLeft(left);
        var key :| key in left;
        if now - entries[key].windowStart >= WINDOW {
          entries := entries - {key};
        }
        left := left - {key};
      }
    }

    method Fail(key: Key, now: int) returns (justBlocked: bool)
      modifies this
      ensures entries == Failed(old(entries), key, now)
      ensures justBlocked == (entries[key].count == SOURCE_LIMIT)
    {
      if |entries| >= SWEEP_AT {
        Sweep(now);
      }
      var e := Entry(now, 0);
      if key in entries && now - entries[key].windowStart < WINDOW {
        e := entries[key];
      }
      e := e.(count := e.count + 1);
      entries := entries[key := e];
      justBlocked := e.count == SOURCE_LIMIT;
    }

    method Succeed(key: Key)
      modifies this
      ensures entries == old(entries) - {key}
    {
      entries := entries - {key};
    }

    /** A login: unless it is turned away before it is tried, a wrong one is recorded, and a right one
        clears what was. */
    method Try(client: string, user: string, now: int, right: bool) returns (recorded: bool)
      modifies this
      ensures recorded == (!right && !Rejected(old(entries), Attempt(client, user, now, right)))
      ensures entries == Attempted(Failed, old(entries), Attempt(client, user, now, right))
    {
      var blocked, wait := IsBlocked(Source(client), SOURCE_LIMIT, now);
      if !blocked {
        blocked, wait := IsBlocked(Account(user), ACCOUNT_LIMIT, now);
      }
      recorded := !blocked && !right;
      if recorded {
        var _ := Fail(Source(client), now);
        var _ := Fail(Account(user), now);
      } else if !blocked {
        Succeed(Source(client));
        Succeed(Account(user));
      }
    }
  }

  // ---- runs of logins --------------------------------------------------------------------------

  datatype Attempt = Attempt(client: string, user: string, now: int, right: bool)

  predicate Rejected(entries: Entries, a: Attempt) {
    Blocked(entries, Source(a.client), SOURCE_LIMIT, a.now) || Blocked(entries, Account(a.user), ACCOUNT_LIMIT, a.now)
  }

  /** One way of recording a failure: with the sweep, or without it. */
  type Recording = (Entries, Key, int) -> Entries

  function Attempted(fail: Recording, entries: Entries, a: Attempt): Entries {
    if Rejected(entries, a) then entries
    else if a.right then entries - {Source(a.client)} - {Account(a.user)}
    else fail(fail(entries, Source(a.client), a.now), Account(a.user), a.now)
  }

  function After(fail: Recording, run: seq<Attempt>): Entries {
    if run == [] then map[] else Attempted(fail, After(fail, run[..|run| - 1]), run[|run| - 1])
  }

  predicate InOrder(run: seq<Attempt>) {
    forall i, j :: 0 <= i < j < |run| ==> run[i].now <= run[j].now
  }

  // ---- the sweep never matters -----------------------------------------------------------------

  /** The two maps say the same of every key, now and for as long as the clock goes on. */
  ghost predicate Alike(a: Entries, b: Entries, now: int) {
    forall key :: (key in a && Current(a[key], now) <==> key in b && Current(b[key], now))
                  && (key in a && Current(a[key], now) ==> a[key] == b[key])
  }

  lemma AlikeLater(a: Entries, b: Entries, now: int, later: int)
    requires Alike(a, b, now) && now <= later
    ensures Alike(a, b, later)
  {
    forall key ensures (key in a && Current(a[key], later) <==> key in b && Current(b[key], later))
    {
      assert key in a && Current(a[key], later) ==> Current(a[key], now);
      assert key in b && Current(b[key], later) ==> Current(b[key], now);
    }
  }

  lemma AlikeFail(a: Entries, b: Entries, key: Key, now: int)
    requires Alike(a, b, now)
    ensures Alike(Failed(a, key, now), Counted(b, key, now), now)
  {
    var kept := if |a| >= SWEEP_AT then Swept(a, now) else a;
    assert Alike(kept, b, now);
  }

  lemma AlikeSucceed(a: Entries, b: Entries, key: Key, now: int)
    requires Alike(a, b, now)
    ensures Alike(a - {key}, b - {key}, now)
  {
  }

  lemma {:induction false} SweptIsAlike(run: seq<Attempt>, now: int)
    requires InOrder(run) && forall i :: 0 <= i < |run| ==> run[i].now <= now
    ensures Alike(After(Failed, run), After(Counted, run), now)
  {
    if run != [] {
      var front, a := run[..|run| - 1], run[|run| - 1];
      SweptIsAlike(front, a.now);
      var swept, whole := After(Failed, front), After(Counted, front);
      if a.right {
        AlikeSucceed(swept, whole, Source(a.client), a.now);
        AlikeSucceed(swept - {Source(a.client)}, whole - {Source(a.client)}, Account(a.user), a.now);
      } else if !Rejected(swept, a) {
        AlikeFail(swept, whole, Source(a.client), a.now);
        AlikeFail(Failed(swept, Source(a.client), a.now),
                  Counted(whole, Source(a.client), a.now), Account(a.user), a.now);
      }
      AlikeLater(After(Failed, run), After(Counted, run), a.now, now);
    }
  }

  /** On every run of logins, right ones and wrong ones, with a clock that does not go back, the throttle
      answers as it would if it never swept: the same keys are blocked, at the same limits, for the same time. */
  lemma SweepNeverMatters(run: seq<Attempt>, now: int, key: Key, limit: nat)
    requires InOrder(run) && forall i :: 0 <= i < |run| ==> run[i].now <= now
    ensures Blocked(After(Failed, run), key, limit, now) == Blocked(After(Counted, run), key, limit, now)
    ensures Blocked(After(Failed, run), key, limit, now) ==> After(Failed, run)[key] == After(Counted, run)[key]
  {
    SweptIsAlike(run, now);
  }

  // ---- how many failures a window holds --------------------------------------------------------

  function KeyOf(a: Attempt, key: Key): bool {
    key == Source(a.client) || key == Account(a.user)
  }

  function LimitOf(key: Key): nat {
    if key.Source? then SOURCE_LIMIT else ACCOUNT_LIMIT
  }

  /** The failures recorded for `key` from time `a` on, for one window's length. */
  function Recorded(fail: Recording, run: seq<Attempt>, key: Key, a: int): nat {
    if run == [] then 0
    else
      var front, last := run[..|run| - 1], run[|run| - 1];
      Recorded(fail, front, key, a)
      + (if Records(After(fail, front), last, key) && a <= last.now < a + WINDOW then 1 else 0)
  }

  predicate Records(entries: Entries, a: Attempt, key: Key) {
    !a.right && !Rejected(entries, a) && KeyOf(a, key)
  }

  /** Nobody succeeds from this source, or with this account. */
  predicate NeverRight(run: seq<Attempt>, key: Key) {
    forall i :: 0 <= i < |run| && run[i].right ==> !KeyOf(run[i], key)
  }

  /** What is known of a key's count, given where its window stands to the interval from `a` on. */
  ghost predicate Bounded(entries: Entries, key: Key, a: int, seen: nat, now: int) {
    var limit := LimitOf(key);
    (now < a ==> seen == 0) &&
    if key !in entries then seen == 0
    else
      var e := entries[key];
      && 1 <= e.count <= limit && e.windowStart <= now
      && (if e.windowStart < a then seen <= e.count - 1
          else if e.windowStart < a + WINDOW then seen <= limit - 1 + e.count
          else seen <= 2 * limit - 1)
  }

  lemma CountedBounded(entries: Entries, key: Key, a: int, seen: nat, before: int, now: int)
    requires Bounded(entries, key, a, seen, before) && before <= now && !Blocked(entries, key, LimitOf(key), now)
    ensures Bounded(Counted(entries, key, now), key, a, seen + (if a <= now < a + WINDOW then 1 else 0), now)
  {
  }

  lemma BoundedLater(entries: Entries, other: Key, key: Key, a: int, seen: nat, before: int, now: int)
    requires Bounded(entries, key, a, seen, before) && before <= now
    ensures Bounded(entries, key, a, seen, now)
    ensures other != key ==> Bounded(Counted(entries, other, now), key, a, seen, now)
    ensures other != key ==> Bounded(entries - {other}, key, a, seen, now)
  {
  }

  lemma AttemptBounded(entries: Entries, last: Attempt, key: Key, a: int, seen: nat)
    requires Bounded(entries, key, a, seen, last.now) && (last.right ==> !KeyOf(last, key))
    ensures Bounded(Attempted(Counted, entries, last), key, a,
                    seen + (if Records(entries, last, key) && a <= last.now < a + WINDOW then 1 else 0), last.now)
  {
    BoundedLater(entries, Source(last.client), key, a, seen, last.now, last.now);
    if !Rejected(entries, last) {
      if last.right {
        BoundedLater(entries - {Source(last.client)}, Account(last.user), key, a, seen, last.now, last.now);
      } else {
        var once := Counted(entries, Source(last.client), last.now);
        if key == Source(last.client) {
          CountedBounded(entries, key, a, seen, last.now, last.now);
          BoundedLater(once, Account(last.user), key, a, seen + (if a <= last.now < a + WINDOW then 1 else 0),
                       last.now, last.now);
        } else if key == Account(last.user) {
          CountedBounded(once, key, a, seen, last.now, last.now);
        } else {
          BoundedLater(once, Account(last.user), key, a, seen, last.now, last.now);
        }
      }
    }
  }

  lemma {:induction false} CountIsBounded(run: seq<Attempt>, key: Key, a: int, now: int)
    requires InOrder(run) && NeverRight(run, key) && forall i :: 0 <= i < |run| ==> run[i].now <= now
    ensures Bounded(After(Counted, run), key, a, Recorded(Counted, run, key, a), now)
  {
    if run != [] {
      var front, last := run[..|run| - 1], run[|run| - 1];
      CountIsBounded(front, key, a, last.now);
      var entries, seen := After(Counted, front), Recorded(Counted, front, key, a);
      AttemptBounded(entries, last, key, a, seen);
      BoundedLater(After(Counted, run), key, key, a, Recorded(Counted, run, key, a), last.now, now);
    }
  }

  lemma {:induction false} SameRecorded(run: seq<Attempt>, key: Key, a: int)
    requires InOrder(run)
    ensures Recorded(Failed, run, key, a) == Recorded(Counted, run, key, a)
  {
    if run != [] {
      var front, last := run[..|run| - 1], run[|run| - 1];
      SameRecorded(front, key, a);
      SweepNeverMatters(front, last.now, Source(last.client), SOURCE_LIMIT);
      SweepNeverMatters(front, last.now, Account(last.user), ACCOUNT_LIMIT);
    }
  }

  /** Until somebody succeeds from a source, any ten minutes hold at most fifteen recorded failures of it,
      and sixty-three of an account: twice the limit, less one. */
  lemma TwiceTheLimitLessOne(run: seq<Attempt>, key: Key, a: int)
    requires InOrder(run) && NeverRight(run, key)
    ensures Recorded(Failed, run, key, a) <= if key.Source? then 15 else 63
  {
    if run != [] {
      CountIsBounded(run, key, a, run[|run| - 1].now);
    }
    SameRecorded(run, key, a);
  }

  // ---- and it is no less -----------------------------------------------------------------------

  /** A different account each time, so that only the source counts. */
  function Guess(client: string, n: nat, now: int): Attempt {
    Attempt(client, Name(n), now, false)
  }

  function Name(n: nat): string {
    seq(n, i => 'a')
  }

  /** `k` more failures at one time, numbered from `n` on. */
  function Burst(client: string, n: nat, now: int, k: nat): seq<Attempt> {
    if k == 0 then [] else Burst(client, n, now, k - 1) + [Guess(client, n + k - 1, now)]
  }

  /** Accounts named so far have failed once each at most; the source's window is as given. */
  ghost predicate Fresh(entries: Entries, client: string, n: nat, e: Entry) {
    var stands :=
      && Source(client) in entries && entries[Source(client)] == e
      && (forall m: nat :: m >= n ==> Account(Name(m)) !in entries);
    stands
  }

  lemma NamesDiffer(n: nat, m: nat)
    requires n != m
    ensures Name(n) != Name(m)
  {
    assert |Name(n)| == n && |Name(m)| == m;
  }

  /** A run that leaves the source's window as given, with so many failures recorded from `a` on. */
  ghost predicate Reaches(run: seq<Attempt>, client: string, n: nat, e: Entry, a: int, seen: nat) {
    var reaches := Fresh(After(Counted, run), client, n, e) && Recorded(Counted, run, Source(client), a) == seen;
    reaches
  }

  lemma GuessCounts(entries: Entries, client: string, n: nat, e: Entry, now: int)
    requires Fresh(entries, client, n, e) && (e.count < SOURCE_LIMIT || !Current(e, now))
    ensures !Rejected(entries, Guess(client, n, now))
    ensures Fresh(Attempted(Counted, entries, Guess(client, n, now)), client, n + 1,
                  if Current(e, now) then e.(count := e.count + 1) else Entry(now, 1))
  {
    forall m: nat | m >= n + 1 ensures Account(Name(m)) !in Attempted(Counted, entries, Guess(client, n, now)) {
      NamesDiffer(n, m);
    }
  }

  lemma GuessIsRecorded(run: seq<Attempt>, next: seq<Attempt>, client: string, n: nat, e: Entry, f: Entry,
                        now: int, a: int, seen: nat)
    requires Reaches(run, client, n, e, a, seen) && Current(e, now) && e.count < SOURCE_LIMIT
    requires next == run + [Guess(client, n, now)] && f == e.(count := e.count + 1) && a <= now < a + WINDOW
    ensures Reaches(next, client, n + 1, f, a, seen + 1)
  {
    OneMore(run, Guess(client, n, now), Source(client), a);
    GuessCounts(After(Counted, run), client, n, e, now);
  }

  lemma {:induction false} BurstCounts(run: seq<Attempt>, client: string, n: nat, e: Entry, now: int, k: nat, a: int,
                                       seen: nat)
    requires Reaches(run, client, n, e, a, seen) && Current(e, now) && e.count + k <= SOURCE_LIMIT
    requires a <= now < a + WINDOW
    ensures Reaches(run + Burst(client, n, now, k), client, n + k, e.(count := e.count + k), a, seen + k)
    decreases k
  {
    if k == 0 {
      Neutral(run);
    } else {
      BurstCounts(run, client, n, e, now, k - 1, a, seen);
      BurstNext(run, client, n, now, k);
      GuessIsRecorded(run + Burst(client, n, now, k - 1), run + Burst(client, n, now, k), client, n + k - 1,
                      e.(count := e.count + k - 1), e.(count := e.count + k), now, a, seen + k - 1);
    }
  }

  lemma BurstNext(run: seq<Attempt>, client: string, n: nat, now: int, k: nat)
    requires k > 0
    ensures run + Burst(client, n, now, k) == run + Burst(client, n, now, k - 1) + [Guess(client, n + k - 1, now)]
  {
    Associate(run, Burst(client, n, now, k - 1), [Guess(client, n + k - 1, now)]);
  }

  lemma OneMore(run: seq<Attempt>, last: Attempt, key: Key, a: int)
    ensures After(Counted, run + [last]) == Attempted(Counted, After(Counted, run), last)
    ensures Recorded(Counted, run + [last], key, a)
         == Recorded(Counted, run, key, a)
            + (if Records(After(Counted, run), last, key) && a <= last.now < a + WINDOW then 1 else 0)
  {
    Front(run, last);
  }

  lemma {:induction false} BurstTimes(client: string, n: nat, now: int, k: nat)
    ensures |Burst(client, n, now, k)| == k && forall i :: 0 <= i < k ==> Burst(client, n, now, k)[i].now == now
  {
    if k > 0 {
      BurstTimes(client, n, now, k - 1);
    }
  }

  /** One failure, seven as the window ends, and eight as the next begins. */
  function Straddling(client: string): seq<Attempt> {
    [Guess(client, 0, 0)] + Burst(client, 1, WINDOW - 1, SOURCE_LIMIT - 1) + [Guess(client, SOURCE_LIMIT, WINDOW)]
    + Burst(client, SOURCE_LIMIT + 1, WINDOW, SOURCE_LIMIT - 1)
  }

  /** Fifteen failures of one source do fit into ten minutes: a limit of eight in a window is not a limit
      of eight in any ten minutes. */
  lemma FifteenInTenMinutes(client: string)
    ensures InOrder(Straddling(client))
    ensures Recorded(Failed, Straddling(client), Source(client), 1) == 15
  {
    var first := [Guess(client, 0, 0)];
    var second := first + Burst(client, 1, WINDOW - 1, SOURCE_LIMIT - 1);
    var third := second + [Guess(client, SOURCE_LIMIT, WINDOW)];
    BurstTimes(client, 1, WINDOW - 1, SOURCE_LIMIT - 1);
    BurstTimes(client, SOURCE_LIMIT + 1, WINDOW, SOURCE_LIMIT - 1);
    assert InOrder(Straddling(client));
    FirstGuess(client);
    BurstCounts(first, client, 1, Entry(0, 1), WINDOW - 1, SOURCE_LIMIT - 1, 1, 0);
    NextWindow(second, client, SOURCE_LIMIT, Entry(0, SOURCE_LIMIT), WINDOW, 1, SOURCE_LIMIT - 1);
    BurstCounts(third, client, SOURCE_LIMIT + 1, Entry(WINDOW, 1), WINDOW, SOURCE_LIMIT - 1, 1, SOURCE_LIMIT);
    SameRecorded(Straddling(client), Source(client), 1);
  }

  /** Once its window is over, a source that was blocked begins again. */
  lemma NextWindow(run: seq<Attempt>, client: string, n: nat, e: Entry, now: int, a: int, seen: nat)
    requires Reaches(run, client, n, e, a, seen) && !Current(e, now) && a <= now < a + WINDOW
    ensures Reaches(run + [Guess(client, n, now)], client, n + 1, Entry(now, 1), a, seen + 1)
  {
    OneMore(run, Guess(client, n, now), Source(client), a);
    GuessCounts(After(Counted, run), client, n, e, now);
  }

  lemma FirstGuess(client: string)
    ensures Reaches([Guess(client, 0, 0)], client, 1, Entry(0, 1), 1, 0)
  {
    var guess := Guess(client, 0, 0);
    assert [guess][..0] == [];
    assert After(Counted, []) == map[];
    forall m: nat | m >= 1 ensures Account(Name(m)) !in After(Counted, [guess]) {
      NamesDiffer(0, m);
    }
  }

  // ---- a success -------------------------------------------------------------------------------

  /** A right login that is let through clears its source and its account, and nobody else; one that is turned
      away clears nothing. */
  lemma SuccessClears(fail: Recording, entries: Entries, a: Attempt)
    requires a.right
    ensures var next := Attempted(fail, entries, a);
            if Blocked(entries, Source(a.client), SOURCE_LIMIT, a.now)
               || Blocked(entries, Account(a.user), ACCOUNT_LIMIT, a.now)
            then next == entries
            else forall key :: (key in next <==> key in entries && key != Source(a.client) && key != Account(a.user))
                               && (key in next ==> next[key] == entries[key])
  {
  }

  // ---- who is turned away ----------------------------------------------------------------------

  /** A window of ten minutes that began at `start` is still running. */
  predicate Running(start: int, now: int) {
    now < start + 600
  }

  /** A login is turned away if and only if eight failures of its source, or thirty-two of its account, were
      counted in a window that is still running. */
  lemma TurnedAwayIff(entries: Entries, a: Attempt)
    ensures Rejected(entries, a)
            <==> exists key :: key in entries && key in {Source(a.client), Account(a.user)}
                               && Running(entries[key].windowStart, a.now)
                               && entries[key].count >= if key.Source? then 8 else 32
  {
    if Blocked(entries, Source(a.client), SOURCE_LIMIT, a.now) {
      assert Source(a.client) in {Source(a.client), Account(a.user)};
    }
    if Blocked(entries, Account(a.user), ACCOUNT_LIMIT, a.now) {
      assert Account(a.user) in {Source(a.client), Account(a.user)};
    }
  }

  /** A failure that is recorded adds one to a window still running, and otherwise begins one with itself. */
  lemma FailureCounts(entries: Entries, key: Key, now: int)
    ensures var next := Failed(entries, key, now);
            key in next
            && next[key] == if key in entries && Running(entries[key].windowStart, now)
                            then Entry(entries[key].windowStart, entries[key].count + 1) else Entry(now, 1)
  {
  }
}
