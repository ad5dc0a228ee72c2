/** Refreshing an OAuth token that many callers share: check, lock, read again, spend, store.

    Callers take their steps in any order, sign-ins replace the credential without the lock, and the
    upstream may rotate the refresh token, keep it, or fail.  Claude and ChatGPT refresh alike, but for
    what an unknown expiry means (`unknownIsStale`). */
module TokenRefresh {

  type Token = nat

  /** `expires` is `Unknown` when it was not given or could not be read. */
  datatype Expiry = Unknown | At(time: int)

  datatype Credential = Credential(refresh: Token, hasAccess: bool, expires: Expiry)

  datatype Stored = Nothing | Held(credential: Credential)

  /** Where a caller is in `ensureFresh...Token`. */
  datatype Phase =
    | Away
    | Waiting(lead: nat)
    | Locked(lead: nat)
    | Holding(lead: nat, current: Credential)
    | Refreshed(credential: Credential)

  datatype Answer =
    | Rotates(replacement: Token, expires: Expiry)
    | Keeps(expires: Expiry)
    | Fails

  datatype Action =
    | Enter(caller: nat, lead: nat, snapshot: Stored)
    | Acquire(caller: nat)
    | ReadAgain(caller: nat)
    | Spend(caller: nat, answer: Answer)
    | Store(caller: nat)
    | SignIn(credential: Credential)
    | Remove
    | Tick(elapsed: nat)

  datatype Lock = Free | Taken(caller: nat)

  /** `issued` are the refresh tokens ever handed out, `dead` those rotated away, and `spends` what was
      spent so far with the upstream's answers. */
  datatype State = State(
    now: int,
    stored: Stored,
    lock: Lock,
    callers: map<nat, Phase>,
    issued: set<Token>,
    dead: set<Token>,
    spends: seq<(Token, Answer)>)

  function PhaseOf(s: State, caller: nat): Phase {
    if caller in s.callers then s.callers[caller] else Away
  }

  function Move(s: State, caller: nat, phase: Phase): State {
    s.(callers := s.callers[caller := phase])
  }

  predicate Stale(unknownIsStale: bool, c: Credential, now: int, lead: nat) {
    !c.hasAccess || (if c.expires.Unknown? then unknownIsStale else now + lead > c.expires.time)
  }

  function Leave(s: State, caller: nat): State {
    Move(s, caller, Away).(lock := Free)
  }

  function CredentialFrom(current: Credential, answer: Answer): Credential
    requires !answer.Fails?
  {
    match answer
    case Rotates(replacement, expires) => Credential(replacement, true, expires)
    case Keeps(expires) => Credential(current.refresh, true, expires)
  }

  /** One step of one party.  A step whose party is not there leaves everything as it is. */
  function Step(unknownIsStale: bool, s: State, a: Action): State {
    match a
    case Enter(caller, lead, snapshot) =>
      if !PhaseOf(s, caller).Away? || snapshot.Nothing? || !Stale(unknownIsStale, snapshot.credential, s.now, lead)
      then s
      else Move(s, caller, Waiting(lead))
    case Acquire(caller) =>
      if !PhaseOf(s, caller).Waiting? || !s.lock.Free? then s
      else Move(s, caller, Locked(PhaseOf(s, caller).lead)).(lock := Taken(caller))
    case ReadAgain(caller) =>
      if !PhaseOf(s, caller).Locked? then s
      else if s.stored.Nothing? || !Stale(unknownIsStale, s.stored.credential, s.now, PhaseOf(s, caller).lead)
      then Leave(s, caller)
      else Move(s, caller, Holding(PhaseOf(s, caller).lead, s.stored.credential))
    case Spend(caller, answer) =>
      if !PhaseOf(s, caller).Holding? then s
      else
        var current := PhaseOf(s, caller).current;
        var spent := s.(spends := s.spends + [(current.refresh, answer)]);
        if answer.Fails? then Leave(spent, caller)
        else
          Move(spent, caller, Refreshed(CredentialFrom(current, answer))).(
            issued := if answer.Rotates? then s.issued + {answer.replacement} else s.issued,
            dead := if answer.Rotates? then s.dead + {current.refresh} else s.dead)
    case Store(caller) =>
      if !PhaseOf(s, caller).Refreshed? then s
      else if s.stored.Nothing? then Leave(s, caller)
      else Leave(s, caller).(stored := Held(PhaseOf(s, caller).credential))
    case SignIn(credential) =>
      s.(stored := Held(credential), issued := s.issued + {credential.refresh})
    case Remove => s.(stored := Nothing)
    case Tick(elapsed) => s.(now := s.now + elapsed)
  }

  /** What upstreams and sign-ins may do: a token they hand out is one never handed out before. */
  predicate Allowed(s: State, a: Action) {
    match a
    case Spend(_, Rotates(replacement, _)) => replacement !in s.issued
    case SignIn(credential) => credential.refresh !in s.issued
    case _ => true
  }

  function Run(unknownIsStale: bool, s: State, actions: seq<Action>): State {
    if actions == [] then s
    else Step(unknownIsStale, Run(unknownIsStale, s, actions[..|actions| - 1]), actions[|actions| - 1])
  }

  predicate AllAllowed(unknownIsStale: bool, s: State, actions: seq<Action>) {
    forall i :: 0 <= i < |actions| ==> Allowed(Run(unknownIsStale, s, actions[..i]), actions[i])
  }

  /** Nobody is inside, nothing has been spent, and what is stored was issued. */
  predicate Quiet(s: State) {
    && s.lock.Free? && s.callers == map[] && s.dead == {} && s.spends == []
    && (s.stored.Held? ==> s.stored.credential.refresh in s.issued)
  }

  // ---- what every step keeps -------------------------------------------------------------------

  predicate Inside(p: Phase) {
    p.Locked? || p.Holding? || p.Refreshed?
  }

  /** Only the holder of the lock is past it. */
  ghost predicate Exclusive(s: State) {
    var exclusive := forall c :: c in s.callers && Inside(s.callers[c]) ==> s.lock == Taken(c);
    exclusive
  }

  /** What is stored, or about to be spent or stored, is alive.  Only between a rotation and the store
      that follows it may the stored token be the dead one. */
  ghost predicate Alive(s: State) {
    var alive :=
      && s.dead <= s.issued
      && (s.stored.Held? ==> s.stored.credential.refresh in s.issued)
      && (s.stored.Held? && s.stored.credential.refresh in s.dead
          ==> s.lock.Taken? && PhaseOf(s, s.lock.caller).Refreshed?)
      && (forall c :: c in s.callers && s.callers[c].Holding? ==>
            s.callers[c].current.refresh in s.issued && s.callers[c].current.refresh !in s.dead)
      && (forall c :: c in s.callers && s.callers[c].Refreshed? ==>
            s.callers[c].credential.refresh in s.issued && s.callers[c].credential.refresh !in s.dead);
    alive
  }

  /** Every rotated token is dead, and was alive whenever it or any other was spent. */
  ghost predicate Recorded(s: State) {
    var recorded :=
      && (forall i :: 0 <= i < |s.spends| && s.spends[i].1.Rotates? ==> s.spends[i].0 in s.dead)
      && (forall i, j :: 0 <= i < j < |s.spends| && s.spends[i].1.Rotates? ==> s.spends[i].0 != s.spends[j].0);
    recorded
  }

  lemma StepExclusive(unknownIsStale: bool, s: State, a: Action)
    requires Exclusive(s)
    ensures Exclusive(Step(unknownIsStale, s, a))
  {
  }

  lemma StepAlive(unknownIsStale: bool, s: State, a: Action)
    requires Exclusive(s) && Alive(s) && Allowed(s, a)
    ensures Alive(Step(unknownIsStale, s, a))
  {
    match a
    case ReadAgain(c) =>
      assert PhaseOf(s, c).Locked? ==> s.lock == Taken(c);
    case Spend(c, _) =>
      assert PhaseOf(s, c).Holding? ==> s.lock == Taken(c);
    case Store(c) =>
      assert PhaseOf(s, c).Refreshed? ==> s.lock == Taken(c);
    case _ =>
  }

  lemma StepRecorded(unknownIsStale: bool, s: State, a: Action)
    requires Alive(s) && Recorded(s)
    ensures Recorded(Step(unknownIsStale, s, a))
  {
  }

  lemma {:induction false} RunKeeps(unknownIsStale: bool, s: State, actions: seq<Action>)
    requires Quiet(s) && AllAllowed(unknownIsStale, s, actions)
    ensures var end := Run(unknownIsStale, s, actions); Exclusive(end) && Alive(end) && Recorded(end)
  {
    if actions != [] {
      var front := actions[..|actions| - 1];
      forall i | 0 <= i < |front| ensures Allowed(Run(unknownIsStale, s, front[..i]), front[i]) {
        assert front[..i] == actions[..i] && front[i] == actions[i];
      }
      RunKeeps(unknownIsStale, s, front);
      var before, a := Run(unknownIsStale, s, front), actions[|actions| - 1];
      assert Allowed(Run(unknownIsStale, s, actions[..|actions| - 1]), actions[|actions| - 1]);
      StepExclusive(unknownIsStale, before, a);
      StepAlive(unknownIsStale, before, a);
      StepRecorded(unknownIsStale, before, a);
    }
  }

  /** Over every interleaving of callers, sign-ins and removals, a refresh token that has been rotated
      away is never spent again. */
  lemma RotatedTokensStaySpent(unknownIsStale: bool, s: State, actions: seq<Action>, i: nat, j: nat)
    requires Quiet(s) && AllAllowed(unknownIsStale, s, actions)
    requires i < j < |Run(unknownIsStale, s, actions).spends|
    requires Run(unknownIsStale, s, actions).spends[i].1.Rotates?
    ensures Run(unknownIsStale, s, actions).spends[i].0 != Run(unknownIsStale, s, actions).spends[j].0
  {
    RunKeeps(unknownIsStale, s, actions);
  }

  /** Once everyone has left, what is stored can be spent. */
  lemma StoredTokenWorks(unknownIsStale: bool, s: State, actions: seq<Action>)
    requires Quiet(s) && AllAllowed(unknownIsStale, s, actions)
    requires Run(unknownIsStale, s, actions).lock.Free? && Run(unknownIsStale, s, actions).stored.Held?
    ensures Run(unknownIsStale, s, actions).stored.credential.refresh !in Run(unknownIsStale, s, actions).dead
  {
    RunKeeps(unknownIsStale, s, actions);
  }

  // ---- one expiry, one refresh -----------------------------------------------------------------

  function Successes(spends: seq<(Token, Answer)>): nat {
    if spends == [] then 0
    else Successes(spends[..|spends| - 1]) + (if spends[|spends| - 1].1.Fails? then 0 else 1)
  }

  /** A credential good for every lead the callers ask for, until `end`. */
  predicate Lasts(c: Credential, end: int, maxLead: nat) {
    c.hasAccess && c.expires.At? && end + maxLead <= c.expires.time
  }

  /** The race: no caller asks for more lead than `maxLead`, what the upstream grants lasts beyond the race,
      and the race is over by `end`.  Anyone may sign in and the provider may be removed at any time. */
  predicate Races(s: State, a: Action, end: int, maxLead: nat) {
    match a
    case Enter(_, lead, _) => lead <= maxLead
    case Spend(_, Rotates(_, expires)) => expires.At? && end + maxLead <= expires.time
    case Spend(_, Keeps(expires)) => expires.At? && end + maxLead <= expires.time
    case Tick(elapsed) => s.now + elapsed <= end
    case _ => true
  }

  /** The sign-ins that bring a credential which expires within the race: each is an expiry of its own. */
  function ShortSignIns(race: seq<Action>, end: int, maxLead: nat): nat {
    if race == [] then 0
    else
      ShortSignIns(race[..|race| - 1], end, maxLead) + (if Shortens(race[|race| - 1], end, maxLead) then 1 else 0)
  }

  predicate Shortens(a: Action, end: int, maxLead: nat) {
    a.SignIn? && !Lasts(a.credential, end, maxLead)
  }

  /** Where the holder of the lock is. */
  function HolderPhase(s: State): Phase {
    if s.lock.Taken? then PhaseOf(s, s.lock.caller) else Away
  }

  /** A refresh may still succeed: somebody is about to spend, or what is stored is to be refreshed and
      nobody has done so yet. */
  predicate Open(s: State, end: int, maxLead: nat) {
    HolderPhase(s).Holding?
    || (s.stored.Held? && !Lasts(s.stored.credential, end, maxLead) && !HolderPhase(s).Refreshed?)
  }

  /** Within `budget` successes, counting the one that may still come. */
  ghost predicate Within(s: State, budget: nat, end: int, maxLead: nat) {
    var within :=
      && s.now <= end
      && (forall c :: c in s.callers && (s.callers[c].Waiting? || s.callers[c].Locked? || s.callers[c].Holding?) ==>
            s.callers[c].lead <= maxLead)
      && (forall c :: c in s.callers && s.callers[c].Refreshed? ==> Lasts(s.callers[c].credential, end, maxLead))
      && Successes(s.spends) + (if Open(s, end, maxLead) then 1 else 0) <= budget;
    within
  }

  lemma SuccessesAppend(spends: seq<(Token, Answer)>, t: Token, answer: Answer)
    ensures Successes(spends + [(t, answer)]) == Successes(spends) + (if answer.Fails? then 0 else 1)
  {
    assert (spends + [(t, answer)])[..|spends|] == spends;
  }

  lemma SpendWithin(s: State, c: nat, answer: Answer, budget: nat, end: int, maxLead: nat)
    requires Exclusive(s) && Within(s, budget, end, maxLead) && Races(s, Spend(c, answer), end, maxLead)
    ensures Within(Step(true, s, Spend(c, answer)), budget, end, maxLead)
  {
    if PhaseOf(s, c).Holding? {
      SuccessesAppend(s.spends, PhaseOf(s, c).current.refresh, answer);
      assert s.lock == Taken(c);
    }
  }

  lemma ReadWithin(unknownIsStale: bool, s: State, c: nat, budget: nat, end: int, maxLead: nat)
    requires Exclusive(s) && Within(s, budget, end, maxLead)
    ensures Within(Step(unknownIsStale, s, ReadAgain(c)), budget, end, maxLead)
  {
    assert PhaseOf(s, c).Locked? ==> s.lock == Taken(c);
  }

  lemma StoreWithin(s: State, c: nat, budget: nat, end: int, maxLead: nat)
    requires Exclusive(s) && Within(s, budget, end, maxLead)
    ensures Within(Step(true, s, Store(c)), budget, end, maxLead)
  {
    assert PhaseOf(s, c).Refreshed? ==> s.lock == Taken(c);
  }

  lemma SignInWithin(s: State, credential: Credential, budget: nat, end: int, maxLead: nat)
    requires Within(s, budget, end, maxLead)
    ensures Within(Step(true, s, SignIn(credential)),
                   budget + (if Lasts(credential, end, maxLead) then 0 else 1), end, maxLead)
  {
  }

  lemma OtherWithin(unknownIsStale: bool, s: State, a: Action, budget: nat, end: int, maxLead: nat)
    requires Exclusive(s) && Within(s, budget, end, maxLead) && Races(s, a, end, maxLead)
    requires a.Enter? || a.Acquire? || a.Tick? || a.Remove?
    ensures Within(Step(unknownIsStale, s, a), budget, end, maxLead)
  {
    if a.Acquire? && PhaseOf(s, a.caller).Waiting? {
      assert a.caller in s.callers;
    }
  }

  lemma StepWithin(unknownIsStale: bool, s: State, a: Action, budget: nat, end: int, maxLead: nat)
    requires Exclusive(s) && Within(s, budget, end, maxLead) && Races(s, a, end, maxLead)
    ensures Within(Step(unknownIsStale, s, a), budget + (if Shortens(a, end, maxLead) then 1 else 0), end, maxLead)
  {
    match a
    case Spend(c, answer) =>
      SpendWithin(s, c, answer, budget, end, maxLead);
      assert Step(unknownIsStale, s, a) == Step(true, s, a);
    case ReadAgain(c) => ReadWithin(unknownIsStale, s, c, budget, end, maxLead);
    case Store(c) =>
      StoreWithin(s, c, budget, end, maxLead);
      assert Step(unknownIsStale, s, a) == Step(true, s, a);
    case SignIn(credential) =>
      SignInWithin(s, credential, budget, end, maxLead);
      assert Step(unknownIsStale, s, a) == Step(true, s, a);
    case _ => OtherWithin(unknownIsStale, s, a, budget, end, maxLead);
  }

  /** However many callers race one expiry, whoever signs in or removes the provider meanwhile, at most one
      of them refreshes successfully; each sign-in with a credential that expires within the race allows
      one more. */
  lemma {:induction false} OneRefreshPerExpiry(unknownIsStale: bool, s: State, race: seq<Action>, end: int,
                                               maxLead: nat)
    requires Exclusive(s) && s.now <= end && forall c :: c in s.callers ==> s.callers[c].Away?
    requires forall i :: 0 <= i < |race| ==> Races(Run(unknownIsStale, s, race[..i]), race[i], end, maxLead)
    ensures Exclusive(Run(unknownIsStale, s, race))
    ensures Within(Run(unknownIsStale, s, race),
                   Successes(s.spends) + 1 + ShortSignIns(race, end, maxLead), end, maxLead)
    ensures Successes(Run(unknownIsStale, s, race).spends) <= Successes(s.spends) + 1 + ShortSignIns(race, end, maxLead)
  {
    if race != [] {
      var front := race[..|race| - 1];
      forall i | 0 <= i < |front| ensures Races(Run(unknownIsStale, s, front[..i]), front[i], end, maxLead) {
        assert front[..i] == race[..i] && front[i] == race[i];
      }
      OneRefreshPerExpiry(unknownIsStale, s, front, end, maxLead);
      var before, a := Run(unknownIsStale, s, front), race[|race| - 1];
      assert Races(Run(unknownIsStale, s, race[..|race| - 1]), race[|race| - 1], end, maxLead);
      StepExclusive(unknownIsStale, before, a);
      StepWithin(unknownIsStale, before, a, Successes(s.spends) + 1 + ShortSignIns(front, end, maxLead), end, maxLead);
    }
  }

  // ---- who refreshes, and who need not ---------------------------------------------------------

  /** A caller who asks for `lead` can use the credential: it has an access token, and outlasts the lead; one
      whose expiry is not known is trusted or not. */
  predicate Usable(unknownIsStale: bool, c: Credential, now: int, lead: nat) {
    match c.expires
    case Unknown => c.hasAccess && !unknownIsStale
    case At(time) => c.hasAccess && now + lead <= time
  }

  /** A caller who comes with a credential that cannot be used waits for the lock; one whose credential can be
      used, or who has none, goes away with it, and nothing changes. */
  lemma EnterWaitsIff(unknownIsStale: bool, s: State, caller: nat, lead: nat, snapshot: Stored)
    requires PhaseOf(s, caller).Away?
    ensures var next := Step(unknownIsStale, s, Enter(caller, lead, snapshot));
            if snapshot.Held? && !Usable(unknownIsStale, snapshot.credential, s.now, lead)
            then next == s.(callers := s.callers[caller := Waiting(lead)])
            else next == s
  {
  }

  /** A caller who holds the lock and reads again goes away without refreshing just when nothing is stored any
      more or what is stored can be used; otherwise what is stored is what it is about to spend. */
  lemma ReadAgainLeavesIff(unknownIsStale: bool, s: State, caller: nat)
    requires PhaseOf(s, caller).Locked?
    ensures var next, lead := Step(unknownIsStale, s, ReadAgain(caller)), PhaseOf(s, caller).lead;
            && (PhaseOf(next, caller).Away?
                <==> s.stored.Nothing? || Usable(unknownIsStale, s.stored.credential, s.now, lead))
            && (PhaseOf(next, caller).Away? ==> next.lock.Free?)
            && (!PhaseOf(next, caller).Away? ==> PhaseOf(next, caller) == Holding(lead, s.stored.credential)
                                                 && next.lock == s.lock)
            && next.stored == s.stored && next.spends == s.spends
  {
  }

  /** Step `j` is the one in which `caller` read again, with the lock, what it now holds, and it could not be
      used then. */
  ghost predicate FoundStale(unknownIsStale: bool, s: State, actions: seq<Action>, caller: nat, j: nat) {
    j < |actions| && actions[j] == ReadAgain(caller)
    && var was, phase := Run(unknownIsStale, s, actions[..j]), PhaseOf(Run(unknownIsStale, s, actions), caller);
       phase.Holding? && was.lock == Taken(caller) && was.stored == Held(phase.current)
       && !Usable(unknownIsStale, phase.current, was.now, phase.lead)
  }

  /** Over every run, whoever is about to spend a refresh token holds a credential that could not be used when
      it was read again behind the lock: nothing is refreshed that need not be. */
  lemma {:induction false} SpendsOnlyStale(unknownIsStale: bool, s: State, actions: seq<Action>, caller: nat)
    returns (j: nat)
    requires s.lock.Free? && s.callers == map[]
    requires PhaseOf(Run(unknownIsStale, s, actions), caller).Holding?
    ensures FoundStale(unknownIsStale, s, actions, caller, j)
  {
    var last := |actions| - 1;
    var before := Run(unknownIsStale, s, actions[..last]);
    if PhaseOf(before, caller).Holding? {
      j := SpendsOnlyStale(unknownIsStale, s, actions[..last], caller);
      assert actions[..last][..j] == actions[..j];
    } else {
      j := last;
      RunExclusive(unknownIsStale, s, actions[..last]);
      assert Inside(PhaseOf(before, caller)) ==> before.lock == Taken(caller);
    }
  }

  lemma {:induction false} RunExclusive(unknownIsStale: bool, s: State, actions: seq<Action>)
    requires s.callers == map[]
    ensures Exclusive(Run(unknownIsStale, s, actions))
  {
    if actions != [] {
      RunExclusive(unknownIsStale, s, actions[..|actions| - 1]);
      StepExclusive(unknownIsStale, Run(unknownIsStale, s, actions[..|actions| - 1]), actions[|actions| - 1]);
    }
  }

  /** What one caller does on its own. */
  function Refresh(caller: nat, lead: nat, snapshot: Stored, answer: Answer): seq<Action> {
    [Enter(caller, lead, snapshot), Acquire(caller), ReadAgain(caller), Spend(caller, answer), Store(caller)]
  }

  lemma RunsOneByOne(unknownIsStale: bool, s: State, caller: nat, lead: nat, snapshot: Stored, answer: Answer)
    ensures var s1 := Step(unknownIsStale, s, Enter(caller, lead, snapshot));
            var s2 := Step(unknownIsStale, s1, Acquire(caller));
            var s3 := Step(unknownIsStale, s2, ReadAgain(caller));
            var s4 := Step(unknownIsStale, s3, Spend(caller, answer));
            Run(unknownIsStale, s, Refresh(caller, lead, snapshot, answer)) == Step(unknownIsStale, s4, Store(caller))
  {
    var steps := Refresh(caller, lead, snapshot, answer);
    assert steps[..4][..3] == steps[..3] && steps[..3][..2] == steps[..2] && steps[..2][..1] == steps[..1]
           && steps[..1][..0] == [];
    assert Run(unknownIsStale, s, steps[..0]) == s;
    assert Run(unknownIsStale, s, steps[..1]) == Step(unknownIsStale, s, steps[0]);
    assert Run(unknownIsStale, s, steps[..2]) == Step(unknownIsStale, Run(unknownIsStale, s, steps[..1]), steps[1]);
    assert Run(unknownIsStale, s, steps[..3]) == Step(unknownIsStale, Run(unknownIsStale, s, steps[..2]), steps[2]);
    assert Run(unknownIsStale, s, steps[..4]) == Step(unknownIsStale, Run(unknownIsStale, s, steps[..3]), steps[3]);
  }

  /** A credential that cannot be used is refreshed: a caller who finds nobody in its way spends its refresh
      token once, and where the upstream grants a new credential that is what is stored afterwards, with the
      old refresh token if it was not rotated; where it does not, what was stored stays. */
  lemma StaleIsRefreshed(unknownIsStale: bool, s: State, caller: nat, lead: nat, answer: Answer)
    requires s.stored.Held? && s.lock.Free? && s.callers == map[]
    requires !Usable(unknownIsStale, s.stored.credential, s.now, lead)
    ensures var c, end := s.stored.credential, Run(unknownIsStale, s, Refresh(caller, lead, s.stored, answer));
            && end.spends == s.spends + [(c.refresh, answer)]
            && end.lock.Free? && PhaseOf(end, caller).Away?
            && end.stored == match answer
                             case Rotates(replacement, expires) => Held(Credential(replacement, true, expires))
                             case Keeps(expires) => Held(Credential(c.refresh, true, expires))
                             case Fails => s.stored
  {
    RunsOneByOne(unknownIsStale, s, caller, lead, s.stored, answer);
  }

  /** One that can be used is not. */
  lemma UsableIsLeft(unknownIsStale: bool, s: State, caller: nat, lead: nat, answer: Answer)
    requires s.stored.Held? && s.callers == map[] && Usable(unknownIsStale, s.stored.credential, s.now, lead)
    ensures Run(unknownIsStale, s, Refresh(caller, lead, s.stored, answer)) == s
  {
    RunsOneByOne(unknownIsStale, s, caller, lead, s.stored, answer);
  }

  /** A provider that was removed stays removed until somebody signs in, whoever was refreshing its credential
      meanwhile. */
  lemma {:induction false} RemovedStaysRemoved(unknownIsStale: bool, s: State, actions: seq<Action>)
    requires s.stored.Nothing? && forall i :: 0 <= i < |actions| ==> !actions[i].SignIn?
    ensures Run(unknownIsStale, s, actions).stored.Nothing?
  {
    if actions != [] {
      RemovedStaysRemoved(unknownIsStale, s, actions[..|actions| - 1]);
    }
  }
}
