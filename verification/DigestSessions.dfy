/** The digest-chain session store: a conversation that sends no session signal keeps the key its first
    turns were bound to, as long as its turns keep coming. */
module DigestSessions {
  import opened MapOrder
  import opened Sequences

  datatype Session = Session(key: string, expiresAt: int)

  type Sessions = map<string, Session>

  /** `strings.Join(chain, "|")`. */
  function Join(chain: seq<string>): string {
    if chain == [] then ""
    else if |chain| == 1 then chain[0]
    else Join(chain[..|chain| - 1]) + "|" + chain[|chain| - 1]
  }

  /** `now.After(expiresAt)` is gone, `now.Before(expiresAt)` is live; at the very moment it is neither. */
  function Reaped(sessions: Sessions, now: int): Sessions {
    map id | id in sessions && now <= sessions[id].expiresAt :: sessions[id]
  }

  predicate Live(sessions: Sessions, id: string, now: int) {
    id in sessions && now < sessions[id].expiresAt
  }

  /** The length of the longest live prefix of at least two digests, or zero. */
  function Longest(sessions: Sessions, chain: seq<string>, now: int): (take: nat)
    ensures take <= |chain| && (take == 0 || take >= 2)
    ensures take > 0 ==> Live(sessions, Join(chain[..take]), now)
    ensures forall t :: 2 <= t <= |chain| && t > take ==> !Live(sessions, Join(chain[..t]), now)
  {
    LongestUpTo(sessions, chain, now, |chain|)
  }

  function LongestUpTo(sessions: Sessions, chain: seq<string>, now: int, most: nat): (take: nat)
    requires most <= |chain|
    ensures take <= most && (take == 0 || take >= 2)
    ensures take > 0 ==> Live(sessions, Join(chain[..take]), now)
    ensures forall t :: 2 <= t <= most && t > take ==> !Live(sessions, Join(chain[..t]), now)
  {
    if most < 2 then 0
    else if Live(sessions, Join(chain[..most]), now) then most
    else LongestUpTo(sessions, chain, now, most - 1)
  }

  /** What a call answers, and what the store is after it. */
  function Answer(sessions: Sessions, hash: string -> string, chain: seq<string>, now: int): string {
    var take := Longest(sessions, chain, now);
    if take > 0 then sessions[Join(chain[..take])].key else hash(Join(chain))
  }

  function After(sessions: Sessions, hash: string -> string, ttl: nat, chain: seq<string>, now: int): Sessions {
    var take := Longest(sessions, chain, now);
    var kept := Reaped(sessions, now);
    if take > 0 then kept[Join(chain[..take]) := Session(sessions[Join(chain[..take])].key, now + ttl)]
    else kept[Join(chain) := Session(hash(Join(chain)), now + ttl)]
  }

  class DigestSessionStore {
    const ttl: nat
    const hash: string -> string
    var sessions: Sessions

    constructor (ttl: nat, hash: string -> string)
      ensures sessions == map[] && this.ttl == ttl && this.hash == hash
    {
      this.ttl, this.hash := ttl, hash;
      sessions := map[];
    }

    /** Expired entries go, in whatever order the map yields them. */
    method Reap(now: int)
      modifies this
      ensures sessions == Reaped(old(sessions), now)
    {
      ghost var before := sessions;
      var left := sessions.Keys;
      while left != {}
        invariant left <= before.Keys
        invariant forall id :: id in sessions <==> id in before && (id in left || now <= before[id].expiresAt)
        invariant forall id :: id in sessions ==> sessions[id] == before[id]
        decreases left
      {
        SomeLeft(left);
        var id :| id in left;
        if now > sessions[id].expiresAt {
          sessions := sessions - {id};
        }
        left := left - {id};
      }
    }

    /** `bindOrReuse`: the key of the longest live stored prefix, whose life begins again; or a new key,
        bound to the whole chain. */
    method BindOrReuse(chain: seq<string>, now: int) returns (key: string)
      modifies this
      ensures key == Answer(old(sessions), hash, chain, now)
      ensures sessions == After(old(sessions), hash, ttl, chain, now)
    {
      ghost var before := sessions;
      Reap(now);
      var take := |chain|;
      while take >= 2
        invariant take <= |chain| && sessions == Reaped(before, now)
        invariant forall t :: 2 <= t <= |chain| && t > take ==> !Live(before, Join(chain[..t]), now)
      {
        var id := Join(chain[..take]);
        if id in sessions && now < sessions[id].expiresAt {
          LongestIs(before, chain, now, take);
          key := sessions[id].key;
          sessions := sessions[id := sessions[id].(expiresAt := now + ttl)];
          return;
        }
        take := take - 1;
      }
      LongestIs(before, chain, now, 0);
      key := hash(Join(chain));
      sessions := sessions[Join(chain) := Session(key, now + ttl)];
    }
  }

  lemma LongestIs(sessions: Sessions, chain: seq<string>, now: int, take: nat)
    requires take <= |chain| && (take == 0 || (take >= 2 && Live(sessions, Join(chain[..take]), now)))
    requires forall t :: 2 <= t <= |chain| && t > take ==> !Live(sessions, Join(chain[..t]), now)
    ensures Longest(sessions, chain, now) == take
  {
    var longest := Longest(sessions, chain, now);
    assert longest > 0 ==> Live(sessions, Join(chain[..longest]), now);
    assert take > 0 ==> Live(sessions, Join(chain[..take]), now);
  }

  // ---- chains and their names ------------------------------------------------------------------

  /** Digests are hexadecimal: not empty, and without the separator. */
  predicate Clean(chain: seq<string>) {
    forall i :: 0 <= i < |chain| ==> chain[i] != "" && '|' !in chain[i]
  }

  /** The text after the last separator. */
  function AfterLast(s: string): string {
    if s == "" || s[|s| - 1] == '|' then "" else AfterLast(s[..|s| - 1]) + [s[|s| - 1]]
  }

  lemma {:induction false} AfterLastDigest(front: string, digest: string)
    requires '|' !in digest
    ensures AfterLast(front + "|" + digest) == digest
  {
    var s := front + "|" + digest;
    if digest == "" {
      assert s[|s| - 1] == '|';
    } else {
      var n := |digest| - 1;
      assert s[..|s| - 1] == front + "|" + digest[..n];
      AfterLastDigest(front, digest[..n]);
      assert digest == digest[..n] + [digest[n]];
    }
  }

  lemma {:induction false} NoSeparator(s: string)
    requires '|' !in s
    ensures AfterLast(s) == s
  {
    if s != "" {
      NoSeparator(s[..|s| - 1]);
      ButLast(s);
    }
  }

  lemma {:induction false} JoinNotEmpty(chain: seq<string>)
    requires Clean(chain) && chain != []
    ensures Join(chain) != ""
  {
  }

  lemma JoinAfterLast(chain: seq<string>)
    requires Clean(chain) && chain != []
    ensures AfterLast(Join(chain)) == chain[|chain| - 1]
    ensures |chain| > 1 ==> '|' in Join(chain)
    ensures |chain| == 1 ==> '|' !in Join(chain)
  {
    if |chain| == 1 {
      NoSeparator(chain[0]);
    } else {
      AfterLastDigest(Join(chain[..|chain| - 1]), chain[|chain| - 1]);
      assert Join(chain)[|Join(chain[..|chain| - 1])|] == '|';
    }
  }

  /** Different chains have different names. */
  lemma {:induction false} JoinInjective(a: seq<string>, b: seq<string>)
    requires Clean(a) && Clean(b) && Join(a) == Join(b)
    ensures a == b
    decreases |a|
  {
    if a == [] || b == [] {
      if a != [] {
        JoinNotEmpty(a);
      }
      if b != [] {
        JoinNotEmpty(b);
      }
    } else {
      JoinAfterLast(a);
      JoinAfterLast(b);
      ButLast(a);
      ButLast(b);
      if |a| > 1 {
        var front := |Join(a)| - |a[|a| - 1]| - 1;
        assert Join(a)[..front] == Join(a[..|a| - 1]) && Join(b)[..front] == Join(b[..|b| - 1]);
        JoinInjective(a[..|a| - 1], b[..|b| - 1]);
      }
    }
  }

  // ---- a conversation keeps its key ------------------------------------------------------------

  /** The conversation that began with `root` is bound to `key`, touched last at `touched`, and nothing
      longer is bound over it. */
  ghost predicate Anchored(sessions: Sessions, ttl: nat, root: seq<string>, key: string, touched: int) {
    && Join(root) in sessions && sessions[Join(root)] == Session(key, touched + ttl)
    && (forall longer: seq<string> :: Clean(longer) && root < longer ==> Join(longer) !in sessions)
  }

  lemma PrefixClean(chain: seq<string>, n: nat)
    requires Clean(chain) && n <= |chain|
    ensures Clean(chain[..n])
  {
  }

  /** A turn of the conversation gets its key, and its life begins again. */
  lemma OwnTurn(sessions: Sessions, hash: string -> string, ttl: nat, root: seq<string>, key: string, touched: int,
                chain: seq<string>, now: int)
    requires Anchored(sessions, ttl, root, key, touched) && Clean(root) && |root| >= 2
    requires Clean(chain) && root <= chain && now < touched + ttl
    ensures Answer(sessions, hash, chain, now) == key
    ensures Anchored(After(sessions, hash, ttl, chain, now), ttl, root, key, now)
  {
    assert chain[..|root|] == root;
    forall t | |root| < t <= |chain| ensures !Live(sessions, Join(chain[..t]), now) {
      PrefixClean(chain, t);
      assert root < chain[..t] by {
        assert chain[..t][..|root|] == root;
      }
    }
    LongestIs(sessions, chain, now, |root|);
  }

  /** A turn of any other conversation changes nothing about this one. */
  lemma OtherTurn(sessions: Sessions, hash: string -> string, ttl: nat, root: seq<string>, key: string, touched: int,
                  chain: seq<string>, now: int)
    requires Anchored(sessions, ttl, root, key, touched) && Clean(root)
    requires Clean(chain) && !(root <= chain) && now < touched + ttl
    ensures Anchored(After(sessions, hash, ttl, chain, now), ttl, root, key, touched)
  {
    var take := Longest(sessions, chain, now);
    var written := if take > 0 then chain[..take] else chain;
    PrefixClean(chain, take);
    if Join(written) == Join(root) {
      JoinInjective(written, root);
    }
    forall longer: seq<string> | Clean(longer) && root < longer
      ensures Join(longer) !in After(sessions, hash, ttl, chain, now)
    {
      if Join(longer) == Join(written) {
        JoinInjective(longer, written);
      }
    }
  }

  datatype Request = Request(chain: seq<string>, now: int)

  function AfterAll(sessions: Sessions, hash: string -> string, ttl: nat, run: seq<Request>): Sessions {
    if run == [] then sessions
    else After(AfterAll(sessions, hash, ttl, run[..|run| - 1]), hash, ttl, run[|run| - 1].chain, run[|run| - 1].now)
  }

  /** When the conversation was last heard of. */
  function LastTouch(root: seq<string>, touched: int, run: seq<Request>): int {
    if run == [] then touched
    else if root <= run[|run| - 1].chain then run[|run| - 1].now
    else LastTouch(root, touched, run[..|run| - 1])
  }

  /** The clock never goes back, and the conversation's own turns come within the time to live. */
  predicate Steady(ttl: nat, root: seq<string>, touched: int, run: seq<Request>) {
    && (forall i :: 0 <= i < |run| ==> Clean(run[i].chain))
    && (forall i, j :: 0 <= i < j < |run| ==> run[i].now <= run[j].now)
    && (forall i :: 0 <= i < |run| && root <= run[i].chain ==> run[i].now < LastTouch(root, touched, run[..i]) + ttl)
  }

  /** Requests before one of the conversation's own turns come while it is alive. */
  lemma {:induction false} AliveUntil(ttl: nat, root: seq<string>, touched: int, run: seq<Request>, n: nat, j: nat)
    requires Steady(ttl, root, touched, run) && j <= n < |run| && root <= run[n].chain
    ensures run[j].now < LastTouch(root, touched, run[..j]) + ttl
    decreases n - j
  {
    if !(root <= run[j].chain) {
      AliveUntil(ttl, root, touched, run, n, j + 1);
      assert run[..j + 1][..j] == run[..j] && run[..j + 1][j] == run[j];
    }
  }

  lemma {:induction false} StaysAnchored(sessions: Sessions, hash: string -> string, ttl: nat, root: seq<string>,
                                         key: string,
                                         touched: int, run: seq<Request>, n: nat, j: nat)
    requires Anchored(sessions, ttl, root, key, touched) && Clean(root) && |root| >= 2
    requires Steady(ttl, root, touched, run) && j <= n < |run| && root <= run[n].chain
    ensures Anchored(AfterAll(sessions, hash, ttl, run[..j]), ttl, root, key, LastTouch(root, touched, run[..j]))
  {
    if j > 0 {
      var i := j - 1;
      StaysAnchored(sessions, hash, ttl, root, key, touched, run, n, i);
      AliveUntil(ttl, root, touched, run, n, i);
      assert run[..j][..i] == run[..i] && run[..j][i] == run[i];
      var before := AfterAll(sessions, hash, ttl, run[..i]);
      if root <= run[i].chain {
        OwnTurn(before, hash, ttl, root, key, LastTouch(root, touched, run[..i]), run[i].chain, run[i].now);
      } else {
        OtherTurn(before, hash, ttl, root, key, LastTouch(root, touched, run[..i]), run[i].chain, run[i].now);
      }
    }
  }

  /** Every later turn of a conversation gets the key its chain was bound to, however other
      conversations' requests come in between. */
  lemma KeyIsStable(sessions: Sessions, hash: string -> string, ttl: nat, root: seq<string>, key: string,
                    touched: int, run: seq<Request>, n: nat)
    requires Anchored(sessions, ttl, root, key, touched) && Clean(root) && |root| >= 2
    requires Steady(ttl, root, touched, run) && n < |run| && root <= run[n].chain
    ensures Answer(AfterAll(sessions, hash, ttl, run[..n]), hash, run[n].chain, run[n].now) == key
  {
    StaysAnchored(sessions, hash, ttl, root, key, touched, run, n, n);
    OwnTurn(AfterAll(sessions, hash, ttl, run[..n]), hash, ttl, root, key, LastTouch(root, touched, run[..n]),
            run[n].chain, run[n].now);
  }

  /** A chain bound afresh, when nothing stored extends it, is such a conversation. */
  lemma FreshIsAnchored(sessions: Sessions, hash: string -> string, ttl: nat, chain: seq<string>, now: int)
    requires Clean(chain) && Longest(sessions, chain, now) == 0
    requires forall longer: seq<string> :: Clean(longer) && chain < longer ==> Join(longer) !in sessions
    ensures Anchored(After(sessions, hash, ttl, chain, now), ttl, chain, Answer(sessions, hash, chain, now), now)
  {
    forall longer: seq<string> | Clean(longer) && chain < longer
      ensures Join(longer) !in After(sessions, hash, ttl, chain, now)
    {
      if Join(longer) == Join(chain) {
        JoinInjective(longer, chain);
      }
    }
  }

  // ---- which session answers -------------------------------------------------------------------

  /** The session that the first `t` digests of a chain name is stored, and its time is not up. */
  predicate Usable(sessions: Sessions, chain: seq<string>, t: int, now: int) {
    2 <= t <= |chain| && var name := Join(chain[..t]); name in sessions && sessions[name].expiresAt > now
  }

  /** The longest beginning of two digests or more that names a usable session answers with its key and is the
      one renewed; where there is none, the digest of the whole chain becomes the key. */
  lemma LongestAnswers(sessions: Sessions, hash: string -> string, ttl: nat, chain: seq<string>, now: int)
    ensures var key, next := Answer(sessions, hash, chain, now), After(sessions, hash, ttl, chain, now);
            && (forall t :: Usable(sessions, chain, t, now)
                            && (forall longer :: t < longer ==> !Usable(sessions, chain, longer, now)) ==>
                  var name := Join(chain[..t]);
                  key == sessions[name].key && name in next && next[name] == Session(key, now + ttl))
            && ((forall t :: !Usable(sessions, chain, t, now)) ==>
                  key == hash(Join(chain)) && Join(chain) in next && next[Join(chain)] == Session(key, now + ttl))
  {
    var take := Longest(sessions, chain, now);
    assert take > 0 ==> Usable(sessions, chain, take, now);
    forall t | Usable(sessions, chain, t, now)
               && forall longer :: t < longer ==> !Usable(sessions, chain, longer, now)
      ensures take == t
    {
      assert t <= take by {
        assert Live(sessions, Join(chain[..t]), now);
      }
    }
  }

  // ---- nothing outlives its time ---------------------------------------------------------------

  /** After any request no session is kept that was over before it, and of those that were not over none is lost
      or changed, but for the one that is bound or renewed, which lasts a lifetime from now. */
  lemma OnlyExpiredAreReaped(sessions: Sessions, hash: string -> string, ttl: nat, chain: seq<string>, now: int)
    ensures var next := After(sessions, hash, ttl, chain, now);
            && (forall id :: id in next ==> now <= next[id].expiresAt)
            && exists bound :: bound in next && next[bound] == Session(Answer(sessions, hash, chain, now), now + ttl)
                               && forall id :: id != bound ==>
                                    (id in next <==> id in sessions && now <= sessions[id].expiresAt)
                                    && (id in next ==> next[id] == sessions[id])
  {
    var take := Longest(sessions, chain, now);
    var bound := if take > 0 then Join(chain[..take]) else Join(chain);
    assert bound in After(sessions, hash, ttl, chain, now);
  }

  /** Two different conversations that neither store knows are bound to different keys, as far as the digest tells
      them apart. */
  lemma FreshKeysApart(one: Sessions, other: Sessions, hash: string -> string, a: seq<string>, b: seq<string>,
                       now: int, later: int)
    requires Clean(a) && Clean(b) && a != b && Longest(one, a, now) == 0 && Longest(other, b, later) == 0
    requires hash(Join(a)) == hash(Join(b)) ==> Join(a) == Join(b)
    ensures Answer(one, hash, a, now) != Answer(other, hash, b, later)
  {
    if Join(a) == Join(b) {
      JoinInjective(a, b);
    }
  }
}
