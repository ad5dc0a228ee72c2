/** Which call a Responses event speaks of, read off the upstream's own announcements.

    Argument events bear an item id or an output index and no call id.  The call they speak of is the one
    announced last with that item id, or failing that with that output index. */
module CallRouting {
  import opened ResponsesToClaudeDocument
  import opened Sequences

  predicate Announces(e: Upstream) {
    e.CallAdded? && e.callId != "" && e.name != ""
  }

  /** The call announced last with item id `x`; blank if none was. */
  function ItemOwner(events: seq<Upstream>, x: string): string {
    if events == [] then ""
    else
      var last := events[|events| - 1];
      if Announces(last) && last.itemId == x then last.callId else ItemOwner(events[..|events| - 1], x)
  }

  /** The call announced last at output index `k`; blank if none was. */
  function OutputOwner(events: seq<Upstream>, k: int): string {
    if events == [] then ""
    else
      var last := events[|events| - 1];
      if Announces(last) && last.outputIndex == k then last.callId else OutputOwner(events[..|events| - 1], k)
  }

  /** The call an event with these identities speaks of after `events`; blank if it cannot be told. */
  function Owner(events: seq<Upstream>, callId: string, x: string, k: int): string {
    if callId != "" then callId
    else if x != "" && ItemOwner(events, x) != "" then ItemOwner(events, x)
    else if k >= 0 then OutputOwner(events, k)
    else ""
  }

  // ---- the tables say what the announcements said ----------------------------------------------

  lemma StepTables(doc: Document, toolId: string -> string, e: Upstream)
    ensures var calls, next := doc.calls, Step(doc, toolId, e).calls;
            if Announces(e)
            then next.byItem == Identify(calls, e.callId, e.itemId, e.outputIndex).byItem
                 && next.byOutput == Identify(calls, e.callId, e.itemId, e.outputIndex).byOutput
            else next.byItem == calls.byItem && next.byOutput == calls.byOutput
  {
  }

  function Known<K(==)>(table: map<K, string>, key: K): string {
    if key in table then table[key] else ""
  }

  lemma {:induction false} ItemsAreAnnouncements(toolId: string -> string, events: seq<Upstream>, x: string)
    requires x != ""
    ensures Known(Meaning(toolId, events).calls.byItem, x) == ItemOwner(events, x)
    ensures x in Meaning(toolId, events).calls.byItem ==> ItemOwner(events, x) != ""
  {
    if events != [] {
      ItemsAreAnnouncements(toolId, events[..|events| - 1], x);
      StepTables(Meaning(toolId, events[..|events| - 1]), toolId, events[|events| - 1]);
    }
  }

  lemma {:induction false} OutputsAreAnnouncements(toolId: string -> string, events: seq<Upstream>, k: int)
    requires k >= 0
    ensures Known(Meaning(toolId, events).calls.byOutput, k) == OutputOwner(events, k)
  {
    if events != [] {
      OutputsAreAnnouncements(toolId, events[..|events| - 1], k);
      StepTables(Meaning(toolId, events[..|events| - 1]), toolId, events[|events| - 1]);
    }
  }

  /** On every run, and for all identities, blank and negative ones included, the converter takes an event
      for the call that the upstream's own announcements say it speaks of. */
  lemma RoutedToOwner(toolId: string -> string, events: seq<Upstream>, callId: string, x: string, k: int)
    ensures Resolve(Meaning(toolId, events).calls, callId, x, k) == Owner(events, callId, x, k)
  {
    if x != "" {
      ItemsAreAnnouncements(toolId, events, x);
    }
    if k >= 0 {
      OutputsAreAnnouncements(toolId, events, k);
    }
  }

  predicate OfACall(e: Upstream) {
    e.ArgumentsDelta? || e.ArgumentsDone? || e.CallDone?
  }

  /** The call id an event bears, where it bears one. */
  function NamedBy(e: Upstream): string {
    if e.CallDone? then e.callId else ""
  }

  /** The call an event speaks of, coming after `events`. */
  function OwnerOf(events: seq<Upstream>, e: Upstream): string {
    if OfACall(e) then Owner(events, NamedBy(e), e.itemId, e.outputIndex) else ""
  }

  /** The call the converter takes an event for. */
  function ResolvedFor(calls: Calls, e: Upstream): string {
    if OfACall(e) then Resolve(calls, NamedBy(e), e.itemId, e.outputIndex) else ""
  }

  lemma RoutedForOwner(toolId: string -> string, events: seq<Upstream>, e: Upstream)
    ensures ResolvedFor(Meaning(toolId, events).calls, e) == OwnerOf(events, e)
  {
    if OfACall(e) {
      RoutedToOwner(toolId, events, NamedBy(e), e.itemId, e.outputIndex);
    }
  }

  // ---- identities that tell calls apart --------------------------------------------------------

  /** Two announcements share an item id or an output index. */
  predicate Share(e: Upstream, f: Upstream)
    requires Announces(e) && Announces(f)
  {
    (e.itemId != "" && e.itemId == f.itemId) || (e.outputIndex >= 0 && e.outputIndex == f.outputIndex)
  }

  /** Calls announced under different call ids share no item id and no output index. */
  ghost predicate ToldApart(events: seq<Upstream>) {
    forall i, j :: 0 <= i < |events| && 0 <= j < |events| && Announces(events[i]) && Announces(events[j])
                   && events[i].callId != events[j].callId
                   ==> !Share(events[i], events[j])
  }

  /** An owner is one that was announced with that identity. */
  lemma {:induction false} ItemOwnerAnnounced(events: seq<Upstream>, x: string) returns (i: nat)
    requires ItemOwner(events, x) != ""
    ensures i < |events| && Announces(events[i]) && events[i].itemId == x && events[i].callId == ItemOwner(events, x)
  {
    i := |events| - 1;
    if !(Announces(events[i]) && events[i].itemId == x) {
      i := ItemOwnerAnnounced(events[..|events| - 1], x);
    }
  }

  lemma {:induction false} OutputOwnerAnnounced(events: seq<Upstream>, k: int) returns (i: nat)
    requires OutputOwner(events, k) != ""
    ensures i < |events| && Announces(events[i]) && events[i].outputIndex == k
    ensures events[i].callId == OutputOwner(events, k)
  {
    i := |events| - 1;
    if !(Announces(events[i]) && events[i].outputIndex == k) {
      i := OutputOwnerAnnounced(events[..|events| - 1], k);
    }
  }

  lemma {:induction false} AnnouncedHasOwners(events: seq<Upstream>, i: nat)
    requires i < |events| && Announces(events[i])
    ensures ItemOwner(events, events[i].itemId) != "" && OutputOwner(events, events[i].outputIndex) != ""
  {
    if i < |events| - 1 {
      AnnouncedHasOwners(events[..|events| - 1], i);
    }
  }

  /** Where calls are told apart, each announced call owns the item id and the output index it was announced
      with. */
  lemma AnnouncedOwnsItsOwn(events: seq<Upstream>, i: nat)
    requires ToldApart(events) && i < |events| && Announces(events[i])
    ensures events[i].itemId != "" ==> ItemOwner(events, events[i].itemId) == events[i].callId
    ensures events[i].outputIndex >= 0 ==> OutputOwner(events, events[i].outputIndex) == events[i].callId
  {
    AnnouncedHasOwners(events, i);
    var j := ItemOwnerAnnounced(events, events[i].itemId);
    var k := OutputOwnerAnnounced(events, events[i].outputIndex);
    assert events[i].callId != events[j].callId ==> !Share(events[i], events[j]);
    assert events[i].callId != events[k].callId ==> !Share(events[i], events[k]);
  }

  // ---- owners by the whole run -----------------------------------------------------------------

  /** An announcement bears an identity of an event that speaks of a call. */
  predicate Bears(added: Upstream, e: Upstream)
    requires Announces(added) && OfACall(e)
  {
    (e.itemId != "" && added.itemId == e.itemId) || (e.outputIndex >= 0 && added.outputIndex == e.outputIndex)
  }

  /** Calls are announced before anything else is said of them. */
  ghost predicate AnnouncedFirst(events: seq<Upstream>) {
    forall i, j :: 0 <= i < |events| && 0 <= j < |events| && Announces(events[i]) && OfACall(events[j])
                   && Bears(events[i], events[j])
                   ==> i < j
  }

  /** A prefix of a run that tells its calls apart knows every owner there ever is of an identity announced
      in it. */
  lemma SameItemOwner(events: seq<Upstream>, n: nat, x: string)
    requires ToldApart(events) && n <= |events| && x != ""
    requires forall i :: 0 <= i < |events| && Announces(events[i]) && events[i].itemId == x ==> i < n
    ensures ItemOwner(events[..n], x) == ItemOwner(events, x)
  {
    if ItemOwner(events, x) != "" {
      var i := ItemOwnerAnnounced(events, x);
      assert events[..n][i] == events[i];
      AnnouncedHasOwners(events[..n], i);
    }
    if ItemOwner(events[..n], x) != "" {
      var j := ItemOwnerAnnounced(events[..n], x);
      assert events[..n][j] == events[j];
      AnnouncedOwnsItsOwn(events, j);
    }
  }

  lemma SameOutputOwner(events: seq<Upstream>, n: nat, k: int)
    requires ToldApart(events) && n <= |events| && k >= 0
    requires forall i :: 0 <= i < |events| && Announces(events[i]) && events[i].outputIndex == k ==> i < n
    ensures OutputOwner(events[..n], k) == OutputOwner(events, k)
  {
    if OutputOwner(events, k) != "" {
      var i := OutputOwnerAnnounced(events, k);
      assert events[..n][i] == events[i];
      AnnouncedHasOwners(events[..n], i);
    }
    if OutputOwner(events[..n], k) != "" {
      var j := OutputOwnerAnnounced(events[..n], k);
      assert events[..n][j] == events[j];
      AnnouncedOwnsItsOwn(events, j);
    }
  }

  /** Where calls are told apart and announced first, whom an event speaks of does not depend on when it
      comes: it is the call announced, anywhere in the run, with what it bears. */
  lemma OwnerOfTheRun(events: seq<Upstream>, n: nat, callId: string)
    requires ToldApart(events) && AnnouncedFirst(events) && n < |events| && OfACall(events[n])
    ensures Owner(events[..n], callId, events[n].itemId, events[n].outputIndex)
         == Owner(events, callId, events[n].itemId, events[n].outputIndex)
  {
    var e := events[n];
    forall i | 0 <= i < |events| && Announces(events[i]) && Bears(events[i], e) ensures i < n {
    }
    if e.itemId != "" {
      SameItemOwner(events, n, e.itemId);
    }
    if e.outputIndex >= 0 {
      SameOutputOwner(events, n, e.outputIndex);
    }
  }
}
