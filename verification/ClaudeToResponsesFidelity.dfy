/** What the meaning of a Claude stream preserves on its way to a Responses client: each block is one
    item, done once; blocks do not disturb each other; and a turn that showed nothing is either retried or
    silent.  What the items hold is the subject of `ClaudeToResponsesContents`. */
module ClaudeToResponsesFidelity {
  import opened ResponsesClient
  import opened Sequences
  import opened ToolDialect
  import opened ClaudeToResponsesDocument
  import opened Interruption
  import opened MapOrder
  import Text

  // ---- how a turn ends -------------------------------------------------------------------------

  /** The stop reason the upstream gave last; blank if it gave none. */
  function LastReason(events: seq<Upstream>): string {
    if events == [] then ""
    else
      var last := events[|events| - 1];
      if last.MessageDelta? && last.stopReason != "" then last.stopReason else LastReason(events[..|events| - 1])
  }

  lemma {:induction false} ReasonIsLast(dialect: Dialect, events: seq<Upstream>)
    ensures Meaning(dialect, events).stopReason == LastReason(events)
  {
    if events != [] {
      ReasonIsLast(dialect, events[..|events| - 1]);
    }
  }

  predicate CutShort(reason: string) {
    Text.TrimSpace(reason) in ["max_tokens", "model_context_window_exceeded"]
  }

  predicate Refused(reason: string) {
    Text.TrimSpace(reason) == "refusal"
  }

  /** What a turn that stopped for `reason` is to end as. */
  predicate EndsAs(ending: Ending, reason: string) {
    && (ending == Incomplete("max_output_tokens") <==> CutShort(reason))
    && (ending == Incomplete("content_filter") <==> Refused(reason))
    && (ending == Completed <==> !CutShort(reason) && !Refused(reason))
  }

  ghost predicate Faultless(events: seq<Upstream>) {
    forall k :: 0 <= k < |events| ==> !events[k].Fault?
  }

  /** The body ran to the message's end; an empty one has no end to wait for. */
  predicate RanToEnd(events: seq<Upstream>) {
    events == [] || MessageStop in events
  }

  /** Some text or tool block was begun. */
  ghost predicate Showed(events: seq<Upstream>) {
    exists k :: 0 <= k < |events| && events[k].BlockStart? && (events[k].start.TextStart? || events[k].start.ToolStart?)
  }

  /** The first fault the upstream reports ends the run there, as an error the client is told if it still
      follows. */
  lemma FirstFaultEnds(dialect: Dialect, events: seq<Upstream>, order: seq<int>, n: nat, k: nat)
    requires k < |events| && events[k].Fault? && Faultless(events[..k])
    ensures Verdict(dialect, events) == UpstreamError(events[k].message)
    ensures var client := Delivered(dialect, events, order, n);
            && (client.Reader? <==> !Misfit(dialect, events[..k]))
            && (client.Reader? ==> client.phase == Broken(events[k].message))
  {
    assert forall j :: 0 <= j < k ==> events[j] == events[..k][j];
    assert FirstFault(events) == k;
    FitsIff(dialect, events[..k]);
  }

  /** The outcome of a run without a fault, read off the upstream: a body without its end was cut; a turn that
      claims to be complete but began no text or tool block is a thinking-only one; any other is answered,
      and ends as its last stop reason says. */
  lemma OutcomeIs(dialect: Dialect, events: seq<Upstream>)
    requires Faultless(events)
    ensures var verdict, reason := Verdict(dialect, events), LastReason(events);
            && (verdict.Interrupted? <==> !RanToEnd(events))
            && (verdict.ThinkingOnly? <==> RanToEnd(events) && !Showed(events) && !CutShort(reason) && !Refused(reason))
            && (verdict.Answered? <==> RanToEnd(events) && (Showed(events) || CutShort(reason) || Refused(reason)))
            && (verdict.Answered? ==> EndsAs(verdict.ending, reason))
  {
    VisibleIff(dialect, events);
    ReasonIsLast(dialect, events);
  }

  // ---- when the client can follow --------------------------------------------------------------

  /** The client has to give up on a stream if and only if some piece was passed on to an item of
      another kind. */
  predicate Misfit(dialect: Dialect, events: seq<Upstream>) {
    events != [] &&
    (Misfit(dialect, events[..|events| - 1])
     || var doc, e := Meaning(dialect, events[..|events| - 1]), events[|events| - 1];
        e.BlockDelta? && Live(doc, e.index)
        && var start := doc.items[doc.latest[e.index]].start;
           Streams(dialect, start, e.piece) && !Belongs(start, e.piece))
  }

  lemma {:induction false} FitsIff(dialect: Dialect, events: seq<Upstream>)
    ensures Meaning(dialect, events).fits <==> !Misfit(dialect, events)
  {
    if events != [] {
      FitsIff(dialect, events[..|events| - 1]);
    }
  }

  lemma {:induction false} CloseAllFits(doc: Document, dialect: Dialect, order: seq<int>)
    ensures CloseAll(doc, dialect, order).fits == doc.fits && CloseAll(doc, dialect, order).created
    ensures |CloseAll(doc, dialect, order).items| == |doc.items|
  {
    if order != [] {
      CloseAllFits(doc, dialect, order[..|order| - 1]);
    }
  }

  /** Whatever order the blocks left open are closed in, a run without a fault is one the client follows if and
      only if it showed nothing or no piece was misfit.  Where it showed something, the client is told the
      ending that the last stop reason calls for, or that the turn was cut, and the items that were done, in
      the order they were. */
  lemma FollowedIff(dialect: Dialect, events: seq<Upstream>, order: seq<int>, n: nat)
    requires Faultless(events)
    ensures var r := Delivered(dialect, events, order, n);
            && (r.Reader? <==> !Showed(events) || !Misfit(dialect, events))
            && (!Showed(events) ==> r == Reader(Idle, 0, [], []))
            && (r.Reader? && Showed(events) ==>
                  && r.phase.Over? && r.phase.output == r.finished
                  && r.finished == CloseAll(Meaning(dialect, events), dialect, order).output
                  && if RanToEnd(events) then EndsAs(r.phase.ending, LastReason(events))
                     else r.phase.ending == Failed(CUT_MESSAGE))
  {
    OutcomeIs(dialect, events);
    VisibleIff(dialect, events);
    TakeAll(events);
    FitsIff(dialect, events);
    CloseAllFits(Meaning(dialect, events), dialect, order);
  }

  // ---- one item per block, done once -----------------------------------------------------------

  /** The blocks the upstream began, of a kind the client can be shown. */
  function Begun(events: seq<Upstream>): nat {
    if events == [] then 0
    else Begun(events[..|events| - 1])
         + (if events[|events| - 1].BlockStart? && !events[|events| - 1].start.UnknownStart? then 1 else 0)
  }

  lemma {:induction false} OneItemPerBlock(dialect: Dialect, events: seq<Upstream>)
    ensures |Meaning(dialect, events).items| == Begun(events)
  {
    if events != [] {
      OneItemPerBlock(dialect, events[..|events| - 1]);
    }
  }

  /** Item `j` of the output is that of a closed entry. */
  ghost predicate ListsDone(dialect: Dialect, doc: Document) {
    forall j :: 0 <= j < |doc.output| ==> IsDone(dialect, doc, doc.output[j])
  }

  predicate IsDone(dialect: Dialect, doc: Document, item: Item) {
    item.id < |doc.items| && doc.items[item.id].closed && item == ItemOf(dialect, item.id, doc.items[item.id])
  }

  ghost predicate ListsOnce(doc: Document) {
    forall i, j :: 0 <= i < j < |doc.output| ==> doc.output[i].id != doc.output[j].id
  }

  ghost predicate IsListed(doc: Document, k: nat) {
    exists j :: 0 <= j < |doc.output| && doc.output[j].id == k
  }

  ghost predicate ListsAll(doc: Document) {
    forall k :: 0 <= k < |doc.items| && doc.items[k].closed ==> IsListed(doc, k)
  }

  /** The output has one item for each closed entry, and no other. */
  ghost predicate OutputIsDone(dialect: Dialect, doc: Document) {
    var done := ListsDone(dialect, doc) && ListsOnce(doc) && ListsAll(doc);
    done
  }

  lemma CloseListsDone(dialect: Dialect, doc: Document, index: int)
    requires ListsDone(dialect, doc) && Live(doc, index)
    ensures ListsDone(dialect, CloseBlock(doc, dialect, index))
  {
    var next := CloseBlock(doc, dialect, index);
    forall j | 0 <= j < |next.output| ensures IsDone(dialect, next, next.output[j]) {
      assert j < |doc.output| ==> next.output[j] == doc.output[j] && IsDone(dialect, doc, doc.output[j]);
    }
  }

  lemma CloseListsOnce(dialect: Dialect, doc: Document, index: int)
    requires ListsDone(dialect, doc) && ListsOnce(doc) && Live(doc, index)
    ensures ListsOnce(CloseBlock(doc, dialect, index))
  {
    var next := CloseBlock(doc, dialect, index);
    forall i, j | 0 <= i < j < |next.output| ensures next.output[i].id != next.output[j].id {
      assert next.output[i] == doc.output[i] && IsDone(dialect, doc, doc.output[i]);
      assert j < |doc.output| ==> next.output[j] == doc.output[j];
    }
  }

  lemma CloseListsAll(dialect: Dialect, doc: Document, index: int)
    requires ListsAll(doc) && Live(doc, index)
    ensures ListsAll(CloseBlock(doc, dialect, index))
  {
    var next := CloseBlock(doc, dialect, index);
    forall k | 0 <= k < |next.items| && next.items[k].closed ensures IsListed(next, k) {
      if k == doc.latest[index] {
        assert next.output[|doc.output|].id == k;
      } else {
        assert IsListed(doc, k);
        var j :| 0 <= j < |doc.output| && doc.output[j].id == k;
        assert next.output[j].id == k;
      }
    }
  }

  lemma CloseBlockDone(dialect: Dialect, doc: Document, index: int)
    requires OutputIsDone(dialect, doc)
    ensures OutputIsDone(dialect, CloseBlock(doc, dialect, index))
  {
    if Live(doc, index) {
      CloseListsDone(dialect, doc, index);
      CloseListsOnce(dialect, doc, index);
      CloseListsAll(dialect, doc, index);
    }
  }

  /** Entries that are closed stay as they are, and no other closes. */
  ghost predicate SameDone(doc: Document, next: Document) {
    && next.output == doc.output && |doc.items| <= |next.items|
    && (forall k :: 0 <= k < |doc.items| && doc.items[k].closed ==> next.items[k] == doc.items[k])
    && (forall k :: 0 <= k < |next.items| && next.items[k].closed ==> k < |doc.items| && doc.items[k].closed)
  }

  lemma SameDoneKeeps(dialect: Dialect, doc: Document, next: Document)
    requires OutputIsDone(dialect, doc) && SameDone(doc, next)
    ensures OutputIsDone(dialect, next)
  {
    forall j | 0 <= j < |next.output| ensures IsDone(dialect, next, next.output[j]) {
      assert IsDone(dialect, doc, doc.output[j]);
    }
    forall k | 0 <= k < |next.items| && next.items[k].closed ensures IsListed(next, k) {
      assert IsListed(doc, k);
    }
  }

  lemma AddPieceDone(dialect: Dialect, doc: Document, index: int, piece: Piece)
    requires OutputIsDone(dialect, doc)
    ensures OutputIsDone(dialect, AddPiece(doc, dialect, index, piece))
  {
    SameDoneKeeps(dialect, doc, AddPiece(doc, dialect, index, piece));
  }

  lemma StartBlockDone(dialect: Dialect, doc: Document, index: int, start: Start)
    requires OutputIsDone(dialect, doc)
    ensures OutputIsDone(dialect, StartBlock(doc, index, start))
  {
    SameDoneKeeps(dialect, doc, StartBlock(doc, index, start));
  }

  lemma {:induction false} MeaningDone(dialect: Dialect, events: seq<Upstream>)
    ensures OutputIsDone(dialect, Meaning(dialect, events))
  {
    if events != [] {
      var doc, e := Meaning(dialect, events[..|events| - 1]), events[|events| - 1];
      MeaningDone(dialect, events[..|events| - 1]);
      match e
      case BlockStart(index, start) => StartBlockDone(dialect, doc, index, start);
      case BlockDelta(index, piece) => AddPieceDone(dialect, doc, index, piece);
      case BlockStop(index) => CloseBlockDone(dialect, doc, index);
      case _ =>
    }
  }

  lemma {:induction false} CloseAllDone(dialect: Dialect, doc: Document, order: seq<int>)
    requires OutputIsDone(dialect, doc)
    ensures OutputIsDone(dialect, CloseAll(doc, dialect, order))
  {
    if order != [] {
      CloseAllDone(dialect, doc, order[..|order| - 1]);
      CloseBlockDone(dialect, CloseAll(doc, dialect, order[..|order| - 1]), order[|order| - 1]);
    }
  }

  /** A block is abandoned when its index is begun again before it is stopped. */
  predicate Abandons(dialect: Dialect, events: seq<Upstream>) {
    events != [] &&
    (Abandons(dialect, events[..|events| - 1])
     || var e := events[|events| - 1];
        e.BlockStart? && !e.start.UnknownStart? && Live(Meaning(dialect, events[..|events| - 1]), e.index))
  }

  /** Entry `k` can still be closed: some upstream index stands for it. */
  ghost predicate Reachable(doc: Document, k: nat) {
    exists i :: i in doc.latest && doc.latest[i] == k
  }

  /** Entries that are neither closed nor reachable will never be done. */
  ghost predicate Orphaned(doc: Document) {
    exists k :: 0 <= k < |doc.items| && !doc.items[k].closed && !Reachable(doc, k)
  }

  lemma StartOrphans(doc: Document, index: int, start: Start)
    requires Sound(doc) && !start.UnknownStart?
    ensures Orphaned(StartBlock(doc, index, start)) <==> Orphaned(doc) || Live(doc, index)
  {
    var next := StartBlock(doc, index, start);
    if Orphaned(doc) {
      var k :| 0 <= k < |doc.items| && !doc.items[k].closed && !Reachable(doc, k);
      assert next.items[k] == doc.items[k];
      assert !Reachable(next, k);
    }
    if Live(doc, index) {
      var k := doc.latest[index];
      assert next.items[k] == doc.items[k];
      assert !Reachable(next, k);
    }
    if Orphaned(next) {
      var k :| 0 <= k < |next.items| && !next.items[k].closed && !Reachable(next, k);
      assert next.latest[index] == |doc.items|;
      assert k < |doc.items|;
      if Reachable(doc, k) {
        var i :| i in doc.latest && doc.latest[i] == k;
        assert i == index || next.latest[i] == doc.latest[i];
      }
    }
  }

  lemma SameOrphans(doc: Document, next: Document)
    requires next.latest == doc.latest && |next.items| == |doc.items|
    requires forall k :: 0 <= k < |doc.items| && !Reachable(doc, k) ==> next.items[k].closed == doc.items[k].closed
    ensures Orphaned(next) <==> Orphaned(doc)
  {
    assert forall k: nat :: Reachable(next, k) <==> Reachable(doc, k);
  }

  lemma {:induction false} OrphanedIff(dialect: Dialect, events: seq<Upstream>)
    ensures Orphaned(Meaning(dialect, events)) <==> Abandons(dialect, events)
  {
    if events != [] {
      var before, e := Meaning(dialect, events[..|events| - 1]), events[|events| - 1];
      OrphanedIff(dialect, events[..|events| - 1]);
      MeaningSound(dialect, events[..|events| - 1]);
      if e.BlockStart? && !e.start.UnknownStart? {
        StartOrphans(before, e.index, e.start);
      } else {
        SameOrphans(before, Meaning(dialect, events));
      }
    }
  }

  lemma {:induction false} CloseAllOrphans(doc: Document, dialect: Dialect, order: seq<int>)
    ensures Orphaned(CloseAll(doc, dialect, order)) <==> Orphaned(doc)
    ensures CloseAll(doc, dialect, order).latest == doc.latest
  {
    if order != [] {
      var before := CloseAll(doc, dialect, order[..|order| - 1]);
      CloseAllOrphans(doc, dialect, order[..|order| - 1]);
      SameOrphans(before, CloseBlock(before, dialect, order[|order| - 1]));
    } else {
      SameOrphans(doc, Create(doc));
    }
  }

  lemma ClosesOne(doc: Document, dialect: Dialect, index: int, i: int)
    requires Sound(doc)
    ensures Live(CloseBlock(doc, dialect, index), i) <==> Live(doc, i) && i != index
  {
  }

  lemma {:induction false} CloseAllCloses(doc: Document, dialect: Dialect, order: seq<int>, i: int)
    requires Sound(doc)
    ensures Live(CloseAll(doc, dialect, order), i) <==> Live(doc, i) && i !in order
    ensures Sound(CloseAll(doc, dialect, order))
  {
    if order != [] {
      var last := |order| - 1;
      CloseAllCloses(doc, dialect, order[..last], i);
      StepSound(CloseAll(doc, dialect, order[..last]), dialect, BlockStop(order[last]));
      ButLast(order);
      ClosesOne(CloseAll(doc, dialect, order[..last]), dialect, order[last], i);
    } else {
      StepSound(doc, dialect, MessageStart);
    }
  }

  /** A finished turn leaves no item undone if and only if no block was begun over an open one. */
  lemma AllDoneIff(dialect: Dialect, events: seq<Upstream>, order: seq<int>)
    requires Lists(order, LiveBlocks(Meaning(dialect, events)))
    ensures var all := CloseAll(Meaning(dialect, events), dialect, order);
            (forall k :: 0 <= k < |all.items| ==> all.items[k].closed) <==> !Abandons(dialect, events)
  {
    var doc := Meaning(dialect, events);
    var all := CloseAll(doc, dialect, order);
    MeaningSound(dialect, events);
    OrphanedIff(dialect, events);
    CloseAllOrphans(doc, dialect, order);
    forall i ensures !Live(all, i) {
      CloseAllCloses(doc, dialect, order, i);
    }
    CloseAllCloses(doc, dialect, order, 0);
    forall k | 0 <= k < |all.items| && !Orphaned(all) ensures all.items[k].closed {
      NotLiveNotOpen(all, k);
    }
  }

  lemma NotLiveNotOpen(doc: Document, k: nat)
    requires Sound(doc) && k < |doc.items| && !Orphaned(doc)
    requires forall i :: !Live(doc, i)
    ensures doc.items[k].closed
  {
    if Reachable(doc, k) {
      var i :| i in doc.latest && doc.latest[i] == k;
      assert !Live(doc, i);
    }
  }

  /** What the client of a turn that it could follow holds. */
  lemma FinishedReader(dialect: Dialect, events: seq<Upstream>, order: seq<int>, n: nat)
    requires Faultless(events) && Showed(events) && !Misfit(dialect, events)
    ensures var r, all := Delivered(dialect, events, order, n), CloseAll(Meaning(dialect, events), dialect, order);
            && r.Reader? && r.phase.Over? && r.phase.output == all.output && r.items == Images(dialect, all.items)
            && r.finished == all.output
  {
    TakeAll(events);
    VisibleIff(dialect, events);
    FollowedIff(dialect, events, order, n);
    CloseAllFits(Meaning(dialect, events), dialect, order);
  }

  /** An item done is the image of its block, closed. */
  lemma ClosedImage(dialect: Dialect, all: Document, k: nat, entry: Entry)
    requires k < |all.items| && all.items[k] == entry.(closed := true) && OutputIsDone(dialect, all)
    ensures Images(dialect, all.items)[k] == Image(dialect, k, entry.(closed := true))
    ensures exists j :: 0 <= j < |all.output| && all.output[j] == ItemOf(dialect, k, entry)
  {
    assert IsListed(all, k);
    var j :| 0 <= j < |all.output| && all.output[j].id == k;
    assert IsDone(dialect, all, all.output[j]);
    assert all.output[j] == ItemOf(dialect, k, entry);
  }

  /** What the client of such a turn holds: every block done once, as the item its content makes it, and
      the terminal event lists those items and nothing else. */
  lemma EveryBlockDoneOnce(dialect: Dialect, events: seq<Upstream>, order: seq<int>, n: nat, k: nat)
    requires Faultless(events) && Showed(events)
    requires Lists(order, LiveBlocks(Meaning(dialect, events)))
    requires !Misfit(dialect, events) && !Abandons(dialect, events) && k < Begun(events)
    ensures var r, doc := Delivered(dialect, events, order, n), Meaning(dialect, events);
            && Whole(r) && |r.items| == |doc.items| == Begun(events) && r.phase.Over?
            && r.items[k] == Image(dialect, k, doc.items[k].(closed := true))
            && (exists j :: 0 <= j < |r.phase.output| && r.phase.output[j] == ItemOf(dialect, k, doc.items[k]))
            && (forall i, j :: 0 <= i < j < |r.phase.output| ==> r.phase.output[i].id != r.phase.output[j].id)
  {
    var doc := Meaning(dialect, events);
    var all := CloseAll(doc, dialect, order);
    FinishedReader(dialect, events, order, n);
    AllDoneIff(dialect, events, order);
    OneItemPerBlock(dialect, events);
    CloseAllFits(doc, dialect, order);
    MeaningDone(dialect, events);
    CloseAllDone(dialect, doc, order);
    CloseAllItems(dialect, doc, order, k);
    ClosedImage(dialect, all, k, doc.items[k]);
    assert ListsOnce(all);
  }

  /** Closing changes nothing about a block but that it is closed. */
  lemma {:induction false} CloseAllItems(dialect: Dialect, doc: Document, order: seq<int>, k: nat)
    requires k < |doc.items|
    ensures var all := CloseAll(doc, dialect, order);
            k < |all.items| && all.items[k] == doc.items[k].(closed := all.items[k].closed)
  {
    if order != [] {
      CloseAllItems(dialect, doc, order[..|order| - 1], k);
    }
  }

  // ---- blocks do not disturb each other --------------------------------------------------------

  predicate Names(e: Upstream, i: int) {
    (e.BlockStart? || e.BlockDelta? || e.BlockStop?) && e.index == i
  }

  /** The events that name block index `i`. */
  function Own(events: seq<Upstream>, i: int): seq<Upstream> {
    if events == [] then []
    else
      var e := events[|events| - 1];
      Own(events[..|events| - 1], i)
      + (if Names(e, i) then [e] else [])
  }

  /** What block index `i` stands for in two documents is the same block, wherever it is listed. */
  predicate SameBlock(a: Document, b: Document, i: int) {
    && (i in a.latest <==> i in b.latest)
    && (i in a.latest ==>
          a.latest[i] < |a.items| && b.latest[i] < |b.items| && a.items[a.latest[i]] == b.items[b.latest[i]])
  }

  lemma OwnStepSame(dialect: Dialect, a: Document, b: Document, e: Upstream, i: int)
    requires SameBlock(a, b, i) && Names(e, i)
    ensures SameBlock(Step(a, dialect, e), Step(b, dialect, e), i)
  {
  }

  lemma OtherStepSame(dialect: Dialect, a: Document, b: Document, e: Upstream, i: int)
    requires SameBlock(a, b, i) && Sound(a) && !Names(e, i)
    ensures SameBlock(Step(a, dialect, e), b, i)
  {
  }

  /** A block fares among others exactly as it would alone. */
  lemma {:induction false} BlocksAreIndependent(dialect: Dialect, events: seq<Upstream>, i: int)
    ensures SameBlock(Meaning(dialect, events), Meaning(dialect, Own(events, i)), i)
  {
    if events != [] {
      var before, e := events[..|events| - 1], events[|events| - 1];
      BlocksAreIndependent(dialect, before, i);
      MeaningSound(dialect, before);
      if Names(e, i) {
        OwnStepSame(dialect, Meaning(dialect, before), Meaning(dialect, Own(before, i)), e, i);
        Front(Own(before, i), e);
      } else {
        OtherStepSame(dialect, Meaning(dialect, before), Meaning(dialect, Own(before, i)), e, i);
        Neutral(Own(before, i));
      }
    }
  }

  // ---- nothing shown, nothing sent -------------------------------------------------------------

  /** A turn is visible if and only if it began a text or tool block. */
  lemma {:induction false} VisibleIff(dialect: Dialect, events: seq<Upstream>)
    ensures Meaning(dialect, events).visible <==> Showed(events)
  {
    if events != [] {
      var before := events[..|events| - 1];
      VisibleIff(dialect, before);
      assert forall k :: 0 <= k < |before| ==> before[k] == events[k];
    }
  }

  /** The retry signal: a turn is reported as thinking only just when it ran to its end without an error, began
      no text or tool block, and its last stop reason is none of those that say it stopped short. */
  lemma ThinkingOnlyIff(dialect: Dialect, events: seq<Upstream>)
    ensures Verdict(dialect, events).ThinkingOnly?
            <==> Faultless(events) && RanToEnd(events) && !Showed(events)
                 && !CutShort(LastReason(events)) && !Refused(LastReason(events))
  {
    if Faultless(events) {
      OutcomeIs(dialect, events);
    } else {
      assert FirstFault(events) < |events|;
    }
  }

  /** While nothing is visible every finished item is a reasoning item. */
  lemma OnlyThoughtsUnseen(dialect: Dialect, events: seq<Upstream>, j: nat)
    requires !Showed(events) && j < |Meaning(dialect, events).output|
    ensures Meaning(dialect, events).output[j].opening.Reasoning?
  {
    VisibleIff(dialect, events);
    MeaningSound(dialect, events);
  }

  /** The silent turn: it counts as finished, and yet its client is sent nothing, not even the terminal
      event, just when it stopped short, or refused, before beginning a text or tool block. */
  lemma SilentIff(dialect: Dialect, events: seq<Upstream>, order: seq<int>, n: nat)
    ensures Verdict(dialect, events).Answered? && Delivered(dialect, events, order, n) == Reader(Idle, 0, [], [])
            <==> Faultless(events) && RanToEnd(events) && !Showed(events)
                 && (CutShort(LastReason(events)) || Refused(LastReason(events)))
  {
    if Faultless(events) {
      OutcomeIs(dialect, events);
      FollowedIff(dialect, events, order, n);
    } else {
      assert FirstFault(events) < |events|;
    }
  }
}
