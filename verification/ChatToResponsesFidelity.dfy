/** What the meaning of a Chat stream preserves on its way to a Responses client: every call arrives
    whole however late its id or name came, all text arrives in one message, and the client can follow
    the stream exactly when no text comes after the message had to be closed for a call and no call
    goes back on what it was announced as. */
module ChatToResponsesFidelity {
  import opened ResponsesClient
  import opened ToolDialect
  import opened ChatUpstream
  import opened ChatToResponsesDocument
  import opened MapOrder
  import opened Sequences

  // ---- each call on its own --------------------------------------------------------------------

  /** The id and the name upstream call `c` was last given. */
  function LastId(tools: Tools, deltas: seq<CallDelta>, c: int): string {
    if deltas == [] then ""
    else
      var last := deltas[|deltas| - 1];
      if last.index == c && tools.callId(last.id) != "" then tools.callId(last.id)
      else LastId(tools, deltas[..|deltas| - 1], c)
  }

  function LastName(deltas: seq<CallDelta>, c: int): string {
    if deltas == [] then ""
    else
      var last := deltas[|deltas| - 1];
      if last.index == c && last.name != "" then last.name else LastName(deltas[..|deltas| - 1], c)
  }

  predicate Identified(tools: Tools, deltas: seq<CallDelta>, c: int) {
    LastId(tools, deltas, c) != "" && LastName(deltas, c) != ""
  }

  /** What call `c` goes by now. */
  function OpeningNow(tools: Tools, deltas: seq<CallDelta>, c: int): Opening {
    CallOpening(tools, LastId(tools, deltas, c), LastName(deltas, c))
  }

  /** What call `c` went by when its id and its name were first both known. */
  function AnnouncedAs(tools: Tools, deltas: seq<CallDelta>, c: int): Opening {
    if deltas != [] && Identified(tools, deltas[..|deltas| - 1], c) then AnnouncedAs(tools, deltas[..|deltas| - 1], c)
    else OpeningNow(tools, deltas, c)
  }

  /** A delta of call `c` came while the call was known by a plain function's name, had arguments, and had
      been announced as something else. */
  predicate Misled(tools: Tools, deltas: seq<CallDelta>, c: int) {
    deltas != [] && (Misled(tools, deltas[..|deltas| - 1], c) || MisledNow(tools, deltas, c))
  }

  predicate MisledNow(tools: Tools, deltas: seq<CallDelta>, c: int)
    requires deltas != []
  {
    && deltas[|deltas| - 1].index == c && Identified(tools, deltas, c)
    && !Withheld(tools, LastName(deltas, c)) && Fragments(deltas, c) != ""
    && !AnnouncedAs(tools, deltas, c).FunctionCall?
  }

  ghost predicate NoneMisled(tools: Tools, deltas: seq<CallDelta>) {
    forall c :: !Misled(tools, deltas, c)
  }

  /** Every call that was identified goes by the end by what it was announced as, and its arguments were
      never streamed as a function's when it was announced as something else. */
  ghost predicate TrueToName(tools: Tools, deltas: seq<CallDelta>) {
    forall c :: Identified(tools, deltas, c) ==> KeepsName(tools, deltas, c) && !Misled(tools, deltas, c)
  }

  predicate KeepsName(tools: Tools, deltas: seq<CallDelta>, c: int) {
    OpeningNow(tools, deltas, c) == AnnouncedAs(tools, deltas, c)
  }

  ghost predicate NamesKept(tools: Tools, deltas: seq<CallDelta>) {
    forall c :: Identified(tools, deltas, c) ==> KeepsName(tools, deltas, c)
  }

  /** No call is ever given a second id or a second name. */
  predicate Steady(tools: Tools, deltas: seq<CallDelta>) {
    deltas == [] ||
    (var before, last := deltas[..|deltas| - 1], deltas[|deltas| - 1];
     && Steady(tools, before)
     && (tools.callId(last.id) == "" || LastId(tools, before, last.index) in ["", tools.callId(last.id)])
     && (last.name == "" || LastName(before, last.index) in ["", last.name]))
  }

  /** The document knows of call `c` what its own deltas said, and has announced it if and only if both
      its id and its name are known; announced, it has passed on all it may pass on. */
  ghost predicate Told(doc: Document, tools: Tools, deltas: seq<CallDelta>, c: int) {
    CallTold(CallAt(doc, c), tools, deltas, c)
  }

  ghost predicate CallTold(call: Call, tools: Tools, deltas: seq<CallDelta>, c: int) {
    var told :=
      && call.callId == LastId(tools, deltas, c) && call.name == LastName(deltas, c)
      && call.arguments == Fragments(deltas, c)
      && call.placed == Identified(tools, deltas, c)
      && call.streamed <= call.arguments && !call.done
      && (call.placed && !Withheld(tools, call.name) ==> call.streamed == call.arguments)
      && (call.placed ==> call.announced == AnnouncedAs(tools, deltas, c))
      && (call.placed && !call.announced.FunctionCall? && !Misled(tools, deltas, c) ==> call.streamed == "")
      && (!call.placed ==> call.streamed == "");
    told
  }

  function Announce(tools: Tools, call: Call, place: nat): Call {
    if call.placed then call
    else call.(placed := true, place := place, announced := CallOpening(tools, call.callId, call.name))
  }

  function PassOn(tools: Tools, call: Call): Call {
    if Owes(tools, call) then call.(streamed := call.arguments) else call
  }

  /** A delta changes its own call and no other. */
  lemma AddCallChanges(doc: Document, tools: Tools, delta: CallDelta)
    ensures var call := Merge(tools, CallAt(doc, delta.index), delta);
            CallAt(AddCall(doc, tools, delta), delta.index)
            == if Known(call) then PassOn(tools, Announce(tools, call, |doc.places|)) else call
    ensures forall c :: c != delta.index ==> CallAt(AddCall(doc, tools, delta), c) == CallAt(doc, c)
  {
  }

  lemma OneMoreDelta(tools: Tools, deltas: seq<CallDelta>, delta: CallDelta, c: int)
    ensures var all := deltas + [delta];
            && LastId(tools, all, c)
               == (if delta.index == c && tools.callId(delta.id) != "" then tools.callId(delta.id)
                   else LastId(tools, deltas, c))
            && LastName(all, c) == (if delta.index == c && delta.name != "" then delta.name else LastName(deltas, c))
            && Fragments(all, c) == Fragments(deltas, c) + (if delta.index == c then delta.arguments else "")
  {
    Front(deltas, delta);
  }

  lemma OneMoreSteady(tools: Tools, deltas: seq<CallDelta>, delta: CallDelta)
    ensures Steady(tools, deltas + [delta])
            <==> Steady(tools, deltas)
                 && (tools.callId(delta.id) == "" || LastId(tools, deltas, delta.index) in ["", tools.callId(delta.id)])
                 && (delta.name == "" || LastName(deltas, delta.index) in ["", delta.name])
  {
    Front(deltas, delta);
  }

  lemma OneMoreOpening(tools: Tools, deltas: seq<CallDelta>, delta: CallDelta, c: int)
    ensures var all := deltas + [delta];
            && AnnouncedAs(tools, all, c)
               == (if Identified(tools, deltas, c) then AnnouncedAs(tools, deltas, c) else OpeningNow(tools, all, c))
            && Misled(tools, all, c) == (Misled(tools, deltas, c) || MisledNow(tools, all, c))
  {
    Front(deltas, delta);
  }

  lemma OtherDelta(tools: Tools, deltas: seq<CallDelta>, delta: CallDelta, c: int)
    requires delta.index != c
    ensures var all := deltas + [delta];
            && OpeningNow(tools, all, c) == OpeningNow(tools, deltas, c)
            && Identified(tools, all, c) == Identified(tools, deltas, c)
            && (Identified(tools, deltas, c) ==> AnnouncedAs(tools, all, c) == AnnouncedAs(tools, deltas, c))
            && Misled(tools, all, c) == Misled(tools, deltas, c)
  {
    OneMoreDelta(tools, deltas, delta, c);
    OneMoreOpening(tools, deltas, delta, c);
  }

  lemma AddCallTold(doc: Document, tools: Tools, deltas: seq<CallDelta>, delta: CallDelta, c: int)
    requires Told(doc, tools, deltas, c)
    ensures Told(AddCall(doc, tools, delta), tools, deltas + [delta], c)
  {
    AddCallChanges(doc, tools, delta);
    if delta.index == c {
      OwnDeltaTold(CallAt(doc, c), |doc.places|, tools, deltas, delta);
    } else {
      OneMoreDelta(tools, deltas, delta, c);
      OtherDelta(tools, deltas, delta, c);
      Neutral(Fragments(deltas, c));
    }
  }

  lemma OwnDeltaTold(call: Call, place: nat, tools: Tools, deltas: seq<CallDelta>, delta: CallDelta)
    requires CallTold(call, tools, deltas, delta.index)
    ensures var merged := Merge(tools, call, delta);
            CallTold(if Known(merged) then PassOn(tools, Announce(tools, merged, place)) else merged,
                     tools, deltas + [delta], delta.index)
  {
    OneMoreDelta(tools, deltas, delta, delta.index);
    OneMoreOpening(tools, deltas, delta, delta.index);
    assert call.streamed <= call.arguments + delta.arguments;
  }

  lemma {:induction false} AddCallsTold(doc: Document, tools: Tools, deltas: seq<CallDelta>, more: seq<CallDelta>,
                                        c: int)
    requires Told(doc, tools, deltas, c)
    ensures Told(AddCalls(doc, tools, more), tools, deltas + more, c)
  {
    if more == [] {
      assert deltas + more == deltas;
    } else {
      var before, last := more[..|more| - 1], more[|more| - 1];
      AddCallsTold(doc, tools, deltas, before, c);
      SplitLast(deltas, more);
      AddCallTold(AddCalls(doc, tools, before), tools, deltas + before, last, c);
    }
  }

  lemma TextLeavesCalls(doc: Document, text: string, c: int)
    ensures CallAt(AddText(doc, text), c) == CallAt(doc, c)
  {
  }

  /** However late its id or its name came, and whatever came in between. */
  lemma {:induction false} EveryCallTold(tools: Tools, chunks: seq<Chunk>, c: int)
    ensures Told(Meaning(tools, chunks), tools, Calls(chunks), c)
  {
    if chunks != [] {
      var before, chunk := chunks[..|chunks| - 1], chunks[|chunks| - 1];
      EveryCallTold(tools, before, c);
      if chunk.Choice? {
        AddCallsTold(Meaning(tools, before), tools, Calls(before), chunk.calls, c);
        TextLeavesCalls(AddCalls(Meaning(tools, before), tools, chunk.calls), chunk.content, c);
        assert CallAt(Meaning(tools, chunks), c) == CallAt(AddCalls(Meaning(tools, before), tools, chunk.calls), c);
      } else {
        assert Calls(chunks) == Calls(before);
      }
    }
  }

  /** Every call that was ever given both an id and a name ends as one item holding all its fragments,
      all of them streamed before if it is a plain function; a call that never was is dropped. */
  lemma CallsArriveWhole(tools: Tools, chunks: seq<Chunk>, c: int)
    ensures var doc, deltas := Meaning(tools, chunks), Calls(chunks);
            var call := CallAt(doc, c);
            && (c in PlacedCalls(doc) <==> Identified(tools, deltas, c))
            && (c in PlacedCalls(doc) ==>
                  FinalCall(tools, call)
                  == CallItem(tools, call.place, LastId(tools, deltas, c), LastName(deltas, c),
                              if Blank(Fragments(deltas, c)) then "{}" else Fragments(deltas, c)))
            && (c in PlacedCalls(doc) && !Withheld(tools, call.name) ==> call.streamed == Fragments(deltas, c))
  {
    EveryCallTold(tools, chunks, c);
  }

  // ---- all the text ----------------------------------------------------------------------------

  lemma {:induction false} CallsLeaveText(doc: Document, tools: Tools, deltas: seq<CallDelta>)
    ensures var m, next := doc.message, AddCalls(doc, tools, deltas).message;
            m.Said? == next.Said? && (m.Said? ==> m.text == next.text)
    ensures AddCalls(doc, tools, deltas).reasoning == doc.reasoning
  {
    if deltas != [] {
      CallsLeaveText(doc, tools, deltas[..|deltas| - 1]);
    }
  }

  /** The message holds all the text there was, and there is a message only if there was some. */
  lemma {:induction false} MessageHoldsText(tools: Tools, chunks: seq<Chunk>)
    ensures var doc := Meaning(tools, chunks);
            && (doc.message.Said? <==> Carried(chunks) != "")
            && (doc.message.Said? ==> doc.message.text == Carried(chunks))
            && doc.reasoning == Reasoned(chunks)
  {
    if chunks != [] {
      var before, chunk := chunks[..|chunks| - 1], chunks[|chunks| - 1];
      MessageHoldsText(tools, before);
      if chunk.Choice? {
        CallsLeaveText(Meaning(tools, before), tools, chunk.calls);
      }
    }
  }

  // ---- when text comes too late ----------------------------------------------------------------

  /** A chunk completes the identity of a call. */
  predicate Introduces(tools: Tools, before: seq<CallDelta>, more: seq<CallDelta>) {
    exists n :: 0 <= n < |more| && !Identified(tools, before + more[..n], more[n].index)
                                && Identified(tools, before + more[..n + 1], more[n].index)
  }

  /** After some text, some call became known: the message had to be closed. */
  predicate Silenced(tools: Tools, chunks: seq<Chunk>) {
    chunks != [] &&
    var before, chunk := chunks[..|chunks| - 1], chunks[|chunks| - 1];
    Silenced(tools, before)
    || (chunk.Choice? && Carried(before) != "" && Introduces(tools, Calls(before), chunk.calls))
  }

  /** And then there was more text. */
  predicate LateText(tools: Tools, chunks: seq<Chunk>) {
    chunks != [] &&
    (LateText(tools, chunks[..|chunks| - 1])
     || (chunks[|chunks| - 1].Choice? && chunks[|chunks| - 1].content != "" && Silenced(tools, chunks)))
  }

  ghost predicate AllTold(doc: Document, tools: Tools, deltas: seq<CallDelta>) {
    forall c :: Told(doc, tools, deltas, c)
  }

  lemma AddCallSilences(doc: Document, tools: Tools, deltas: seq<CallDelta>, delta: CallDelta)
    requires Told(doc, tools, deltas, delta.index) && doc.message.Said?
    ensures AddCall(doc, tools, delta).message.Said?
    ensures AddCall(doc, tools, delta).message.closed
            <==> doc.message.closed
                 || (!Identified(tools, deltas, delta.index) && Identified(tools, deltas + [delta], delta.index))
  {
    OneMoreDelta(tools, deltas, delta, delta.index);
    AddCallMessage(doc, tools, delta);
  }

  /** A call closes the message when it is opened, and does nothing else to it. */
  lemma AddCallMessage(doc: Document, tools: Tools, delta: CallDelta)
    ensures var opens := !CallAt(doc, delta.index).placed && Known(Merge(tools, CallAt(doc, delta.index), delta));
            AddCall(doc, tools, delta).message
            == if opens && doc.message.Said? then doc.message.(closed := true) else doc.message
  {
  }

  lemma IntroducesMore(tools: Tools, before: seq<CallDelta>, more: seq<CallDelta>)
    requires more != []
    ensures Introduces(tools, before, more)
            <==> Introduces(tools, before, more[..|more| - 1])
                 || (!Identified(tools, before + more[..|more| - 1], more[|more| - 1].index)
                     && Identified(tools, before + more, more[|more| - 1].index))
  {
    var prior := more[..|more| - 1];
    assert forall n :: 0 <= n <= |prior| ==> prior[..n] == more[..n];
    assert more[..|more|] == more;
    if Introduces(tools, before, prior) {
      var n :| 0 <= n < |prior| && !Identified(tools, before + prior[..n], prior[n].index)
                                && Identified(tools, before + prior[..n + 1], prior[n].index);
      assert prior[..n] == more[..n] && prior[..n + 1] == more[..n + 1] && prior[n] == more[n];
    }
    if Introduces(tools, before, more) {
      var n :| 0 <= n < |more| && !Identified(tools, before + more[..n], more[n].index)
                               && Identified(tools, before + more[..n + 1], more[n].index);
      if n < |prior| {
        assert prior[..n] == more[..n] && prior[..n + 1] == more[..n + 1] && prior[n] == more[n];
      }
    }
  }

  lemma {:induction false} AddCallsSilence(doc: Document, tools: Tools, before: seq<CallDelta>, more: seq<CallDelta>)
    requires AllTold(doc, tools, before) && doc.message.Said?
    ensures AddCalls(doc, tools, more).message.Said?
    ensures AddCalls(doc, tools, more).message.closed <==> doc.message.closed || Introduces(tools, before, more)
  {
    if more != [] {
      var prior, last := more[..|more| - 1], more[|more| - 1];
      AddCallsSilence(doc, tools, before, prior);
      assert Told(doc, tools, before, last.index);
      AddCallsTold(doc, tools, before, prior, last.index);
      AddCallSilences(AddCalls(doc, tools, prior), tools, before + prior, last);
      SplitLast(before, more);
      IntroducesMore(tools, before, more);
    }
  }

  lemma {:induction false} ClosedIffSilenced(tools: Tools, chunks: seq<Chunk>)
    ensures var m := Meaning(tools, chunks).message; m.Said? && m.closed <==> Silenced(tools, chunks)
  {
    if chunks != [] {
      var before, chunk := chunks[..|chunks| - 1], chunks[|chunks| - 1];
      ClosedIffSilenced(tools, before);
      MessageHoldsText(tools, before);
      var doc := Meaning(tools, before);
      if chunk.Choice? {
        CallsLeaveText(doc, tools, chunk.calls);
        if doc.message.Said? {
          forall c ensures Told(doc, tools, Calls(before), c) {
            EveryCallTold(tools, before, c);
          }
          AddCallsSilence(doc, tools, Calls(before), chunk.calls);
        }
      }
    }
  }

  /** A delta is passed on against what its call was announced as just when it misleads. */
  lemma AddCallFits(doc: Document, tools: Tools, deltas: seq<CallDelta>, delta: CallDelta)
    requires Told(doc, tools, deltas, delta.index)
    ensures AddCall(doc, tools, delta).fits ==> doc.fits
    ensures !Misled(tools, deltas, delta.index) ==>
              (AddCall(doc, tools, delta).fits <==> doc.fits && !Misled(tools, deltas + [delta], delta.index))
  {
    OneMoreDelta(tools, deltas, delta, delta.index);
    OneMoreOpening(tools, deltas, delta, delta.index);
    AddCallFitsIff(doc, tools, delta);
  }

  lemma AddCallFitsIff(doc: Document, tools: Tools, delta: CallDelta)
    ensures var call := Merge(tools, CallAt(doc, delta.index), delta);
            AddCall(doc, tools, delta).fits
            <==> doc.fits && (Known(call) && Owes(tools, call) ==> Announce(tools, call, 0).announced.FunctionCall?)
  {
  }

  lemma MisledStays(tools: Tools, deltas: seq<CallDelta>, delta: CallDelta)
    ensures NoneMisled(tools, deltas + [delta])
            <==> NoneMisled(tools, deltas) && !Misled(tools, deltas + [delta], delta.index)
  {
    forall c ensures Misled(tools, deltas, c) ==> Misled(tools, deltas + [delta], c)
             ensures c != delta.index ==> Misled(tools, deltas + [delta], c) == Misled(tools, deltas, c)
    {
      OneMoreOpening(tools, deltas, delta, c);
      if c != delta.index {
        OtherDelta(tools, deltas, delta, c);
      }
    }
  }

  lemma {:induction false} AddCallsFit(doc: Document, tools: Tools, before: seq<CallDelta>, more: seq<CallDelta>)
    requires AllTold(doc, tools, before) && (doc.fits ==> NoneMisled(tools, before))
    ensures AddCalls(doc, tools, more).fits <==> doc.fits && NoneMisled(tools, before + more)
    ensures NoneMisled(tools, before + more) ==> NoneMisled(tools, before)
  {
    if more == [] {
      Neutral(before);
    } else {
      var prior, last := more[..|more| - 1], more[|more| - 1];
      AddCallsFit(doc, tools, before, prior);
      assert Told(doc, tools, before, last.index);
      AddCallsTold(doc, tools, before, prior, last.index);
      SplitLast(before, more);
      AddCallFits(AddCalls(doc, tools, prior), tools, before + prior, last);
      MisledStays(tools, before + prior, last);
    }
  }

  lemma CallsOf(chunks: seq<Chunk>)
    requires chunks != []
    ensures Calls(chunks) == Calls(chunks[..|chunks| - 1])
                             + if chunks[|chunks| - 1].Choice? then chunks[|chunks| - 1].calls else []
  {
  }

  /** Before its end, a client loses the thread of a stream only by late text, or by arguments streamed
      against what their call was announced as. */
  lemma {:induction false} FitsIff(tools: Tools, chunks: seq<Chunk>)
    ensures Meaning(tools, chunks).fits <==> !LateText(tools, chunks) && NoneMisled(tools, Calls(chunks))
  {
    if chunks != [] {
      var before, chunk := chunks[..|chunks| - 1], chunks[|chunks| - 1];
      CallsOf(chunks);
      FitsIff(tools, before);
      if chunk.Choice? {
        forall c ensures Told(Meaning(tools, before), tools, Calls(before), c) {
          EveryCallTold(tools, before, c);
        }
        AddCallsFit(Meaning(tools, before), tools, Calls(before), chunk.calls);
        TextFits(tools, chunks);
      } else {
        Neutral(Calls(before));
      }
    }
  }

  lemma TextFits(tools: Tools, chunks: seq<Chunk>)
    requires chunks != [] && chunks[|chunks| - 1].Choice?
    ensures var before, chunk := chunks[..|chunks| - 1], chunks[|chunks| - 1];
            && (LateText(tools, chunks)
                <==> LateText(tools, before) || (chunk.content != "" && Silenced(tools, chunks)))
            && (Meaning(tools, chunks).fits
                <==> AddCalls(Meaning(tools, before), tools, chunk.calls).fits
                     && (chunk.content == "" || !Silenced(tools, chunks)))
  {
    ClosedIffSilenced(tools, chunks);
    var chunk := chunks[|chunks| - 1];
    LateStep(AddCalls(Meaning(tools, chunks[..|chunks| - 1]), tools, chunk.calls), chunk.content);
  }

  lemma LateStep(doc: Document, text: string)
    ensures var next := AddText(doc, text);
            && (next.fits <==> doc.fits && (text == "" || !(next.message.Said? && next.message.closed)))
  {
  }

  // ---- the end of a run ------------------------------------------------------------------------

  /** What each call is now is what it was announced as. */
  ghost predicate AsAnnounced(doc: Document, tools: Tools, order: seq<int>) {
    forall i :: i in order ==> GoesByItsOpening(tools, CallAt(doc, i))
  }

  predicate GoesByItsOpening(tools: Tools, call: Call) {
    CallOpening(tools, call.callId, call.name) == call.announced
  }

  lemma {:induction false} FinishCallsResult(doc: Document, tools: Tools, order: seq<int>)
    requires forall i :: i in order ==> CallAt(doc, i).placed && !CallAt(doc, i).done
    requires forall j, k :: 0 <= j < k < |order| ==> order[j] != order[k]
    ensures var all := FinishCalls(doc, tools, order);
            && all.finished == doc.finished + CallItems(doc, tools, order)
            && (all.fits <==> doc.fits && AsAnnounced(doc, tools, order))
            && all.message == doc.message && all.places == doc.places && all.created == doc.created
            && (forall i :: CallAt(all, i) == CallAt(doc, i).(done := CallAt(doc, i).done || i in order))
  {
    if order != [] {
      var before, last := order[..|order| - 1], order[|order| - 1];
      FinishCallsResult(doc, tools, before);
      assert order == before + [last];
      assert last !in before;
    }
  }

  lemma {:induction false} CallItemsStable(doc: Document, next: Document, tools: Tools, order: seq<int>)
    requires forall i :: i in order ==> FinalCall(tools, CallAt(next, i)) == FinalCall(tools, CallAt(doc, i))
    ensures CallItems(next, tools, order) == CallItems(doc, tools, order)
  {
    if order != [] {
      CallItemsStable(doc, next, tools, order[..|order| - 1]);
    }
  }

  lemma {:induction false} WithoutItems(doc: Document, tools: Tools, order: seq<int>, x: int)
    requires x in order
    ensures multiset(CallItems(doc, tools, order))
         == multiset(CallItems(doc, tools, Without(order, x))) + multiset{FinalCall(tools, CallAt(doc, x))}
  {
    var before, last := order[..|order| - 1], order[|order| - 1];
    assert order == before + [last];
    if last != x {
      WithoutItems(doc, tools, before, x);
      assert (Without(before, x) + [last])[..|Without(before, x)|] == Without(before, x);
    }
  }

  lemma ItemsStep(doc: Document, tools: Tools, order: seq<int>)
    requires order != []
    ensures multiset(CallItems(doc, tools, order))
         == multiset(CallItems(doc, tools, order[..|order| - 1]))
           + multiset{FinalCall(tools, CallAt(doc, order[|order| - 1]))}
  {
  }

  /** In whatever two orders the calls are walked, the same items come out. */
  lemma {:induction false} AnyOrderSameItems(doc: Document, tools: Tools, s: set<int>, order: seq<int>,
                                             listed: seq<int>)
    requires Lists(order, s) && Lists(listed, s)
    ensures multiset(CallItems(doc, tools, order)) == multiset(CallItems(doc, tools, listed))
    decreases s
  {
    if s == {} {
      ListsEmpty(order, s);
      ListsEmpty(listed, s);
    } else {
      ListsButLast(order, s);
      var last := order[|order| - 1];
      WithoutLists(listed, s, last);
      AnyOrderSameItems(doc, tools, s - {last}, order[..|order| - 1], Without(listed, last));
      WithoutItems(doc, tools, listed, last);
      ItemsStep(doc, tools, order);
    }
  }

  // ---- what the client is left with ------------------------------------------------------------

  /** Places stand for what is there, nothing is placed before the response is created, and the message
      is the only thing done before the end. */
  ghost predicate Grounded(doc: Document) {
    var grounded :=
      && (doc.places != [] ==> doc.created)
      && (doc.message.Said? ==> doc.places != [])
      && (forall i :: i in doc.calls && doc.calls[i].placed ==> doc.places != [])
      && (forall k :: 0 <= k < |doc.places| ==>
            if doc.places[k].MessagePlace? then doc.message.Said? else CallAt(doc, doc.places[k].index).placed)
      && (doc.fits
          ==> doc.finished == if doc.message.Said? && doc.message.closed then [MessageItem(doc.message)] else []);
    grounded
  }

  lemma AddCallGrounded(doc: Document, tools: Tools, delta: CallDelta)
    requires Grounded(doc)
    ensures Grounded(AddCall(doc, tools, delta))
  {
    var call := Merge(tools, CallAt(doc, delta.index), delta);
    var heard := Create(doc.(calls := doc.calls[delta.index := call]));
    if Known(call) {
      OpenCallGrounded(heard, tools, delta.index);
    }
  }

  lemma OpenCallGrounded(doc: Document, tools: Tools, index: int)
    requires Grounded(doc) && doc.created
    ensures Grounded(OpenCall(doc, tools, index))
  {
  }

  lemma {:induction false} AddCallsGrounded(doc: Document, tools: Tools, deltas: seq<CallDelta>)
    requires Grounded(doc)
    ensures Grounded(AddCalls(doc, tools, deltas))
  {
    if deltas != [] {
      AddCallsGrounded(doc, tools, deltas[..|deltas| - 1]);
      AddCallGrounded(AddCalls(doc, tools, deltas[..|deltas| - 1]), tools, deltas[|deltas| - 1]);
    }
  }

  lemma AddTextGrounded(doc: Document, text: string)
    requires Grounded(doc)
    ensures Grounded(AddText(doc, text))
  {
  }

  lemma {:induction false} MeaningGrounded(tools: Tools, chunks: seq<Chunk>)
    ensures Grounded(Meaning(tools, chunks))
  {
    if chunks != [] {
      var before, chunk := Meaning(tools, chunks[..|chunks| - 1]), chunks[|chunks| - 1];
      MeaningGrounded(tools, chunks[..|chunks| - 1]);
      if chunk.Choice? {
        AddCallsGrounded(before, tools, chunk.calls);
        AddTextGrounded(AddCalls(before, tools, chunk.calls), chunk.content);
      }
    }
  }

  /** The document with its message closed, fallback included. */
  function Settled(options: Options, chunks: seq<Chunk>): Document {
    CloseMessage(FallBack(Meaning(options.tools, chunks), options))
  }

  /** The answer: all the text, or all the reasoning where that may stand in for it. */
  function Answer(options: Options, chunks: seq<Chunk>): string {
    if Carried(chunks) != "" || !options.allowReasoningFallback then Carried(chunks) else Reasoned(chunks)
  }

  lemma SettledMessage(options: Options, chunks: seq<Chunk>)
    ensures var doc, settled := Meaning(options.tools, chunks), Settled(options, chunks);
            && settled.fits == doc.fits && settled.calls == doc.calls && Grounded(settled)
            && settled.incompleteReason == doc.incompleteReason
            && (settled.message.Said? <==> Answer(options, chunks) != "")
            && (settled.message.Said? ==> settled.message.text == Answer(options, chunks) && settled.message.closed)
  {
    var doc := Meaning(options.tools, chunks);
    MessageHoldsText(options.tools, chunks);
    MeaningGrounded(options.tools, chunks);
    AddTextGrounded(doc, doc.reasoning);
    FallBackSays(doc, options);
    CloseGrounded(FallBack(doc, options));
  }

  lemma FallBackSays(doc: Document, options: Options)
    requires Grounded(doc) && (doc.message.Said? ==> doc.message.text != "")
    ensures var next := FallBack(doc, options);
            && next.fits == doc.fits && next.calls == doc.calls && Grounded(next)
            && next.incompleteReason == doc.incompleteReason
            && (if doc.message.Said? then next.message == doc.message
                else if options.allowReasoningFallback && doc.reasoning != ""
                then next.message.Said? && next.message.text == doc.reasoning
                else next.message.Unsaid?)
  {
    AddTextGrounded(doc, doc.reasoning);
    Neutral(doc.reasoning);
  }

  lemma CloseGrounded(doc: Document)
    requires Grounded(doc)
    ensures Grounded(CloseMessage(doc))
  {
  }

  lemma SettledCall(options: Options, chunks: seq<Chunk>, order: seq<int>, i: int)
    requires Lists(order, PlacedCalls(Meaning(options.tools, chunks)))
    ensures i in order <==> Identified(options.tools, Calls(chunks), i)
    ensures i in order ==> CallAt(Settled(options, chunks), i).placed && !CallAt(Settled(options, chunks), i).done
    ensures i in order ==>
              (GoesByItsOpening(options.tools, CallAt(Settled(options, chunks), i))
               <==> KeepsName(options.tools, Calls(chunks), i))
  {
    SettledMessage(options, chunks);
    EveryCallTold(options.tools, chunks, i);
    CallsArriveWhole(options.tools, chunks, i);
  }

  /** Nothing but the calls is left to finish, and each goes by what it was announced as if and only if its
      deltas say so. */
  lemma SettledCalls(options: Options, chunks: seq<Chunk>, order: seq<int>)
    requires Lists(order, PlacedCalls(Meaning(options.tools, chunks)))
    ensures forall i :: i in order
                        ==> CallAt(Settled(options, chunks), i).placed && !CallAt(Settled(options, chunks), i).done
    ensures AsAnnounced(Settled(options, chunks), options.tools, order) <==> NamesKept(options.tools, Calls(chunks))
  {
    var settled, tools, deltas := Settled(options, chunks), options.tools, Calls(chunks);
    forall i
      ensures i in order <==> Identified(tools, deltas, i)
      ensures i in order ==> CallAt(settled, i).placed && !CallAt(settled, i).done
      ensures i in order ==> (GoesByItsOpening(tools, CallAt(settled, i)) <==> KeepsName(tools, deltas, i))
    {
      SettledCall(options, chunks, order, i);
    }
  }

  /** Every item the client was told of is done. */
  predicate AllDone(tools: Tools, doc: Document) {
    var done := forall k :: 0 <= k < |doc.places| ==> Image(tools, doc, doc.places[k]).Progress?
                                                      && Image(tools, doc, doc.places[k]).stage.Finished?;
    done
  }

  lemma TerminalAccepted(options: Options, all: Document, listed: seq<int>, ending: Ending, n: nat)
    requires all.created && all.fits && multiset(Output(all, options.tools, listed)) == multiset(all.finished)
    requires AllDone(options.tools, all)
    ensures var r := Hear(View(options.tools, all, n), Ended(ending, Output(all, options.tools, listed)));
            && r == Reader(Over(ending, Output(all, options.tools, listed)), n + 1,
                           Images(options.tools, all), all.finished)
            && Whole(r)
  {
  }

  /** The document as it is when the terminal event is sent. */
  lemma FinishedTurn(options: Options, chunks: seq<Chunk>, order: seq<int>, listed: seq<int>)
    requires HasOutput(Meaning(options.tools, chunks), options)
    requires Lists(order, PlacedCalls(Meaning(options.tools, chunks)))
    requires Lists(listed, PlacedCalls(Meaning(options.tools, chunks)))
    ensures var settled := Settled(options, chunks);
            var all := FinishCalls(settled, options.tools, order);
            && all.created
            && (all.fits ==> multiset(Output(all, options.tools, listed)) == multiset(all.finished)
                             && Output(all, options.tools, listed) == Output(settled, options.tools, listed)
                             && all.finished == Output(settled, options.tools, order))
  {
    var tools, settled := options.tools, Settled(options, chunks);
    SettledMessage(options, chunks);
    SettledCalls(options, chunks, order);
    FinishCallsResult(settled, tools, order);
    CallItemsStable(settled, FinishCalls(settled, tools, order), tools, listed);
    AnyOrderSameItems(settled, tools, PlacedCalls(Meaning(tools, chunks)), order, listed);
    CreatedByThen(options, chunks);
    if settled.fits {
      OutputSame(FinishCalls(settled, tools, order), settled, tools, order, listed);
    }
  }

  lemma FinishedFits(options: Options, chunks: seq<Chunk>, order: seq<int>)
    requires Lists(order, PlacedCalls(Meaning(options.tools, chunks)))
    ensures FinishCalls(Settled(options, chunks), options.tools, order).fits
            <==> !LateText(options.tools, chunks) && TrueToName(options.tools, Calls(chunks))
  {
    SettledMessage(options, chunks);
    SettledCalls(options, chunks, order);
    FinishCallsResult(Settled(options, chunks), options.tools, order);
    FitsIff(options.tools, chunks);
    TrueIff(options.tools, Calls(chunks));
  }

  /** A call is misled only once it is identified. */
  lemma {:induction false} MisledIdentified(tools: Tools, deltas: seq<CallDelta>, c: int)
    requires Misled(tools, deltas, c)
    ensures Identified(tools, deltas, c)
  {
    if !MisledNow(tools, deltas, c) {
      MisledIdentified(tools, deltas[..|deltas| - 1], c);
    }
  }

  lemma TrueIff(tools: Tools, deltas: seq<CallDelta>)
    ensures TrueToName(tools, deltas)
            <==> NoneMisled(tools, deltas) && NamesKept(tools, deltas)
  {
    if TrueToName(tools, deltas) {
      forall c ensures !Misled(tools, deltas, c) {
        if Misled(tools, deltas, c) {
          MisledIdentified(tools, deltas, c);
        }
      }
    }
  }

  /** A finished turn is one the client can follow to its terminal event if and only if no text came after
      the message had been closed for a call, and every call kept true to what it was announced as.  The
      client then has every item done, and the terminal event lists the same items: the whole answer
      first, then the calls. */
  lemma FollowedIff(options: Options, chunks: seq<Chunk>, dropped: bool, order: seq<int>, listed: seq<int>, n: nat)
    requires Verdict(options, chunks, dropped).Answered?
    requires Lists(order, PlacedCalls(Meaning(options.tools, chunks)))
    requires Lists(listed, PlacedCalls(Meaning(options.tools, chunks)))
    ensures var r := Delivered(options, chunks, dropped, order, listed, n);
            && (r.Reader? <==> !LateText(options.tools, chunks) && TrueToName(options.tools, Calls(chunks)))
            && (r.Reader? ==> var settled := Settled(options, chunks);
                  && r.phase == Over(EndingFor(settled.incompleteReason), Output(settled, options.tools, listed))
                  && r.finished == Output(settled, options.tools, order)
                  && Whole(r))
  {
    TakeAll(chunks);
    var all := FinishCalls(Settled(options, chunks), options.tools, order);
    FinishedTurn(options, chunks, order, listed);
    FinishedFits(options, chunks, order);
    SettledMessage(options, chunks);
    if all.fits {
      EverythingDone(options, chunks, order);
      TerminalAccepted(options, all, listed, EndingFor(Settled(options, chunks).incompleteReason), n);
    }
  }

  /** A call that keeps its id and its name is true to them. */
  lemma {:induction false} SteadyIsTrue(tools: Tools, deltas: seq<CallDelta>, c: int)
    requires Steady(tools, deltas)
    ensures Identified(tools, deltas, c) ==> KeepsName(tools, deltas, c)
    ensures !Misled(tools, deltas, c)
  {
    if deltas != [] {
      var before, last := deltas[..|deltas| - 1], deltas[|deltas| - 1];
      SteadyIsTrue(tools, before, c);
      ButLast(deltas);
      OneMoreDelta(tools, before, last, c);
      OneMoreOpening(tools, before, last, c);
    }
  }

  /** Where no call changes its identity, only late text is in the way. */
  lemma FollowedIffNotLate(options: Options, chunks: seq<Chunk>, dropped: bool,
                           order: seq<int>, listed: seq<int>, n: nat)
    requires Verdict(options, chunks, dropped).Answered? && Steady(options.tools, Calls(chunks))
    requires Lists(order, PlacedCalls(Meaning(options.tools, chunks)))
    requires Lists(listed, PlacedCalls(Meaning(options.tools, chunks)))
    ensures Delivered(options, chunks, dropped, order, listed, n).Reader? <==> !LateText(options.tools, chunks)
  {
    FollowedIff(options, chunks, dropped, order, listed, n);
    forall c | Identified(options.tools, Calls(chunks), c)
      ensures KeepsName(options.tools, Calls(chunks), c)
      ensures !Misled(options.tools, Calls(chunks), c)
    {
      SteadyIsTrue(options.tools, Calls(chunks), c);
    }
  }

  lemma OutputSame(all: Document, settled: Document, tools: Tools, order: seq<int>, listed: seq<int>)
    requires all.message == settled.message && all.finished == settled.finished + CallItems(settled, tools, order)
    requires CallItems(all, tools, listed) == CallItems(settled, tools, listed)
    requires multiset(CallItems(settled, tools, order)) == multiset(CallItems(settled, tools, listed))
    requires settled.finished == if settled.message.Said? then [MessageItem(settled.message)] else []
    ensures multiset(Output(all, tools, listed)) == multiset(all.finished)
    ensures Output(all, tools, listed) == Output(settled, tools, listed)
            && all.finished == Output(settled, tools, order)
  {
  }

  lemma CreatedByThen(options: Options, chunks: seq<Chunk>)
    requires HasOutput(Meaning(options.tools, chunks), options)
    ensures Settled(options, chunks).created
  {
    var doc := Meaning(options.tools, chunks);
    SettledMessage(options, chunks);
    MessageHoldsText(options.tools, chunks);
    Inhabited(PlacedCalls(doc));
    if PlacedCalls(doc) != {} {
      var i :| i in PlacedCalls(doc);
      assert i in Settled(options, chunks).calls;
    }
  }

  lemma EverythingDone(options: Options, chunks: seq<Chunk>, order: seq<int>)
    requires Lists(order, PlacedCalls(Meaning(options.tools, chunks)))
    ensures AllDone(options.tools, FinishCalls(Settled(options, chunks), options.tools, order))
  {
    var settled := Settled(options, chunks);
    SettledMessage(options, chunks);
    SettledCalls(options, chunks, order);
    FinishCallsResult(settled, options.tools, order);
    forall k | 0 <= k < |settled.places| && settled.places[k].CallPlace?
      ensures CallAt(settled, settled.places[k].index).done || settled.places[k].index in order
    {
      assert CallAt(settled, settled.places[k].index).placed;
      assert settled.places[k].index in PlacedCalls(Meaning(options.tools, chunks));
    }
  }

  /** The smallest stream a client cannot follow: text, a call, text. */
  lemma TextAfterACallIsLost(options: Options, order: seq<int>, listed: seq<int>, n: nat)
    requires options.tools.callId("call") == "call"
    requires Lists(order, {0}) && Lists(listed, {0})
    ensures var chunks := [Choice("", "a", [], ""), Choice("", "", [CallDelta(0, "call", "f", "{}")], ""),
                           Choice("", "b", [], "stop"), DoneMarker];
            Verdict(options, chunks, false).Answered? && Delivered(options, chunks, false, order, listed, n).Rejected?
  {
    var call := CallDelta(0, "call", "f", "{}");
    var chunks := [Choice("", "a", [], ""), Choice("", "", [call], ""), Choice("", "b", [], "stop"), DoneMarker];
    SmallestLateText(options.tools, call);
    assert chunks[3] == DoneMarker;
    MessageHoldsText(options.tools, chunks);
    assert PlacedCalls(Meaning(options.tools, chunks)) == {0} by {
      forall c ensures c in PlacedCalls(Meaning(options.tools, chunks)) <==> c == 0 {
        CallsArriveWhole(options.tools, chunks, c);
      }
    }
    FollowedIffNotLate(options, chunks, false, order, listed, n);
  }

  lemma OneCallAlone(tools: Tools, call: CallDelta)
    requires call.index == 0 && call.name != "" && tools.callId(call.id) != ""
    ensures Steady(tools, [call]) && (forall c :: Identified(tools, [call], c) <==> c == 0)
    ensures !Identified(tools, [], 0)
  {
    var none: seq<CallDelta> := [];
    assert none + [call] == [call];
    forall c ensures Identified(tools, [call], c) <==> c == 0 {
      OneMoreDelta(tools, none, call, c);
    }
    OneMoreDelta(tools, none, call, 0);
    OneMoreSteady(tools, none, call);
  }

  lemma SmallestLateText(tools: Tools, call: CallDelta)
    requires call.index == 0 && call.name != "" && tools.callId(call.id) != ""
    ensures var chunks := [Choice("", "a", [], ""), Choice("", "", [call], ""),
                           Choice("", "b", [], "stop"), DoneMarker];
            && FirstFault(chunks) == 4 && Carried(chunks) == "ab" && Calls(chunks) == [call]
            && Steady(tools, [call]) && (forall c :: Identified(tools, [call], c) <==> c == 0)
            && LateText(tools, chunks)
  {
    var a, b, t, d := Choice("", "a", [], ""), Choice("", "", [call], ""), Choice("", "b", [], "stop"), DoneMarker;
    var chunks := [a, b, t, d];
    assert chunks[1..] == [b, t, d] && [b, t, d][1..] == [t, d] && [t, d][1..] == [d];
    OneCallAlone(tools, call);
    assert chunks[..3] == [a, b, t];
    LateAfterThree(tools, call, a, b, t);
  }

  lemma LateAfterThree(tools: Tools, call: CallDelta, a: Chunk, b: Chunk, t: Chunk)
    requires a == Choice("", "a", [], "") && b == Choice("", "", [call], "") && t == Choice("", "b", [], "stop")
    requires !Identified(tools, [], call.index) && Identified(tools, [call], call.index)
    ensures Carried([a, b, t]) == "ab" && Calls([a, b, t]) == [call] && LateText(tools, [a, b, t])
  {
    assert [a, b, t][..2] == [a, b];
    assert [a, b][..1] == [a];
    assert [a][..0] == [];
    CallsOf([a]);
    assert Carried([a]) == "a" && Calls([a]) == [];
    var none: seq<CallDelta> := [];
    assert none + [call][..0] == none && none + [call][..1] == [call];
    assert Introduces(tools, none, [call]);
    assert Silenced(tools, [a, b]);
  }

  /** The smallest stream without late text that a client cannot follow: a call whose name comes again,
      once it has been announced. */
  lemma RenamedCallIsLost(options: Options, first: CallDelta, again: CallDelta,
                          order: seq<int>, listed: seq<int>, n: nat)
    requires first.index == again.index && options.tools.callId(first.id) != "" && options.tools.callId(again.id) == ""
    requires first.name != "" && again.name != ""
    requires CallOpening(options.tools, options.tools.callId(first.id), first.name)
          != CallOpening(options.tools, options.tools.callId(first.id), again.name)
    requires Lists(order, {first.index}) && Lists(listed, {first.index})
    ensures var chunks := [Choice("", "", [first], ""), Choice("", "", [again], "tool_calls"), DoneMarker];
            && Verdict(options, chunks, false).Answered? && !LateText(options.tools, chunks)
            && Delivered(options, chunks, false, order, listed, n).Rejected?
  {
    var a, b := Choice("", "", [first], ""), Choice("", "", [again], "tool_calls");
    var chunks := [a, b, DoneMarker];
    TwoChunks(options.tools, a, b);
    TwiceNamed(options.tools, first, again);
    assert chunks[1..] == [b, DoneMarker] && [b, DoneMarker][1..] == [DoneMarker];
    assert chunks[2] == DoneMarker;
    assert PlacedCalls(Meaning(options.tools, chunks)) == {first.index} by {
      forall c ensures c in PlacedCalls(Meaning(options.tools, chunks)) <==> c == first.index {
        CallsArriveWhole(options.tools, chunks, c);
      }
    }
    FollowedIff(options, chunks, false, order, listed, n);
  }

  lemma TwoChunks(tools: Tools, a: Chunk, b: Chunk)
    requires a.Choice? && b.Choice? && a.content == "" && b.content == ""
    ensures var chunks := [a, b, DoneMarker];
            Calls(chunks) == a.calls + b.calls && !LateText(tools, chunks)
  {
    var chunks := [a, b, DoneMarker];
    assert chunks[..2] == [a, b] && [a, b][..1] == [a] && [a][..0] == [];
    CallsOf([a]);
    CallsOf([a, b]);
    CallsOf(chunks);
    Neutral(a.calls);
    Neutral(Calls([a, b]));
    assert !LateText(tools, [a]) && !LateText(tools, [a, b]);
  }

  lemma TwiceNamed(tools: Tools, first: CallDelta, again: CallDelta)
    requires first.index == again.index && tools.callId(first.id) != "" && tools.callId(again.id) == ""
    requires first.name != "" && again.name != ""
    requires CallOpening(tools, tools.callId(first.id), first.name)
             != CallOpening(tools, tools.callId(first.id), again.name)
    ensures forall c :: Identified(tools, [first] + [again], c) <==> c == first.index
    ensures !TrueToName(tools, [first] + [again])
  {
    var none: seq<CallDelta> := [];
    Neutral([first]);
    forall c ensures Identified(tools, [first] + [again], c) <==> c == first.index {
      OneMoreDelta(tools, none, first, c);
      OneMoreDelta(tools, [first], again, c);
    }
    OneMoreDelta(tools, none, first, first.index);
    OneMoreOpening(tools, none, first, first.index);
    OneMoreDelta(tools, [first], again, first.index);
    OneMoreOpening(tools, [first], again, first.index);
    assert none + [first] == [first];
  }
}
