/** How a Chat turn ends for a Responses client, and what the client then holds, in terms of the chunks the
    upstream sent. */
module ChatToResponsesEndings {
  import opened ChatToResponsesDocument
  import opened ChatToResponsesFidelity
  import opened ChatUpstream
  import opened Interruption
  import opened MapOrder
  import opened ResponsesClient
  import opened Sequences
  import opened ToolDialect
  import Fidelity = ChatToResponsesFidelity
  import Text

  // ---- why a turn stopped ----------------------------------------------------------------------

  predicate SaysLength(chunk: Chunk) {
    chunk.Choice? && Text.TrimSpace(chunk.finishReason) == "length"
  }

  predicate SaysFiltered(chunk: Chunk) {
    chunk.Choice? && Text.TrimSpace(chunk.finishReason) == "content_filter"
  }

  /** Chunk `i` is the last whose finish reason says that the turn stopped short; -1 if none does. */
  ghost predicate LastShort(chunks: seq<Chunk>, i: int) {
    && -1 <= i < |chunks|
    && (i >= 0 ==> SaysLength(chunks[i]) || SaysFiltered(chunks[i]))
    && (forall j :: 0 <= j < |chunks| && (SaysLength(chunks[j]) || SaysFiltered(chunks[j])) ==> j <= i)
  }

  /** The ending called for: by the last such reason, whatever other reasons come before or after. */
  predicate CalledFor(ending: Ending, chunks: seq<Chunk>, i: int)
    requires -1 <= i < |chunks|
  {
    && (ending == Incomplete("max_output_tokens") <==> i >= 0 && SaysLength(chunks[i]))
    && (ending == Incomplete("content_filter") <==> i >= 0 && SaysFiltered(chunks[i]))
    && (ending == Ending.Completed <==> i < 0)
  }

  lemma {:induction false} LastShortDecides(tools: Tools, chunks: seq<Chunk>, i: int)
    requires LastShort(chunks, i)
    ensures CalledFor(EndingFor(Meaning(tools, chunks).incompleteReason), chunks, i)
  {
    if chunks != [] {
      var last := |chunks| - 1;
      ReasonKept(tools, chunks);
      if i < last {
        assert forall j :: 0 <= j < last ==> chunks[..last][j] == chunks[j];
        LastShortDecides(tools, chunks[..last], i);
      }
    }
  }

  lemma ReasonKept(tools: Tools, chunks: seq<Chunk>)
    requires chunks != []
    ensures var before, last := Meaning(tools, chunks[..|chunks| - 1]), chunks[|chunks| - 1];
            Meaning(tools, chunks).incompleteReason
            == if SaysLength(last) then "max_output_tokens"
               else if SaysFiltered(last) then "content_filter" else before.incompleteReason
  {
    var last := chunks[|chunks| - 1];
    if last.Choice? {
      CallsKeepReason(Meaning(tools, chunks[..|chunks| - 1]), tools, last.calls);
    }
  }

  lemma {:induction false} CallsKeepReason(doc: Document, tools: Tools, deltas: seq<CallDelta>)
    ensures AddCalls(doc, tools, deltas).incompleteReason == doc.incompleteReason
  {
    if deltas != [] {
      CallsKeepReason(doc, tools, deltas[..|deltas| - 1]);
    }
  }

  // ---- outcomes --------------------------------------------------------------------------------

  ghost predicate Faultless(chunks: seq<Chunk>) {
    forall k :: 0 <= k < |chunks| ==> !chunks[k].Fault?
  }

  predicate RanToEnd(chunks: seq<Chunk>) {
    chunks == [] || DoneMarker in chunks
  }

  /** There is an answer, reasoning that may stand for one, or a call that can be told. */
  ghost predicate Said(options: Options, chunks: seq<Chunk>) {
    Answer(options, chunks) != "" || exists c :: Identified(options.tools, Calls(chunks), c)
  }

  lemma OutputIffSaid(options: Options, chunks: seq<Chunk>)
    ensures HasOutput(Meaning(options.tools, chunks), options) <==> Said(options, chunks)
  {
    var doc := Meaning(options.tools, chunks);
    MessageHoldsText(options.tools, chunks);
    forall c ensures c in PlacedCalls(doc) <==> Identified(options.tools, Calls(chunks), c) {
      CallsArriveWhole(options.tools, chunks, c);
    }
    if c :| Identified(options.tools, Calls(chunks), c) {
      assert c in PlacedCalls(doc);
    }
    Inhabited(PlacedCalls(doc));
  }

  /** The first fault the upstream reports ends the run there; a client still following is told of it. */
  lemma FirstFaultEnds(options: Options, chunks: seq<Chunk>, dropped: bool, order: seq<int>, listed: seq<int>,
                       n: nat, k: nat)
    requires k < |chunks| && chunks[k].Fault? && Faultless(chunks[..k])
    ensures Verdict(options, chunks, dropped) == UpstreamError(chunks[k].message)
    ensures var client := Delivered(options, chunks, dropped, order, listed, n);
            && (client.Reader?
                <==> !LateText(options.tools, chunks[..k]) && NoneMisled(options.tools, Calls(chunks[..k])))
            && (client.Reader? ==> client.phase == Broken(chunks[k].message))
  {
    assert forall j :: 0 <= j < k ==> chunks[j] == chunks[..k][j];
    assert FirstFault(chunks) == k;
    FitsIff(options.tools, chunks[..k]);
  }

  /** The outcome of a run without a fault, read off the upstream: it was cut if the body was dropped or lacked
      its end marker; of the others it is answered just when something was said; and it ends as the last
      reason to stop short says. */
  lemma OutcomeIs(options: Options, chunks: seq<Chunk>, dropped: bool, i: int)
    requires Faultless(chunks) && LastShort(chunks, i)
    ensures var verdict := Verdict(options, chunks, dropped);
            && (verdict.Interrupted? <==> dropped || !RanToEnd(chunks))
            && (verdict.NothingSent? <==> !dropped && RanToEnd(chunks) && !Said(options, chunks))
            && (verdict.Answered? <==> !dropped && RanToEnd(chunks) && Said(options, chunks))
            && (verdict.Answered? ==> CalledFor(verdict.ending, chunks, i))
  {
    OutputIffSaid(options, chunks);
    LastShortDecides(options.tools, chunks, i);
  }

  /** A cut turn is told as one, if anything was said and the body itself was not dropped. */
  lemma CutIsTold(options: Options, chunks: seq<Chunk>, dropped: bool, order: seq<int>, listed: seq<int>, n: nat)
    requires Faultless(chunks) && (dropped || !RanToEnd(chunks))
    ensures var client := Delivered(options, chunks, dropped, order, listed, n);
            && (client.Reader? <==> !LateText(options.tools, chunks) && NoneMisled(options.tools, Calls(chunks)))
            && (client.Reader? && !dropped && Said(options, chunks) ==> client.phase == Broken(CUT_MESSAGE))
            && (client.Reader? && (dropped || !Said(options, chunks)) ==> client.phase in {Idle, Streaming})
  {
    TakeAll(chunks);
    OutputIffSaid(options, chunks);
    FitsIff(options.tools, chunks);
  }

  // ---- what the client of a turn that broke off holds ------------------------------------------

  /** The message and the calls stand where they say. */
  ghost predicate Placed(doc: Document) {
    var placed :=
      && (doc.message.Said? ==> doc.message.place < |doc.places| && doc.places[doc.message.place].MessagePlace?)
      && (forall c :: c in doc.calls && doc.calls[c].placed ==> StandsAt(doc.places, doc.calls[c].place, c));
    placed
  }

  predicate StandsAt(places: seq<Place>, k: nat, c: int) {
    k < |places| && places[k] == CallPlace(c)
  }

  lemma OpenPlaced(doc: Document, tools: Tools, c: int)
    requires Placed(doc)
    ensures Placed(OpenCall(doc, tools, c))
  {
    var next := OpenCall(doc, tools, c);
    forall b | b in next.calls && next.calls[b].placed ensures StandsAt(next.places, next.calls[b].place, b) {
      if b != c {
        assert StandsAt(doc.places, doc.calls[b].place, b);
      }
    }
  }

  lemma {:induction false} CallsPlaced(doc: Document, tools: Tools, deltas: seq<CallDelta>)
    requires Placed(doc)
    ensures Placed(AddCalls(doc, tools, deltas))
  {
    if deltas != [] {
      var before, last := AddCalls(doc, tools, deltas[..|deltas| - 1]), deltas[|deltas| - 1];
      CallsPlaced(doc, tools, deltas[..|deltas| - 1]);
      var call := Merge(tools, CallAt(before, last.index), last);
      OpenPlaced(Create(before.(calls := before.calls[last.index := call])), tools, last.index);
    }
  }

  lemma {:induction false} MeaningPlaced(tools: Tools, chunks: seq<Chunk>)
    ensures Placed(Meaning(tools, chunks))
  {
    if chunks != [] {
      var before, chunk := Meaning(tools, chunks[..|chunks| - 1]), chunks[|chunks| - 1];
      MeaningPlaced(tools, chunks[..|chunks| - 1]);
      if chunk.Choice? {
        CallsPlaced(before, tools, chunk.calls);
      }
    }
  }

  /** A client that followed a turn up to where it broke off: at an error the upstream reported, or where the
      body was cut. */
  ghost predicate BrokeOff(options: Options, chunks: seq<Chunk>, dropped: bool, order: seq<int>, listed: seq<int>,
                           n: nat, k: nat) {
    k <= |chunks| && Faultless(chunks[..k]) && Delivered(options, chunks, dropped, order, listed, n).Reader?
    && if k < |chunks| then chunks[k].Fault? else dropped || !RanToEnd(chunks)
  }

  lemma BrokenItems(options: Options, chunks: seq<Chunk>, dropped: bool, order: seq<int>, listed: seq<int>,
                    n: nat, k: nat)
    requires BrokeOff(options, chunks, dropped, order, listed, n, k)
    ensures Delivered(options, chunks, dropped, order, listed, n).items
         == Images(options.tools, Meaning(options.tools, chunks[..k]))
  {
    assert forall j :: 0 <= j < k ==> chunks[j] == chunks[..k][j];
    assert FirstFault(chunks) == k;
  }

  /** It was streamed all the text there was before, in one message, which is done if calls came after it. */
  lemma TextSoFar(options: Options, chunks: seq<Chunk>, dropped: bool, order: seq<int>, listed: seq<int>,
                  n: nat, k: nat) returns (p: nat)
    requires BrokeOff(options, chunks, dropped, order, listed, n, k) && Carried(chunks[..k]) != ""
    ensures var items := Delivered(options, chunks, dropped, order, listed, n).items;
            && p < |items| && items[p].Progress? && items[p].opening.Message?
            && items[p].streamed == Carried(chunks[..k])
            && (items[p].stage.Finished? <==> Silenced(options.tools, chunks[..k]))
  {
    BrokenItems(options, chunks, dropped, order, listed, n, k);
    MeaningPlaced(options.tools, chunks[..k]);
    MessageHoldsText(options.tools, chunks[..k]);
    ClosedIffSilenced(options.tools, chunks[..k]);
    p := Meaning(options.tools, chunks[..k]).message.place;
  }

  /** It was told of every call that had both an id and a name, by what it went by then, and streamed the
      arguments of a plain function as far as they had come; none is done. */
  lemma CallSoFar(options: Options, chunks: seq<Chunk>, dropped: bool, order: seq<int>, listed: seq<int>,
                  n: nat, k: nat, c: int) returns (p: nat)
    requires BrokeOff(options, chunks, dropped, order, listed, n, k)
    requires Identified(options.tools, Calls(chunks[..k]), c)
    ensures var items, deltas := Delivered(options, chunks, dropped, order, listed, n).items, Calls(chunks[..k]);
            && p < |items| && items[p].Progress? && items[p].stage.Announced?
            && items[p].opening == AnnouncedAs(options.tools, deltas, c)
            && (options.tools.shape(LastName(deltas, c)).FunctionShape? ==> items[p].streamed == Fragments(deltas, c))
  {
    BrokenItems(options, chunks, dropped, order, listed, n, k);
    MeaningPlaced(options.tools, chunks[..k]);
    EveryCallTold(options.tools, chunks[..k], c);
    p := CallAt(Meaning(options.tools, chunks[..k]), c).place;
  }

  // ---- what the client of an answered turn holds -----------------------------------------------

  /** The arguments a call ends with: its fragments, or an empty object where those are blank. */
  function FinalArguments(chunks: seq<Chunk>, c: int): string {
    if Text.TrimSpace(Fragments(Calls(chunks), c)) == "" then "{}" else Fragments(Calls(chunks), c)
  }

  /** An item is call `c`, as the upstream named it last, with its arguments or the input that is in them. */
  ghost predicate IsCall(tools: Tools, chunks: seq<Chunk>, item: Item, c: int) {
    var id, name := LastId(tools, Calls(chunks), c), LastName(Calls(chunks), c);
    && CalledAs(tools, item.opening, id, name) && item.sealed == ""
    && item.content == if tools.shape(name).CustomShape? then tools.unwrap(FinalArguments(chunks, c))
                       else FinalArguments(chunks, c)
  }

  lemma {:induction false} CallItemsAre(doc: Document, tools: Tools, order: seq<int>)
    ensures |CallItems(doc, tools, order)| == |order|
    ensures forall k :: 0 <= k < |order| ==> CallItems(doc, tools, order)[k] == FinalCall(tools, CallAt(doc, order[k]))
  {
    if order != [] {
      var last := |order| - 1;
      CallItemsAre(doc, tools, order[..last]);
      assert forall k :: 0 <= k < last ==> order[..last][k] == order[k];
    }
  }

  lemma FinalCallIs(options: Options, chunks: seq<Chunk>, c: int)
    requires Identified(options.tools, Calls(chunks), c)
    ensures IsCall(options.tools, chunks, FinalCall(options.tools, CallAt(Fidelity.Settled(options, chunks), c)), c)
  {
    CallsArriveWhole(options.tools, chunks, c);
    SettledMessage(options, chunks);
  }

  /** Where the answer is in the client's list, if there is one, the calls are behind it. */
  function Shift(options: Options, chunks: seq<Chunk>): nat {
    if Answer(options, chunks) != "" then 1 else 0
  }

  /** A list of items is the answer, if there is one, and then these calls. */
  ghost predicate Lines(options: Options, chunks: seq<Chunk>, output: seq<Item>, listed: seq<int>) {
    var shift := Shift(options, chunks);
    && |output| == shift + |listed|
    && (shift == 1 ==> output[0].opening.Message? && output[0].content == Answer(options, chunks))
    && (forall k :: 0 <= k < |listed| ==> IsCall(options.tools, chunks, output[shift + k], listed[k]))
  }

  lemma OutputLines(options: Options, chunks: seq<Chunk>, listed: seq<int>)
    requires forall c :: c in listed ==> Identified(options.tools, Calls(chunks), c)
    ensures Lines(options, chunks, Output(Fidelity.Settled(options, chunks), options.tools, listed), listed)
  {
    var settled := Fidelity.Settled(options, chunks);
    SettledMessage(options, chunks);
    ListedCalls(options, chunks, listed);
    LinesOf(options, chunks, if settled.message.Said? then [MessageItem(settled.message)] else [],
            CallItems(settled, options.tools, listed), listed);
  }

  lemma LinesOf(options: Options, chunks: seq<Chunk>, head: seq<Item>, items: seq<Item>, listed: seq<int>)
    requires |head| == Shift(options, chunks) && |items| == |listed|
    requires head != [] ==> head[0].opening.Message? && head[0].content == Answer(options, chunks)
    requires forall k :: 0 <= k < |listed| ==> IsCall(options.tools, chunks, items[k], listed[k])
    ensures Lines(options, chunks, head + items, listed)
  {
    assert head != [] ==> (head + items)[0] == head[0];
    forall k | 0 <= k < |listed| ensures IsCall(options.tools, chunks, (head + items)[|head| + k], listed[k]) {
      Behind(head, items, k);
    }
  }

  lemma Behind(head: seq<Item>, items: seq<Item>, k: nat)
    requires k < |items|
    ensures (head + items)[|head| + k] == items[k]
  {
  }

  lemma ListedCalls(options: Options, chunks: seq<Chunk>, listed: seq<int>)
    requires forall c :: c in listed ==> Identified(options.tools, Calls(chunks), c)
    ensures var items := CallItems(Fidelity.Settled(options, chunks), options.tools, listed);
            |items| == |listed| && forall k :: 0 <= k < |listed| ==> IsCall(options.tools, chunks, items[k], listed[k])
  {
    CallItemsAre(Fidelity.Settled(options, chunks), options.tools, listed);
    var settled := Fidelity.Settled(options, chunks);
    forall k | 0 <= k < |listed|
      ensures IsCall(options.tools, chunks, FinalCall(options.tools, CallAt(settled, listed[k])), listed[k])
    {
      assert listed[k] in listed;
      FinalCallIs(options, chunks, listed[k]);
    }
  }

  /** What the client of an answered turn that it could follow is told at the end: the answer whole, if there is
      one, and then every call that was ever given an id and a name, each once and whole, and nothing else. */
  lemma AnswerIsListed(options: Options, chunks: seq<Chunk>, order: seq<int>, listed: seq<int>, n: nat, i: int)
    requires Faultless(chunks) && RanToEnd(chunks) && Said(options, chunks) && LastShort(chunks, i)
    requires !LateText(options.tools, chunks) && TrueToName(options.tools, Calls(chunks))
    requires Lists(order, PlacedCalls(Meaning(options.tools, chunks)))
    requires Lists(listed, PlacedCalls(Meaning(options.tools, chunks)))
    ensures var r := Delivered(options, chunks, false, order, listed, n);
            && r.Reader? && Whole(r) && r.phase.Over? && CalledFor(r.phase.ending, chunks, i)
            && Lines(options, chunks, r.phase.output, listed)
    ensures forall c :: c in listed <==> Identified(options.tools, Calls(chunks), c)
    ensures forall j, k :: 0 <= j < k < |listed| ==> listed[j] != listed[k]
  {
    OutcomeIs(options, chunks, false, i);
    FollowedIff(options, chunks, false, order, listed, n);
    SettledMessage(options, chunks);
    forall c ensures c in listed <==> Identified(options.tools, Calls(chunks), c) {
      CallsArriveWhole(options.tools, chunks, c);
    }
    OutputLines(options, chunks, listed);
  }
}
