/** How a Chat turn ends for a Claude client, in terms of the chunks the upstream sent. */
module ChatToClaudeEndings {
  import opened ChatToClaudeDocument
  import opened ChatUpstream
  import opened ClaudeClient
  import opened Sequences

  ghost predicate Faultless(chunks: seq<Chunk>) {
    forall k :: 0 <= k < |chunks| ==> !chunks[k].Fault?
  }

  predicate RanToEnd(chunks: seq<Chunk>) {
    chunks == [] || DoneMarker in chunks
  }

  predicate ChoseAny(chunks: seq<Chunk>) {
    exists k :: 0 <= k < |chunks| && chunks[k].Choice?
  }

  /** Chunk `i` is the last that gives a finish reason; -1 if none does. */
  ghost predicate LastFinish(chunks: seq<Chunk>, i: int) {
    && -1 <= i < |chunks|
    && (i >= 0 ==> chunks[i].Choice? && chunks[i].finishReason != "")
    && (forall j :: 0 <= j < |chunks| && chunks[j].Choice? && chunks[j].finishReason != "" ==> j <= i)
  }

  lemma {:induction false} LastFinishDecides(names: string -> string, chunks: seq<Chunk>, i: int)
    requires LastFinish(chunks, i)
    ensures StopReason(names, chunks) == if i < 0 then "end_turn" else names(chunks[i].finishReason)
  {
    if chunks != [] && i < |chunks| - 1 {
      var last := |chunks| - 1;
      assert forall j :: 0 <= j < last ==> chunks[..last][j] == chunks[j];
      LastFinishDecides(names, chunks[..last], i);
    }
  }

  /** The first fault the upstream reports ends the run there, and the client is told of it. */
  lemma FirstFaultEnds(declared: string -> string, names: string -> string, chunks: seq<Chunk>, k: nat)
    requires k < |chunks| && chunks[k].Fault? && Faultless(chunks[..k])
    ensures Verdict(chunks) == UpstreamError(chunks[k].message)
    ensures var client := Delivered(declared, names, chunks);
            && client.Reader? && client.phase == Broken
            && client.blocks == Draw(declared, Acts(chunks[..k])).page.blocks
  {
    assert forall j :: 0 <= j < k ==> chunks[j] == chunks[..k][j];
    assert FirstFault(chunks) == k;
  }

  /** The outcome of a run without a fault, read off the upstream: a body without its end marker was cut; of the
      others those that chose nothing have nothing to close; any other turn is finished, for the reason the
      upstream gave last, and the client knows it. */
  lemma OutcomeIs(declared: string -> string, names: string -> string, chunks: seq<Chunk>, i: int)
    requires Faultless(chunks) && LastFinish(chunks, i)
    ensures var verdict, client := Verdict(chunks), Delivered(declared, names, chunks);
            && (verdict.Interrupted? <==> !RanToEnd(chunks))
            && (verdict.NothingSent? <==> RanToEnd(chunks) && !ChoseAny(chunks))
            && (verdict.Completed? <==> RanToEnd(chunks) && ChoseAny(chunks))
            && client.Reader?
            && (client.phase.Finished? <==> RanToEnd(chunks) && ChoseAny(chunks))
            && (client.phase.Finished?
                ==> client.phase.stopReason == if i < 0 then "end_turn" else names(chunks[i].finishReason))
            && (client.phase.Cut? <==> !RanToEnd(chunks) && ChoseAny(chunks))
            && (client.phase.Idle? <==> !ChoseAny(chunks))
            && (ChoseAny(chunks) ==> client.blocks == Draw(declared, Acts(chunks)).page.blocks)
  {
    TakeAll(chunks);
    LastFinishDecides(names, chunks, i);
  }
}
