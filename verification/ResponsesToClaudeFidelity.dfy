/** What the meaning of a Responses stream preserves: everything said, in order, and each call's
    arguments whatever other calls do in between. */
module ResponsesToClaudeFidelity {
  import opened ClaudeClient
  import opened ClaudePage
  import opened CallRouting
  import opened ResponsesToClaudeDocument
  import opened Sequences

  // ---- each call on its own --------------------------------------------------------------------

  /** What happens to one call, with everything about the others left out. */
  datatype CallEvent =
    | Opened
    | Fragment(text: string)
    | Final(arguments: string)
    | Done(arguments: string)

  /** What an event does to call `c`, when `owner` is the call it speaks of. */
  function EventOf(owner: string, e: Upstream, c: string): seq<CallEvent> {
    match e
    case CallAdded(callId, name, _, _) => if callId == c && name != "" then [Opened] else []
    case ArgumentsDelta(_, _, delta) => if owner == c then [Fragment(delta)] else []
    case ArgumentsDone(_, _, arguments) => if owner == c then [Final(arguments)] else []
    case CallDone(_, _, _, arguments) => if owner == c then [Done(arguments)] else []
    case _ => []
  }

  /** What the upstream said of call `c`: each event speaks of the call that the announcements before it say
      it does. */
  function Own(events: seq<Upstream>, c: string): seq<CallEvent> {
    if events == [] then []
    else
      var before, e := events[..|events| - 1], events[|events| - 1];
      Own(before, c) + EventOf(OwnerOf(before, e), e, c)
  }

  /** A single call, played by itself: `body` is what its latest block holds. */
  datatype Playback = Playback(live: bool, body: string, sent: string)

  function Append(p: Playback, text: string): Playback {
    p.(body := if p.live then p.body + text else p.body, sent := p.sent + text)
  }

  function PlayEvent(p: Playback, e: CallEvent): Playback {
    match e
    case Opened => if p.live then p else p.(live := true, body := "")
    case Fragment(text) => Append(p, text)
    case Final(f) => if f == "" || f == "{}" then p else Append(p, Unsent(f, p.sent))
    case Done(f) =>
      (if f == "" || f == "{}" then p else Append(p, Unsent(f, p.sent))).(live := false)
  }

  function Play(es: seq<CallEvent>): Playback {
    if es == [] then Playback(false, "", "") else PlayEvent(Play(es[..|es| - 1]), es[|es| - 1])
  }

  lemma {:induction false} PlayAppend(es: seq<CallEvent>, e: CallEvent)
    ensures Play(es + [e]) == PlayEvent(Play(es), e)
  {
    assert (es + [e])[..|es|] == es;
  }

  /** Call `c` in the document is what its own events make of it alone. */
  ghost predicate Independent(doc: Document, c: string, n: int, p: Playback) {
    && (c in doc.calls.open <==> p.live)
    && Sent(doc.calls, c) == p.sent
    && (p.live ==> doc.calls.open[c] == n)
    && (n >= 0 ==> n < |doc.page.blocks| && doc.page.blocks[n].body == p.body)
  }

  lemma AddArgumentsPlays(doc: Document, c: string, d: string, n: int, p: Playback, text: string)
    requires Independent(doc, c, n, p)
    requires n >= 0 && c != d && d in doc.calls.open ==> doc.calls.open[d] != n
    ensures Independent(AddArguments(doc, d, text), c, n, if c == d then Append(p, text) else p)
  {
    assert p.body + "" == p.body;
  }

  lemma CompletePlays(doc: Document, c: string, d: string, n: int, p: Playback, f: string)
    requires Independent(doc, c, n, p) && d != ""
    requires n >= 0 && c != d && d in doc.calls.open ==> doc.calls.open[d] != n
    ensures Independent(Complete(doc, d, f), c, n, if c == d then PlayEvent(p, Final(f)) else p)
  {
    AddArgumentsPlays(doc, c, d, n, p, Unsent(f, Sent(doc.calls, d)));
    assert p.body + "" == p.body && p.sent + "" == p.sent;
  }

  function PlayOwn(p: Playback, mine: seq<CallEvent>): Playback {
    if mine == [] then p else PlayEvent(p, mine[0])
  }

  lemma OpenCallPlays(doc: Document, c: string, d: string, n: int, p: Playback, opening: Opening)
    requires Independent(doc, c, n, p)
    ensures Independent(OpenCall(doc, d, opening), c, if c == d && c !in doc.calls.open then |doc.page.blocks| else n,
                        if c == d then PlayEvent(p, Opened) else p)
  {
  }

  predicate OfCalls(e: Upstream) {
    e.CallAdded? || e.ArgumentsDelta? || e.ArgumentsDone? || e.CallDone?
  }

  lemma QuietPlays(doc: Document, toolId: string -> string, c: string, n: int, p: Playback, e: Upstream)
    requires Independent(doc, c, n, p) && !OfCalls(e)
    requires n >= 0 ==> doc.page.blocks[n].opening.ToolBlock?
    ensures Independent(Step(doc, toolId, e), c, n, p)
  {
  }

  lemma ArgumentsPlay(doc: Document, toolId: string -> string, c: string, n: int, p: Playback, e: Upstream)
    requires c != "" && Independent(doc, c, n, p) && (e.ArgumentsDelta? || e.ArgumentsDone?)
    requires forall d :: n >= 0 && c != d && d in doc.calls.open ==> doc.calls.open[d] != n
    ensures Independent(Step(doc, toolId, e), c, n, PlayOwn(p, EventOf(ResolvedFor(doc.calls, e), e, c)))
  {
    var d := Resolve(doc.calls, "", e.itemId, e.outputIndex);
    if e.ArgumentsDelta? {
      AddArgumentsPlays(doc, c, d, n, p, e.delta);
    } else if d != "" {
      CompletePlays(doc, c, d, n, p, e.arguments);
    }
  }

  lemma CloseCallPlays(doc: Document, c: string, d: string, n: int, p: Playback)
    requires Independent(doc, c, n, p)
    ensures Independent(CloseCall(doc, d), c, n, if c == d then p.(live := false) else p)
  {
  }

  lemma DonePlays(doc: Document, toolId: string -> string, c: string, n: int, p: Playback, e: Upstream)
    requires c != "" && Independent(doc, c, n, p) && e.CallDone?
    requires forall d :: n >= 0 && c != d && d in doc.calls.open ==> doc.calls.open[d] != n
    ensures Independent(Step(doc, toolId, e), c, n, PlayOwn(p, EventOf(ResolvedFor(doc.calls, e), e, c)))
  {
    var d := Resolve(doc.calls, e.callId, e.itemId, e.outputIndex);
    var done := Complete(doc, d, e.arguments);
    if d != "" {
      CompletePlays(doc, c, d, n, p, e.arguments);
    }
    CloseCallPlays(done, c, d, n, if c == d then PlayEvent(p, Final(e.arguments)) else p);
  }

  /** One event does to call `c` what its own part of the event does, and nothing else. */
  lemma StepPlays(doc: Document, toolId: string -> string, c: string, n: int, p: Playback, e: Upstream)
    requires c != "" && Independent(doc, c, n, p)
    requires n >= 0 ==> doc.page.blocks[n].opening.ToolBlock?
    requires forall d :: n >= 0 && c != d && d in doc.calls.open ==> doc.calls.open[d] != n
    ensures Independent(Step(doc, toolId, e), c, if Opens(doc, e, c) then |doc.page.blocks| else n,
                        PlayOwn(p, EventOf(ResolvedFor(doc.calls, e), e, c)))
  {
    match e
    case CallAdded(callId, name, itemId, outputIndex) =>
      OpenCallPlays(doc.(calls := Identify(doc.calls, callId, itemId, outputIndex)), c, callId, n, p,
                    ToolBlock(toolId(callId), name));
    case ArgumentsDelta(_, _, _) => ArgumentsPlay(doc, toolId, c, n, p, e);
    case ArgumentsDone(_, _, _) => ArgumentsPlay(doc, toolId, c, n, p, e);
    case CallDone(_, _, _, _) => DonePlays(doc, toolId, c, n, p, e);
    case _ => QuietPlays(doc, toolId, c, n, p, e);
  }

  /** Interleaving is invisible to a call: its block holds exactly what its own events add up to,
      whatever text, thinking and other calls arrive in between. */
  lemma {:induction false} CallsAreIndependent(toolId: string -> string, events: seq<Upstream>, c: string)
    requires c != ""
    ensures Independent(Meaning(toolId, events), c, Latest(toolId, events, c), Play(Own(events, c)))
  {
    if events != [] {
      var before, e := events[..|events| - 1], events[|events| - 1];
      CallsAreIndependent(toolId, before, c);
      LatestIsTool(toolId, before, c);
      forall d { OthersElsewhere(toolId, before, c, d); }
      RoutedForOwner(toolId, before, e);
      var own, mine := Own(before, c), EventOf(OwnerOf(before, e), e, c);
      StepPlays(Meaning(toolId, before), toolId, c, Latest(toolId, before, c), Play(own), e);
      PlayMine(own, mine);
    }
  }

  lemma PlayMine(own: seq<CallEvent>, mine: seq<CallEvent>)
    requires |mine| <= 1
    ensures Play(own + mine) == PlayOwn(Play(own), mine)
  {
    if mine == [] {
      Neutral(own);
    } else {
      PlayAppend(own, mine[0]);
      assert mine == [mine[0]];
    }
  }

  lemma OthersElsewhere(toolId: string -> string, events: seq<Upstream>, c: string, d: string)
    ensures Latest(toolId, events, c) >= 0 && c != d && d in Meaning(toolId, events).calls.open
            ==> Meaning(toolId, events).calls.open[d] != Latest(toolId, events, c)
  {
    if Latest(toolId, events, c) >= 0 && c != d && d in Meaning(toolId, events).calls.open {
      OpenIsLatest(toolId, events, d);
      LatestDistinct(toolId, events, c, d);
    }
  }

  // ---- a call that is announced once and finished once ------------------------------------------

  function Fragments(texts: seq<string>): seq<CallEvent> {
    seq(|texts|, i requires 0 <= i < |texts| => Fragment(texts[i]))
  }

  function Finals(arguments: seq<string>): seq<CallEvent> {
    seq(|arguments|, i requires 0 <= i < |arguments| => Final(arguments[i]))
  }

  lemma {:induction false} PlayFragments(texts: seq<string>)
    ensures Play([Opened] + Fragments(texts)) == Playback(true, Text.Concat(texts), Text.Concat(texts))
  {
    if texts == [] {
      assert [Opened] + Fragments(texts) == [] + [Opened];
      PlayAppend([], Opened);
    } else {
      var before, last := texts[..|texts| - 1], texts[|texts| - 1];
      PlayFragments(before);
      assert [Opened] + Fragments(texts) == [Opened] + Fragments(before) + [Fragment(last)];
      PlayAppend([Opened] + Fragments(before), Fragment(last));
    }
  }

  /** What the client may hold while final arguments come in: nothing of them yet, all of them, or, when
      they do not extend what was streamed, more than them. */
  ghost predicate Settling(p: Playback, streamed: string, full: string, seen: bool) {
    && p.live && p.body == p.sent
    && (!seen ==> p.body == streamed)
    && (seen && streamed <= full ==> p.body == full)
    && (seen && !(streamed <= full) ==> |p.body| > |full|)
  }

  lemma FinalSettles(p: Playback, streamed: string, full: string, seen: bool, f: string)
    requires Settling(p, streamed, full, seen) && full != "" && full != "{}" && f in ["", "{}", full]
    ensures Settling(PlayEvent(p, Final(f)), streamed, full, seen || f == full)
  {
    if f == full {
      if seen && streamed <= full {
        assert Unsent(full, full) == "";
        assert full + "" == full;
      } else if streamed <= full {
        assert streamed + full[|streamed|..] == full;
      } else if !seen {
        assert streamed != "";
      }
    }
  }

  lemma {:induction false} PlayFinals(es: seq<CallEvent>, streamed: string, finals: seq<string>, full: string)
    requires Play(es) == Playback(true, streamed, streamed) && full != "" && full != "{}"
    requires forall f :: f in finals ==> f in ["", "{}", full]
    ensures Settling(Play(es + Finals(finals)), streamed, full, full in finals)
  {
    if finals == [] {
      assert es + Finals(finals) == es;
    } else {
      var before, last := finals[..|finals| - 1], finals[|finals| - 1];
      PlayFinals(es, streamed, before, full);
      assert es + Finals(finals) == es + Finals(before) + [Final(last)];
      PlayAppend(es + Finals(before), Final(last));
      FinalSettles(Play(es + Finals(before)), streamed, full, full in before, last);
      assert finals == before + [last];
    }
  }

  /** Arguments arrive whole exactly when the final string extends the fragments streamed before it:
      through fragments, `arguments.done`, `output_item.done` or any mix, once or repeated. */
  lemma ArgumentsArriveWhole(texts: seq<string>, finals: seq<string>, last: string, full: string)
    requires full != "" && full != "{}"
    requires forall f :: f in finals + [last] ==> f in ["", "{}", full]
    requires full in finals + [last]
    ensures Play([Opened] + Fragments(texts) + Finals(finals) + [Done(last)]).body == full
            <==> Text.Concat(texts) <= full
  {
    var streamed, es := Text.Concat(texts), [Opened] + Fragments(texts) + Finals(finals);
    PlayFragments(texts);
    PlayFinals([Opened] + Fragments(texts), streamed, finals, full);
    PlayAppend(es, Done(last));
    assert last in finals + [last];
    FinalSettles(Play(es), streamed, full, full in finals, last);
  }

  /** Whatever else is interleaved, the block of a call that was announced once and finished once ends up
      holding its final arguments, if and only if they extend its own fragments. */
  lemma LoneCallSettles(toolId: string -> string, events: seq<Upstream>, c: string,
                        texts: seq<string>, finals: seq<string>, last: string, full: string)
    requires c != "" && full != "" && full != "{}"
    requires Own(events, c) == [Opened] + Fragments(texts) + Finals(finals) + [Done(last)]
    requires forall f :: f in finals + [last] ==> f in ["", "{}", full]
    requires full in finals + [last]
    ensures var blocks, n := Meaning(toolId, events).page.blocks, Latest(toolId, events, c);
            && 0 <= n < |blocks|
            && blocks[n].opening.ToolBlock? && blocks[n].opening.id == toolId(c)
            && (blocks[n].body == full <==> Text.Concat(texts) <= full)
  {
    CallsAreIndependent(toolId, events, c);
    ArgumentsArriveWhole(texts, finals, last, full);
    LatestIsTool(toolId, events, c);
    assert Own(events, c)[0] == Opened;
    OpenedHasBlock(toolId, events, c);
  }

  lemma {:induction false} OpenedHasBlock(toolId: string -> string, events: seq<Upstream>, c: string)
    requires c != "" && Opened in Own(events, c)
    ensures Latest(toolId, events, c) >= 0
  {
    var before, e := events[..|events| - 1], events[|events| - 1];
    if Opened in Own(before, c) {
      OpenedHasBlock(toolId, before, c);
    } else if !Opens(Meaning(toolId, before), e, c) {
      OpenIsLatest(toolId, before, c);
    }
  }

  // ---- parallel calls, by what the upstream sent -----------------------------------------------

  /** What `events` say of call `c`, when every event speaks of the call announced, anywhere in `run`, with
      the item id it bears, or failing that with the output index. */
  function Addressed(run: seq<Upstream>, events: seq<Upstream>, c: string): seq<CallEvent> {
    if events == [] then []
    else
      var e := events[|events| - 1];
      Addressed(run, events[..|events| - 1], c) + EventOf(OwnerOf(run, e), e, c)
  }

  lemma {:induction false} OwnIsAddressed(events: seq<Upstream>, n: nat, c: string)
    requires ToldApart(events) && AnnouncedFirst(events) && n <= |events|
    ensures Own(events[..n], c) == Addressed(events, events[..n], c)
  {
    if n > 0 {
      TakeTake(events, n - 1, n);
      OwnIsAddressed(events, n - 1, c);
      if OfACall(events[n - 1]) {
        OwnerOfTheRun(events, n - 1, NamedBy(events[n - 1]));
      }
    }
  }

  /** Parallel calls.  Where item ids and output indexes tell calls apart, and calls are announced before
      anything else is said of them: a call announced once and finished once gets a block with its id, which
      holds the final arguments sent for it if and only if they extend the fragments sent for it, whatever
      other calls, text and thinking come in between. */
  lemma ParallelCallFidelity(toolId: string -> string, events: seq<Upstream>, c: string,
                             texts: seq<string>, finals: seq<string>, last: string, full: string)
    requires c != "" && full != "" && full != "{}"
    requires ToldApart(events) && AnnouncedFirst(events)
    requires Addressed(events, events, c) == [Opened] + Fragments(texts) + Finals(finals) + [Done(last)]
    requires forall f :: f in finals + [last] ==> f in ["", "{}", full]
    requires full in finals + [last]
    ensures var blocks, n := Meaning(toolId, events).page.blocks, Latest(toolId, events, c);
            && 0 <= n < |blocks|
            && blocks[n].opening.ToolBlock? && blocks[n].opening.id == toolId(c)
            && (blocks[n].body == full <==> Text.Concat(texts) <= full)
            && (Verdict(toolId, events).Completed? ==> Delivered(toolId, events).blocks == blocks)
  {
    TakeAll(events);
    OwnIsAddressed(events, |events|, c);
    LoneCallSettles(toolId, events, c, texts, finals, last, full);
  }

  // ---- turns that use tools --------------------------------------------------------------------

  predicate AnnouncesAny(events: seq<Upstream>) {
    events != [] && (AnnouncesAny(events[..|events| - 1]) || Announces(events[|events| - 1]))
  }

  /** A turn has used a tool if and only if a call was announced, done or not. */
  lemma {:induction false} UsesToolIff(toolId: string -> string, events: seq<Upstream>)
    ensures var doc := Meaning(toolId, events);
            && (doc.ending.hasToolUse <==> AnnouncesAny(events))
            && (doc.calls.open != map[] ==> doc.ending.hasToolUse)
  {
    if events != [] {
      UsesToolIff(toolId, events[..|events| - 1]);
      StepUses(Meaning(toolId, events[..|events| - 1]), toolId, events[|events| - 1]);
    }
  }

  lemma StepUses(doc: Document, toolId: string -> string, e: Upstream)
    requires doc.calls.open != map[] ==> doc.ending.hasToolUse
    ensures var next := Step(doc, toolId, e);
            && (next.ending.hasToolUse <==> doc.ending.hasToolUse || Announces(e))
            && (next.calls.open != map[] ==> next.ending.hasToolUse)
  {
    assert forall c :: c in doc.calls.open ==> doc.calls.open != map[];
  }

  // ---- how a turn ends -------------------------------------------------------------------------

  /** Whether an event lets the client see anything: words, thinking, a call announced, thinking restored. */
  predicate Says(e: Upstream) {
    match e
    case TextDelta(delta) => delta != ""
    case ReasoningDelta(delta) => delta != ""
    case CallAdded(callId, name, _, _) => callId != "" && name != ""
    case ReasoningAdded(signed) => signed.Ours?
    case _ => false
  }

  predicate SaysAny(events: seq<Upstream>) {
    exists k :: 0 <= k < |events| && Says(events[k])
  }

  predicate Ends(events: seq<Upstream>) {
    exists k :: 0 <= k < |events| && events[k].Terminal?
  }

  lemma AnyAppend(before: seq<Upstream>, e: Upstream)
    ensures SaysAny(before + [e]) <==> SaysAny(before) || Says(e)
    ensures Ends(before + [e]) <==> Ends(before) || e.Terminal?
  {
    var events := before + [e];
    assert events[|before|] == e;
    assert forall k :: 0 <= k < |before| ==> events[k] == before[k];
  }

  lemma StepSays(doc: Document, toolId: string -> string, e: Upstream)
    requires Separate(doc.calls.open, |doc.page.blocks|)
    ensures var next := Step(doc, toolId, e);
            && (next.page.blocks != [] <==> doc.page.blocks != [] || Says(e))
            && (next.ending.closed <==> doc.ending.closed || e.Terminal?)
  {
  }

  /** Something is on the page just when something was said, and a turn is closed just when its end was
      reported. */
  lemma {:induction false} SaidAndEnded(toolId: string -> string, events: seq<Upstream>)
    ensures var doc := Meaning(toolId, events);
            (doc.page.blocks != [] <==> SaysAny(events)) && (doc.ending.closed <==> Ends(events))
  {
    if events != [] {
      var before, e := events[..|events| - 1], events[|events| - 1];
      SaidAndEnded(toolId, before);
      MeaningSeparate(toolId, before);
      StepSays(Meaning(toolId, before), toolId, e);
      AnyAppend(before, e);
      ButLast(events);
    }
  }

  ghost predicate Faultless(events: seq<Upstream>) {
    forall k :: 0 <= k < |events| ==> !events[k].Fault?
  }

  /** The first fault the upstream reports ends the run there. */
  lemma FirstFaultEnds(toolId: string -> string, events: seq<Upstream>, k: nat)
    requires k < |events| && events[k].Fault? && Faultless(events[..k])
    ensures Verdict(toolId, events) == UpstreamError(events[k].message)
    ensures var client := Delivered(toolId, events);
            client.Reader? && client.phase == Broken && client.blocks == Meaning(toolId, events[..k]).page.blocks
  {
    assert forall j :: 0 <= j < k ==> events[j] == events[..k][j];
    assert FirstFault(events) == k;
  }

  /** The outcome of a run without a fault, read off the upstream: a body that held anything but no report
      of its end was cut; of the others those that said nothing have nothing to close; any other turn is
      finished, and the client knows it is. */
  lemma OutcomeIs(toolId: string -> string, events: seq<Upstream>)
    requires Faultless(events)
    ensures var verdict, client := Verdict(toolId, events), Delivered(toolId, events);
            && (verdict.Interrupted? <==> events != [] && !Ends(events))
            && (verdict.NothingSent? <==> (events == [] || Ends(events)) && !SaysAny(events))
            && (verdict.Completed? <==> Ends(events) && SaysAny(events))
            && client.Reader? && client.blocks == Meaning(toolId, events).page.blocks
            && (client.phase.Finished? <==> Ends(events) && SaysAny(events))
            && (client.phase.Cut? <==> !Ends(events) && SaysAny(events))
            && (client.phase.Idle? <==> !SaysAny(events))
  {
    SaidAndEnded(toolId, events);
    TakeAll(events);
  }

  // ---- why a turn stopped ----------------------------------------------------------------------

  /** Event `i` is the last that reports the turn's end with a status. */
  ghost predicate LastReport(events: seq<Upstream>, i: int) {
    && -1 <= i < |events|
    && (i >= 0 ==> events[i].Terminal? && events[i].response.Response?)
    && (forall j :: 0 <= j < |events| && events[j].Terminal? && events[j].response.Response? ==> j <= i)
  }

  /** The reason a report gives, after a run that did or did not announce a call. */
  predicate Gives(report: Upstream, called: bool, reason: string)
    requires report.Terminal? && report.response.Response?
  {
    var short := Text.TrimSpace(report.response.status) == "incomplete";
    && (reason == "tool_use" <==> called)
    && (reason == "refusal" <==> !called && short && report.response.incompleteReason == "content_filter")
    && (reason == "max_tokens" <==> !called && short && report.response.incompleteReason != "content_filter")
    && (reason == "end_turn" <==> !called && !short)
  }

  lemma {:induction false} LastReportGives(toolId: string -> string, events: seq<Upstream>, i: int)
    requires LastReport(events, i)
    ensures var reason := Meaning(toolId, events).ending.stopReason;
            if i < 0 then reason == "end_turn" else Gives(events[i], AnnouncesAny(events[..i]), reason)
  {
    if events != [] {
      var before := events[..|events| - 1];
      if i == |events| - 1 {
        UsesToolIff(toolId, before);
      } else {
        LastReportGives(toolId, before, i);
        assert i >= 0 ==> before[..i] == events[..i];
      }
    }
  }

  /** The stop reason a finished turn's client is told, for every way of reporting the end: what the last
      report with a status gives, and a tool where that is nothing special and a call was announced. */
  lemma ReasonIs(toolId: string -> string, events: seq<Upstream>, i: int)
    requires Faultless(events) && Ends(events) && SaysAny(events) && LastReport(events, i)
    ensures var client := Delivered(toolId, events);
            && client.Reader? && client.phase.Finished?
            && if i < 0 then client.phase.stopReason == if AnnouncesAny(events) then "tool_use" else "end_turn"
               else if Gives(events[i], AnnouncesAny(events[..i]), "end_turn") && AnnouncesAny(events)
               then client.phase.stopReason == "tool_use"
               else Gives(events[i], AnnouncesAny(events[..i]), client.phase.stopReason)
  {
    OutcomeIs(toolId, events);
    TakeAll(events);
    UsesToolIff(toolId, events);
    LastReportGives(toolId, events, i);
  }

  // ---- everything said, in order ---------------------------------------------------------------

  /** What one upstream event adds to what the client sees. */
  function Adds(doc: Document, toolId: string -> string, e: Upstream): seq<Piece> {
    match e
    case TextDelta(delta) => Spoken(TextLane, delta)
    case ReasoningDelta(delta) => Spoken(ThinkingLane, delta)
    case CallAdded(callId, name, _, _) =>
      if callId == "" || name == "" || callId in doc.calls.open then []
      else [Announced(ToolBlock(toolId(callId), name))]
    case ReasoningAdded(Ours(payload)) => [Announced(SignedBlock(payload))]
    case _ => []
  }

  function Said(toolId: string -> string, events: seq<Upstream>): seq<Piece> {
    if events == [] then []
    else
      var before := events[..|events| - 1];
      Said(toolId, before) + Adds(Meaning(toolId, before), toolId, events[|events| - 1])
  }

  lemma ShownComplete(doc: Document, callId: string, text: string)
    requires callId in doc.calls.open ==>
               doc.calls.open[callId] < |doc.page.blocks| && doc.page.blocks[doc.calls.open[callId]].opening.ToolBlock?
    ensures Shown(AddArguments(doc, callId, text).page.blocks) == Shown(doc.page.blocks)
    ensures Shown(Complete(doc, callId, text).page.blocks) == Shown(doc.page.blocks)
  {
    if callId in doc.calls.open {
      ShownArguments(doc.page.blocks, doc.calls.open[callId], text);
      ShownArguments(doc.page.blocks, doc.calls.open[callId], Unsent(text, Sent(doc.calls, callId)));
    }
  }

  lemma OpenBlockIsTool(toolId: string -> string, events: seq<Upstream>, c: string)
    ensures var doc := Meaning(toolId, events);
            c in doc.calls.open ==>
              doc.calls.open[c] < |doc.page.blocks| && doc.page.blocks[doc.calls.open[c]].opening.ToolBlock?
  {
    if c in Meaning(toolId, events).calls.open {
      OpenIsLatest(toolId, events, c);
      LatestIsTool(toolId, events, c);
    }
  }

  /** Nothing said is lost, repeated or moved: character by character, lane by lane, and with every
      tool call announced where it was made, the client sees what the upstream said. */
  lemma {:induction false} NothingLost(toolId: string -> string, events: seq<Upstream>)
    ensures Shown(Meaning(toolId, events).page.blocks) == Said(toolId, events)
  {
    if events != [] {
      var before, e := events[..|events| - 1], events[|events| - 1];
      NothingLost(toolId, before);
      forall c { OpenBlockIsTool(toolId, before, c); }
      StepShows(Meaning(toolId, before), toolId, e);
    }
  }

  lemma SignedShows(page: Page, payload: string)
    ensures Shown(Begin(page, SignedBlock(payload), "").blocks)
            == Shown(page.blocks) + [Announced(SignedBlock(payload))]
  {
    ShownBegin(page, SignedBlock(payload), "");
    assert Spoken(ThinkingLane, "") == [];
    Neutral([Announced(SignedBlock(payload))]);
  }

  /** What an event of a call does to the page, said of the call it is taken for. */
  function CallPage(doc: Document, owner: string, e: Upstream): Page
    requires OfACall(e)
  {
    match e
    case ArgumentsDelta(_, _, delta) => if owner == "" then doc.page else AddArguments(doc, owner, delta).page
    case ArgumentsDone(_, _, arguments) => Complete(doc, owner, arguments).page
    case CallDone(_, _, _, arguments) => Complete(doc, owner, arguments).page
  }

  lemma CallEventIs(doc: Document, toolId: string -> string, e: Upstream)
    requires OfACall(e)
    ensures Step(doc, toolId, e).page == CallPage(doc, ResolvedFor(doc.calls, e), e)
  {
  }

  lemma CallPageShows(doc: Document, owner: string, e: Upstream)
    requires OfACall(e)
    requires owner in doc.calls.open ==>
               doc.calls.open[owner] < |doc.page.blocks| && doc.page.blocks[doc.calls.open[owner]].opening.ToolBlock?
    ensures Shown(CallPage(doc, owner, e).blocks) == Shown(doc.page.blocks)
  {
    match e
    case ArgumentsDelta(_, _, delta) => ShownComplete(doc, owner, delta);
    case ArgumentsDone(_, _, arguments) => ShownComplete(doc, owner, arguments);
    case CallDone(_, _, _, arguments) => ShownComplete(doc, owner, arguments);
  }

  lemma CallEventShows(doc: Document, toolId: string -> string, e: Upstream)
    requires OfACall(e)
    requires forall c :: c in doc.calls.open ==>
               doc.calls.open[c] < |doc.page.blocks| && doc.page.blocks[doc.calls.open[c]].opening.ToolBlock?
    ensures Shown(Step(doc, toolId, e).page.blocks) == Shown(doc.page.blocks)
  {
    CallEventIs(doc, toolId, e);
    CallPageShows(doc, ResolvedFor(doc.calls, e), e);
  }

  lemma StepShows(doc: Document, toolId: string -> string, e: Upstream)
    requires forall c :: c in doc.calls.open ==>
               doc.calls.open[c] < |doc.page.blocks| && doc.page.blocks[doc.calls.open[c]].opening.ToolBlock?
    ensures Shown(Step(doc, toolId, e).page.blocks) == Shown(doc.page.blocks) + Adds(doc, toolId, e)
  {
    Neutral(Shown(doc.page.blocks));
    match e
    case TextDelta(delta) => ShownSay(doc.page, TextBlock, delta);
    case ReasoningDelta(delta) => ShownSay(doc.page, ThinkingBlock, delta);
    case CallAdded(callId, name, _, _) => ShownBegin(doc.page, ToolBlock(toolId(callId), name), "");
    case ReasoningAdded(Ours(payload)) => SignedShows(doc.page, payload);
    case ReasoningAdded(Foreign) =>
    case Fault(_) =>
    case Terminal(_) =>
    case Other =>
    case _ => CallEventShows(doc, toolId, e);
  }
}
