/** Everything a Claude conversation says is in what it is converted to.

    `ChatHistory` and `ResponsesHistory` say what entries and blocks become; here that is held against the
    texts, images and calls themselves. */
module HistoryContents {
  import opened ChatHistory
  import opened ClaudeHistory
  import opened Sequences
  import opened ToolIds
  import opened ToolImages
  import Responses = ResponsesHistory
  import Strings = Text

  // ---- texts within texts ----------------------------------------------------------------------

  /** `t` stands in `s`, whole. */
  ghost predicate Within(t: string, s: string) {
    exists a: string, b: string :: s == a + t + b
  }

  lemma WithinItself(t: string)
    ensures Within(t, t)
  {
    Neutral(t);
    assert t == "" + t + "";
  }

  lemma WithinMore(t: string, s: string, before: string, after: string)
    requires Within(t, s)
    ensures Within(t, before + s + after)
  {
    var a: string, b: string :| s == a + t + b;
    assert before + (a + t + b) + after == (before + a) + t + (b + after);
  }

  lemma WithinFront(t: string, s: string, after: string)
    requires Within(t, s)
    ensures Within(t, s + after)
  {
    WithinMore(t, s, "", after);
    Neutral(s);
  }

  lemma WithinBack(t: string, before: string, s: string)
    requires Within(t, s)
    ensures Within(t, before + s)
  {
    WithinMore(t, s, before, "");
    Neutral(before + s);
  }

  lemma {:induction false} VisibleTrimsLeft(s: string, i: nat)
    requires i < |s| && !Strings.IsSpace(s[i])
    ensures Strings.TrimLeft(s) != ""
  {
    if Strings.IsSpace(s[0]) {
      VisibleTrimsLeft(s[1..], i - 1);
    }
  }

  /** What holds text that is not blank is not blank. */
  lemma NotBlankWithin(t: string, s: string)
    requires Within(t, s) && !Blank(t)
    ensures !Blank(s)
  {
    var a: string, b: string :| s == a + t + b;
    Strings.TrimLeftIsSuffix(t);
    var left := Strings.TrimLeft(t);
    Strings.TrimRightIsPrefix(left);
    var i := |t| - |left|;
    assert left != "" && t[i] == left[0] && s[|a| + i] == t[i];
    VisibleTrimsLeft(s, |a| + i);
    Strings.TrimLeftIsSuffix(s);
    Strings.TrimRightIsPrefix(Strings.TrimLeft(s));
  }

  lemma NotBlankNotEmpty(t: string)
    requires !Blank(t)
    ensures t != ""
  {
    assert Strings.TrimSpace("") == "";
  }

  // ---- tool results ----------------------------------------------------------------------------

  /** A text a tool result holds. */
  predicate Holds(content: ResultContent, t: string) {
    !Blank(t) && match content
                 case Plain(text) => text == t
                 case Parts(parts) => TextPart(t) in parts
  }

  lemma {:induction false} ChatTextsHold(parts: seq<ResultPart>, t: string)
    requires TextPart(t) in parts && !Blank(t)
    ensures Within(t, ResultTexts(parts))
  {
    var front, last := parts[..|parts| - 1], parts[|parts| - 1];
    ButLast(parts);
    NotBlankNotEmpty(t);
    if last == TextPart(t) {
      WithinItself(t);
      WithinBack(t, ResultTexts(front) + "\n", t);
    } else {
      ChatTextsHold(front, t);
      if last.TextPart? {
        Associate(ResultTexts(front), "\n", last.text);
        WithinFront(t, ResultTexts(front), "\n" + last.text);
      }
    }
  }

  lemma NoteKeeps(t: string, s: string, count: nat)
    requires Within(t, s) && !Blank(t)
    ensures Within(t, AppendImageNote(s, count)) && Within(t, NotedText(s, count))
  {
    NotBlankWithin(t, s);
    WithinFront(t, s, "\n\n");
    WithinFront(t, s + "\n\n", ImageNote(count));
  }

  /** Every text a tool returned is in its report, failed or not, with images or without. */
  lemma ReportHoldsTexts(result: Block, t: string)
    requires result.ToolResult? && Holds(result.content, t)
    ensures Within(t, ReportText(result))
  {
    var text := TextOf(result.content);
    WithinItself(t);
    if result.content.Parts? {
      ChatTextsHold(result.content.parts, t);
    }
    WithinBack(t, FAILED, text);
    var marked := if result.failed && !Strings.HasPrefix(text, FAILED) then FAILED + text else text;
    NoteKeeps(t, marked, |ImagesOf(result.content)|);
  }

  /** Text that begins like the mark of a failure, and other text after a break: the mark is in the first. */
  lemma MarkBeforeBreak(text: string, after: string)
    requires after != "" && after[0] == '\n'
    ensures Strings.HasPrefix(text + after, FAILED) <==> Strings.HasPrefix(text, FAILED)
  {
    assert forall i :: 0 <= i < |FAILED| ==> FAILED[i] != '\n';
    if |text| < |FAILED| {
      assert |FAILED| <= |text + after| ==> (text + after)[..|FAILED|][|text|] == '\n';
    } else {
      assert (text + after)[..|FAILED|] == text[..|FAILED|];
    }
  }

  lemma NoteIsNoMark(count: nat)
    ensures !Strings.HasPrefix(ImageNote(count), FAILED)
  {
    assert ImageNote(count)[1] == 'T' && FAILED[1] == 't';
    assert |ImageNote(count)| >= |FAILED| ==> ImageNote(count)[..|FAILED|][1] == 'T';
  }

  lemma NotedMark(text: string, count: nat)
    ensures Strings.HasPrefix(NotedText(text, count), FAILED) <==> Strings.HasPrefix(text, FAILED)
  {
    if count > 0 {
      if Blank(text) {
        NoteIsNoMark(count);
        BlankIsNoMark(text);
      } else {
        Associate(text, "\n\n", ImageNote(count));
        MarkBeforeBreak(text, "\n\n" + ImageNote(count));
      }
    }
  }

  lemma BlankIsNoMark(text: string)
    requires Blank(text)
    ensures !Strings.HasPrefix(text, FAILED)
  {
    if Strings.HasPrefix(text, FAILED) {
      assert text[0] == text[..|FAILED|][0] == '[';
      Strings.VisibleStart(text);
    }
  }

  /** The report of a result begins with the mark of a failure if and only if the result was a failure or itself
      begins so, with images or without. */
  lemma FailureIsMarkedIff(result: Block)
    requires result.ToolResult?
    ensures Strings.HasPrefix(ReportText(result), FAILED)
            <==> result.failed || Strings.HasPrefix(TextOf(result.content), FAILED)
  {
    var text := TextOf(result.content);
    assert (FAILED + text)[..|FAILED|] == FAILED;
    NotedMark(if result.failed && !Strings.HasPrefix(text, FAILED) then FAILED + text else text,
              |ImagesOf(result.content)|);
  }

  lemma {:induction false} ResponsesTextsHold(parts: seq<ResultPart>, t: string)
    requires TextPart(t) in parts && !Blank(t)
    ensures t in Responses.Texts(parts)
  {
    var front, last := parts[..|parts| - 1], parts[|parts| - 1];
    ButLast(parts);
    if last != TextPart(t) {
      ResponsesTextsHold(front, t);
    }
  }

  lemma {:induction false} JoinHolds(texts: seq<string>, t: string)
    requires t in texts
    ensures Within(t, Responses.Join(texts))
  {
    var front, last := texts[..|texts| - 1], texts[|texts| - 1];
    ButLast(texts);
    WithinItself(t);
    if |texts| > 1 {
      if last == t {
        WithinBack(t, Responses.Join(front) + "\n", t);
      } else {
        JoinHolds(front, t);
        Associate(Responses.Join(front), "\n", last);
        WithinFront(t, Responses.Join(front), "\n" + last);
      }
    }
  }

  /** And so it is on the way to Responses input: what survives of a result holds every text of it. */
  lemma OutputHoldsTexts(content: ResultContent, t: string)
    requires Holds(content, t)
    ensures Within(t, Responses.ResultText(content))
  {
    match content
    case Plain(_) => WithinItself(t);
    case Parts(parts) =>
      ResponsesTextsHold(parts, t);
      JoinHolds(Responses.Texts(parts), t);
      NoteKeeps(t, Responses.Join(Responses.Texts(parts)), |Responses.Urls(parts)|);
  }

  lemma {:induction false} ImagesHeld(parts: seq<ResultPart>, mediaType: string, data: string)
    requires ImagePart(mediaType, data) in parts && !Blank(data)
    ensures Picture(InlineUrl(mediaType, data)) in ResultImages(parts)
  {
    ButLast(parts);
    if parts[|parts| - 1] != ImagePart(mediaType, data) {
      ImagesHeld(parts[..|parts| - 1], mediaType, data);
    }
  }

  // ---- blocks ----------------------------------------------------------------------------------

  lemma {:induction false} WordsArePart(blocks: seq<Block>, t: string)
    requires Text(t) in blocks
    ensures Prose(t) in PartsOf(blocks)
  {
    ButLast(blocks);
    if blocks[|blocks| - 1] != Text(t) {
      WordsArePart(blocks[..|blocks| - 1], t);
    }
  }

  lemma WordsAreContent(parts: seq<Part>, t: string)
    requires Prose(t) in parts && !Blank(t)
    ensures !NoContent(parts)
  {
  }

  lemma OwnHolds(blocks: seq<Block>, t: string)
    requires Text(t) in blocks && !Blank(t)
    ensures Prose(t) in Own(blocks)
  {
    WordsArePart(blocks, t);
    WordsAreContent(PartsOf(blocks), t);
  }

  lemma {:induction false} OthersKeep(blocks: seq<Block>, b: Block)
    requires b in blocks
    ensures if b.ToolResult? then b in ResultsOf(blocks) else b in OthersOf(blocks)
  {
    ButLast(blocks);
    if blocks[|blocks| - 1] != b {
      OthersKeep(blocks[..|blocks| - 1], b);
    }
  }

  lemma {:induction false} TextsKeep(blocks: seq<Block>, t: string)
    requires Text(t) in blocks && t != ""
    ensures t in TextsIn(blocks)
  {
    ButLast(blocks);
    if blocks[|blocks| - 1] != Text(t) {
      TextsKeep(blocks[..|blocks| - 1], t);
    }
  }

  lemma {:induction false} JoinTextsHold(texts: seq<string>, t: string)
    requires t in texts
    ensures Within(t, JoinTexts(texts))
  {
    var front, last := texts[..|texts| - 1], texts[|texts| - 1];
    ButLast(texts);
    WithinItself(t);
    if |texts| > 1 {
      if last == t {
        WithinBack(t, JoinTexts(front) + "\n", t);
      } else {
        JoinTextsHold(front, t);
        Associate(JoinTexts(front), "\n", last);
        WithinFront(t, JoinTexts(front), "\n" + last);
      }
    }
  }

  lemma {:induction false} CallsKeep(sum: string -> string, blocks: seq<Block>, b: Block)
    requires b in blocks && b.ToolUse? && Strings.TrimSpace(b.name) != ""
    ensures Call(SanitizeAnthropic(sum, b.id), b.name, b.input) in CallsOf(sum, blocks)
  {
    ButLast(blocks);
    if blocks[|blocks| - 1] != b {
      CallsKeep(sum, blocks[..|blocks| - 1], b);
    }
  }

  lemma {:induction false} WaitingKeeps(names: Names, results: seq<Block>, b: Block, p: Part)
    requires b in results && b.ToolResult? && b.toolUseId != "" && p in ImagesOf(b.content)
    ensures p in WaitingOf(names, results)
  {
    ButLast(results);
    if results[|results| - 1] != b {
      WaitingKeeps(names, results[..|results| - 1], b, p);
    } else {
      assert p in Waiting(names, b.toolUseId, b.content);
    }
  }

  lemma {:induction false} ReportsKeep(sum: string -> string, results: seq<Block>, b: Block)
    requires b in results && b.ToolResult? && b.toolUseId != "" && ReportText(b) != INTERRUPTED
    ensures (SanitizeAnthropic(sum, b.toolUseId), ReportText(b)) in ReportsOf(sum, results)
  {
    ButLast(results);
    if results[|results| - 1] != b {
      ReportsKeep(sum, results[..|results| - 1], b);
    }
  }

  // ---- conversations ---------------------------------------------------------------------------

  lemma SaidKeeps(parts: seq<Part>, p: Part)
    requires p in parts
    ensures UserPart(p) in Said(parts)
  {
    var i :| 0 <= i < |parts| && parts[i] == p;
    assert Said(parts)[i] == UserPart(p);
  }

  lemma InJoin<T>(a: seq<T>, b: seq<T>, x: T)
    ensures x in a + b <==> x in a || x in b
  {
  }

  lemma ExpectedNext(sum: string -> string, entries: seq<Entry>, n: nat)
    requires n < |entries|
    ensures Expected(sum, entries[..n + 1])
         == Expected(sum, entries[..n]) + Adds(sum, NamesOf(entries[..n]), entries[n])
  {
    TakeTake(entries, n, n + 1);
  }

  lemma {:induction false} ExpectedGrows(sum: string -> string, entries: seq<Entry>, n: nat, told: seq<Moment>,
                                         m: Moment)
    requires n <= |entries| && told == Expected(sum, entries[..n]) && m in told
    ensures m in Expected(sum, entries)
    decreases |entries| - n
  {
    if n < |entries| {
      var more := Adds(sum, NamesOf(entries[..n]), entries[n]);
      ExpectedNext(sum, entries, n);
      InJoin(told, more, m);
      ExpectedGrows(sum, entries, n + 1, told + more, m);
    } else {
      TakeAll(entries);
    }
  }

  lemma ExpectedKeeps(sum: string -> string, entries: seq<Entry>, i: nat, names: Names, m: Moment)
    requires i < |entries| && names == NamesOf(entries[..i]) && m in Adds(sum, names, entries[i])
    ensures m in Expected(sum, entries)
  {
    var told, more := Expected(sum, entries[..i]), Adds(sum, names, entries[i]);
    ExpectedNext(sum, entries, i);
    InJoin(told, more, m);
    ExpectedGrows(sum, entries, i + 1, told + more, m);
  }

  lemma {:induction false} ReportedKeeps(sum: string -> string, entries: seq<Entry>, i: nat, report: (string, string))
    requires i < |entries| && entries[i].speaker.UserSpeaks? && report in ReportsOf(sum, ResultsOf(entries[i].blocks))
    ensures report in Reported(sum, entries)
  {
    if i < |entries| - 1 {
      ReportedKeeps(sum, entries[..|entries| - 1], i, report);
    }
  }

  /** What a user says is said, word for word. */
  lemma UserIsHeard(sum: string -> string, entries: seq<Entry>, i: nat, t: string)
    requires i < |entries| && entries[i].speaker.UserSpeaks? && Text(t) in entries[i].blocks && !Blank(t)
    ensures UserPart(Prose(t)) in Expected(sum, entries)
  {
    var others, names := OthersOf(entries[i].blocks), NamesOf(entries[..i]);
    OthersKeep(entries[i].blocks, Text(t));
    OwnHolds(others, t);
    SaidKeeps(Own(others), Prose(t));
    InJoin(Said(WaitingOf(names, ResultsOf(entries[i].blocks))), Said(Own(others)), UserPart(Prose(t)));
    ExpectedKeeps(sum, entries, i, names, UserPart(Prose(t)));
  }

  /** What an assistant says is in its turn, beside its calls or alone. */
  lemma AssistantIsHeard(sum: string -> string, entries: seq<Entry>, i: nat, t: string) returns (m: Moment, p: Part)
    requires i < |entries| && entries[i].speaker.AssistantSpeaks? && Text(t) in entries[i].blocks && !Blank(t)
    ensures m in Expected(sum, entries) && m.AssistantTurn? && p in m.parts && p.Prose? && Within(t, p.text)
  {
    var blocks := entries[i].blocks;
    NotBlankNotEmpty(t);
    WordsArePart(blocks, t);
    WordsAreContent(PartsOf(blocks), t);
    TextsKeep(blocks, t);
    JoinTextsHold(TextsIn(blocks), t);
    WithinItself(t);
    m := ChatHistory.Turn(sum, blocks)[0];
    p := if CallsOf(sum, blocks) != [] then Prose(JoinTexts(TextsIn(blocks))) else Prose(t);
    ExpectedKeeps(sum, entries, i, NamesOf(entries[..i]), m);
  }

  /** Every named call is made, with its input, under its id or the stand-in. */
  lemma CallIsMade(sum: string -> string, entries: seq<Entry>, i: nat, b: Block) returns (m: Moment)
    requires i < |entries| && entries[i].speaker.AssistantSpeaks? && b in entries[i].blocks
    requires b.ToolUse? && Strings.TrimSpace(b.name) != ""
    ensures m in Expected(sum, entries) && m.AssistantTurn?
    ensures Call(SanitizeAnthropic(sum, b.id), b.name, b.input) in m.calls
  {
    CallsKeep(sum, entries[i].blocks, b);
    m := ChatHistory.Turn(sum, entries[i].blocks)[0];
    ExpectedKeeps(sum, entries, i, NamesOf(entries[..i]), m);
  }

  /** A result with an id is reported under it, and every text of the result is in the report.  A report that
      reads just like a stand-in is not told from one. */
  lemma ResultIsReported(sum: string -> string, entries: seq<Entry>, i: nat, b: Block, t: string)
    requires i < |entries| && entries[i].speaker.UserSpeaks? && b in entries[i].blocks
    requires b.ToolResult? && b.toolUseId != "" && ReportText(b) != INTERRUPTED
    ensures (SanitizeAnthropic(sum, b.toolUseId), ReportText(b)) in Reported(sum, entries)
    ensures Holds(b.content, t) ==> Within(t, ReportText(b))
  {
    OthersKeep(entries[i].blocks, b);
    ReportsKeep(sum, ResultsOf(entries[i].blocks), b);
    ReportedKeeps(sum, entries, i, (SanitizeAnthropic(sum, b.toolUseId), ReportText(b)));
    if Holds(b.content, t) {
      ReportHoldsTexts(b, t);
    }
  }

  /** Every image of a result with an id is among what the user says. */
  lemma ImageIsShown(sum: string -> string, entries: seq<Entry>, i: nat, b: Block, mediaType: string, data: string)
    requires i < |entries| && entries[i].speaker.UserSpeaks? && b in entries[i].blocks
    requires b.ToolResult? && b.toolUseId != "" && b.content.Parts?
    requires ImagePart(mediaType, data) in b.content.parts && !Blank(data)
    ensures UserPart(Picture(InlineUrl(mediaType, data))) in Expected(sum, entries)
  {
    var results, names, p := ResultsOf(entries[i].blocks), NamesOf(entries[..i]), Picture(InlineUrl(mediaType, data));
    OthersKeep(entries[i].blocks, b);
    ImagesHeld(b.content.parts, mediaType, data);
    WaitingKeeps(names, results, b, p);
    SaidKeeps(WaitingOf(names, results), p);
    InJoin(Said(WaitingOf(names, results)), Said(Own(OthersOf(entries[i].blocks))), UserPart(p));
    ExpectedKeeps(sum, entries, i, names, UserPart(p));
  }
}
