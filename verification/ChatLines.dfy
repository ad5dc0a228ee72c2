/** What a Chat upstream is told of a Claude conversation, block by block and from the front.

    `ChatHistory` collects what entries come to from their ends; here the same is said of each block where it
    stands, in so many words, and the two are proved to agree. */
module ChatLines {
  import opened ChatHistory
  import opened ClaudeHistory
  import opened Sequences
  import opened ToolIds
  import opened ToolImages
  import Lines = HistoryLines
  import Strings = Text

  /** What each of `s` comes to, one after the other. */
  function Each<A, B>(f: A -> seq<B>, s: seq<A>): seq<B> {
    if s == [] then [] else f(s[0]) + Each(f, s[1..])
  }

  lemma {:induction false} EachAppend<A, B>(f: A -> seq<B>, s: seq<A>, a: A)
    ensures Each(f, s + [a]) == Each(f, s) + f(a)
  {
    if s == [] {
      assert [a][1..] == [];
      Neutral([a]);
      Neutral(f(a));
    } else {
      assert (s + [a])[1..] == s[1..] + [a];
      EachAppend(f, s[1..], a);
      Associate(f(s[0]), Each(f, s[1..]), f(a));
    }
  }

  /** From the end it comes to the same. */
  lemma EachLast<A, B>(f: A -> seq<B>, s: seq<A>)
    requires s != []
    ensures Each(f, s) == Each(f, s[..|s| - 1]) + f(s[|s| - 1])
  {
    ButLast(s);
    EachAppend(f, s[..|s| - 1], s[|s| - 1]);
  }

  // ---- one block -------------------------------------------------------------------------------

  function Inline(mediaType: string, data: string): string {
    "data:" + (if Strings.TrimSpace(mediaType) != "" then Strings.TrimSpace(mediaType) else "image/png")
    + ";base64," + Strings.TrimSpace(data)
  }

  function PictureOf(url: string): seq<Part> {
    if Strings.TrimSpace(url) == "" then [] else [Picture(Strings.TrimSpace(url))]
  }

  function InlinePicture(mediaType: string, data: string): seq<Part> {
    if Strings.TrimSpace(data) == "" then [] else [Picture(Inline(mediaType, data))]
  }

  /** What a block shows of itself. */
  function Shown(block: Block): seq<Part> {
    match block
    case Text(text) => [Prose(text)]
    case Image(mediaType, data) => InlinePicture(mediaType, data)
    case LinkedImage(url) => PictureOf(url)
    case _ => []
  }

  function ShownBesideResults(block: Block): seq<Part> {
    if block.ToolResult? then [] else Shown(block)
  }

  function Enclosed(part: ResultPart): seq<Part> {
    if part.ImagePart? then InlinePicture(part.mediaType, part.data) else []
  }

  function Pictures(content: ResultContent): seq<Part> {
    if content.Parts? then Each(Enclosed, content.parts) else []
  }

  function Words(content: ResultContent): string {
    match content
    case Plain(text) => text
    case Parts(parts) => Lines.Lined(Lines.Readable(parts))
  }

  /** The report of a result: its words, marked if it is a failure that does not say so, and a note on its
      images if it has any. */
  function Report(result: Block): string
    requires result.ToolResult?
  {
    var words, count := Words(result.content), |Pictures(result.content)|;
    var marked := if result.failed && !Strings.HasPrefix(words, FAILED) then FAILED + words else words;
    if count == 0 then marked else AppendImageNote(marked, count)
  }

  /** The name the call with this id was made under last, in what assistants said before. */
  function NameAmong(blocks: seq<Block>, id: string): string {
    if blocks == [] then ""
    else
      var last := blocks[|blocks| - 1];
      if last.ToolUse? && Strings.TrimSpace(last.name) != "" && id != "" && Strings.TrimSpace(last.id) == id
      then Strings.TrimSpace(last.name)
      else NameAmong(blocks[..|blocks| - 1], id)
  }

  function NameBefore(entries: seq<Entry>, id: string): string {
    if entries == [] then ""
    else
      var last := entries[|entries| - 1];
      if last.speaker.AssistantSpeaks? && NameAmong(last.blocks, id) != "" then NameAmong(last.blocks, id)
      else NameBefore(entries[..|entries| - 1], id)
  }

  /** The images of a result that goes by an id, under a heading that names its call. */
  function Following(before: seq<Entry>, block: Block): seq<Part> {
    if !block.ToolResult? || block.toolUseId == "" || Pictures(block.content) == [] then []
    else [Prose(Lines.Heading(NameBefore(before, block.toolUseId), block.toolUseId))] + Pictures(block.content)
  }

  function Made(sum: string -> string, block: Block): seq<Call> {
    if !block.ToolUse? || Strings.TrimSpace(block.name) == "" then []
    else [Call(SanitizeAnthropic(sum, block.id), block.name, block.input)]
  }

  function Said(block: Block): seq<string> {
    if !block.Text? || block.text == "" then [] else [block.text]
  }

  // ---- entries ---------------------------------------------------------------------------------

  /** Parts that say nothing: none, or one blank text. */
  ghost predicate SaysNothing(parts: seq<Part>) {
    parts == [] || (exists text :: parts == [Prose(text)] && Strings.TrimSpace(text) == "")
  }

  function ByUser(parts: seq<Part>): seq<Moment> {
    seq(|parts|, i requires 0 <= i < |parts| => UserPart(parts[i]))
  }

  ghost function UserTells(before: seq<Entry>, blocks: seq<Block>): seq<Moment> {
    var own := Each(ShownBesideResults, blocks);
    ByUser(Each((block: Block) => Following(before, block), blocks)) + (if SaysNothing(own) then [] else ByUser(own))
  }

  /** An assistant that makes calls says its texts on lines of their own beside them. */
  ghost function AssistantTells(sum: string -> string, blocks: seq<Block>): seq<Moment> {
    var calls := Each((block: Block) => Made(sum, block), blocks);
    var texts, parts := Each(Said, blocks), Each(Shown, blocks);
    if calls != [] then [AssistantTurn(if texts == [] then [] else [Prose(Lines.Lined(texts))], calls)]
    else if SaysNothing(parts) then []
    else [AssistantTurn(parts, [])]
  }

  ghost function Tells(sum: string -> string, before: seq<Entry>, e: Entry): seq<Moment> {
    match e.speaker
    case AssistantSpeaks => AssistantTells(sum, e.blocks)
    case UserSpeaks => UserTells(before, e.blocks)
    case OtherSpeaks => []
  }

  ghost function Told(sum: string -> string, entries: seq<Entry>): seq<Moment> {
    if entries == [] then []
    else
      var before := entries[..|entries| - 1];
      Told(sum, before) + Tells(sum, before, entries[|entries| - 1])
  }

  /** A result with an id is reported under it; a report that reads just like a stand-in is not told from one. */
  function ReportedOf(sum: string -> string, block: Block): seq<(string, string)> {
    if !block.ToolResult? || block.toolUseId == "" || Report(block) == INTERRUPTED then []
    else [(SanitizeAnthropic(sum, block.toolUseId), Report(block))]
  }

  function ReportedIn(sum: string -> string, e: Entry): seq<(string, string)> {
    if e.speaker.UserSpeaks? then Each((block: Block) => ReportedOf(sum, block), e.blocks) else []
  }

  // ---- the two agree: parts and results --------------------------------------------------------

  lemma {:induction false} PartsAreShown(blocks: seq<Block>)
    ensures PartsOf(blocks) == Each(Shown, blocks)
  {
    if blocks != [] {
      PartsAreShown(blocks[..|blocks| - 1]);
      EachLast(Shown, blocks);
    }
  }

  lemma {:induction false} OthersAreShown(blocks: seq<Block>)
    ensures PartsOf(OthersOf(blocks)) == Each(ShownBesideResults, blocks)
  {
    if blocks != [] {
      var front, last := blocks[..|blocks| - 1], blocks[|blocks| - 1];
      OthersAreShown(front);
      EachLast(ShownBesideResults, blocks);
      if last.ToolResult? {
        Neutral(OthersOf(front));
        Neutral(PartsOf(OthersOf(front)));
      } else {
        Front(OthersOf(front), last);
      }
    }
  }

  lemma SaysNothingIff(parts: seq<Part>)
    ensures NoContent(parts) <==> SaysNothing(parts)
  {
    if NoContent(parts) && parts != [] {
      assert parts == [Prose(parts[0].text)];
    }
  }

  lemma {:induction false} ImagesArePictures(parts: seq<ResultPart>)
    ensures ResultImages(parts) == Each(Enclosed, parts)
  {
    if parts != [] {
      ImagesArePictures(parts[..|parts| - 1]);
      EachLast(Enclosed, parts);
      Neutral(ResultImages(parts[..|parts| - 1]));
    }
  }

  lemma {:induction false} TextsAreLined(parts: seq<ResultPart>)
    ensures ResultTexts(parts) == Lines.Lined(Lines.Readable(parts))
    ensures ResultTexts(parts) == "" <==> Lines.Readable(parts) == []
  {
    if parts != [] {
      var front, last := parts[..|parts| - 1], parts[|parts| - 1];
      TextsAreLined(front);
      ButLast(parts);
      Lines.ReadableAppend(front, last);
      if last.TextPart? && !Blank(last.text) {
        NotEmpty(last.text);
        if Lines.Readable(front) == [] {
          Neutral([last.text]);
        } else {
          Lines.LinedAppend(Lines.Readable(front), last.text);
        }
      } else {
        Neutral(Lines.Readable(front));
      }
    }
  }

  lemma NotEmpty(text: string)
    requires !Blank(text)
    ensures text != ""
  {
    assert Strings.TrimSpace("") == "";
  }

  lemma ReportIs(result: Block)
    requires result.ToolResult?
    ensures ReportText(result) == Report(result)
    ensures ImagesOf(result.content) == Pictures(result.content)
  {
    if result.content.Parts? {
      ImagesArePictures(result.content.parts);
      TextsAreLined(result.content.parts);
    }
  }

  // ---- the two agree: names and headings -------------------------------------------------------

  function Known(names: Names, id: string): string {
    if id in names then names[id] else ""
  }

  lemma {:induction false} NamesAmong(names: Names, blocks: seq<Block>, id: string)
    requires id in names ==> names[id] != "" && id != ""
    ensures Known(NamesAfter(names, blocks), id)
         == if NameAmong(blocks, id) != "" then NameAmong(blocks, id) else Known(names, id)
    ensures id in NamesAfter(names, blocks) ==> NamesAfter(names, blocks)[id] != "" && id != ""
  {
    if blocks != [] {
      NamesAmong(names, blocks[..|blocks| - 1], id);
    }
  }

  lemma {:induction false} NamesBefore(entries: seq<Entry>, id: string)
    ensures Known(NamesOf(entries), id) == NameBefore(entries, id)
    ensures id in NamesOf(entries) ==> NamesOf(entries)[id] != "" && id != ""
  {
    if entries != [] {
      var front, last := entries[..|entries| - 1], entries[|entries| - 1];
      NamesBefore(front, id);
      NamesAmong(NamesOf(front), last.blocks, id);
    }
  }

  lemma LabelIs(before: seq<Entry>, id: string)
    ensures Label(NamesOf(before), id) == Lines.Heading(NameBefore(before, id), id)
  {
    NamesBefore(before, id);
  }

  lemma {:induction false} WaitingIsFollowing(before: seq<Entry>, blocks: seq<Block>)
    ensures WaitingOf(NamesOf(before), ResultsOf(blocks)) == Each((block: Block) => Following(before, block), blocks)
  {
    var f := (block: Block) => Following(before, block);
    if blocks != [] {
      var front, last := blocks[..|blocks| - 1], blocks[|blocks| - 1];
      WaitingIsFollowing(before, front);
      EachLast(f, blocks);
      Neutral(WaitingOf(NamesOf(before), ResultsOf(front)));
      if last.ToolResult? {
        Front(ResultsOf(front), last);
        ReportIs(last);
        LabelIs(before, last.toolUseId);
      } else {
        Neutral(ResultsOf(front));
      }
    }
  }

  // ---- the two agree: what assistants say ------------------------------------------------------

  lemma {:induction false} CallsAreMade(sum: string -> string, blocks: seq<Block>)
    ensures CallsOf(sum, blocks) == Each((block: Block) => Made(sum, block), blocks)
  {
    var f := (block: Block) => Made(sum, block);
    if blocks != [] {
      CallsAreMade(sum, blocks[..|blocks| - 1]);
      EachLast(f, blocks);
    }
  }

  lemma {:induction false} TextsAreSaid(blocks: seq<Block>)
    ensures TextsIn(blocks) == Each(Said, blocks)
  {
    if blocks != [] {
      TextsAreSaid(blocks[..|blocks| - 1]);
      EachLast(Said, blocks);
    }
  }

  lemma {:induction false} JoinedIsLined(texts: seq<string>)
    ensures JoinTexts(texts) == Lines.Lined(texts)
  {
    if |texts| > 1 {
      JoinedIsLined(texts[..|texts| - 1]);
      Lines.LinedAppend(texts[..|texts| - 1], texts[|texts| - 1]);
      ButLast(texts);
    }
  }

  lemma TurnIs(sum: string -> string, blocks: seq<Block>)
    ensures ChatHistory.Turn(sum, blocks) == AssistantTells(sum, blocks)
  {
    CallsAreMade(sum, blocks);
    TextsAreSaid(blocks);
    JoinedIsLined(TextsIn(blocks));
    PartsAreShown(blocks);
    SaysNothingIff(PartsOf(blocks));
  }

  lemma UserIs(before: seq<Entry>, blocks: seq<Block>)
    ensures ChatHistory.Said(WaitingOf(NamesOf(before), ResultsOf(blocks))) + ChatHistory.Said(Own(OthersOf(blocks)))
         == UserTells(before, blocks)
  {
    WaitingIsFollowing(before, blocks);
    OthersAreShown(blocks);
    SaysNothingIff(PartsOf(OthersOf(blocks)));
  }

  // ---- conversations ---------------------------------------------------------------------------

  /** What the messages an upstream is sent say, moment by moment, is what each block of the conversation says
      where it stands: users their words and images, after the images of the results they bring, each under a
      heading that names its call; assistants their calls with their texts, or their texts and images. */
  lemma {:induction false} EveryBlockIsTold(sum: string -> string, entries: seq<Entry>)
    ensures Expected(sum, entries) == Told(sum, entries)
  {
    if entries != [] {
      var before, last := entries[..|entries| - 1], entries[|entries| - 1];
      EveryBlockIsTold(sum, before);
      TurnIs(sum, last.blocks);
      UserIs(before, last.blocks);
    }
  }

  lemma {:induction false} ReportsAre(sum: string -> string, blocks: seq<Block>)
    ensures ReportsOf(sum, ResultsOf(blocks)) == Each((block: Block) => ReportedOf(sum, block), blocks)
  {
    var f := (block: Block) => ReportedOf(sum, block);
    if blocks != [] {
      var front, last := blocks[..|blocks| - 1], blocks[|blocks| - 1];
      ReportsAre(sum, front);
      EachLast(f, blocks);
      Neutral(ReportsOf(sum, ResultsOf(front)));
      if last.ToolResult? {
        Front(ResultsOf(front), last);
        ReportIs(last);
      } else {
        Neutral(ResultsOf(front));
      }
    }
  }

  /** And the reports it is sent are those of the results users bring, in order. */
  lemma {:induction false} EveryResultIsReported(sum: string -> string, entries: seq<Entry>)
    ensures Reported(sum, entries) == Each((e: Entry) => ReportedIn(sum, e), entries)
  {
    var f := (e: Entry) => ReportedIn(sum, e);
    if entries != [] {
      var last := entries[|entries| - 1];
      EveryResultIsReported(sum, entries[..|entries| - 1]);
      EachLast(f, entries);
      ReportsAre(sum, last.blocks);
    }
  }
}
