/** Claude conversations as Chat Completions messages.

    Chat upstreams are strict about tool calls: between an assistant message with calls and anything
    else there must be a tool message for each of them.  Images cannot stand in tool messages, so those
    of a result wait for the next user message. */
module ChatHistory {
  import opened ClaudeHistory
  import opened Sequences
  import opened ToolIds
  import opened ToolImages
  import Strings = Text

  datatype Speaker = AssistantSpeaks | UserSpeaks | OtherSpeaks

  /** A message as sent by the client, a string content boxed as one text block. */
  datatype Entry = Entry(speaker: Speaker, blocks: seq<Block>)

  datatype Part = Prose(text: string) | Picture(url: string)

  datatype Call = Call(id: string, name: string, input: Json)

  datatype ChatMessage =
    | AssistantMessage(parts: seq<Part>, calls: seq<Call>)
    | ToolMessage(callId: string, text: string)
    | UserMessage(parts: seq<Part>)

  const INTERRUPTED := "[The result of this tool call is unavailable: the turn was interrupted.]"
  const FAILED := "[tool_error] "
  const MISSING := "toolu_missing"

  predicate Blank(s: string) {
    Strings.TrimSpace(s) == ""
  }

  // ---- parts -----------------------------------------------------------------------------------

  function InlineUrl(mediaType: string, data: string): string {
    var kind := Strings.TrimSpace(mediaType);
    "data:" + (if kind == "" then "image/png" else kind) + ";base64," + Strings.TrimSpace(data)
  }

  function PartOf(block: Block): seq<Part> {
    match block
    case Text(text) => [Prose(text)]
    case Image(mediaType, data) => if Blank(data) then [] else [Picture(InlineUrl(mediaType, data))]
    case LinkedImage(url) => if Blank(url) then [] else [Picture(Strings.TrimSpace(url))]
    case _ => []
  }

  function PartsOf(blocks: seq<Block>): seq<Part> {
    if blocks == [] then [] else PartsOf(blocks[..|blocks| - 1]) + PartOf(blocks[|blocks| - 1])
  }

  /** Nothing at all, or a single blank text, is no content. */
  predicate NoContent(parts: seq<Part>) {
    parts == [] || (|parts| == 1 && parts[0].Prose? && Blank(parts[0].text))
  }

  /** What a user says beside tool results. */
  function Own(blocks: seq<Block>): seq<Part> {
    var parts := PartsOf(blocks);
    if NoContent(parts) then [] else parts
  }

  // ---- tool results ----------------------------------------------------------------------------

  function ResultTexts(parts: seq<ResultPart>): string {
    if parts == [] then ""
    else
      var before, last := ResultTexts(parts[..|parts| - 1]), parts[|parts| - 1];
      if !last.TextPart? || Blank(last.text) then before
      else if before == "" then last.text else before + "\n" + last.text
  }

  function ResultImages(parts: seq<ResultPart>): seq<Part> {
    if parts == [] then []
    else
      var before, last := ResultImages(parts[..|parts| - 1]), parts[|parts| - 1];
      if last.ImagePart? && !Blank(last.data) then before + [Picture(InlineUrl(last.mediaType, last.data))] else before
  }

  function TextOf(content: ResultContent): string {
    match content
    case Plain(text) => text
    case Parts(parts) => ResultTexts(parts)
  }

  function ImagesOf(content: ResultContent): seq<Part> {
    match content
    case Plain(_) => []
    case Parts(parts) => ResultImages(parts)
  }

  /** The images of a result, after a line that says which call they are from. */
  function Waiting(names: Names, id: string, content: ResultContent): seq<Part> {
    if ImagesOf(content) == [] then []
    else [Prose(Label(names, id))] + ImagesOf(content)
  }

  // ---- calls -----------------------------------------------------------------------------------

  predicate Calls(block: Block) {
    block.ToolUse? && Strings.TrimSpace(block.name) != ""
  }

  function CallsOf(sum: string -> string, blocks: seq<Block>): seq<Call> {
    if blocks == [] then []
    else
      var last := blocks[|blocks| - 1];
      CallsOf(sum, blocks[..|blocks| - 1])
      + (if Calls(last) then [Call(SanitizeAnthropic(sum, last.id), last.name, last.input)] else [])
  }

  function NamesAfter(names: Names, blocks: seq<Block>): Names {
    if blocks == [] then names
    else
      var before, last := NamesAfter(names, blocks[..|blocks| - 1]), blocks[|blocks| - 1];
      if Calls(last) && !Blank(last.id) then before[Strings.TrimSpace(last.id) := Strings.TrimSpace(last.name)]
      else before
  }

  /** The calls that will want an answer. */
  function PendingOf(blocks: seq<Block>): seq<string> {
    if blocks == [] then []
    else
      var last := blocks[|blocks| - 1];
      PendingOf(blocks[..|blocks| - 1]) + (if Calls(last) && !Blank(last.id) then [Strings.TrimSpace(last.id)] else [])
  }

  /** `dropCallID`: the first of these ids is taken out. */
  function DropCallId(ids: seq<string>, id: string): seq<string> {
    if ids == [] then [] else if ids[0] == id then ids[1..] else [ids[0]] + DropCallId(ids[1..], id)
  }

  // ---- calls that are covered ------------------------------------------------------------------

  function CallIds(calls: seq<Call>): set<string> {
    set i | 0 <= i < |calls| && calls[i].id != MISSING :: calls[i].id
  }

  function OwedAfter(owed: set<string>, m: ChatMessage): set<string> {
    if m.AssistantMessage? then CallIds(m.calls) else if m.ToolMessage? then owed - {m.callId} else {}
  }

  /** The calls with an id that are still unanswered at the end of a conversation. */
  function Owed(messages: seq<ChatMessage>): set<string> {
    if messages == [] then {} else OwedAfter(Owed(messages[..|messages| - 1]), messages[|messages| - 1])
  }

  /** No call with an id is left unanswered when anything but a tool message comes.  Tool messages that
      answer nothing are let pass here; `Audit` is the upstream that refuses them. */
  predicate Covered(messages: seq<ChatMessage>) {
    messages == [] ||
    (Covered(messages[..|messages| - 1])
     && (messages[|messages| - 1].ToolMessage? || Owed(messages[..|messages| - 1]) == {}))
  }

  // ---- a strict upstream -----------------------------------------------------------------------

  /** A strict upstream's books: the call ids it wants an answer to, each as often as it was called. */
  datatype Books = Refused | Books(owed: multiset<string>)

  function CallBill(calls: seq<Call>): multiset<string> {
    if calls == [] then multiset{} else CallBill(calls[..|calls| - 1]) + multiset{calls[|calls| - 1].id}
  }

  /** A tool message has to answer a call that is owed one. */
  function PayOne(books: Books, id: string): Books {
    if books.Refused? || id !in books.owed then Refused else Books(books.owed - multiset{id})
  }

  /** Anything else can only come when nothing is owed. */
  function Speak(books: Books, calls: seq<Call>): Books {
    if books.Refused? || books.owed != multiset{} then Refused else Books(CallBill(calls))
  }

  function Enter(books: Books, m: ChatMessage): Books {
    match m
    case AssistantMessage(_, calls) => Speak(books, calls)
    case ToolMessage(id, _) => PayOne(books, id)
    case UserMessage(_) => Speak(books, [])
  }

  /** It takes each call's answers right after the call, one for each, and no other tool message. */
  function Audit(messages: seq<ChatMessage>): Books {
    if messages == [] then Books(multiset{}) else Enter(Audit(messages[..|messages| - 1]), messages[|messages| - 1])
  }

  function Pay(books: Books, ids: seq<string>): Books {
    if ids == [] then books else PayOne(Pay(books, ids[..|ids| - 1]), ids[|ids| - 1])
  }

  function SanitizedAll(sum: string -> string, ids: seq<string>): seq<string> {
    if ids == [] then [] else SanitizedAll(sum, ids[..|ids| - 1]) + [SanitizeAnthropic(sum, ids[|ids| - 1])]
  }

  // ---- what is said, in order ------------------------------------------------------------------

  datatype Moment = AssistantTurn(parts: seq<Part>, calls: seq<Call>) | UserPart(part: Part)

  function Said(parts: seq<Part>): seq<Moment> {
    seq(|parts|, i requires 0 <= i < |parts| => UserPart(parts[i]))
  }

  function MomentsOf(m: ChatMessage): seq<Moment> {
    match m
    case AssistantMessage(parts, calls) => [AssistantTurn(parts, calls)]
    case ToolMessage(_, _) => []
    case UserMessage(parts) => Said(parts)
  }

  /** A conversation as its assistant turns and the parts its user says. */
  function Timeline(messages: seq<ChatMessage>): seq<Moment> {
    if messages == [] then []
    else Timeline(messages[..|messages| - 1]) + MomentsOf(messages[|messages| - 1])
  }

  function TextsIn(blocks: seq<Block>): seq<string> {
    if blocks == [] then []
    else
      var last := blocks[|blocks| - 1];
      TextsIn(blocks[..|blocks| - 1]) + (if last.Text? && last.text != "" then [last.text] else [])
  }

  function JoinTexts(texts: seq<string>): string {
    if texts == [] then ""
    else if |texts| == 1 then texts[0]
    else JoinTexts(texts[..|texts| - 1]) + "\n" + texts[|texts| - 1]
  }

  /** What an assistant entry becomes, if anything. */
  function Turn(sum: string -> string, blocks: seq<Block>): seq<Moment> {
    if CallsOf(sum, blocks) != [] then
      [AssistantTurn(if TextsIn(blocks) == [] then [] else [Prose(JoinTexts(TextsIn(blocks)))], CallsOf(sum, blocks))]
    else if blocks == [] || NoContent(PartsOf(blocks)) then []
    else [AssistantTurn(PartsOf(blocks), [])]
  }

  function ResultsOf(blocks: seq<Block>): seq<Block> {
    if blocks == [] then []
    else ResultsOf(blocks[..|blocks| - 1]) + (if blocks[|blocks| - 1].ToolResult? then [blocks[|blocks| - 1]] else [])
  }

  function OthersOf(blocks: seq<Block>): seq<Block> {
    if blocks == [] then []
    else OthersOf(blocks[..|blocks| - 1]) + (if blocks[|blocks| - 1].ToolResult? then [] else [blocks[|blocks| - 1]])
  }

  function WaitingOf(names: Names, results: seq<Block>): seq<Part> {
    if results == [] then []
    else
      var last := results[|results| - 1];
      WaitingOf(names, results[..|results| - 1])
      + (if last.ToolResult? && last.toolUseId != "" then Waiting(names, last.toolUseId, last.content) else [])
  }

  /** What one entry adds to the conversation: a user's results come first, as their images, and then
      the user's own words. */
  function Adds(sum: string -> string, names: Names, e: Entry): seq<Moment> {
    match e.speaker
    case AssistantSpeaks => Turn(sum, e.blocks)
    case UserSpeaks => Said(WaitingOf(names, ResultsOf(e.blocks))) + Said(Own(OthersOf(e.blocks)))
    case OtherSpeaks => []
  }

  function NamesOf(entries: seq<Entry>): Names {
    if entries == [] then map[]
    else
      var last := entries[|entries| - 1];
      if last.speaker.AssistantSpeaks? then NamesAfter(NamesOf(entries[..|entries| - 1]), last.blocks)
      else NamesOf(entries[..|entries| - 1])
  }

  function Expected(sum: string -> string, entries: seq<Entry>): seq<Moment> {
    if entries == [] then []
    else
      var before := entries[..|entries| - 1];
      Expected(sum, before) + Adds(sum, NamesOf(before), entries[|entries| - 1])
  }

  // ---- what is reported ------------------------------------------------------------------------

  /** The text of a result's tool message. */
  function ReportText(result: Block): string
    requires result.ToolResult?
  {
    var text := TextOf(result.content);
    NotedText(if result.failed && !Strings.HasPrefix(text, FAILED) then FAILED + text else text,
              |ImagesOf(result.content)|)
  }

  function ReportOf(callId: string, text: string): seq<(string, string)> {
    if text == INTERRUPTED then [] else [(callId, text)]
  }

  /** The results a conversation holds, stand-ins left out. */
  function Reports(messages: seq<ChatMessage>): seq<(string, string)> {
    if messages == [] then []
    else
      var last := messages[|messages| - 1];
      Reports(messages[..|messages| - 1]) + (if last.ToolMessage? then ReportOf(last.callId, last.text) else [])
  }

  function ReportsOf(sum: string -> string, results: seq<Block>): seq<(string, string)> {
    if results == [] then []
    else
      var last := results[|results| - 1];
      ReportsOf(sum, results[..|results| - 1])
      + (if last.ToolResult? && last.toolUseId != ""
         then ReportOf(SanitizeAnthropic(sum, last.toolUseId), ReportText(last))
         else [])
  }

  /** The results the client sent, in its user entries. */
  function Reported(sum: string -> string, entries: seq<Entry>): seq<(string, string)> {
    if entries == [] then []
    else
      var last := entries[|entries| - 1];
      Reported(sum, entries[..|entries| - 1])
      + (if last.speaker.UserSpeaks? then ReportsOf(sum, ResultsOf(last.blocks)) else [])
  }

  // ---- what an upstream's books come to --------------------------------------------------------

  /** The upstream's books, the ids the loop still waits for, and the images it still has to say. */
  datatype Tally = Tally(books: Books, waiting: seq<string>, images: seq<Part>)

  function ResultIds(results: seq<Block>): seq<string> {
    if results == [] then []
    else
      var last := results[|results| - 1];
      ResultIds(results[..|results| - 1]) + (if last.ToolResult? && last.toolUseId != "" then [last.toolUseId] else [])
  }

  function DropAll(ids: seq<string>, gone: seq<string>): seq<string> {
    if gone == [] then ids else DropCallId(DropAll(ids, gone[..|gone| - 1]), gone[|gone| - 1])
  }

  function FilledIn(sum: string -> string, t: Tally): Tally {
    Tally(Pay(t.books, SanitizedAll(sum, t.waiting)), [], t.images)
  }

  function Unburdened(t: Tally): Tally {
    if t.images == [] then t else Tally(Speak(t.books, []), t.waiting, [])
  }

  function AfterAssistant(sum: string -> string, t: Tally, blocks: seq<Block>): Tally {
    var quiet := Unburdened(FilledIn(sum, t)).books;
    Tally(if Turn(sum, blocks) == [] then quiet else Speak(quiet, CallsOf(sum, blocks)), PendingOf(blocks), [])
  }

  function AfterResults(sum: string -> string, names: Names, t: Tally, results: seq<Block>): Tally {
    AfterIds(sum, t, ResultIds(results), WaitingOf(names, results))
  }

  function AfterIds(sum: string -> string, t: Tally, ids: seq<string>, images: seq<Part>): Tally {
    Tally(Pay(t.books, SanitizedAll(sum, ids)), DropAll(t.waiting, ids), t.images + images)
  }

  function AfterUser(sum: string -> string, names: Names, t: Tally, blocks: seq<Block>): Tally {
    if blocks == [] then t
    else AfterWords(FilledIn(sum, AfterResults(sum, names, t, ResultsOf(blocks))), Own(OthersOf(blocks)))
  }

  function AfterWords(t: Tally, own: seq<Part>): Tally {
    if own == [] then t else Tally(Speak(t.books, []), [], [])
  }

  function AfterEntries(sum: string -> string, entries: seq<Entry>): Tally {
    if entries == [] then Tally(Books(multiset{}), [], [])
    else
      var before, last := entries[..|entries| - 1], entries[|entries| - 1];
      match last.speaker
      case AssistantSpeaks => AfterAssistant(sum, AfterEntries(sum, before), last.blocks)
      case UserSpeaks => AfterUser(sum, NamesOf(before), AfterEntries(sum, before), last.blocks)
      case OtherSpeaks => AfterEntries(sum, before)
  }

  /** The books when the conversation is over. */
  function Closing(sum: string -> string, entries: seq<Entry>): Books {
    Unburdened(FilledIn(sum, AfterEntries(sum, entries))).books
  }

  // ---- the conversion --------------------------------------------------------------------------

  function Sanitized(sum: string -> string, ids: seq<string>): set<string> {
    set i | 0 <= i < |ids| :: SanitizeAnthropic(sum, ids[i])
  }

  /** Where the loop stands: no call is left uncovered so far, pending calls cover what is owed, and what
      has been said is what is expected once the waiting images are said. */
  ghost predicate Stands(sum: string -> string, messages: seq<ChatMessage>, pending: seq<string>, images: seq<Part>,
                         told: seq<Moment>) {
    var stands :=
      && Covered(messages)
      && Owed(messages) <= Sanitized(sum, pending)
      && Timeline(messages) + Said(images) == told;
    stands
  }

  lemma AppendMessage(messages: seq<ChatMessage>, m: ChatMessage)
    ensures Covered(messages + [m]) <==> Covered(messages) && (m.ToolMessage? || Owed(messages) == {})
    ensures Owed(messages + [m]) == OwedAfter(Owed(messages), m)
    ensures Audit(messages + [m]) == Enter(Audit(messages), m)
    ensures Timeline(messages + [m]) == Timeline(messages) + MomentsOf(m)
    ensures Reports(messages + [m]) == Reports(messages) + (if m.ToolMessage? then ReportOf(m.callId, m.text) else [])
  {
    assert (messages + [m])[..|messages|] == messages;
  }

  lemma ToolStands(sum: string -> string, messages: seq<ChatMessage>, pending: seq<string>, left: seq<string>,
                   images: seq<Part>, told: seq<Moment>, id: string, text: string)
    requires Stands(sum, messages, pending, images, told)
    requires Sanitized(sum, pending) - {SanitizeAnthropic(sum, id)} <= Sanitized(sum, left)
    ensures Stands(sum, messages + [ToolMessage(SanitizeAnthropic(sum, id), text)], left, images, told)
    ensures Reports(messages + [ToolMessage(SanitizeAnthropic(sum, id), text)])
         == Reports(messages) + ReportOf(SanitizeAnthropic(sum, id), text)
    ensures Audit(messages + [ToolMessage(SanitizeAnthropic(sum, id), text)])
         == PayOne(Audit(messages), SanitizeAnthropic(sum, id))
  {
    AppendMessage(messages, ToolMessage(SanitizeAnthropic(sum, id), text));
    Neutral(Timeline(messages));
  }

  lemma SanitizedFront(sum: string -> string, ids: seq<string>)
    requires ids != []
    ensures Sanitized(sum, ids) == {SanitizeAnthropic(sum, ids[0])} + Sanitized(sum, ids[1..])
  {
    forall x | x in Sanitized(sum, ids[1..]) ensures x in Sanitized(sum, ids) {
      var i :| 0 <= i < |ids[1..]| && SanitizeAnthropic(sum, ids[1..][i]) == x;
      assert ids[i + 1] == ids[1..][i];
    }
    forall x | x in Sanitized(sum, ids) && x != SanitizeAnthropic(sum, ids[0]) ensures x in Sanitized(sum, ids[1..]) {
      var i :| 0 <= i < |ids| && SanitizeAnthropic(sum, ids[i]) == x;
      assert ids[1..][i - 1] == ids[i];
    }
  }

  lemma {:induction false} DropKeepsOthers(sum: string -> string, pending: seq<string>, id: string)
    ensures Sanitized(sum, pending) - {SanitizeAnthropic(sum, id)} <= Sanitized(sum, DropCallId(pending, id))
  {
    if pending != [] {
      SanitizedFront(sum, pending);
      if pending[0] != id {
        DropKeepsOthers(sum, pending[1..], id);
        SanitizedFront(sum, DropCallId(pending, id));
        assert DropCallId(pending, id)[1..] == DropCallId(pending[1..], id);
      }
    }
  }

  /** `fillPendingCalls`. */
  method FillPendingCalls(sum: string -> string, messages0: seq<ChatMessage>, pending: seq<string>,
                          ghost images: seq<Part>, ghost told: seq<Moment>) returns (messages: seq<ChatMessage>)
    requires Stands(sum, messages0, pending, images, told)
    ensures Stands(sum, messages, [], images, told) && Reports(messages) == Reports(messages0)
    ensures Audit(messages) == Pay(Audit(messages0), SanitizedAll(sum, pending))
  {
    messages := messages0;
    for i := 0 to |pending|
      invariant Stands(sum, messages, pending[i..], images, told) && Reports(messages) == Reports(messages0)
      invariant Audit(messages) == Pay(Audit(messages0), SanitizedAll(sum, pending[..i]))
    {
      assert pending[i..][0] == pending[i] && pending[i..][1..] == pending[i + 1..];
      SanitizedFront(sum, pending[i..]);
      PayNext(Audit(messages0), sum, pending, i);
      ToolStands(sum, messages, pending[i..], pending[i + 1..], images, told, pending[i], INTERRUPTED);
      messages := messages + [ToolMessage(SanitizeAnthropic(sum, pending[i]), INTERRUPTED)];
    }
    TakeAll(pending);
  }

  lemma PayNext(books: Books, sum: string -> string, ids: seq<string>, i: nat)
    requires i < |ids|
    ensures Pay(books, SanitizedAll(sum, ids[..i + 1]))
         == PayOne(Pay(books, SanitizedAll(sum, ids[..i])), SanitizeAnthropic(sum, ids[i]))
  {
    TakeNext(ids, i);
    PayMore(books, sum, ids[..i], ids[i]);
  }

  lemma PayMore(books: Books, sum: string -> string, ids: seq<string>, id: string)
    ensures Pay(books, SanitizedAll(sum, ids + [id]))
         == PayOne(Pay(books, SanitizedAll(sum, ids)), SanitizeAnthropic(sum, id))
  {
    Front(ids, id);
    Front(SanitizedAll(sum, ids), SanitizeAnthropic(sum, id));
  }

  /** `flushImages` and `mergeImages`: waiting images are said before anything else the user says. */
  method SayUser(sum: string -> string, messages0: seq<ChatMessage>, images: seq<Part>, own: seq<Part>,
                 ghost told: seq<Moment>) returns (messages: seq<ChatMessage>)
    requires Stands(sum, messages0, [], images, told)
    ensures Stands(sum, messages, [], [], told + Said(own)) && Reports(messages) == Reports(messages0)
    ensures Audit(messages) == if images + own == [] then Audit(messages0) else Speak(Audit(messages0), [])
  {
    messages := messages0;
    SaidJoin(images, own);
    Neutral(images);
    Neutral(told);
    Neutral(Timeline(messages0));
    Associate(Timeline(messages0), Said(images), Said(own));
    if images + own != [] {
      AppendMessage(messages, UserMessage(images + own));
      messages := messages + [UserMessage(images + own)];
    }
    Neutral(Timeline(messages));
  }

  lemma SaidJoin(a: seq<Part>, b: seq<Part>)
    ensures Said(a + b) == Said(a) + Said(b)
    ensures Said([]) == []
  {
  }

  lemma {:induction false} PendingCoverCalls(sum: string -> string, blocks: seq<Block>)
    ensures CallIds(CallsOf(sum, blocks)) <= Sanitized(sum, PendingOf(blocks))
  {
    if blocks != [] {
      var front, last := blocks[..|blocks| - 1], blocks[|blocks| - 1];
      PendingCoverCalls(sum, front);
      var calls, ids := CallsOf(sum, blocks), PendingOf(blocks);
      forall x | x in CallIds(calls) ensures x in Sanitized(sum, ids) {
        var i :| 0 <= i < |calls| && calls[i].id != MISSING && calls[i].id == x;
        if i < |CallsOf(sum, front)| {
          assert CallsOf(sum, front)[i].id in CallIds(CallsOf(sum, front));
          var j :| 0 <= j < |PendingOf(front)| && SanitizeAnthropic(sum, PendingOf(front)[j]) == x;
          assert ids[j] == PendingOf(front)[j];
        } else {
          SanitizeTrimmed(sum, last.id);
          assert ids[|PendingOf(front)|] == Strings.TrimSpace(last.id);
        }
      }
    }
  }

  lemma SanitizeTrimmed(sum: string -> string, raw: string)
    ensures SanitizeAnthropic(sum, Strings.TrimSpace(raw)) == SanitizeAnthropic(sum, raw)
    ensures Blank(raw) <==> Strings.TrimSpace(raw) == ""
    ensures Blank(raw) ==> SanitizeAnthropic(sum, raw) == MISSING
  {
    Strings.TrimSpaceTrims(raw);
    Strings.TrimmedStays(Strings.TrimSpace(raw));
  }

  /** An assistant entry: what is pending is answered and what is waiting is said before it. */
  method HandleAssistant(sum: string -> string, messages0: seq<ChatMessage>, pending0: seq<string>, images: seq<Part>,
                         blocks: seq<Block>, ghost told: seq<Moment>)
    returns (messages: seq<ChatMessage>, pending: seq<string>)
    requires Stands(sum, messages0, pending0, images, told)
    ensures Stands(sum, messages, pending, [], told + Turn(sum, blocks)) && Reports(messages) == Reports(messages0)
    ensures Tally(Audit(messages), pending, [])
            == AfterAssistant(sum, Tally(Audit(messages0), pending0, images), blocks)
  {
    messages := FillPendingCalls(sum, messages0, pending0, images, told);
    messages := SayUser(sum, messages, images, [], told);
    SaidJoin([], []);
    Neutral(told);
    pending := [];
    PendingCoverCalls(sum, blocks);
    NoCallsNoPending(sum, blocks);
    var calls := CallsOf(sum, blocks);
    if calls != [] {
      var texts := TextsIn(blocks);
      var parts := if texts == [] then [] else [Prose(JoinTexts(texts))];
      AssistantStands(sum, messages, told, parts, calls, PendingOf(blocks));
      messages := messages + [AssistantMessage(parts, calls)];
      pending := PendingOf(blocks);
    } else if blocks != [] && !NoContent(PartsOf(blocks)) {
      AssistantStands(sum, messages, told, PartsOf(blocks), [], []);
      messages := messages + [AssistantMessage(PartsOf(blocks), [])];
    }
  }

  lemma {:induction false} NoCallsNoPending(sum: string -> string, blocks: seq<Block>)
    ensures CallsOf(sum, blocks) == [] ==> PendingOf(blocks) == []
  {
    if blocks != [] {
      NoCallsNoPending(sum, blocks[..|blocks| - 1]);
    }
  }

  lemma AssistantStands(sum: string -> string, messages: seq<ChatMessage>, told: seq<Moment>, parts: seq<Part>,
                        calls: seq<Call>, pending: seq<string>)
    requires Stands(sum, messages, [], [], told) && CallIds(calls) <= Sanitized(sum, pending)
    ensures Stands(sum, messages + [AssistantMessage(parts, calls)], pending, [], told + [AssistantTurn(parts, calls)])
    ensures Reports(messages + [AssistantMessage(parts, calls)]) == Reports(messages)
    ensures Audit(messages + [AssistantMessage(parts, calls)]) == Speak(Audit(messages), calls)
  {
    AppendMessage(messages, AssistantMessage(parts, calls));
    SaidJoin([], []);
    Neutral(Timeline(messages));
    Neutral(Timeline(messages) + [AssistantTurn(parts, calls)]);
  }

  lemma WaitingOneMore(names: Names, results: seq<Block>, i: nat)
    requires i < |results|
    ensures WaitingOf(names, results[..i + 1]) == WaitingOf(names, results[..i]) + WaitingOf(names, [results[i]])
  {
    assert results[..i + 1][..i] == results[..i];
    assert [results[i]][..0] == [];
    Neutral(WaitingOf(names, [results[i]]));
  }

  /** One tool result: its call is no longer pending, its text is a tool message, its images wait. */
  method HandleResult(sum: string -> string, names: Names, messages0: seq<ChatMessage>, pending0: seq<string>,
                      images0: seq<Part>, result: Block, ghost told: seq<Moment>)
    returns (messages: seq<ChatMessage>, pending: seq<string>, images: seq<Part>)
    requires Stands(sum, messages0, pending0, images0, told) && result.ToolResult?
    ensures Stands(sum, messages, pending, images, told + Said(WaitingOf(names, [result])))
    ensures Reports(messages) == Reports(messages0) + ReportsOf(sum, [result])
    ensures images == images0 + WaitingOf(names, [result])
    ensures if result.toolUseId == "" then messages == messages0 && pending == pending0
            else Audit(messages) == PayOne(Audit(messages0), SanitizeAnthropic(sum, result.toolUseId))
                 && pending == DropCallId(pending0, result.toolUseId)
  {
    OneWaits(names, result);
    OneReports(sum, result);
    if result.toolUseId == "" {
      Neutral(Reports(messages0));
      SaidJoin([], []);
      Neutral(told);
      Neutral(images0);
      return messages0, pending0, images0;
    }
    pending := DropCallId(pending0, result.toolUseId);
    DropKeepsOthers(sum, pending0, result.toolUseId);
    var text := TextOf(result.content);
    if result.failed && !Strings.HasPrefix(text, FAILED) {
      text := FAILED + text;
    }
    text := NotedText(text, |ImagesOf(result.content)|);
    ToolStands(sum, messages0, pending0, pending, images0, told, result.toolUseId, text);
    messages := messages0 + [ToolMessage(SanitizeAnthropic(sum, result.toolUseId), text)];
    MoreWaits(sum, messages, pending, images0, told, Waiting(names, result.toolUseId, result.content));
    images := images0 + Waiting(names, result.toolUseId, result.content);
  }

  lemma OneReports(sum: string -> string, result: Block)
    requires result.ToolResult?
    ensures ReportsOf(sum, [result])
         == if result.toolUseId != "" then ReportOf(SanitizeAnthropic(sum, result.toolUseId), ReportText(result))
           else []
  {
    assert [result][..0] == [];
    Neutral(ReportOf(SanitizeAnthropic(sum, result.toolUseId), ReportText(result)));
  }

  lemma ReportsOneMore(sum: string -> string, results: seq<Block>, i: nat)
    requires i < |results|
    ensures ReportsOf(sum, results[..i + 1]) == ReportsOf(sum, results[..i]) + ReportsOf(sum, [results[i]])
  {
    assert results[..i + 1][..i] == results[..i];
    assert [results[i]][..0] == [];
    Neutral(ReportsOf(sum, [results[i]]));
  }

  lemma OneWaits(names: Names, result: Block)
    requires result.ToolResult?
    ensures WaitingOf(names, [result])
         == if result.toolUseId != "" then Waiting(names, result.toolUseId, result.content) else []
  {
    assert [result][..0] == [];
    Neutral(Waiting(names, result.toolUseId, result.content));
  }

  /** The tool results of a user entry, first of all. */
  method HandleResults(sum: string -> string, names: Names, messages0: seq<ChatMessage>, pending0: seq<string>,
                       images0: seq<Part>, results: seq<Block>, ghost told: seq<Moment>)
    returns (messages: seq<ChatMessage>, pending: seq<string>, images: seq<Part>)
    requires Stands(sum, messages0, pending0, images0, told)
    requires forall i :: 0 <= i < |results| ==> results[i].ToolResult?
    ensures Stands(sum, messages, pending, images, told + Said(WaitingOf(names, results)))
    ensures Reports(messages) == Reports(messages0) + ReportsOf(sum, results)
    ensures Tally(Audit(messages), pending, images)
         == AfterResults(sum, names, Tally(Audit(messages0), pending0, images0), results)
  {
    messages, pending, images := messages0, pending0, images0;
    SaidJoin([], []);
    Neutral(told);
    Neutral(images0);
    Neutral(Reports(messages0));
    ghost var t := Tally(Audit(messages0), pending0, images0);
    for i := 0 to |results|
      invariant Stands(sum, messages, pending, images, told + Said(WaitingOf(names, results[..i])))
      invariant Reports(messages) == Reports(messages0) + ReportsOf(sum, results[..i])
      invariant Tally(Audit(messages), pending, images) == AfterResults(sum, names, t, results[..i])
    {
      AfterOneMore(sum, names, t, results, i);
      ghost var soFar := told + Said(WaitingOf(names, results[..i]));
      WaitingOneMore(names, results, i);
      ReportsOneMore(sum, results, i);
      Associate(Reports(messages0), ReportsOf(sum, results[..i]), ReportsOf(sum, [results[i]]));
      SaidJoin(WaitingOf(names, results[..i]), WaitingOf(names, [results[i]]));
      Associate(told, Said(WaitingOf(names, results[..i])), Said(WaitingOf(names, [results[i]])));
      messages, pending, images := HandleResult(sum, names, messages, pending, images, results[i], soFar);
    }
    TakeAll(results);
  }

  lemma AfterOneMore(sum: string -> string, names: Names, t: Tally, results: seq<Block>, i: nat)
    requires i < |results| && results[i].ToolResult?
    ensures var before, id := AfterResults(sum, names, t, results[..i]), results[i].toolUseId;
            AfterResults(sum, names, t, results[..i + 1])
            == if id == "" then before.(images := before.images + WaitingOf(names, [results[i]]))
               else Tally(PayOne(before.books, SanitizeAnthropic(sum, id)), DropCallId(before.waiting, id),
                          before.images + WaitingOf(names, [results[i]]))
  {
    var ids := ResultIds(results[..i]);
    WaitingOneMore(names, results, i);
    Associate(t.images, WaitingOf(names, results[..i]), WaitingOf(names, [results[i]]));
    TakeTake(results, i, i + 1);
    Neutral(ids);
    if results[i].toolUseId != "" {
      PayMore(t.books, sum, ids, results[i].toolUseId);
      Front(ids, results[i].toolUseId);
    }
  }

  lemma MoreWaits(sum: string -> string, messages: seq<ChatMessage>, pending: seq<string>, images: seq<Part>,
                  told: seq<Moment>, more: seq<Part>)
    requires Stands(sum, messages, pending, images, told)
    ensures Stands(sum, messages, pending, images + more, told + Said(more))
  {
    SaidJoin(images, more);
    Associate(Timeline(messages), Said(images), Said(more));
  }

  /** `appendImageNote`, where there are images. */
  function NotedText(text: string, count: nat): string {
    if count == 0 then text else AppendImageNote(text, count)
  }

  lemma {:induction false} ResultsAreResults(blocks: seq<Block>)
    ensures forall i :: 0 <= i < |ResultsOf(blocks)| ==> ResultsOf(blocks)[i].ToolResult?
  {
    if blocks != [] {
      ResultsAreResults(blocks[..|blocks| - 1]);
    }
  }

  /** A user entry: results, then stand-ins for what they left unanswered, then the user's own words. */
  method HandleUser(sum: string -> string, names: Names, messages0: seq<ChatMessage>, pending0: seq<string>,
                    images0: seq<Part>, blocks: seq<Block>, ghost told: seq<Moment>)
    returns (messages: seq<ChatMessage>, pending: seq<string>, images: seq<Part>)
    requires Stands(sum, messages0, pending0, images0, told)
    ensures Stands(sum, messages, pending, images,
                   told + (Said(WaitingOf(names, ResultsOf(blocks))) + Said(Own(OthersOf(blocks)))))
    ensures Reports(messages) == Reports(messages0) + ReportsOf(sum, ResultsOf(blocks))
    ensures Tally(Audit(messages), pending, images)
         == AfterUser(sum, names, Tally(Audit(messages0), pending0, images0), blocks)
  {
    ghost var waiting, own := WaitingOf(names, ResultsOf(blocks)), Own(OthersOf(blocks));
    SaidJoin([], []);
    Neutral(told);
    Associate(told, Said(waiting), Said(own));
    if blocks == [] {
      Neutral(Reports(messages0));
      return messages0, pending0, images0;
    }
    ResultsAreResults(blocks);
    messages, pending, images := HandleResults(sum, names, messages0, pending0, images0, ResultsOf(blocks), told);
    messages := FillPendingCalls(sum, messages, pending, images, told + Said(waiting));
    pending := [];
    if Own(OthersOf(blocks)) != [] {
      messages := SayUser(sum, messages, images, Own(OthersOf(blocks)), told + Said(waiting));
      images := [];
    } else {
      Neutral(told + Said(waiting));
    }
  }

  /** `claudeMessagesToOpenAI`: no call with an id is left uncovered; every image of a result is said
      once, in its place, before the next assistant turn; every result is reported once, in order, under
      its call's id; and a strict upstream's books come to what `Closing` says. */
  method ClaudeMessagesToOpenAI(sum: string -> string, entries: seq<Entry>) returns (messages: seq<ChatMessage>)
    ensures Covered(messages) && Owed(messages) == {}
    ensures Timeline(messages) == Expected(sum, entries)
    ensures Reports(messages) == Reported(sum, entries)
    ensures Audit(messages) == Closing(sum, entries)
  {
    messages := [];
    var pending: seq<string>, images: seq<Part>, names: Names := [], [], map[];
    SaidJoin([], []);
    for i := 0 to |entries|
      invariant names == NamesOf(entries[..i])
      invariant Stands(sum, messages, pending, images, Expected(sum, entries[..i]))
      invariant Reports(messages) == Reported(sum, entries[..i])
      invariant Tally(Audit(messages), pending, images) == AfterEntries(sum, entries[..i])
    {
      assert entries[..i + 1][..i] == entries[..i];
      ghost var told := Expected(sum, entries[..i]);
      Neutral(Reports(messages));
      var e := entries[i];
      match e.speaker {
        case AssistantSpeaks =>
          messages, pending := HandleAssistant(sum, messages, pending, images, e.blocks, told);
          images, names := [], NamesAfter(names, e.blocks);
        case UserSpeaks =>
          messages, pending, images := HandleUser(sum, names, messages, pending, images, e.blocks, told);
        case OtherSpeaks => Neutral(told);
      }
    }
    TakeAll(entries);
    messages := FillPendingCalls(sum, messages, pending, images, Expected(sum, entries));
    messages := SayUser(sum, messages, images, [], Expected(sum, entries));
    Neutral(Expected(sum, entries));
    Neutral(Timeline(messages));
  }

  // ---- what covering means -------------------------------------------------------------------

  lemma {:induction false} CoveredPrefix(messages: seq<ChatMessage>, n: nat)
    requires Covered(messages) && n <= |messages|
    ensures Covered(messages[..n])
  {
    if n < |messages| {
      CoveredPrefix(messages[..|messages| - 1], n);
      assert messages[..|messages| - 1][..n] == messages[..n];
    } else {
      assert messages[..n] == messages;
    }
  }

  /** A tool message with this id follows message `i`, with nothing but tool messages between. */
  predicate AnsweredInRun(messages: seq<ChatMessage>, i: nat, id: string) {
    exists j :: i < j < |messages| && messages[j].ToolMessage? && messages[j].callId == id
                && forall k :: i < k < j ==> messages[k].ToolMessage?
  }

  lemma RunStays(messages: seq<ChatMessage>, m: ChatMessage, i: nat, id: string)
    requires AnsweredInRun(messages, i, id)
    ensures AnsweredInRun(messages + [m], i, id)
  {
    var j :| i < j < |messages| && messages[j].ToolMessage? && messages[j].callId == id
             && forall k :: i < k < j ==> messages[k].ToolMessage?;
    assert (messages + [m])[j] == messages[j];
    assert forall k :: i < k < j ==> (messages + [m])[k] == messages[k];
  }

  lemma {:induction false} AnsweredOrOwed(messages: seq<ChatMessage>, i: nat, id: string)
    requires Covered(messages) && i < |messages| && messages[i].AssistantMessage? && id in CallIds(messages[i].calls)
    ensures AnsweredInRun(messages, i, id)
            || (id in Owed(messages) && forall k :: i < k < |messages| ==> messages[k].ToolMessage?)
  {
    var last := |messages| - 1;
    if i < last {
      var front := messages[..last];
      AnsweredOrOwed(front, i, id);
      ButLast(messages);
      if AnsweredInRun(front, i, id) {
        RunStays(front, messages[last], i, id);
      } else if messages[last].ToolMessage? && messages[last].callId == id {
        assert forall k :: i < k < last ==> messages[k] == front[k];
      }
    }
  }

  /** In a conversation accepted to its end with nothing owed, each call of an assistant message is
      answered by one of the tool messages that follow it without a break. */
  lemma CallsAnsweredInRun(messages: seq<ChatMessage>, i: nat, id: string)
    requires Covered(messages) && Owed(messages) == {}
    requires i < |messages| && messages[i].AssistantMessage? && id in CallIds(messages[i].calls)
    ensures AnsweredInRun(messages, i, id)
  {
    AnsweredOrOwed(messages, i, id);
  }
}
