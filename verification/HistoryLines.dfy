/** What each side reads in the other's rendering of a conversation, line by line.

    A Responses upstream takes input text from users and output text from assistants, and reads items one
    after the other, knowing nothing of messages under way.  `LinesAreTold` says what it reads in the input a
    Claude conversation is turned into; `ItemComesBack` what any one item becomes on the way back. */
module HistoryLines {
  import opened ClaudeHistory
  import opened ResponsesHistory
  import opened Sequences
  import opened ToolIds
  import opened ToolImages
  import Strings = Text

  datatype Line =
    | Typed(text: string)
    | Uttered(text: string)
    | Pictured(role: Role, url: string)
    | Called(callId: string, name: string, arguments: string)
    | Returned(callId: string, output: string, failed: bool)
    | Mused(summary: string, sealed: string)
    | Misplaced

  // ---- input, as an upstream reads it ----------------------------------------------------------

  function PartLine(role: Role, part: Part): Line {
    match (role, part)
    case (User, InputText(text)) => Typed(text)
    case (Assistant, OutputText(text)) => Uttered(text)
    case (_, InputImage(url)) => Pictured(role, url)
    case _ => Misplaced
  }

  function PartLines(role: Role, parts: seq<Part>): seq<Line> {
    seq(|parts|, i requires 0 <= i < |parts| => PartLine(role, parts[i]))
  }

  function ItemLines(item: Item): seq<Line> {
    match item
    case MessageItem(role, parts) => PartLines(role, parts)
    case FunctionCall(callId, name, arguments) => [Called(callId, name, arguments)]
    case CallOutput(callId, output, failed) => [Returned(callId, output, failed)]
    case ReasoningItem(summary, encrypted) => [Mused(summary, encrypted)]
  }

  function InputLines(input: seq<Item>): seq<Line> {
    if input == [] then [] else InputLines(input[..|input| - 1]) + ItemLines(input[|input| - 1])
  }

  // ---- a conversation, as it is to be read -----------------------------------------------------

  predicate Blank(text: string) {
    Strings.TrimSpace(text) == ""
  }

  /** The readable texts of a result, and the addresses of its images, from the front. */
  function ReadableOf(part: ResultPart): seq<string> {
    if part.TextPart? && !Blank(part.text) then [part.text] else []
  }

  function Readable(parts: seq<ResultPart>): seq<string> {
    if parts == [] then [] else ReadableOf(parts[0]) + Readable(parts[1..])
  }

  function Inline(mediaType: string, data: string): string {
    "data:" + (if Blank(mediaType) then "image/png" else mediaType) + ";base64," + data
  }

  function AddressesOf(part: ResultPart): seq<string> {
    match part
    case TextPart(_) => []
    case ImagePart(mediaType, data) => if data == "" then [] else [Inline(mediaType, data)]
    case LinkPart(url) => if url == "" then [] else [url]
  }

  function Addresses(parts: seq<ResultPart>): seq<string> {
    if parts == [] then [] else AddressesOf(parts[0]) + Addresses(parts[1..])
  }

  function Lined(texts: seq<string>): string {
    if texts == [] then "" else if |texts| == 1 then texts[0] else texts[0] + "\n" + Lined(texts[1..])
  }

  /** What a result says: a string as it is, else its texts on lines of their own, and how many images follow. */
  function Output(content: ResultContent): string {
    match content
    case Plain(text) => text
    case Parts(parts) =>
      if Addresses(parts) == [] then Lined(Readable(parts))
      else AppendImageNote(Lined(Readable(parts)), |Addresses(parts)|)
  }

  function Enclosed(content: ResultContent): seq<string> {
    if content.Parts? then Addresses(content.parts) else []
  }

  /** The name the call was made under last; blank if it was not made. */
  function CallName(placed: seq<Placed>, callId: string): string {
    if placed == [] then ""
    else
      var last := placed[|placed| - 1].block;
      if last.ToolUse? && last.name != "" && SanitizeResponses(last.id) == callId then last.name
      else CallName(placed[..|placed| - 1], callId)
  }

  function Heading(name: string, callId: string): string {
    "[From the result of " + (if name != "" then name + " (tool call " + callId + ")" else callId) + ":]"
  }

  function Pictures(urls: seq<string>): seq<Line> {
    seq(|urls|, i requires 0 <= i < |urls| => Pictured(User, urls[i]))
  }

  function Spoken(role: Role, text: string): Line {
    if role.User? then Typed(text) else Uttered(text)
  }

  function Given(heading: string, urls: seq<string>): seq<Line> {
    if urls == [] then [] else [Typed(heading)] + Pictures(urls)
  }

  /** What one block says, after those before it. */
  function Tells(codec: Codec, before: seq<Placed>, p: Placed): seq<Line> {
    match p.block
    case Text(text) =>
      if Blank(text) then [] else [Spoken(p.role, text)]
    case Image(mediaType, data) => if data == "" then [] else [Pictured(p.role, Inline(mediaType, data))]
    case LinkedImage(_) => []
    case ToolUse(id, name, input) =>
      if name == "" then []
      else [Called(SanitizeResponses(id), name, if input == Null then "{}" else codec.marshal(input))]
    case ToolResult(id, content, _) =>
      var callId := SanitizeResponses(id);
      if callId == "" then []
      else [Returned(callId, Output(content), false)]
           + Given(Heading(CallName(before, callId), callId), Enclosed(content))
    case Thinking(thought) => [Mused(thought.text, codec.seal(thought))]
  }

  function Told(codec: Codec, placed: seq<Placed>): seq<Line> {
    if placed == [] then []
    else
      var before := placed[..|placed| - 1];
      Told(codec, before) + Tells(codec, before, placed[|placed| - 1])
  }

  // ---- results ---------------------------------------------------------------------------------

  lemma {:induction false} ReadableAppend(parts: seq<ResultPart>, last: ResultPart)
    ensures Readable(parts + [last]) == Readable(parts) + ReadableOf(last)
  {
    if parts == [] {
      Neutral([last]);
      Neutral(ReadableOf(last));
      assert [last][1..] == [];
    } else {
      ReadableAppend(parts[1..], last);
      assert (parts + [last])[1..] == parts[1..] + [last];
      Associate(ReadableOf(parts[0]), Readable(parts[1..]), ReadableOf(last));
    }
  }

  lemma {:induction false} AddressesAppend(parts: seq<ResultPart>, last: ResultPart)
    ensures Addresses(parts + [last]) == Addresses(parts) + AddressesOf(last)
  {
    if parts == [] {
      Neutral([last]);
      Neutral(AddressesOf(last));
      assert [last][1..] == [];
    } else {
      AddressesAppend(parts[1..], last);
      assert (parts + [last])[1..] == parts[1..] + [last];
      Associate(AddressesOf(parts[0]), Addresses(parts[1..]), AddressesOf(last));
    }
  }

  lemma {:induction false} TextsAreReadable(parts: seq<ResultPart>)
    ensures Texts(parts) == Readable(parts)
  {
    if parts != [] {
      var front, last := parts[..|parts| - 1], parts[|parts| - 1];
      TextsAreReadable(front);
      ReadableAppend(front, last);
      ButLast(parts);
    }
  }

  lemma {:induction false} UrlsAreAddresses(parts: seq<ResultPart>)
    ensures Urls(parts) == Addresses(parts)
  {
    if parts != [] {
      var front, last := parts[..|parts| - 1], parts[|parts| - 1];
      UrlsAreAddresses(front);
      AddressesAppend(front, last);
      ButLast(parts);
    }
  }

  lemma {:induction false} LinedAppend(texts: seq<string>, last: string)
    requires texts != []
    ensures Lined(texts + [last]) == Lined(texts) + "\n" + last
  {
    assert (texts + [last])[1..] == texts[1..] + [last];
    if |texts| > 1 {
      LinedAppend(texts[1..], last);
      assert texts[0] + "\n" + (Lined(texts[1..]) + "\n" + last) == texts[0] + "\n" + Lined(texts[1..]) + "\n" + last;
    }
  }

  lemma {:induction false} JoinIsLined(texts: seq<string>)
    ensures Join(texts) == Lined(texts)
  {
    if |texts| > 1 {
      JoinIsLined(texts[..|texts| - 1]);
      LinedAppend(texts[..|texts| - 1], texts[|texts| - 1]);
      ButLast(texts);
    }
  }

  lemma ResultIsOutput(content: ResultContent)
    ensures ResultText(content) == Output(content) && ResultUrls(content) == Enclosed(content)
  {
    if content.Parts? {
      TextsAreReadable(content.parts);
      UrlsAreAddresses(content.parts);
      JoinIsLined(Texts(content.parts));
    }
  }

  // ---- images of a result, announced -----------------------------------------------------------

  /** The value of a decimal numeral. */
  function Value(digits: string): int {
    if digits == "" then 0
    else 10 * Value(digits[..|digits| - 1]) + (digits[|digits| - 1] as int - '0' as int)
  }

  lemma {:induction false} DigitsMean(n: nat)
    ensures Value(Digits(n)) == n && Digits(n) != ""
    ensures forall i :: 0 <= i < |Digits(n)| ==> '0' <= Digits(n)[i] <= '9'
  {
    if n < 10 {
      assert Digits(n)[..0] == "";
    } else {
      DigitsMean(n / 10);
      Front(Digits(n / 10), ('0' as int + n % 10) as char);
    }
  }

  predicate Numeral(c: char) {
    '0' <= c <= '9'
  }

  /** The note on the images of a result says how many they are. */
  lemma NoteCounts(count: nat) returns (before: string, after: string)
    requires count != 1
    ensures ImageNote(count) == before + Digits(count) + after
    ensures before != "" && after != "" && !Numeral(before[|before| - 1]) && !Numeral(after[0])
  {
    before := "[The tool returned ";
    after := " images; they follow in the next message.]";
  }

  // ---- what is read is what was told -----------------------------------------------------------

  lemma LinesAppend(input: seq<Item>, item: Item)
    ensures InputLines(input + [item]) == InputLines(input) + ItemLines(item)
  {
    Front(input, item);
  }

  lemma PartLinesAppend(role: Role, parts: seq<Part>, part: Part)
    ensures PartLines(role, parts + [part]) == PartLines(role, parts) + [PartLine(role, part)]
  {
  }

  lemma ToldAppend(codec: Codec, placed: seq<Placed>, p: Placed)
    ensures Told(codec, placed + [p]) == Told(codec, placed) + Tells(codec, placed, p)
  {
    Front(placed, p);
  }

  lemma {:induction false} NamesAreCallNames(placed: seq<Placed>, callId: string)
    ensures CallName(placed, callId) == if callId in NamesOf(placed) then NamesOf(placed)[callId] else ""
    ensures callId in NamesOf(placed) ==> NamesOf(placed)[callId] != ""
  {
    if placed != [] {
      NamesAreCallNames(placed[..|placed| - 1], callId);
    }
  }

  lemma LabelIsHeading(placed: seq<Placed>, callId: string)
    ensures Label(NamesOf(placed), callId) == Heading(CallName(placed, callId), callId)
  {
    NamesAreCallNames(placed, callId);
  }

  /** An upstream has read, with the message under way, what was told. */
  ghost predicate Reads(codec: Codec, f: Flattening, role: Role, placed: seq<Placed>) {
    var read :=
      && InputLines(f.input) + PartLines(role, f.content) == Told(codec, placed)
      && f.names == NamesOf(placed);
    read
  }

  lemma FlushReads(codec: Codec, f: Flattening, role: Role, placed: seq<Placed>)
    requires Reads(codec, f, role, placed)
    ensures Reads(codec, Flush(f, role), role, placed) && InputLines(Flush(f, role).input) == Told(codec, placed)
  {
    LinesAppend(f.input, MessageItem(role, f.content));
    Neutral(InputLines(Flush(f, role).input));
    Neutral(InputLines(f.input));
  }

  lemma HeadingAndPictures(heading: string, urls: seq<string>)
    ensures ItemLines(MessageItem(User, [InputText(heading)] + ImageParts(urls))) == [Typed(heading)] + Pictures(urls)
  {
  }

  /** What is read once an item has been put after those that were told. */
  lemma PutReads(codec: Codec, f: Flattening, role: Role, placed: seq<Placed>, item: Item, p: Placed)
    requires InputLines(f.input) == Told(codec, placed) && f.content == []
    requires ItemLines(item) == Tells(codec, placed, p)
    ensures Reads(codec, Put(f, item).(names := NamesOf(placed + [p])), role, placed + [p])
  {
    LinesAppend(f.input, item);
    ToldAppend(codec, placed, p);
    Neutral(InputLines(f.input + [item]));
  }

  /** What says nothing leaves what was read as it is. */
  lemma NothingReads(codec: Codec, f: Flattening, role: Role, placed: seq<Placed>, p: Placed)
    requires Reads(codec, f, role, placed)
    requires Tells(codec, placed, p) == [] && NamesOf(placed + [p]) == NamesOf(placed)
    ensures Reads(codec, f, role, placed + [p])
  {
    ToldAppend(codec, placed, p);
    Neutral(Told(codec, placed));
  }

  lemma LevelReads(codec: Codec, f: Flattening, role: Role, placed: seq<Placed>)
    requires InputLines(f.input) == Told(codec, placed) && f.content == [] && f.names == NamesOf(placed)
    ensures Reads(codec, f, role, placed)
  {
    Neutral(InputLines(f.input));
  }

  /** The items of a result tell its output, its heading and its images. */
  lemma ResultLines(f: Flattening, callId: string, content: ResultContent, heading: string)
    requires heading == Label(f.names, callId) && f.content == []
    ensures var next := PutResult(f, callId, content);
            && InputLines(next.input)
               == InputLines(f.input) + ([Returned(callId, Output(content), false)] + Given(heading, Enclosed(content)))
            && next.content == [] && next.names == f.names
  {
    var urls := ResultUrls(content);
    var output := CallOutput(callId, ResultText(content), false);
    var message := MessageItem(User, [InputText(heading)] + ImageParts(urls));
    ResultIsOutput(content);
    HeadingAndPictures(heading, urls);
    LinesAppend(f.input, output);
    LinesAppend(f.input + [output], message);
    Associate(InputLines(f.input), ItemLines(output), ItemLines(message));
    Neutral(ItemLines(output));
  }

  lemma AnswerReads(codec: Codec, f: Flattening, role: Role, placed: seq<Placed>, p: Placed, callId: string,
                    content: ResultContent)
    requires InputLines(f.input) == Told(codec, placed) && f.content == [] && f.names == NamesOf(placed)
    requires Tells(codec, placed, p) == [Returned(callId, Output(content), false)]
                                        + Given(Heading(CallName(placed, callId), callId), Enclosed(content))
    requires NamesOf(placed + [p]) == NamesOf(placed)
    ensures Reads(codec, PutResult(f, callId, content), role, placed + [p])
  {
    LabelIsHeading(placed, callId);
    ResultLines(f, callId, content, Label(f.names, callId));
    ToldAppend(codec, placed, p);
    LevelReads(codec, PutResult(f, callId, content), role, placed + [p]);
  }

  lemma ResultReads(codec: Codec, f: Flattening, role: Role, placed: seq<Placed>, block: Block)
    requires InputLines(f.input) == Told(codec, placed) && f.content == [] && f.names == NamesOf(placed)
    requires block.ToolResult?
    ensures Reads(codec, PutBlock(codec, f, role, block), role, placed + [Placed(role, block)])
  {
    var p := Placed(role, block);
    NamesNext(placed, p);
    if SanitizeResponses(block.toolUseId) == "" {
      LevelReads(codec, f, role, placed);
      NothingReads(codec, f, role, placed, p);
    } else {
      AnswerReads(codec, f, role, placed, p, SanitizeResponses(block.toolUseId), block.content);
    }
  }

  lemma NamesNext(placed: seq<Placed>, p: Placed)
    ensures NamesOf(placed + [p])
         == if p.block.ToolUse? && p.block.name != ""
            then NamesOf(placed)[SanitizeResponses(p.block.id) := p.block.name]
            else NamesOf(placed)
  {
    Front(placed, p);
  }

  lemma CallReads(codec: Codec, f: Flattening, role: Role, placed: seq<Placed>, block: Block)
    requires InputLines(f.input) == Told(codec, placed) && f.content == [] && f.names == NamesOf(placed)
    requires block.ToolUse?
    ensures Reads(codec, PutBlock(codec, f, role, block), role, placed + [Placed(role, block)])
  {
    var p := Placed(role, block);
    NamesNext(placed, p);
    if block.name == "" {
      LevelReads(codec, f, role, placed);
      NothingReads(codec, f, role, placed, p);
    } else {
      PutReads(codec, f, role, placed,
               FunctionCall(SanitizeResponses(block.id), block.name, CallArguments(codec, block.input)), p);
    }
  }

  lemma ThoughtTells(codec: Codec, placed: seq<Placed>, role: Role, thought: Thought)
    ensures Tells(codec, placed, Placed(role, Thinking(thought)))
         == ItemLines(ReasoningItem(thought.text, codec.seal(thought)))
  {
  }

  lemma ThoughtPut(codec: Codec, f: Flattening, role: Role, thought: Thought)
    requires f.content == []
    ensures PutBlock(codec, f, role, Thinking(thought)) == Put(f, ReasoningItem(thought.text, codec.seal(thought)))
  {
  }

  lemma ThoughtReads(codec: Codec, f: Flattening, role: Role, placed: seq<Placed>, thought: Thought)
    requires InputLines(f.input) == Told(codec, placed) && f.content == [] && f.names == NamesOf(placed)
    ensures Reads(codec, PutBlock(codec, f, role, Thinking(thought)), role, placed + [Placed(role, Thinking(thought))])
  {
    var p, item := Placed(role, Thinking(thought)), ReasoningItem(thought.text, codec.seal(thought));
    ThoughtTells(codec, placed, role, thought);
    ThoughtPut(codec, f, role, thought);
    NamesNext(placed, p);
    PutReads(codec, f, role, placed, item, p);
    assert Put(f, item).(names := NamesOf(placed + [p])) == Put(f, item);
  }

  /** What is read once a part has been added to the message under way. */
  lemma PartAdded(codec: Codec, f: Flattening, role: Role, placed: seq<Placed>, part: Part, p: Placed)
    requires Reads(codec, f, role, placed) && NamesOf(placed + [p]) == NamesOf(placed)
    requires [PartLine(role, part)] == Tells(codec, placed, p)
    ensures Reads(codec, f.(content := f.content + [part]), role, placed + [p])
  {
    PartLinesAppend(role, f.content, part);
    ToldAppend(codec, placed, p);
    Associate(InputLines(f.input), PartLines(role, f.content), [PartLine(role, part)]);
  }

  lemma PartReads(codec: Codec, f: Flattening, role: Role, placed: seq<Placed>, block: Block)
    requires Reads(codec, f, role, placed) && (block.Text? || block.Image? || block.LinkedImage?)
    ensures Reads(codec, PutBlock(codec, f, role, block), role, placed + [Placed(role, block)])
  {
    var p := Placed(role, block);
    NamesNext(placed, p);
    if block.Text? && Meaningful(block.text) {
      PartAdded(codec, f, role, placed, TextPartIn(role, block.text), p);
    } else if block.Image? && block.data != "" {
      PartAdded(codec, f, role, placed, InputImage(DataUrl(block.mediaType, block.data)), p);
    } else {
      NothingReads(codec, f, role, placed, p);
    }
  }

  lemma BlockReads(codec: Codec, f: Flattening, role: Role, placed: seq<Placed>, block: Block)
    requires Reads(codec, f, role, placed)
    ensures Reads(codec, PutBlock(codec, f, role, block), role, placed + [Placed(role, block)])
  {
    FlushReads(codec, f, role, placed);
    match block
    case ToolUse(_, _, _) => CallReads(codec, Flush(f, role), role, placed, block);
    case Thinking(thought) => ThoughtReads(codec, Flush(f, role), role, placed, thought);
    case ToolResult(_, _, _) => ResultReads(codec, Flush(f, role), role, placed, block);
    case _ => PartReads(codec, f, role, placed, block);
  }

  lemma {:induction false} BlocksRead(codec: Codec, f: Flattening, role: Role, placed: seq<Placed>, blocks: seq<Block>)
    requires Reads(codec, f, role, placed)
    ensures Reads(codec, PutBlocks(codec, f, role, blocks), role, placed + InRole(role, blocks))
  {
    if blocks == [] {
      Neutral(placed);
    } else {
      var front, last := blocks[..|blocks| - 1], blocks[|blocks| - 1];
      BlocksRead(codec, f, role, placed, front);
      BlockReads(codec, PutBlocks(codec, f, role, front), role, placed + InRole(role, front), last);
      ButLast(blocks);
      InRoleAppend(role, front, last);
      Associate(placed, InRole(role, front), [Placed(role, last)]);
    }
  }

  lemma WordsRead(codec: Codec, f: Flattening, role: Role, placed: seq<Placed>, text: string)
    requires InputLines(f.input) == Told(codec, placed) && f.content == [] && f.names == NamesOf(placed)
    ensures Reads(codec, PutTurn(codec, f, Turn(role, Words(text))), role, placed + [Placed(role, Text(text))])
  {
    var p := Placed(role, Text(text));
    ToldAppend(codec, placed, p);
    NamesNext(placed, p);
    Neutral(Told(codec, placed));
    if Meaningful(text) {
      var part := TextPartIn(role, text);
      LinesAppend(f.input, MessageItem(role, [part]));
      assert PartLines(role, [part]) == [PartLine(role, part)];
      Neutral(InputLines(f.input + [MessageItem(role, [part])]));
    }
  }

  lemma TurnReads(codec: Codec, f: Flattening, placed: seq<Placed>, turn: Turn)
    requires Reads(codec, f, turn.role, placed) && f.content == []
    ensures var next := PutTurn(codec, f, turn);
            next.content == [] && Reads(codec, next, turn.role, placed + InRole(turn.role, BlocksOf(turn.content)))
  {
    Neutral(InputLines(f.input));
    match turn.content
    case Words(text) =>
      assert InRole(turn.role, [Text(text)]) == [Placed(turn.role, Text(text))];
      WordsRead(codec, f, turn.role, placed, text);
    case Blocks(blocks) =>
      BlocksRead(codec, f, turn.role, placed, blocks);
      FlushReads(codec, PutBlocks(codec, f, turn.role, blocks), turn.role, placed + InRole(turn.role, blocks));
  }

  /** What an upstream reads in the input a conversation is turned into is what was told, line for line: words
      in their speaker's own kind of text, images, calls with their arguments, results followed by their
      images under a heading that names the call, and thinking with its summary. */
  lemma {:induction false} LinesAreTold(codec: Codec, turns: seq<Turn>)
    ensures InputLines(Forth(codec, turns)) == Told(codec, Placements(turns))
    ensures PutTurns(codec, turns).names == NamesOf(Placements(turns)) && PutTurns(codec, turns).content == []
  {
    if turns != [] {
      var front, last := turns[..|turns| - 1], turns[|turns| - 1];
      LinesAreTold(codec, front);
      Neutral(InputLines(Forth(codec, front)));
      TurnReads(codec, PutTurns(codec, front), Placements(front), last);
      Neutral(InputLines(Forth(codec, turns)));
    }
  }

  // ---- words in their place --------------------------------------------------------------------

  lemma {:induction false} LineOfPart(input: seq<Item>, k: nat, j: nat)
    requires k < |input| && input[k].MessageItem? && j < |input[k].parts|
    ensures PartLine(input[k].role, input[k].parts[j]) in InputLines(input)
  {
    var last := |input| - 1;
    if k == last {
      assert ItemLines(input[last])[j] == PartLine(input[k].role, input[k].parts[j]);
    } else {
      LineOfPart(input[..last], k, j);
    }
  }

  lemma {:induction false} PartOfLine(input: seq<Item>, line: Line) returns (k: nat, j: nat)
    requires line in InputLines(input) && (line.Typed? || line.Uttered? || line.Pictured?)
    ensures k < |input| && input[k].MessageItem? && j < |input[k].parts|
    ensures PartLine(input[k].role, input[k].parts[j]) == line
  {
    var last := |input| - 1;
    if line in ItemLines(input[last]) {
      k := last;
      j :| 0 <= j < |ItemLines(input[last])| && ItemLines(input[last])[j] == line;
    } else {
      k, j := PartOfLine(input[..last], line);
    }
  }

  lemma TellsProperly(codec: Codec, before: seq<Placed>, p: Placed)
    ensures Misplaced !in Tells(codec, before, p)
  {
  }

  lemma {:induction false} NothingMisplaced(codec: Codec, placed: seq<Placed>)
    ensures Misplaced !in Told(codec, placed)
  {
    if placed != [] {
      NothingMisplaced(codec, placed[..|placed| - 1]);
      TellsProperly(codec, placed[..|placed| - 1], placed[|placed| - 1]);
    }
  }

  /** An upstream is given input text by users only and output text by assistants only. */
  lemma WordsInTheirPlace(codec: Codec, turns: seq<Turn>, k: nat, part: Part)
    requires k < |Forth(codec, turns)| && Forth(codec, turns)[k].MessageItem? && part in Forth(codec, turns)[k].parts
    ensures part.InputText? ==> Forth(codec, turns)[k].role.User?
    ensures part.OutputText? ==> Forth(codec, turns)[k].role.Assistant?
  {
    var item := Forth(codec, turns)[k];
    var j :| 0 <= j < |item.parts| && item.parts[j] == part;
    LinesAreTold(codec, turns);
    NothingMisplaced(codec, Placements(turns));
    LineOfPart(Forth(codec, turns), k, j);
  }

  lemma {:induction false} SpokenIsTold(codec: Codec, placed: seq<Placed>, p: Placed)
    requires p in placed && p.block.Text? && !Blank(p.block.text)
    ensures Spoken(p.role, p.block.text) in Told(codec, placed)
  {
    ButLast(placed);
    if placed[|placed| - 1] != p {
      SpokenIsTold(codec, placed[..|placed| - 1], p);
    }
  }

  lemma SpokenPart(role: Role, part: Part, speaker: Role, text: string)
    requires PartLine(role, part) == Spoken(speaker, text)
    ensures role == speaker && part == if speaker.User? then InputText(text) else OutputText(text)
  {
  }

  /** Every text of a turn that is not blank is said in that turn's role, as that role says things. */
  lemma EveryTextIsSaid(codec: Codec, turns: seq<Turn>, role: Role, text: string) returns (k: nat)
    requires Placed(role, Text(text)) in Placements(turns) && !Blank(text)
    ensures k < |Forth(codec, turns)| && Forth(codec, turns)[k].MessageItem? && Forth(codec, turns)[k].role == role
    ensures (if role.User? then InputText(text) else OutputText(text)) in Forth(codec, turns)[k].parts
  {
    var j: nat;
    LinesAreTold(codec, turns);
    SpokenIsTold(codec, Placements(turns), Placed(role, Text(text)));
    var input := Forth(codec, turns);
    k, j := PartOfLine(input, Spoken(role, text));
    SpokenPart(input[k].role, input[k].parts[j], role, text);
  }

  // ---- back ------------------------------------------------------------------------------------

  lemma {:induction false} RestoreJoin(codec: Codec, a: seq<Item>, b: seq<Item>)
    ensures Restore(codec, a + b) == Restore(codec, a) + Restore(codec, b)
  {
    if b == [] {
      Neutral(a);
      Neutral(Restore(codec, a));
    } else {
      FrontOfJoin(a, b);
      RestoreJoin(codec, a, b[..|b| - 1]);
      Associate(Restore(codec, a), Restore(codec, b[..|b| - 1]), RestoreItem(codec, b[|b| - 1]));
    }
  }

  /** An image given by an address that holds no data of its own. */
  predicate PointsTo(part: Part, url: string) {
    part.InputImage? && Strings.TrimSpace(part.url) == url && url != "" && !Strings.HasPrefix(url, "data:")
  }

  /** The blocks one item is to be restored as.  Thinking the gateway did not seal is left out; arguments that are
      blank, not JSON or null are an empty object. */
  ghost predicate RestoredAs(codec: Codec, item: Item, blocks: seq<Placed>) {
    match item
    case MessageItem(role, parts) =>
      && (forall p :: p in blocks ==> p.role == role && (p.block.Text? || p.block.Image? || p.block.LinkedImage?))
      && (forall text :: Placed(role, Text(text)) in blocks
                         <==> !Blank(text) && (InputText(text) in parts || OutputText(text) in parts))
      && (forall url :: Placed(role, LinkedImage(url)) in blocks
                        <==> exists i :: 0 <= i < |parts| && PointsTo(parts[i], url))
    case FunctionCall(callId, name, arguments) =>
      if name == "" then blocks == []
      else |blocks| == 1 && blocks[0].role.Assistant? && blocks[0].block.ToolUse?
           && blocks[0].block.id == SanitizeAnthropic(codec.sum, callId) && blocks[0].block.name == name
           && blocks[0].block.input != Null
           && (codec.parse(arguments) == Some(blocks[0].block.input)
               || (codec.parse(arguments) in {None, Some(Null)} && blocks[0].block.input == Object([])))
    case CallOutput(callId, output, failed) =>
      blocks == [Placed(User, ToolResult(SanitizeAnthropic(codec.sum, callId), Plain(output), failed))]
    case ReasoningItem(_, encrypted) =>
      if codec.unseal(encrypted).None? then blocks == []
      else blocks == [Placed(Assistant, Thinking(codec.unseal(encrypted).value))]
  }

  lemma PartRestored(role: Role, part: Part, text: string)
    ensures forall p :: p in RestorePart(role, part) ==>
              p.role == role && (p.block.Text? || p.block.Image? || p.block.LinkedImage?)
    ensures Placed(role, Text(text)) in RestorePart(role, part)
            <==> !Blank(text) && part in {InputText(text), OutputText(text)}
  {
  }

  lemma {:induction false} PartsRestored(role: Role, parts: seq<Part>, text: string)
    ensures forall p :: p in RestoreParts(role, parts) ==>
              p.role == role && (p.block.Text? || p.block.Image? || p.block.LinkedImage?)
    ensures Placed(role, Text(text)) in RestoreParts(role, parts)
            <==> !Blank(text) && (InputText(text) in parts || OutputText(text) in parts)
  {
    if parts != [] {
      ButLast(parts);
      PartsRestored(role, parts[..|parts| - 1], text);
      PartRestored(role, parts[|parts| - 1], text);
    }
  }

  lemma ImageRestored(role: Role, part: Part, url: string)
    ensures Placed(role, LinkedImage(url)) in RestorePart(role, part) <==> PointsTo(part, url)
  {
    if part.InputImage? && ImageFrom(part.url) != [] {
      assert InRole(role, ImageFrom(part.url)) == [Placed(role, ImageFrom(part.url)[0])];
    }
  }

  lemma {:induction false} LinksRestored(role: Role, parts: seq<Part>, url: string)
    ensures Placed(role, LinkedImage(url)) in RestoreParts(role, parts)
            <==> exists i :: 0 <= i < |parts| && PointsTo(parts[i], url)
  {
    if parts != [] {
      var last := |parts| - 1;
      LinksRestored(role, parts[..last], url);
      ImageRestored(role, parts[last], url);
      assert forall i :: 0 <= i < last ==> parts[..last][i] == parts[i];
    }
  }

  lemma RestoredAsIs(codec: Codec, item: Item)
    ensures RestoredAs(codec, item, RestoreItem(codec, item))
  {
    if item.MessageItem? {
      PartsRestored(item.role, item.parts, "");
      forall text {
        PartsRestored(item.role, item.parts, text);
      }
      forall url {
        LinksRestored(item.role, item.parts, url);
      }
    }
  }

  lemma RestoreAround(codec: Codec, a: seq<Item>, item: Item, b: seq<Item>)
    ensures Restore(codec, a + [item] + b) == Restore(codec, a) + RestoreItem(codec, item) + Restore(codec, b)
  {
    RestoreJoin(codec, a + [item], b);
    Front(a, item);
  }

  /** Wherever an item stands in any input at all, it comes back in its place, as what it is to be, and what
      stands before and after it comes back as without it. */
  lemma ItemComesBack(codec: Codec, a: seq<Item>, item: Item, b: seq<Item>) returns (blocks: seq<Placed>)
    ensures Flat(Back(codec, a + [item] + b)) == Flat(Back(codec, a)) + blocks + Flat(Back(codec, b))
    ensures RestoredAs(codec, item, blocks)
  {
    blocks := RestoreItem(codec, item);
    GroupFlat(Restore(codec, a));
    GroupFlat(Restore(codec, b));
    GroupFlat(Restore(codec, a + [item] + b));
    RestoreAround(codec, a, item, b);
    RestoredAsIs(codec, item);
  }
}
