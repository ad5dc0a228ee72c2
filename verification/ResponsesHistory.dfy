/** Claude conversations as Responses input, and back.

    `Forth` flattens messages into items and `Back` nests items into messages again.  `Surviving` says,
    block by block, what of a conversation comes through both. */
module ResponsesHistory {
  import opened ClaudeHistory
  import opened ToolIds
  import opened ToolImages
  import Strings = Text

  datatype Part = InputText(text: string) | OutputText(text: string) | InputImage(url: string)

  datatype Item =
    | MessageItem(role: Role, parts: seq<Part>)
    | FunctionCall(callId: string, name: string, arguments: string)
    | CallOutput(callId: string, output: string, failed: bool)
    | ReasoningItem(summary: string, encrypted: string)

  datatype Option<T> = None | Some(value: T)

  /** JSON and the encoding of thinking blocks.  `parse` is the reading of a call's arguments, `None`
      where they are blank or not JSON; `sum` is the digest appended to ids. */
  datatype Codec = Codec(
    marshal: Json -> string,
    parse: string -> Option<Json>,
    seal: Thought -> string,
    unseal: string -> Option<Thought>,
    sum: string -> string)

  /** What is encoded is decoded to itself, and digests are hexadecimal. */
  ghost predicate Faithful(codec: Codec) {
    && (forall v :: codec.parse(codec.marshal(v)) == Some(v))
    && codec.parse("{}") == Some(Object([]))
    && (forall t :: codec.unseal(codec.seal(t)) == Some(t))
    && (forall s :: IdText(codec.sum(s)))
  }

  predicate Meaningful(text: string) {
    Strings.TrimSpace(text) != ""
  }

  function FirstNonBlank(a: string, b: string): string {
    if Meaningful(a) then a else b
  }

  // ---- images ----------------------------------------------------------------------------------

  function DataUrl(mediaType: string, data: string): string {
    "data:" + FirstNonBlank(mediaType, "image/png") + ";base64," + data
  }

  /** Where `c` first is in `s`, or past the end. */
  function IndexOf(s: string, c: char): (n: nat)
    ensures n <= |s|
    ensures n < |s| ==> s[n] == c
    ensures forall i :: 0 <= i < n ==> s[i] != c
  {
    if s == "" || s[0] == c then 0 else 1 + IndexOf(s[1..], c)
  }

  /** An image the client linked: inline data is taken apart, any other address is kept. */
  function ImageFrom(raw: string): seq<Block> {
    var url := Strings.TrimSpace(raw);
    if url == "" then []
    else if !Strings.HasPrefix(url, "data:") then [LinkedImage(url)]
    else
      var rest := url[5..];
      var comma := IndexOf(rest, ',');
      if comma == |rest| || rest[comma + 1..] == "" then []
      else
        var meta := rest[..comma];
        var kind := Strings.TrimSpace(meta[..IndexOf(meta, ';')]);
        [Image(if kind != "" then kind else "image/png", rest[comma + 1..])]
  }

  // ---- tool results ----------------------------------------------------------------------------

  function JoinLines(a: string, b: string): string {
    a + "\n" + b
  }

  function Texts(parts: seq<ResultPart>): seq<string> {
    if parts == [] then []
    else
      var last := parts[|parts| - 1];
      Texts(parts[..|parts| - 1]) + (if last.TextPart? && Meaningful(last.text) then [last.text] else [])
  }

  function Join(texts: seq<string>): string {
    if texts == [] then ""
    else if |texts| == 1 then texts[0]
    else JoinLines(Join(texts[..|texts| - 1]), texts[|texts| - 1])
  }

  function Urls(parts: seq<ResultPart>): seq<string> {
    if parts == [] then []
    else
      Urls(parts[..|parts| - 1])
      + (match parts[|parts| - 1]
         case TextPart(_) => []
         case ImagePart(mediaType, data) => if data != "" then [DataUrl(mediaType, data)] else []
         case LinkPart(url) => if url != "" then [url] else [])
  }

  function ResultText(content: ResultContent): string {
    match content
    case Plain(text) => text
    case Parts(parts) =>
      if Urls(parts) == [] then Join(Texts(parts)) else AppendImageNote(Join(Texts(parts)), |Urls(parts)|)
  }

  function ResultUrls(content: ResultContent): seq<string> {
    match content
    case Plain(_) => []
    case Parts(parts) => Urls(parts)
  }

  function ImageParts(urls: seq<string>): seq<Part> {
    seq(|urls|, i requires 0 <= i < |urls| => InputImage(urls[i]))
  }

  // ---- forth -----------------------------------------------------------------------------------

  /** The items so far, the parts of the message under way, and the names of the calls. */
  datatype Flattening = Flattening(input: seq<Item>, content: seq<Part>, names: Names)

  function Flush(f: Flattening, role: Role): Flattening {
    if f.content == [] then f else f.(input := f.input + [MessageItem(role, f.content)], content := [])
  }

  function Put(f: Flattening, item: Item): Flattening {
    f.(input := f.input + [item])
  }

  function TextPartIn(role: Role, text: string): Part {
    if role.Assistant? then OutputText(text) else InputText(text)
  }

  function CallArguments(codec: Codec, input: Json): string {
    if input.Null? then "{}" else codec.marshal(input)
  }

  function PutResult(f: Flattening, callId: string, content: ResultContent): Flattening {
    var urls := ResultUrls(content);
    var told := Put(f, CallOutput(callId, ResultText(content), false));
    if urls == [] then told
    else Put(told, MessageItem(User, [InputText(Label(f.names, callId))] + ImageParts(urls)))
  }

  function PutBlock(codec: Codec, f: Flattening, role: Role, block: Block): Flattening {
    match block
    case Text(text) => if Meaningful(text) then f.(content := f.content + [TextPartIn(role, text)]) else f
    case Image(mediaType, data) =>
      if data != "" then f.(content := f.content + [InputImage(DataUrl(mediaType, data))]) else f
    case LinkedImage(_) => f
    case ToolUse(id, name, input) =>
      var quiet := Flush(f, role);
      var callId := SanitizeResponses(id);
      if name == "" then quiet
      else Put(quiet, FunctionCall(callId, name, CallArguments(codec, input))).(names := f.names[callId := name])
    case ToolResult(toolUseId, content, _) =>
      var quiet := Flush(f, role);
      var callId := SanitizeResponses(toolUseId);
      if callId == "" then quiet else PutResult(quiet, callId, content)
    case Thinking(thought) => Put(Flush(f, role), ReasoningItem(thought.text, codec.seal(thought)))
  }

  function PutBlocks(codec: Codec, f: Flattening, role: Role, blocks: seq<Block>): Flattening {
    if blocks == [] then f
    else PutBlock(codec, PutBlocks(codec, f, role, blocks[..|blocks| - 1]), role, blocks[|blocks| - 1])
  }

  function PutTurn(codec: Codec, f: Flattening, turn: Turn): Flattening {
    match turn.content
    case Words(text) =>
      if Meaningful(text) then Put(f, MessageItem(turn.role, [TextPartIn(turn.role, text)])) else f
    case Blocks(blocks) => Flush(PutBlocks(codec, f, turn.role, blocks), turn.role)
  }

  function PutTurns(codec: Codec, turns: seq<Turn>): Flattening {
    if turns == [] then Flattening([], [], map[])
    else PutTurn(codec, PutTurns(codec, turns[..|turns| - 1]), turns[|turns| - 1])
  }

  function Forth(codec: Codec, turns: seq<Turn>): seq<Item> {
    PutTurns(codec, turns).input
  }

  /** `claudeMessagesToResponsesInput`. */
  method ClaudeMessagesToResponsesInput(codec: Codec, turns: seq<Turn>) returns (input: seq<Item>)
    ensures input == Forth(codec, turns)
  {
    input := [];
    var names: Names := map[];
    for i := 0 to |turns|
      invariant Flattening(input, [], names) == PutTurns(codec, turns[..i])
    {
      assert turns[..i + 1][..i] == turns[..i];
      var role := turns[i].role;
      match turns[i].content {
        case Words(text) =>
          if Meaningful(text) {
            input := input + [MessageItem(role, [TextPartIn(role, text)])];
          }
        case Blocks(blocks) =>
          ghost var start := Flattening(input, [], names);
          var f := Flattening(input, [], names);
          for j := 0 to |blocks|
            invariant f == PutBlocks(codec, start, role, blocks[..j])
          {
            assert blocks[..j + 1][..j] == blocks[..j];
            f := PutBlock(codec, f, role, blocks[j]);
          }
          assert blocks[..|blocks|] == blocks;
          f := Flush(f, role);
          input, names := f.input, f.names;
      }
    }
    assert turns[..|turns|] == turns;
  }

  // ---- back ------------------------------------------------------------------------------------

  function RestorePart(role: Role, part: Part): seq<Placed> {
    match part
    case InputText(text) => if Meaningful(text) then [Placed(role, Text(text))] else []
    case OutputText(text) => if Meaningful(text) then [Placed(role, Text(text))] else []
    case InputImage(url) => InRole(role, ImageFrom(url))
  }

  function RestoreParts(role: Role, parts: seq<Part>): seq<Placed> {
    if parts == [] then []
    else RestoreParts(role, parts[..|parts| - 1]) + RestorePart(role, parts[|parts| - 1])
  }

  function ParseArguments(codec: Codec, arguments: string): Json {
    match codec.parse(arguments)
    case Some(v) => if v.Null? then Object([]) else v
    case None => Object([])
  }

  function RestoreItem(codec: Codec, item: Item): seq<Placed> {
    match item
    case MessageItem(role, parts) => RestoreParts(role, parts)
    case FunctionCall(callId, name, arguments) =>
      if name == "" then []
      else [Placed(Assistant, ToolUse(SanitizeAnthropic(codec.sum, callId), name, ParseArguments(codec, arguments)))]
    case CallOutput(callId, output, failed) =>
      [Placed(User, ToolResult(SanitizeAnthropic(codec.sum, callId), Plain(output), failed))]
    case ReasoningItem(_, encrypted) =>
      (match codec.unseal(encrypted)
       case Some(thought) => [Placed(Assistant, Thinking(thought))]
       case None => [])
  }

  function Restore(codec: Codec, input: seq<Item>): seq<Placed> {
    if input == [] then []
    else Restore(codec, input[..|input| - 1]) + RestoreItem(codec, input[|input| - 1])
  }

  function Back(codec: Codec, input: seq<Item>): seq<Message> {
    Group(Restore(codec, input))
  }

  /** `pushClaudeBlock`, once for each block of an item. */
  method PushAll(messages0: seq<Message>, placed: seq<Placed>,
                 ghost before: seq<Placed>) returns (messages: seq<Message>)
    requires messages0 == Group(before)
    ensures messages == Group(before + placed)
  {
    messages := messages0;
    assert before + placed[..0] == before;
    for i := 0 to |placed|
      invariant messages == Group(before + placed[..i])
    {
      messages := Push(messages, placed[i]);
      GroupAppend(before + placed[..i], placed[i]);
      assert before + placed[..i] + [placed[i]] == before + placed[..i + 1];
    }
    assert placed[..|placed|] == placed;
  }

  /** `responsesInputToClaudeMessages`. */
  method ResponsesInputToClaudeMessages(codec: Codec, input: seq<Item>) returns (messages: seq<Message>)
    ensures messages == Back(codec, input)
  {
    messages := [];
    for i := 0 to |input|
      invariant messages == Back(codec, input[..i])
    {
      messages := PushAll(messages, RestoreItem(codec, input[i]), Restore(codec, input[..i]));
      assert input[..i + 1][..i] == input[..i];
    }
    assert input[..|input|] == input;
  }

  // ---- what comes through ----------------------------------------------------------------------

  /** A conversation as its blocks, a string boxed as one text block. */
  function BlocksOf(content: Content): seq<Block> {
    match content
    case Words(text) => [Text(text)]
    case Blocks(blocks) => blocks
  }

  function Placements(turns: seq<Turn>): seq<Placed> {
    if turns == [] then []
    else
      var last := turns[|turns| - 1];
      Placements(turns[..|turns| - 1]) + InRole(last.role, BlocksOf(last.content))
  }

  function NamesOf(placed: seq<Placed>): Names {
    if placed == [] then map[]
    else
      var names, block := NamesOf(placed[..|placed| - 1]), placed[|placed| - 1].block;
      if block.ToolUse? && block.name != "" then names[SanitizeResponses(block.id) := block.name] else names
  }

  function RestoreImages(urls: seq<string>): seq<Placed> {
    if urls == [] then []
    else RestoreImages(urls[..|urls| - 1]) + InRole(User, ImageFrom(urls[|urls| - 1]))
  }

  /** A result as a string, and its images after it, under a heading. */
  function ResultSurvives(id: string, output: string, heading: string, urls: seq<string>): seq<Placed> {
    [Placed(User, ToolResult(id, Plain(output), false))]
    + if urls == [] then [] else [Placed(User, Text(heading))] + RestoreImages(urls)
  }

  function CallKept(codec: Codec, callId: string, name: string, input: Json): seq<Placed> {
    if name == "" then []
    else [Placed(Assistant,
                 ToolUse(SanitizeAnthropic(codec.sum, callId), name, if input.Null? then Object([]) else input))]
  }

  function AnswerKept(codec: Codec, names: Names, callId: string, content: ResultContent): seq<Placed> {
    if callId == "" then []
    else ResultSurvives(SanitizeAnthropic(codec.sum, callId), ResultText(content),
                        Label(names, callId), ResultUrls(content))
  }

  /** What one block becomes.  Calls and thinking are the assistant's, results the user's, whoever's
      message they stood in; images of a result follow it in the user's. */
  function Survives(codec: Codec, names: Names, p: Placed): seq<Placed> {
    match p.block
    case Text(text) => if Meaningful(text) then [p] else []
    case Image(mediaType, data) => if data != "" then InRole(p.role, ImageFrom(DataUrl(mediaType, data))) else []
    case LinkedImage(_) => []
    case ToolUse(id, name, input) => CallKept(codec, SanitizeResponses(id), name, input)
    case ToolResult(id, content, _) => AnswerKept(codec, names, SanitizeResponses(id), content)
    case Thinking(thought) => [Placed(Assistant, Thinking(thought))]
  }

  function Surviving(codec: Codec, placed: seq<Placed>): seq<Placed> {
    if placed == [] then []
    else
      var before := placed[..|placed| - 1];
      Surviving(codec, before) + Survives(codec, NamesOf(before), placed[|placed| - 1])
  }
}
