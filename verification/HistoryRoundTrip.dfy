/** What a Claude conversation comes back as after a trip through Responses input. */
module HistoryRoundTrip {
  import opened ClaudeHistory
  import opened ResponsesHistory
  import opened ToolIds
  import opened ToolImages
  import opened Sequences
  import Strings = Text

  // ---- appending -------------------------------------------------------------------------------

  lemma RestoreAppend(codec: Codec, input: seq<Item>, item: Item)
    ensures Restore(codec, input + [item]) == Restore(codec, input) + RestoreItem(codec, item)
  {
    assert (input + [item])[..|input|] == input;
  }

  lemma RestorePartsAppend(role: Role, parts: seq<Part>, part: Part)
    ensures RestoreParts(role, parts + [part]) == RestoreParts(role, parts) + RestorePart(role, part)
  {
    assert (parts + [part])[..|parts|] == parts;
  }

  lemma SurvivingAppend(codec: Codec, placed: seq<Placed>, p: Placed)
    ensures Surviving(codec, placed + [p]) == Surviving(codec, placed) + Survives(codec, NamesOf(placed), p)
    ensures NamesOf(placed + [p])
         == if p.block.ToolUse? && p.block.name != ""
           then NamesOf(placed)[SanitizeResponses(p.block.id) := p.block.name]
            else NamesOf(placed)
  {
    assert (placed + [p])[..|placed|] == placed;
  }

  // ---- images of a result ----------------------------------------------------------------------

  lemma LabelMeaningful(names: Names, callId: string)
    ensures Meaningful(Label(names, callId))
  {
    assert Label(names, callId)[0] == '[';
    Strings.VisibleStart(Label(names, callId));
  }

  lemma OnePart(role: Role, part: Part)
    ensures RestoreParts(role, [part]) == RestorePart(role, part)
  {
    Neutral([part]);
    RestorePartsAppend(role, [], part);
    Neutral(RestorePart(role, part));
  }

  lemma ImagePartsAppend(urls: seq<string>, url: string)
    ensures ImageParts(urls + [url]) == ImageParts(urls) + [InputImage(url)]
  {
  }

  lemma {:induction false} ImagesRestored(heading: string, urls: seq<string>)
    requires Meaningful(heading)
    ensures RestoreParts(User, [InputText(heading)] + ImageParts(urls))
            == [Placed(User, Text(heading))] + RestoreImages(urls)
  {
    if urls == [] {
      Neutral([InputText(heading)]);
      OnePart(User, InputText(heading));
      Neutral([Placed(User, Text(heading))]);
    } else {
      var front, last := urls[..|urls| - 1], urls[|urls| - 1];
      ImagesRestored(heading, front);
      ImagePartsAppend(front, last);
      ButLast(urls);
      Associate([InputText(heading)], ImageParts(front), [InputImage(last)]);
      RestorePartsAppend(User, [InputText(heading)] + ImageParts(front), InputImage(last));
      Associate([Placed(User, Text(heading))], RestoreImages(front), InRole(User, ImageFrom(last)));
    }
  }

  // ---- one block -------------------------------------------------------------------------------

  /** Nesting what has been flattened so far, with the message under way, gives what survives. */
  ghost predicate Tied(codec: Codec, f: Flattening, role: Role, placed: seq<Placed>) {
    var tied :=
      && Restore(codec, f.input) + RestoreParts(role, f.content) == Surviving(codec, placed)
      && f.names == NamesOf(placed);
    tied
  }

  /** The same, with no message under way. */
  ghost predicate Level(codec: Codec, f: Flattening, placed: seq<Placed>) {
    var level :=
      && Restore(codec, f.input) == Surviving(codec, placed)
      && f.content == [] && f.names == NamesOf(placed);
    level
  }

  lemma LevelIsTied(codec: Codec, f: Flattening, role: Role, placed: seq<Placed>)
    requires Level(codec, f, placed)
    ensures Tied(codec, f, role, placed)
  {
    Neutral(Restore(codec, f.input));
  }

  lemma FlushTied(codec: Codec, f: Flattening, role: Role, placed: seq<Placed>)
    requires Tied(codec, f, role, placed)
    ensures Level(codec, Flush(f, role), placed)
  {
    RestoreAppend(codec, f.input, MessageItem(role, f.content));
    Neutral(Restore(codec, f.input));
  }

  lemma PutTied(codec: Codec, f: Flattening, role: Role, placed: seq<Placed>, item: Item, p: Placed)
    requires Level(codec, f, placed)
    requires RestoreItem(codec, item) == Survives(codec, NamesOf(placed), p)
    ensures Tied(codec, Put(f, item).(names := NamesOf(placed + [p])), role, placed + [p])
  {
    RestoreAppend(codec, f.input, item);
    SurvivingAppend(codec, placed, p);
    LevelIsTied(codec, Put(f, item).(names := NamesOf(placed + [p])), role, placed + [p]);
  }

  lemma NothingTied(codec: Codec, f: Flattening, role: Role, placed: seq<Placed>, p: Placed)
    requires Tied(codec, f, role, placed)
    requires Survives(codec, NamesOf(placed), p) == [] && NamesOf(placed + [p]) == NamesOf(placed)
    ensures Tied(codec, f, role, placed + [p])
  {
    SurvivingAppend(codec, placed, p);
    Neutral(Surviving(codec, placed));
  }

  lemma PartTied(codec: Codec, f: Flattening, role: Role, placed: seq<Placed>, part: Part, p: Placed)
    requires Tied(codec, f, role, placed) && !p.block.ToolUse?
    requires RestorePart(role, part) == Survives(codec, NamesOf(placed), p)
    ensures Tied(codec, f.(content := f.content + [part]), role, placed + [p])
  {
    RestorePartsAppend(role, f.content, part);
    SurvivingAppend(codec, placed, p);
    Associate(Restore(codec, f.input), RestoreParts(role, f.content), RestorePart(role, part));
  }

  function ImagesItem(heading: string, urls: seq<string>): Item {
    MessageItem(User, [InputText(heading)] + ImageParts(urls))
  }

  /** A result, and the message its images follow in. */
  lemma ResultRestored(codec: Codec, callId: string, output: string, heading: string, urls: seq<string>)
    requires Meaningful(heading)
    ensures ResultSurvives(SanitizeAnthropic(codec.sum, callId), output, heading, urls)
         == RestoreItem(codec, CallOutput(callId, output, false))
            + if urls == [] then [] else RestoreItem(codec, ImagesItem(heading, urls))
  {
    ImagesRestored(heading, urls);
  }

  /** The items of a result, put after others. */
  lemma ResultPut(codec: Codec, input: seq<Item>, callId: string, output: string, heading: string, urls: seq<string>)
    requires Meaningful(heading)
    ensures var item := CallOutput(callId, output, false);
            Restore(codec, if urls == [] then input + [item] else input + [item] + [ImagesItem(heading, urls)])
            == Restore(codec, input) + ResultSurvives(SanitizeAnthropic(codec.sum, callId), output, heading, urls)
  {
    var item, images := CallOutput(callId, output, false), ImagesItem(heading, urls);
    ResultRestored(codec, callId, output, heading, urls);
    RestoreAppend(codec, input, item);
    RestoreAppend(codec, input + [item], images);
    Associate(Restore(codec, input), RestoreItem(codec, item), RestoreItem(codec, images));
    Neutral(RestoreItem(codec, item));
  }

  /** A result put after what is there already. */
  lemma ResultTied(codec: Codec, f: Flattening, role: Role, placed: seq<Placed>, p: Placed, callId: string,
                   content: ResultContent)
    requires Level(codec, f, placed) && callId != ""
    requires Survives(codec, NamesOf(placed), p) == AnswerKept(codec, NamesOf(placed), callId, content)
    requires NamesOf(placed + [p]) == NamesOf(placed)
    ensures Tied(codec, PutResult(f, callId, content), role, placed + [p])
  {
    SurvivingAppend(codec, placed, p);
    LabelMeaningful(f.names, callId);
    ResultPut(codec, f.input, callId, ResultText(content), Label(f.names, callId), ResultUrls(content));
    LevelIsTied(codec, PutResult(f, callId, content), role, placed + [p]);
  }

  lemma ArgumentsRestored(codec: Codec, input: Json)
    requires Faithful(codec)
    ensures ParseArguments(codec, CallArguments(codec, input)) == if input.Null? then Object([]) else input
  {
  }

  lemma NamesAppend(placed: seq<Placed>, p: Placed)
    ensures NamesOf(placed + [p])
         == if p.block.ToolUse? && p.block.name != ""
           then NamesOf(placed)[SanitizeResponses(p.block.id) := p.block.name]
            else NamesOf(placed)
  {
    Front(placed, p);
  }

  lemma CallTied(codec: Codec, f: Flattening, role: Role, placed: seq<Placed>, block: Block)
    requires Faithful(codec) && Level(codec, f, placed) && block.ToolUse?
    ensures Tied(codec, PutBlock(codec, f, role, block), role, placed + [Placed(role, block)])
  {
    var p := Placed(role, block);
    NamesAppend(placed, p);
    LevelIsTied(codec, f, role, placed);
    if block.name == "" {
      NothingTied(codec, f, role, placed, p);
    } else {
      ArgumentsRestored(codec, block.input);
      PutTied(codec, f, role, placed,
              FunctionCall(SanitizeResponses(block.id), block.name, CallArguments(codec, block.input)), p);
    }
  }

  lemma ThoughtTied(codec: Codec, f: Flattening, role: Role, placed: seq<Placed>, block: Block)
    requires Faithful(codec) && Level(codec, f, placed) && block.Thinking?
    ensures Tied(codec, PutBlock(codec, f, role, block), role, placed + [Placed(role, block)])
  {
    NamesAppend(placed, Placed(role, block));
    PutTied(codec, f, role, placed, ReasoningItem(block.thought.text, codec.seal(block.thought)), Placed(role, block));
  }

  lemma AnswerTied(codec: Codec, f: Flattening, role: Role, placed: seq<Placed>, block: Block)
    requires Level(codec, f, placed) && block.ToolResult?
    ensures Tied(codec, PutBlock(codec, f, role, block), role, placed + [Placed(role, block)])
  {
    NamesAppend(placed, Placed(role, block));
    LevelIsTied(codec, f, role, placed);
    if SanitizeResponses(block.toolUseId) == "" {
      NothingTied(codec, f, role, placed, Placed(role, block));
    } else {
      ResultTied(codec, f, role, placed, Placed(role, block), SanitizeResponses(block.toolUseId), block.content);
    }
  }

  lemma SaidTied(codec: Codec, f: Flattening, role: Role, placed: seq<Placed>, block: Block)
    requires Tied(codec, f, role, placed) && (block.Text? || block.Image? || block.LinkedImage?)
    ensures Tied(codec, PutBlock(codec, f, role, block), role, placed + [Placed(role, block)])
  {
    var p := Placed(role, block);
    NamesAppend(placed, p);
    if block.Text? && Meaningful(block.text) {
      PartTied(codec, f, role, placed, TextPartIn(role, block.text), p);
    } else if block.Image? && block.data != "" {
      PartTied(codec, f, role, placed, InputImage(DataUrl(block.mediaType, block.data)), p);
    } else {
      NothingTied(codec, f, role, placed, p);
    }
  }

  lemma PutBlockTied(codec: Codec, f: Flattening, role: Role, placed: seq<Placed>, block: Block)
    requires Faithful(codec) && Tied(codec, f, role, placed)
    ensures Tied(codec, PutBlock(codec, f, role, block), role, placed + [Placed(role, block)])
  {
    FlushTied(codec, f, role, placed);
    FlushAgain(f, role);
    match block
    case ToolUse(_, _, _) =>
      CallTied(codec, Flush(f, role), role, placed, block);
    case ToolResult(_, _, _) =>
      AnswerTied(codec, Flush(f, role), role, placed, block);
    case Thinking(_) =>
      ThoughtTied(codec, Flush(f, role), role, placed, block);
    case _ => SaidTied(codec, f, role, placed, block);
  }

  lemma FlushAgain(f: Flattening, role: Role)
    ensures Flush(Flush(f, role), role) == Flush(f, role)
  {
  }

  lemma {:induction false} PutBlocksTied(codec: Codec, f: Flattening, role: Role, placed: seq<Placed>,
                                         blocks: seq<Block>)
    requires Faithful(codec) && Tied(codec, f, role, placed)
    ensures Tied(codec, PutBlocks(codec, f, role, blocks), role, placed + InRole(role, blocks))
  {
    if blocks == [] {
      Neutral(placed);
    } else {
      var front, last := blocks[..|blocks| - 1], blocks[|blocks| - 1];
      PutBlocksTied(codec, f, role, placed, front);
      PutBlockTied(codec, PutBlocks(codec, f, role, front), role, placed + InRole(role, front), last);
      ButLast(blocks);
      InRoleAppend(role, front, last);
      Associate(placed, InRole(role, front), [Placed(role, last)]);
    }
  }

  lemma {:induction false} PutTurnsTied(codec: Codec, turns: seq<Turn>)
    requires Faithful(codec)
    ensures Level(codec, PutTurns(codec, turns), Placements(turns))
  {
    if turns != [] {
      var front, last := turns[..|turns| - 1], turns[|turns| - 1];
      PutTurnsTied(codec, front);
      TurnTied(codec, PutTurns(codec, front), Placements(front), last);
    }
  }

  lemma TurnTied(codec: Codec, f: Flattening, placed: seq<Placed>, turn: Turn)
    requires Faithful(codec) && Level(codec, f, placed)
    ensures Level(codec, PutTurn(codec, f, turn), placed + InRole(turn.role, BlocksOf(turn.content)))
  {
    match turn.content
    case Words(text) =>
      InRoleOne(turn.role, Text(text));
      WordsTied(codec, f, turn.role, placed, text);
    case Blocks(blocks) =>
      LevelIsTied(codec, f, turn.role, placed);
      PutBlocksTied(codec, f, turn.role, placed, blocks);
      FlushTied(codec, PutBlocks(codec, f, turn.role, blocks), turn.role, placed + InRole(turn.role, blocks));
  }

  lemma InRoleOne(role: Role, block: Block)
    ensures InRole(role, [block]) == [Placed(role, block)]
  {
  }

  lemma WordsTied(codec: Codec, f: Flattening, role: Role, placed: seq<Placed>, text: string)
    requires Level(codec, f, placed)
    ensures Level(codec, PutTurn(codec, f, Turn(role, Words(text))), placed + [Placed(role, Text(text))])
  {
    SurvivingAppend(codec, placed, Placed(role, Text(text)));
    if Meaningful(text) {
      RestoreAppend(codec, f.input, MessageItem(role, [TextPartIn(role, text)]));
      OnePart(role, TextPartIn(role, text));
    } else {
      Neutral(Surviving(codec, placed));
    }
  }

  // ---- the round trip --------------------------------------------------------------------------

  /** Every conversation comes back as what of it survives, in order, grouped into messages. */
  lemma RoundTrip(codec: Codec, turns: seq<Turn>)
    requires Faithful(codec)
    ensures Back(codec, Forth(codec, turns)) == Group(Surviving(codec, Placements(turns)))
  {
    PutTurnsTied(codec, turns);
  }

  /** A block in its proper place, of the kind both protocols carry. */
  predicate Carried(p: Placed) {
    match p.block
    case Text(text) => Meaningful(text)
    case Image(mediaType, data) => ImageFrom(DataUrl(mediaType, data)) == [p.block] && data != ""
    case LinkedImage(_) => false
    case ToolUse(id, name, input) => p.role.Assistant? && ValidId(id) && name != "" && !input.Null?
    case ToolResult(id, content, failed) => p.role.User? && ValidId(id) && content.Plain? && !failed
    case Thinking(_) => p.role.Assistant?
  }

  lemma CallSurvives(codec: Codec, names: Names, p: Placed)
    requires Carried(p) && p.block.ToolUse?
    ensures Survives(codec, names, p) == [p]
  {
    ValidIdKept(codec.sum, p.block.id);
  }

  lemma AnswerSurvives(codec: Codec, names: Names, p: Placed)
    requires Carried(p) && p.block.ToolResult?
    ensures Survives(codec, names, p) == [p]
  {
    ValidIdKept(codec.sum, p.block.toolUseId);
    Neutral([p]);
  }

  lemma CarriedSurvives(codec: Codec, names: Names, p: Placed)
    requires Carried(p)
    ensures Survives(codec, names, p) == [p]
  {
    match p.block
    case ToolUse(_, _, _) => CallSurvives(codec, names, p);
    case ToolResult(_, _, _) => AnswerSurvives(codec, names, p);
    case Image(_, _) => assert InRole(p.role, [p.block]) == [p];
    case _ =>
  }

  lemma {:induction false} AllCarriedSurvive(codec: Codec, placed: seq<Placed>)
    requires forall i :: 0 <= i < |placed| ==> Carried(placed[i])
    ensures Surviving(codec, placed) == placed
  {
    if placed != [] {
      var front, last := placed[..|placed| - 1], placed[|placed| - 1];
      AllCarriedSurvive(codec, front);
      CarriedSurvives(codec, NamesOf(front), last);
      ButLast(placed);
    }
  }

  /** A conversation of carried blocks comes back block for block, thinking blocks identical and in
      place: strings boxed as one text block, neighbours of one role merged, and nothing else changed. */
  lemma WellFormedRoundTrip(codec: Codec, turns: seq<Turn>)
    requires Faithful(codec)
    requires forall i :: 0 <= i < |Placements(turns)| ==> Carried(Placements(turns)[i])
    ensures Flat(Back(codec, Forth(codec, turns))) == Placements(turns)
    ensures Back(codec, Forth(codec, turns)) == Group(Placements(turns))
  {
    RoundTrip(codec, turns);
    AllCarriedSurvive(codec, Placements(turns));
    GroupFlat(Placements(turns));
  }

  // ---- a second trip ---------------------------------------------------------------------------

  function Resent(messages: seq<Message>): seq<Turn> {
    seq(|messages|, i requires 0 <= i < |messages| => Turn(messages[i].role, Blocks(messages[i].blocks)))
  }

  lemma {:induction false} ResentPlacements(messages: seq<Message>)
    ensures Placements(Resent(messages)) == Flat(messages)
  {
    if messages != [] {
      var front := messages[..|messages| - 1];
      assert Resent(messages)[..|messages| - 1] == Resent(front);
      ResentPlacements(front);
    }
  }

  /** What comes out of the first trip is carried by the second, but for linked images. */
  predicate Fixed(p: Placed) {
    p.block.LinkedImage? || Carried(p)
  }

  predicate AllFixed(placed: seq<Placed>) {
    forall i :: 0 <= i < |placed| ==> Fixed(placed[i])
  }

  lemma AllFixedJoin(a: seq<Placed>, b: seq<Placed>)
    requires AllFixed(a) && AllFixed(b)
    ensures AllFixed(a + b)
  {
  }

  lemma IndexOfIs(s: string, c: char, n: nat)
    requires n <= |s| && (n < |s| ==> s[n] == c) && forall i :: 0 <= i < n ==> s[i] != c
    ensures IndexOf(s, c) == n
  {
  }

  /** How an inline address is taken apart. */
  lemma InlineImage(raw: string)
    requires ImageFrom(raw) != [] && ImageFrom(raw)[0].Image?
    ensures var url := Strings.TrimSpace(raw);
            && Strings.HasPrefix(url, "data:")
            && var rest := url[5..];
            && IndexOf(rest, ',') < |rest| && rest[IndexOf(rest, ',') + 1..] != ""
            && var meta := rest[..IndexOf(rest, ',')];
            && var kind := Strings.TrimSpace(meta[..IndexOf(meta, ';')]);
               ImageFrom(raw) == [Image(if kind != "" then kind else "image/png", rest[IndexOf(rest, ',') + 1..])]
  {
  }

  /** An image taken out of an address is the one the same address is made of again. */
  lemma InlineImageStays(raw: string)
    requires ImageFrom(raw) != [] && ImageFrom(raw)[0].Image?
    ensures |ImageFrom(raw)| == 1
    ensures var image := ImageFrom(raw)[0];
            image.data != "" && ImageFrom(DataUrl(image.mediaType, image.data)) == [image]
  {
    InlineImage(raw);
    Strings.TrimSpaceTrims(raw);
    var rest := Strings.TrimSpace(raw)[5..];
    var comma := IndexOf(rest, ',');
    DataIsTrimmed(Strings.TrimSpace(raw), comma);
    MetaStays(rest[..comma], rest[comma + 1..]);
  }

  /** Whatever the part before the data says, the media type read from it is one to put back. */
  lemma MetaStays(meta: string, data: string)
    requires ',' !in meta && data != "" && !Strings.IsSpace(data[|data| - 1])
    ensures var kind := Strings.TrimSpace(meta[..IndexOf(meta, ';')]);
            var mediaType := if kind != "" then kind else "image/png";
            ImageFrom(DataUrl(mediaType, data)) == [Image(mediaType, data)]
  {
    var kind := Strings.TrimSpace(meta[..IndexOf(meta, ';')]);
    Strings.TrimSpaceTrims(meta[..IndexOf(meta, ';')]);
    KindIsPlain(meta, kind);
    PngIsTrimmed();
    DataUrlTakenApart(if kind != "" then kind else "image/png", data);
  }

  lemma DataIsTrimmed(url: string, comma: nat)
    requires Strings.Trimmed(url) && |url| > 5 + comma + 1
    ensures var data := url[5..][comma + 1..]; data != "" && !Strings.IsSpace(data[|data| - 1])
  {
  }

  lemma PngIsTrimmed()
    ensures Strings.Trimmed("image/png") && ',' !in "image/png" && ';' !in "image/png"
  {
  }

  lemma ImageIsFixed(role: Role, raw: string)
    ensures AllFixed(InRole(role, ImageFrom(raw)))
  {
    if ImageFrom(raw) != [] && ImageFrom(raw)[0].Image? {
      InlineImageStays(raw);
    }
  }

  lemma KindIsPlain(meta: string, kind: string)
    requires kind == Strings.TrimSpace(meta[..IndexOf(meta, ';')]) && ',' !in meta
    ensures ',' !in kind && ';' !in kind
  {
    var head := meta[..IndexOf(meta, ';')];
    Strings.TrimSpaceTrims(head);
    assert ',' !in head && ';' !in head;
  }

  lemma DataUrlRest(mediaType: string, data: string)
    requires mediaType != "" && Strings.Trimmed(mediaType) && data != "" && !Strings.IsSpace(data[|data| - 1])
    ensures var url := DataUrl(mediaType, data);
            && Strings.Trimmed(url) && |url| >= 5 && url[..5] == "data:"
            && url[5..] == mediaType + ";base64" + "," + data
  {
    Strings.TrimmedStays(mediaType);
    var url := DataUrl(mediaType, data);
    assert url == "data:" + (mediaType + ";base64" + "," + data);
    assert url[0] == 'd' && url[|url| - 1] == data[|data| - 1];
  }

  /** Inline data with a plain media type and no blank after it is taken apart as it was put together. */
  lemma DataUrlTakenApart(mediaType: string, data: string)
    requires mediaType != "" && Strings.Trimmed(mediaType) && ',' !in mediaType && ';' !in mediaType
    requires data != "" && !Strings.IsSpace(data[|data| - 1])
    ensures ImageFrom(DataUrl(mediaType, data)) == [Image(mediaType, data)]
  {
    DataUrlRest(mediaType, data);
    var meta := mediaType + ";base64";
    var rest := meta + "," + data;
    CommaAfter(meta, mediaType, data);
    InlineTakenApart(DataUrl(mediaType, data), rest, meta, mediaType, data);
  }

  lemma CommaAfter(meta: string, mediaType: string, data: string)
    requires meta == mediaType + ";base64" && ',' !in mediaType && ';' !in mediaType
    ensures IndexOf(meta + "," + data, ',') == |meta| && IndexOf(meta, ';') == |mediaType|
    ensures meta[..|mediaType|] == mediaType
  {
    var rest := meta + "," + data;
    assert forall i :: 0 <= i < |meta| ==> meta[i] != ',';
    IndexOfIs(rest, ',', |meta|);
    IndexOfIs(meta, ';', |mediaType|);
  }

  lemma InlineTakenApart(url: string, rest: string, meta: string, mediaType: string, data: string)
    requires Strings.Trimmed(url) && |url| >= 5 && url[..5] == "data:" && url[5..] == rest
    requires rest == meta + "," + data && IndexOf(rest, ',') == |meta| && data != ""
    requires IndexOf(meta, ';') == |mediaType| <= |meta| && meta[..|mediaType|] == mediaType
    requires Strings.Trimmed(mediaType) && mediaType != ""
    ensures ImageFrom(url) == [Image(mediaType, data)]
  {
    Strings.TrimmedStays(url);
    Strings.TrimmedStays(mediaType);
    assert rest[..|meta|] == meta && rest[|meta| + 1..] == data;
  }

  lemma {:induction false} RestoredImagesFixed(urls: seq<string>)
    ensures AllFixed(RestoreImages(urls))
  {
    if urls != [] {
      RestoredImagesFixed(urls[..|urls| - 1]);
      ImageIsFixed(User, urls[|urls| - 1]);
      AllFixedJoin(RestoreImages(urls[..|urls| - 1]), InRole(User, ImageFrom(urls[|urls| - 1])));
    }
  }

  lemma ResultFixed(id: string, output: string, heading: string, urls: seq<string>)
    requires ValidId(id) && Meaningful(heading)
    ensures AllFixed(ResultSurvives(id, output, heading, urls))
  {
    RestoredImagesFixed(urls);
    AllFixedJoin([Placed(User, Text(heading))], RestoreImages(urls));
    AllFixedJoin([Placed(User, ToolResult(id, Plain(output), false))],
                 if urls == [] then [] else [Placed(User, Text(heading))] + RestoreImages(urls));
  }

  lemma AnswerFixed(codec: Codec, names: Names, callId: string, content: ResultContent)
    requires Faithful(codec)
    ensures AllFixed(AnswerKept(codec, names, callId, content))
  {
    if callId != "" {
      SanitizedIsValid(codec.sum, callId);
      LabelMeaningful(names, callId);
      ResultFixed(SanitizeAnthropic(codec.sum, callId), ResultText(content), Label(names, callId), ResultUrls(content));
    }
  }

  lemma CallFixed(codec: Codec, names: Names, callId: string, name: string, input: Json)
    requires Faithful(codec)
    ensures AllFixed(CallKept(codec, callId, name, input))
  {
    SanitizedIsValid(codec.sum, callId);
  }

  lemma SurvivorFixed(codec: Codec, names: Names, p: Placed)
    requires Faithful(codec)
    ensures AllFixed(Survives(codec, names, p))
  {
    match p.block
    case Image(mediaType, data) => ImageIsFixed(p.role, DataUrl(mediaType, data));
    case ToolUse(id, name, input) => CallFixed(codec, names, SanitizeResponses(id), name, input);
    case ToolResult(id, content, _) => AnswerFixed(codec, names, SanitizeResponses(id), content);
    case _ => WordsFixed(codec, names, p);
  }

  lemma WordsFixed(codec: Codec, names: Names, p: Placed)
    requires p.block.Text? || p.block.LinkedImage? || p.block.Thinking?
    ensures AllFixed(Survives(codec, names, p))
  {
  }

  lemma {:induction false} SurvivorsFixed(codec: Codec, placed: seq<Placed>)
    requires Faithful(codec)
    ensures AllFixed(Surviving(codec, placed))
  {
    if placed != [] {
      var front, last := placed[..|placed| - 1], placed[|placed| - 1];
      SurvivorsFixed(codec, front);
      SurvivorFixed(codec, NamesOf(front), last);
      AllFixedJoin(Surviving(codec, front), Survives(codec, NamesOf(front), last));
    }
  }

  predicate HasLink(placed: seq<Placed>) {
    exists i :: 0 <= i < |placed| && placed[i].block.LinkedImage?
  }

  lemma {:induction false} OnlyLinksLost(codec: Codec, placed: seq<Placed>)
    requires AllFixed(placed)
    ensures |Surviving(codec, placed)| <= |placed|
    ensures HasLink(placed) ==> |Surviving(codec, placed)| < |placed|
  {
    if placed != [] {
      var front, last := placed[..|placed| - 1], placed[|placed| - 1];
      ButLast(placed);
      OnlyLinksLost(codec, front);
      assert Fixed(placed[|placed| - 1]);
      if !last.block.LinkedImage? {
        CarriedSurvives(codec, NamesOf(front), last);
      }
    }
  }

  /** A second trip changes nothing more if and only if the first left no linked image: the one kind of
      block that is put into a conversation on the way back and dropped on the way forth. */
  lemma SecondTripIff(codec: Codec, turns: seq<Turn>)
    requires Faithful(codec)
    ensures var first := Back(codec, Forth(codec, turns));
            Back(codec, Forth(codec, Resent(first))) == first <==> !HasLink(Flat(first))
  {
    var placed := Surviving(codec, Placements(turns));
    var first := Back(codec, Forth(codec, turns));
    RoundTrip(codec, turns);
    GroupFlat(placed);
    SurvivorsFixed(codec, Placements(turns));
    RoundTrip(codec, Resent(first));
    ResentPlacements(first);
    OnlyLinksLost(codec, placed);
    GroupFlat(Surviving(codec, placed));
    if !HasLink(placed) {
      forall i | 0 <= i < |placed| ensures Carried(placed[i]) {
        assert Fixed(placed[i]);
      }
      AllCarriedSurvive(codec, placed);
    }
  }
}
