/** What a Claude stream says, event by event, about the Responses output it stands for: the meaning
    the converter in `ClaudeToResponsesStream` is held to.

    A document is a list of entries, one for each content block the upstream began; which entry an
    upstream block index stands for now; and the items done so far. */
module ClaudeToResponsesDocument {
  import opened Interruption
  import opened ResponsesClient
  import opened ToolDialect
  import Text

  /** How the client's tools are spelled, and how a thinking block is encoded whole. */
  datatype Dialect = Dialect(tools: Tools, seal: (bool, string, string, string) -> string)

  /** What a content block starts as.  `source` is what a thinking block holds beside its text and
      signature; a redacted one is not visible. */
  datatype Start =
    | TextStart(text: string)
    | ToolStart(id: string, name: string, input: string)
    | ThoughtStart(visible: bool, text: string, source: string, signature: string)
    | UnknownStart

  datatype Piece =
    | TextPiece(text: string)
    | JsonPiece(text: string)
    | ThoughtPiece(text: string)
    | SignaturePiece(text: string)
    | OtherPiece

  datatype Upstream =
    | Fault(message: string)
    | MessageStart
    | BlockStart(index: int, start: Start)
    | BlockDelta(index: int, piece: Piece)
    | BlockStop(index: int)
    | MessageDelta(stopReason: string)
    | MessageStop
    | Other

  /** One content block: all it accumulated, and the part of that the client was streamed. */
  datatype Entry = Entry(start: Start, body: string, streamed: string, signature: string, closed: bool)

  /** `latest` is the entry each upstream block index stands for; `output` the items done, in order.
      `fits` turns false when a piece is streamed on an item of another kind; `visible` turns true with
      the first text or tool block. */
  datatype Document = Document(
    created: bool,
    items: seq<Entry>,
    latest: map<int, nat>,
    output: seq<Item>,
    fits: bool,
    visible: bool,
    stopReason: string)

  const Fresh := Document(false, [], map[], [], true, false, "")

  // ---- one block -------------------------------------------------------------------------------

  function Begin(start: Start): Entry {
    match start
    case TextStart(text) => Entry(start, text, "", "", false)
    case ThoughtStart(_, text, _, signature) => Entry(start, text, "", signature, false)
    case _ => Entry(start, "", "", "", false)
  }

  predicate HeldBack(dialect: Dialect, start: Start) {
    start.ToolStart? && ToolDialect.Withheld(dialect.tools, start.name)
  }

  /** Whether a piece is passed on as it comes, and on which channel. */
  predicate Streams(dialect: Dialect, start: Start, piece: Piece) {
    match piece
    case TextPiece(text) => text != ""
    case JsonPiece(text) => text != "" && !HeldBack(dialect, start)
    case ThoughtPiece(text) => text != "" && start.ThoughtStart? && start.visible
    case _ => false
  }

  function ChannelOf(piece: Piece): Channel {
    if piece.TextPiece? then TextChannel else if piece.JsonPiece? then ArgumentsChannel else SummaryChannel
  }

  /** Whether a piece is of the kind of the block it is sent to. */
  predicate Belongs(start: Start, piece: Piece) {
    match piece
    case TextPiece(_) => start.TextStart?
    case JsonPiece(_) => start.ToolStart?
    case ThoughtPiece(_) => start.ThoughtStart?
    case _ => true
  }

  function Hold(dialect: Dialect, entry: Entry, piece: Piece): Entry {
    match piece
    case OtherPiece => entry
    case SignaturePiece(text) => if text == "" then entry else entry.(signature := text)
    case _ =>
      entry.(body := entry.body + piece.text,
             streamed := if Streams(dialect, entry.start, piece) then entry.streamed + piece.text else entry.streamed)
  }

  /** A call's arguments: what was accumulated, else what the block began with, else none. */
  function Arguments(start: Start, body: string): string {
    if !Blank(body) then body
    else if start.ToolStart? && !Blank(start.input) then start.input
    else "{}"
  }

  function OpeningOf(dialect: Dialect, start: Start): Opening {
    match start
    case ThoughtStart(_, _, _, _) => Reasoning
    case ToolStart(id, name, _) => CallOpening(dialect.tools, dialect.tools.callId(id), name)
    case _ => Message
  }

  /** The output item a block ends up as. */
  function ItemOf(dialect: Dialect, k: nat, entry: Entry): Item {
    match entry.start
    case ToolStart(id, name, _) =>
      CallItem(dialect.tools, k, dialect.tools.callId(id), name, Arguments(entry.start, entry.body))
    case ThoughtStart(visible, _, source, _) =>
      Item(k, Reasoning, entry.body, dialect.seal(visible, source, entry.body, entry.signature))
    case _ => Item(k, Message, entry.body, "")
  }

  // ---- the document ----------------------------------------------------------------------------

  function Create(doc: Document): Document {
    doc.(created := true)
  }

  predicate Shows(start: Start) {
    start.TextStart? || start.ToolStart?
  }

  function StartBlock(doc: Document, index: int, start: Start): Document {
    if start.UnknownStart? then Create(doc)
    else Create(doc).(items := doc.items + [Begin(start)],
                      latest := doc.latest[index := |doc.items|],
                      visible := doc.visible || Shows(start))
  }

  /** The entry an upstream block index stands for is there and open. */
  predicate Live(doc: Document, index: int) {
    index in doc.latest && doc.latest[index] < |doc.items| && !doc.items[doc.latest[index]].closed
  }

  function AddPiece(doc: Document, dialect: Dialect, index: int, piece: Piece): Document {
    if !Live(doc, index) then doc
    else
      var k := doc.latest[index];
      var entry := doc.items[k];
      doc.(items := doc.items[k := Hold(dialect, entry, piece)],
           fits := doc.fits && (Streams(dialect, entry.start, piece) ==> Belongs(entry.start, piece)))
  }

  function CloseBlock(doc: Document, dialect: Dialect, index: int): Document {
    if !Live(doc, index) then doc
    else
      var k := doc.latest[index];
      doc.(items := doc.items[k := doc.items[k].(closed := true)],
           output := doc.output + [ItemOf(dialect, k, doc.items[k])])
  }

  function Step(doc: Document, dialect: Dialect, e: Upstream): Document {
    match e
    case MessageStart => Create(doc)
    case BlockStart(index, start) => StartBlock(doc, index, start)
    case BlockDelta(index, piece) => AddPiece(doc, dialect, index, piece)
    case BlockStop(index) => CloseBlock(doc, dialect, index)
    case MessageDelta(reason) => if reason == "" then doc else doc.(stopReason := reason)
    case _ => doc
  }

  function Meaning(dialect: Dialect, events: seq<Upstream>): Document {
    if events == [] then Fresh
    else Step(Meaning(dialect, events[..|events| - 1]), dialect, events[|events| - 1])
  }

  /** Blocks that were never stopped are closed at the end, in some order. */
  function CloseAll(doc: Document, dialect: Dialect, order: seq<int>): Document {
    if order == [] then Create(doc)
    else CloseBlock(CloseAll(doc, dialect, order[..|order| - 1]), dialect, order[|order| - 1])
  }

  function LiveBlocks(doc: Document): set<int> {
    set index | index in doc.latest && Live(doc, index)
  }

  // ---- what the client holds -------------------------------------------------------------------

  function StageOf(dialect: Dialect, k: nat, entry: Entry): Stage {
    if entry.closed then Finished(ItemOf(dialect, k, entry))
    else if entry.start.ToolStart? || (entry.start.ThoughtStart? && !entry.start.visible) then Announced
    else Flowing
  }

  function Image(dialect: Dialect, k: nat, entry: Entry): Progress {
    Progress(OpeningOf(dialect, entry.start), entry.streamed, StageOf(dialect, k, entry))
  }

  function Images(dialect: Dialect, items: seq<Entry>): seq<Progress> {
    seq(|items|, k requires 0 <= k < |items| => Image(dialect, k, items[k]))
  }

  /** A strict client that has read everything written for `doc`, `n` events in all. */
  function View(dialect: Dialect, doc: Document, n: nat): Reader {
    if !doc.fits then Rejected
    else Reader(if doc.created then Streaming else Idle, n, Images(dialect, doc.items), doc.output)
  }

  // ---- invariants of documents -----------------------------------------------------------------

  /** Upstream indexes stand for different entries, which exist; entries exist only once created. */
  ghost predicate Sound(doc: Document) {
    var sound :=
      && (forall i :: i in doc.latest ==> doc.latest[i] < |doc.items|)
      && (forall i, j :: i in doc.latest && j in doc.latest && i != j ==> doc.latest[i] != doc.latest[j])
      && (doc.items != [] ==> doc.created)
      && (!doc.visible ==> forall k :: 0 <= k < |doc.items| ==> doc.items[k].start.ThoughtStart?)
      && (!doc.visible ==> forall k :: 0 <= k < |doc.output| ==> doc.output[k].opening.Reasoning?)
      && (forall k :: 0 <= k < |doc.items| ==> !doc.items[k].start.UnknownStart?);
    sound
  }

  lemma StartBlockSound(doc: Document, index: int, start: Start)
    requires Sound(doc)
    ensures Sound(StartBlock(doc, index, start))
  {
  }

  lemma AddPieceSound(doc: Document, dialect: Dialect, index: int, piece: Piece)
    requires Sound(doc)
    ensures Sound(AddPiece(doc, dialect, index, piece))
  {
  }

  lemma CloseBlockSound(doc: Document, dialect: Dialect, index: int)
    requires Sound(doc)
    ensures Sound(CloseBlock(doc, dialect, index))
  {
  }

  lemma StepSound(doc: Document, dialect: Dialect, e: Upstream)
    requires Sound(doc)
    ensures Sound(Step(doc, dialect, e))
  {
    match e
    case BlockStart(index, start) => StartBlockSound(doc, index, start);
    case BlockDelta(index, piece) => AddPieceSound(doc, dialect, index, piece);
    case BlockStop(index) => CloseBlockSound(doc, dialect, index);
    case _ =>
  }

  lemma {:induction false} MeaningSound(dialect: Dialect, events: seq<Upstream>)
    ensures Sound(Meaning(dialect, events))
  {
    if events != [] {
      MeaningSound(dialect, events[..|events| - 1]);
      StepSound(Meaning(dialect, events[..|events| - 1]), dialect, events[|events| - 1]);
    }
  }

  // ---- how a run ends --------------------------------------------------------------------------

  datatype Outcome =
    | Answered(ending: Ending)
    | ThinkingOnly
    | UpstreamError(message: string)
    | Interrupted

  function FirstFault(events: seq<Upstream>): (n: nat)
    ensures n <= |events|
    ensures forall i :: 0 <= i < n ==> !events[i].Fault?
    ensures n < |events| ==> events[n].Fault?
  {
    if events == [] || events[0].Fault? then 0 else 1 + FirstFault(events[1..])
  }

  function EndingFor(stopReason: string): Ending {
    var reason := Text.TrimSpace(stopReason);
    if reason == "max_tokens" || reason == "model_context_window_exceeded" then Incomplete("max_output_tokens")
    else if reason == "refusal" then Incomplete("content_filter")
    else Completed
  }

  /** A turn that shows nothing and claims to be complete is not an answer. */
  function Verdict(dialect: Dialect, events: seq<Upstream>): Outcome {
    var doc := Meaning(dialect, events);
    if FirstFault(events) < |events| then UpstreamError(events[FirstFault(events)].message)
    else if events != [] && MessageStop !in events then Interrupted
    else if !doc.visible && EndingFor(doc.stopReason).Completed? then ThinkingOnly
    else Answered(EndingFor(doc.stopReason))
  }

  /** What a strict client is left with.  A turn that never turned visible leaves it with nothing at all,
      even where it counts as finished; blocks left open are closed in `order`. */
  function Delivered(dialect: Dialect, events: seq<Upstream>, order: seq<int>, n: nat): Reader {
    var doc := Meaning(dialect, events[..FirstFault(events)]);
    var all := CloseAll(doc, dialect, order);
    match Verdict(dialect, events)
    case UpstreamError(message) => Hear(View(dialect, Create(doc), n), Aborted(message))
    case ThinkingOnly => Reader(Idle, 0, [], [])
    case Interrupted =>
      if doc.visible then Hear(View(dialect, all, n), Ended(Failed(CUT_MESSAGE), all.output))
      else Reader(Idle, 0, [], [])
    case Answered(ending) =>
      if doc.visible then Hear(View(dialect, all, n), Ended(ending, all.output)) else Reader(Idle, 0, [], [])
  }
}
