/** What a Chat Completions stream says about the Responses output it stands for: the meaning the
    converter in `ChatToResponsesStream` is held to.

    All text makes one message item, and each upstream call index one call item; `places` says which
    output item is which, in the order they were announced. */
module ChatToResponsesDocument {
  import opened Interruption
  import opened ResponsesClient
  import opened ToolDialect
  import opened ChatUpstream
  import Text

  /** Provider quirks: how call ids are cleaned and tools spelled, and whether reasoning may stand in
      for an answer that has no text. */
  datatype Options = Options(tools: Tools, allowReasoningFallback: bool)

  datatype Message = Unsaid | Said(place: nat, text: string, closed: bool)

  /** One upstream call.  Once `placed` it has a place and was announced as `announced`; `streamed` is the
      part of its arguments the client has been sent. */
  datatype Call = Call(
    callId: string,
    name: string,
    arguments: string,
    streamed: string,
    placed: bool,
    place: nat,
    announced: Opening,
    done: bool)

  datatype Place = MessagePlace | CallPlace(index: int)

  /** `finished` are the items done, in order; `fits` turns false when the client has to give up. */
  datatype Document = Document(
    created: bool,
    places: seq<Place>,
    message: Message,
    reasoning: string,
    calls: map<int, Call>,
    finished: seq<Item>,
    fits: bool,
    incompleteReason: string)

  const Fresh := Document(false, [], Unsaid, "", map[], [], true, "")
  const NewCall := Call("", "", "", "", false, 0, Message, false)

  function Create(doc: Document): Document {
    doc.(created := true)
  }

  // ---- the message -----------------------------------------------------------------------------

  function MessageItem(message: Message): Item {
    match message
    case Unsaid => Item(0, Opening.Message, "", "")
    case Said(place, text, _) => Item(place, Opening.Message, text, "")
  }

  function OpenMessage(doc: Document): Document {
    if doc.message.Said? then doc
    else Create(doc).(places := doc.places + [MessagePlace], message := Said(|doc.places|, "", false))
  }

  /** Text joins the message.  Text that comes when the message item is already done is sent on an item
      that does not exist. */
  function AddText(doc: Document, text: string): Document {
    if text == "" then doc
    else
      var open := OpenMessage(doc);
      if open.message.Unsaid? then open
      else open.(message := open.message.(text := open.message.text + text), fits := open.fits && !open.message.closed)
  }

  function CloseMessage(doc: Document): Document {
    if doc.message.Unsaid? || doc.message.closed then doc
    else doc.(message := doc.message.(closed := true), finished := doc.finished + [MessageItem(doc.message)])
  }

  // ---- calls -----------------------------------------------------------------------------------

  function CallAt(doc: Document, index: int): Call {
    if index in doc.calls then doc.calls[index] else NewCall
  }

  /** A delta's id and name replace what was known, its arguments are added. */
  function Merge(tools: Tools, call: Call, delta: CallDelta): Call {
    var id := tools.callId(delta.id);
    call.(callId := if id != "" then id else call.callId,
          name := if delta.name != "" then delta.name else call.name,
          arguments := call.arguments + delta.arguments)
  }

  predicate Known(call: Call) {
    call.callId != "" && call.name != ""
  }

  /** A call is announced as soon as both its id and its name are known; the message ends there. */
  function OpenCall(doc: Document, tools: Tools, index: int): Document {
    var call := CallAt(doc, index);
    if call.placed then doc
    else
      var quiet := CloseMessage(doc);
      quiet.(places := quiet.places + [CallPlace(index)],
             calls := quiet.calls[index := call.(placed := true, place := |quiet.places|,
                                                 announced := CallOpening(tools, call.callId, call.name))])
  }

  /** Whether there are arguments to pass on. */
  predicate Owes(tools: Tools, call: Call) {
    !Withheld(tools, call.name) && |call.arguments| > |call.streamed|
  }

  function StreamArguments(doc: Document, tools: Tools, index: int): Document {
    var call := CallAt(doc, index);
    if !Owes(tools, call) then doc
    else doc.(calls := doc.calls[index := call.(streamed := call.arguments)],
              fits := doc.fits && call.announced.FunctionCall?)
  }

  function AddCall(doc: Document, tools: Tools, delta: CallDelta): Document {
    var call := Merge(tools, CallAt(doc, delta.index), delta);
    var heard := doc.(calls := doc.calls[delta.index := call]);
    if !Known(call) then heard
    else StreamArguments(OpenCall(Create(heard), tools, delta.index), tools, delta.index)
  }

  function AddCalls(doc: Document, tools: Tools, deltas: seq<CallDelta>): Document {
    if deltas == [] then doc
    else AddCall(AddCalls(doc, tools, deltas[..|deltas| - 1]), tools, deltas[|deltas| - 1])
  }

  function FinalCall(tools: Tools, call: Call): Item {
    CallItem(tools, call.place, call.callId, call.name, if Blank(call.arguments) then "{}" else call.arguments)
  }

  /** A call that was opened is done, as what its id and name are now. */
  function FinishCall(doc: Document, tools: Tools, index: int): Document {
    var call := CallAt(doc, index);
    if !call.placed || call.done then doc
    else doc.(calls := doc.calls[index := call.(done := true)],
              finished := doc.finished + [FinalCall(tools, call)],
              fits := doc.fits && CallOpening(tools, call.callId, call.name) == call.announced)
  }

  // ---- a run -----------------------------------------------------------------------------------

  function ReasonFor(finishReason: string, before: string): string {
    var reason := Text.TrimSpace(finishReason);
    if reason == "length" then "max_output_tokens"
    else if reason == "content_filter" then "content_filter"
    else before
  }

  function Step(doc: Document, tools: Tools, chunk: Chunk): Document {
    match chunk
    case Choice(reasoning, content, calls, finishReason) =>
      var told := AddText(AddCalls(doc, tools, calls), content);
      told.(reasoning := told.reasoning + reasoning,
            incompleteReason := ReasonFor(finishReason, told.incompleteReason))
    case _ => doc
  }

  function Meaning(tools: Tools, chunks: seq<Chunk>): Document {
    if chunks == [] then Fresh
    else Step(Meaning(tools, chunks[..|chunks| - 1]), tools, chunks[|chunks| - 1])
  }

  /** A stream of reasoning alone is an answer where the provider's options say so. */
  function FallBack(doc: Document, options: Options): Document {
    if options.allowReasoningFallback && (doc.message.Unsaid? || doc.message.text == "") && doc.reasoning != ""
    then AddText(doc, doc.reasoning) else doc
  }

  function FinishCalls(doc: Document, tools: Tools, order: seq<int>): Document {
    if order == [] then doc
    else FinishCall(FinishCalls(doc, tools, order[..|order| - 1]), tools, order[|order| - 1])
  }

  /** Everything closed: the message first, then the calls in some order. */
  function Finish(doc: Document, options: Options, order: seq<int>): Document {
    FinishCalls(CloseMessage(FallBack(doc, options)), options.tools, order)
  }

  function PlacedCalls(doc: Document): set<int> {
    set index | index in doc.calls && doc.calls[index].placed
  }

  function CallItems(doc: Document, tools: Tools, order: seq<int>): seq<Item> {
    if order == [] then []
    else CallItems(doc, tools, order[..|order| - 1]) + [FinalCall(tools, CallAt(doc, order[|order| - 1]))]
  }

  /** What the terminal event lists: the message, and then the calls in an order of its own. */
  function Output(doc: Document, tools: Tools, order: seq<int>): seq<Item> {
    (if doc.message.Said? then [MessageItem(doc.message)] else []) + CallItems(doc, tools, order)
  }

  // ---- what the client holds -------------------------------------------------------------------

  function MessageImage(message: Message): Progress {
    match message
    case Unsaid => Refused
    case Said(place, text, closed) =>
      Progress(Opening.Message, text, if closed then Finished(MessageItem(message)) else Flowing)
  }

  function CallImage(tools: Tools, call: Call): Progress {
    Progress(call.announced, call.streamed, if call.done then Finished(FinalCall(tools, call)) else Announced)
  }

  function Image(tools: Tools, doc: Document, place: Place): Progress {
    match place
    case MessagePlace => MessageImage(doc.message)
    case CallPlace(index) => CallImage(tools, CallAt(doc, index))
  }

  function Images(tools: Tools, doc: Document): seq<Progress> {
    seq(|doc.places|, k requires 0 <= k < |doc.places| => Image(tools, doc, doc.places[k]))
  }

  function View(tools: Tools, doc: Document, n: nat): Reader {
    if !doc.fits then Rejected
    else Reader(if doc.created then Streaming else Idle, n, Images(tools, doc), doc.finished)
  }

  // ---- invariants of documents -----------------------------------------------------------------

  ghost predicate CallSound(doc: Document, index: int) {
    var call := CallAt(doc, index);
    && call.streamed <= call.arguments
    && (call.placed ==> Known(call) && call.place < |doc.places| && doc.places[call.place] == CallPlace(index))
    && (call.placed ==> CallLike(call.announced))
    && (!call.placed ==> call.streamed == "" && !call.done)
  }

  /** Places and what is placed agree, and nothing is placed before the response is created. */
  ghost predicate Sound(doc: Document) {
    var sound :=
      && (doc.places != [] ==> doc.created)
      && (doc.message.Said? ==> doc.message.place < |doc.places| && doc.places[doc.message.place] == MessagePlace)
      && (forall k :: 0 <= k < |doc.places| && doc.places[k].MessagePlace?
                      ==> doc.message.Said? && doc.message.place == k)
      && (forall k :: 0 <= k < |doc.places| && doc.places[k].CallPlace? ==>
            CallAt(doc, doc.places[k].index).placed && CallAt(doc, doc.places[k].index).place == k)
      && (forall index :: index in doc.calls ==> CallSound(doc, index));
    sound
  }

  // ---- how a run ends --------------------------------------------------------------------------

  datatype Outcome = Answered(ending: Ending) | UpstreamError(message: string) | Interrupted | NothingSent

  predicate HasOutput(doc: Document, options: Options) {
    doc.message.Said? || (options.allowReasoningFallback && doc.reasoning != "") || PlacedCalls(doc) != {}
  }

  function EndingFor(incompleteReason: string): Ending {
    if incompleteReason == "" then Ending.Completed else Incomplete(incompleteReason)
  }

  /** `dropped` says that reading the body failed before its end. */
  function Verdict(options: Options, chunks: seq<Chunk>, dropped: bool): Outcome {
    var doc := Meaning(options.tools, chunks);
    if FirstFault(chunks) < |chunks| then UpstreamError(chunks[FirstFault(chunks)].message)
    else if dropped || (chunks != [] && DoneMarker !in chunks) then Interrupted
    else if !HasOutput(doc, options) then NothingSent
    else Answered(EndingFor(doc.incompleteReason))
  }

  /** What a strict client is left with.  `order` is the order the calls are finished in, `listed` the
      one the terminal event lists them in. */
  function Delivered(options: Options, chunks: seq<Chunk>, dropped: bool, order: seq<int>, listed: seq<int>,
                     n: nat): Reader {
    var doc := Meaning(options.tools, chunks[..FirstFault(chunks)]);
    match Verdict(options, chunks, dropped)
    case UpstreamError(message) => Accept(View(options.tools, doc, n), ErrorFrame(message))
    case Interrupted =>
      if dropped || !HasOutput(doc, options) then View(options.tools, doc, n)
      else Hear(View(options.tools, Create(doc), n), Aborted(CUT_MESSAGE))
    case NothingSent => View(options.tools, doc, n)
    case Answered(ending) =>
      var all := Finish(doc, options, order);
      Hear(View(options.tools, all, n), Ended(ending, Output(all, options.tools, listed)))
  }
}
