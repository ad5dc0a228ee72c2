/** The Chat -> Responses stream converter: an object whose methods update its counters, its message
    and its calls, and write events as they go. */
module ChatToResponsesStream {
  import opened Interruption
  import opened ResponsesClient
  import opened ToolDialect
  import opened ChatUpstream
  import opened ChatToResponsesDocument
  import opened MapOrder

  /** One call as the converter remembers it. */
  datatype ToolCall = ToolCall(
    callId: string,
    name: string,
    arguments: string,
    writtenArguments: nat,
    placed: bool,
    outputIndex: nat,
    done: bool)

  const NoCallYet := ToolCall("", "", "", 0, false, 0, false)

  datatype Speech = Speech(messageOpened: bool, messageClosed: bool, fullText: string, messageItemId: nat)

  datatype Fields = Fields(
    responseCreated: bool,
    speech: Speech,
    outputIndex: nat,
    toolCalls: map<int, ToolCall>)

  function Shadow(call: Call): ToolCall {
    ToolCall(call.callId, call.name, call.arguments, |call.streamed|, call.placed, call.place, call.done)
  }

  function Shadows(calls: map<int, Call>): map<int, ToolCall> {
    map index | index in calls :: Shadow(calls[index])
  }

  function SpeechOf(message: Message): Speech {
    match message
    case Unsaid => Speech(false, false, "", 0)
    case Said(place, text, closed) => Speech(true, closed, text, place)
  }

  predicate Speaking(message: Message) {
    message.Said? && !message.closed
  }

  /** Converter and document in step: the client that reads the tape holds the document. */
  ghost predicate Kept(tools: Tools, f: Fields, tape: Tape, doc: Document) {
    var inStep :=
      && Hears(tape, View(tools, doc, tape.number))
      && Sound(doc)
      && f.responseCreated == doc.created
      && f.speech == SpeechOf(doc.message)
      && f.outputIndex == |doc.places| - (if Speaking(doc.message) then 1 else 0)
      && (Speaking(doc.message) ==> doc.message.place == f.outputIndex)
      && f.toolCalls == Shadows(doc.calls);
    inStep
  }

  // ---- how the images of a document change -----------------------------------------------------

  lemma MessageImaged(tools: Tools, doc: Document, text: string, closed: bool)
    requires Sound(doc) && doc.message.Said?
    ensures var m := doc.message.(text := text, closed := closed);
            Images(tools, doc.(message := m)) == Images(tools, doc)[doc.message.place := MessageImage(m)]
  {
  }

  lemma CallImaged(tools: Tools, doc: Document, index: int, call: Call)
    requires Sound(doc) && index in doc.calls && doc.calls[index].placed
    ensures Images(tools, doc.(calls := doc.calls[index := call]))
         == Images(tools, doc)[doc.calls[index].place := CallImage(tools, call)]
  {
  }

  lemma UnplacedImaged(tools: Tools, doc: Document, index: int, call: Call)
    requires Sound(doc) && !CallAt(doc, index).placed
    ensures Images(tools, doc.(calls := doc.calls[index := call])) == Images(tools, doc)
  {
  }

  // ---- what each write means to the client -----------------------------------------------------

  lemma CreateKept(tools: Tools, f: Fields, tape: Tape, doc: Document)
    requires Kept(tools, f, tape, doc) && !f.responseCreated
    ensures Kept(tools, f.(responseCreated := true), Post(Post(tape, Created), InProgress), Create(doc))
  {
    var r := View(tools, doc, tape.number);
    PostHears(tape, r, Created);
    PostHears(Post(tape, Created), Hear(r, Created), InProgress);
    assert Images(tools, Create(doc)) == Images(tools, doc);
  }

  lemma OpenMessageHeard(tools: Tools, tape: Tape, doc: Document)
    requires Hears(tape, View(tools, doc, tape.number)) && Sound(doc) && doc.created && doc.message.Unsaid?
    ensures var k := |doc.places|;
            var next := Post(Post(tape, ItemAdded(k, Opening.Message)), PartAdded(k, TextChannel));
            Hears(next, View(tools, OpenMessage(doc), next.number))
    ensures Sound(OpenMessage(doc))
  {
    var r, k := View(tools, doc, tape.number), |doc.places|;
    PostHears(tape, r, ItemAdded(k, Opening.Message));
    PostHears(Post(tape, ItemAdded(k, Opening.Message)),
              Hear(r, ItemAdded(k, Opening.Message)), PartAdded(k, TextChannel));
    assert Images(tools, OpenMessage(doc)) == Images(tools, doc) + [Progress(Opening.Message, "", Flowing)];
  }

  lemma OpenMessageKept(tools: Tools, f: Fields, tape: Tape, doc: Document)
    requires Kept(tools, f, tape, doc) && f.responseCreated && doc.message.Unsaid?
    ensures Kept(tools, f.(speech := f.speech.(messageOpened := true, messageItemId := f.outputIndex)),
                 Post(Post(tape, ItemAdded(f.outputIndex, Opening.Message)), PartAdded(f.outputIndex, TextChannel)),
                 OpenMessage(doc))
  {
    OpenMessageHeard(tools, tape, doc);
  }

  function Spoken(doc: Document, text: string): Document {
    if doc.message.Unsaid? then doc
    else doc.(message := doc.message.(text := doc.message.text + text), fits := doc.fits && !doc.message.closed)
  }

  /** A text delta reaches the message while it is open; after that it reaches nothing. */
  lemma SpokenHeard(tools: Tools, tape: Tape, doc: Document, text: string)
    requires Hears(tape, View(tools, doc, tape.number)) && Sound(doc) && doc.message.Said? && text != ""
    ensures var k := if doc.message.closed then |doc.places| else doc.message.place;
            Hears(Post(tape, Delta(k, TextChannel, text)), View(tools, Spoken(doc, text), tape.number + 1))
    ensures Sound(Spoken(doc, text))
  {
    var k := if doc.message.closed then |doc.places| else doc.message.place;
    PostHears(tape, View(tools, doc, tape.number), Delta(k, TextChannel, text));
    MessageImaged(tools, doc, doc.message.text + text, doc.message.closed);
    assert Images(tools, Spoken(doc, text)) == Images(tools, doc.(message := Spoken(doc, text).message));
  }

  lemma SpokenKept(tools: Tools, f: Fields, tape: Tape, doc: Document, text: string)
    requires Kept(tools, f, tape, doc) && doc.message.Said? && text != ""
    ensures Kept(tools, f.(speech := f.speech.(fullText := f.speech.fullText + text)),
                 Post(tape, Delta(f.outputIndex, TextChannel, text)), Spoken(doc, text))
  {
    SpokenHeard(tools, tape, doc, text);
  }

  function SettleMessage(tape: Tape, k: nat, item: Item): Tape {
    var settled := Post(Post(tape, ValueDone(k, TextChannel, item.content)), PartDone(k, TextChannel, item.content));
    Post(settled, ItemDone(k, item))
  }

  lemma CloseMessageHeard(tools: Tools, tape: Tape, doc: Document)
    requires Hears(tape, View(tools, doc, tape.number)) && Sound(doc) && Speaking(doc.message)
    ensures var next := SettleMessage(tape, doc.message.place, MessageItem(doc.message));
            Hears(next, View(tools, CloseMessage(doc), next.number))
    ensures Sound(CloseMessage(doc))
  {
    var r, k, text := View(tools, doc, tape.number), doc.message.place, doc.message.text;
    var t1 := Post(tape, ValueDone(k, TextChannel, text));
    var r1 := Hear(r, ValueDone(k, TextChannel, text));
    PostHears(tape, r, ValueDone(k, TextChannel, text));
    PostHears(t1, r1, PartDone(k, TextChannel, text));
    PostHears(Post(t1, PartDone(k, TextChannel, text)), Hear(r1, PartDone(k, TextChannel, text)),
              ItemDone(k, MessageItem(doc.message)));
    MessageImaged(tools, doc, text, true);
    assert Images(tools, CloseMessage(doc)) == Images(tools, doc.(message := doc.message.(closed := true)));
  }

  lemma CloseMessageKept(tools: Tools, f: Fields, tape: Tape, doc: Document)
    requires Kept(tools, f, tape, doc) && Speaking(doc.message)
    ensures Kept(tools, f.(speech := f.speech.(messageClosed := true), outputIndex := f.outputIndex + 1),
                 SettleMessage(tape, f.outputIndex,
                               Item(f.speech.messageItemId, Opening.Message, f.speech.fullText, "")),
                 CloseMessage(doc))
  {
    CloseMessageHeard(tools, tape, doc);
  }

  // ---- calls -----------------------------------------------------------------------------------

  lemma ShadowsUpdate(calls: map<int, Call>, index: int, call: Call)
    ensures Shadows(calls[index := call]) == Shadows(calls)[index := Shadow(call)]
  {
  }

  lemma MergeKept(tools: Tools, f: Fields, tape: Tape, doc: Document, delta: CallDelta)
    requires Kept(tools, f, tape, doc) && !CallAt(doc, delta.index).done
    ensures var call := Merge(tools, CallAt(doc, delta.index), delta);
            Kept(tools, f.(toolCalls := f.toolCalls[delta.index := Shadow(call)]), tape,
                 doc.(calls := doc.calls[delta.index := call]))
  {
    var call := Merge(tools, CallAt(doc, delta.index), delta);
    ShadowsUpdate(doc.calls, delta.index, call);
    if CallAt(doc, delta.index).placed {
      CallImaged(tools, doc, delta.index, call);
    } else {
      UnplacedImaged(tools, doc, delta.index, call);
    }
    MergeSound(tools, doc, delta);
  }

  lemma MergeSound(tools: Tools, doc: Document, delta: CallDelta)
    requires Sound(doc)
    ensures Sound(doc.(calls := doc.calls[delta.index := Merge(tools, CallAt(doc, delta.index), delta)]))
  {
    assert CallAt(doc, delta.index).streamed <= CallAt(doc, delta.index).arguments + delta.arguments;
  }

  /** The document once call `index` has the next place. */
  function PlaceCall(doc: Document, tools: Tools, index: int): Document {
    var call := CallAt(doc, index);
    doc.(places := doc.places + [CallPlace(index)],
         calls := doc.calls[index := call.(placed := true, place := |doc.places|,
                                           announced := CallOpening(tools, call.callId, call.name))])
  }

  lemma PlaceCallHeard(tools: Tools, tape: Tape, doc: Document, index: int)
    requires Hears(tape, View(tools, doc, tape.number)) && Sound(doc) && doc.created
    requires index in doc.calls && Known(doc.calls[index]) && !doc.calls[index].placed
    ensures var call := doc.calls[index];
            Hears(Post(tape, ItemAdded(|doc.places|, CallOpening(tools, call.callId, call.name))),
                  View(tools, PlaceCall(doc, tools, index), tape.number + 1))
    ensures Sound(PlaceCall(doc, tools, index))
  {
    var call := doc.calls[index];
    var opening := CallOpening(tools, call.callId, call.name);
    var placed := PlaceCall(doc, tools, index);
    PostHears(tape, View(tools, doc, tape.number), ItemAdded(|doc.places|, opening));
    UnplacedImaged(tools, doc, index, placed.calls[index]);
    assert Images(tools, placed) == Images(tools, doc) + [Progress(opening, "", Announced)];
  }

  lemma PlaceCallKept(tools: Tools, f: Fields, tape: Tape, doc: Document, index: int)
    requires Kept(tools, f, tape, doc) && f.responseCreated && !Speaking(doc.message)
    requires index in doc.calls && Known(doc.calls[index]) && !doc.calls[index].placed
    ensures var call := f.toolCalls[index];
            Kept(tools, f.(toolCalls := f.toolCalls[index := call.(placed := true, outputIndex := f.outputIndex)],
                           outputIndex := f.outputIndex + 1),
                 Post(tape, ItemAdded(f.outputIndex, CallOpening(tools, call.callId, call.name))),
                 PlaceCall(doc, tools, index))
  {
    PlaceCallHeard(tools, tape, doc, index);
    ShadowsUpdate(doc.calls, index, PlaceCall(doc, tools, index).calls[index]);
  }

  lemma StreamHeard(tools: Tools, tape: Tape, doc: Document, index: int)
    requires Hears(tape, View(tools, doc, tape.number)) && Sound(doc) && doc.created
    requires index in doc.calls && doc.calls[index].placed && !doc.calls[index].done && Owes(tools, doc.calls[index])
    ensures var call := doc.calls[index];
            Hears(Post(tape, Delta(call.place, ArgumentsChannel, call.arguments[|call.streamed|..])),
                  View(tools, StreamArguments(doc, tools, index), tape.number + 1))
    ensures Sound(StreamArguments(doc, tools, index))
  {
    var call := doc.calls[index];
    assert CallSound(doc, index);
    var rest := call.arguments[|call.streamed|..];
    assert call.streamed + rest == call.arguments;
    PostHears(tape, View(tools, doc, tape.number), Delta(call.place, ArgumentsChannel, rest));
    CallImaged(tools, doc, index, call.(streamed := call.arguments));
    assert Images(tools, StreamArguments(doc, tools, index))
        == Images(tools, doc.(calls := doc.calls[index := call.(streamed := call.arguments)]));
  }

  lemma StreamKept(tools: Tools, f: Fields, tape: Tape, doc: Document, index: int)
    requires Kept(tools, f, tape, doc) && doc.created
    requires index in doc.calls && doc.calls[index].placed && !doc.calls[index].done && Owes(tools, doc.calls[index])
    ensures var call := f.toolCalls[index];
            && call.writtenArguments <= |call.arguments|
            && Kept(tools, f.(toolCalls := f.toolCalls[index := call.(writtenArguments := |call.arguments|)]),
                    Post(tape, Delta(call.outputIndex, ArgumentsChannel, call.arguments[call.writtenArguments..])),
                    StreamArguments(doc, tools, index))
  {
    StreamHeard(tools, tape, doc, index);
    ShadowsUpdate(doc.calls, index, doc.calls[index].(streamed := doc.calls[index].arguments));
  }

  /** What is written when a call is done. */
  function SettleCall(tape: Tape, k: nat, item: Item): Tape {
    match item.opening
    case CustomCall(_, _) => Post(Post(tape, ValueDone(k, InputChannel, item.content)), ItemDone(k, item))
    case SearchCall(_) => Post(tape, ItemDone(k, item))
    case _ => Post(Post(tape, ValueDone(k, ArgumentsChannel, item.content)), ItemDone(k, item))
  }

  /** From any reading that has the call open: it is done if it is what it was announced as, and the
      client gives up if it is not. */
  lemma SettleHeard(tape: Tape, r: Reader, k: nat, item: Item)
    requires Hears(tape, r) && item.id == k
    requires CallLike(item.opening)
    requires r.Reader? && r.phase.Streaming? && k < |r.items| && r.items[k].Progress? && r.items[k].stage.Announced?
    requires CallLike(r.items[k].opening)
    ensures var next := SettleCall(tape, k, item);
            Hears(next, if item.opening != r.items[k].opening then Rejected
                        else r.(count := next.number, items := r.items[k := r.items[k].(stage := Finished(item))],
                                finished := r.finished + [item]))
  {
    if item.opening.SearchCall? {
      PostHears(tape, r, ItemDone(k, item));
    } else {
      var e := ValueDone(k, if item.opening.CustomCall? then InputChannel else ArgumentsChannel, item.content);
      PostHears(tape, r, e);
      PostHears(Post(tape, e), Hear(r, e), ItemDone(k, item));
    }
  }

  lemma SettleUnheard(tape: Tape, k: nat, item: Item)
    requires Hears(tape, Rejected)
    ensures Hears(SettleCall(tape, k, item), Rejected)
  {
    var e := ValueDone(k, if item.opening.CustomCall? then InputChannel else ArgumentsChannel, item.content);
    PostHears(tape, Rejected, ItemDone(k, item));
    PostHears(tape, Rejected, e);
    PostHears(Post(tape, e), Rejected, ItemDone(k, item));
  }

  lemma FinishHeard(tools: Tools, tape: Tape, doc: Document, index: int)
    requires Hears(tape, View(tools, doc, tape.number)) && Sound(doc) && doc.created
    requires index in doc.calls && doc.calls[index].placed && !doc.calls[index].done
    ensures var next := SettleCall(tape, doc.calls[index].place, FinalCall(tools, doc.calls[index]));
            Hears(next, View(tools, FinishCall(doc, tools, index), next.number))
  {
    var call := doc.calls[index];
    assert CallSound(doc, index);
    CallImaged(tools, doc, index, call.(done := true));
    assert Images(tools, FinishCall(doc, tools, index))
        == Images(tools, doc.(calls := doc.calls[index := call.(done := true)]));
    if doc.fits {
      SettleHeard(tape, View(tools, doc, tape.number), call.place, FinalCall(tools, call));
    } else {
      SettleUnheard(tape, call.place, FinalCall(tools, call));
    }
  }

  lemma FinishSound(tools: Tools, doc: Document, index: int)
    requires Sound(doc)
    ensures Sound(FinishCall(doc, tools, index))
  {
  }

  lemma FinishKept(tools: Tools, f: Fields, tape: Tape, doc: Document, index: int)
    requires Kept(tools, f, tape, doc) && doc.created
    requires index in doc.calls && doc.calls[index].placed && !doc.calls[index].done
    ensures var call := f.toolCalls[index];
            Kept(tools, f.(toolCalls := f.toolCalls[index := call.(done := true)]),
                 SettleCall(tape, call.outputIndex, FinalCall(tools, doc.calls[index])), FinishCall(doc, tools, index))
  {
    FinishHeard(tools, tape, doc, index);
    FinishSound(tools, doc, index);
    ShadowsUpdate(doc.calls, index, doc.calls[index].(done := true));
  }

  // ---- the converter ---------------------------------------------------------------------------

  /** No call is done before the end. */
  ghost predicate Running(doc: Document) {
    forall index :: index in doc.calls ==> !doc.calls[index].done
  }

  lemma ShadowAt(tools: Tools, f: Fields, tape: Tape, doc: Document, index: int)
    requires Kept(tools, f, tape, doc)
    ensures f.toolCalls.Keys == doc.calls.Keys
    ensures index in doc.calls ==> f.toolCalls[index] == Shadow(doc.calls[index])
    ensures (if index in f.toolCalls then f.toolCalls[index] else NoCallYet) == Shadow(CallAt(doc, index))
    ensures f.speech == SpeechOf(doc.message) && f.responseCreated == doc.created && Sound(doc)
    ensures index in doc.calls ==> CallSound(doc, index)
  {
  }

  lemma OpenMessageCreated(doc: Document)
    requires doc.message.Unsaid?
    ensures OpenMessage(Create(doc)) == OpenMessage(doc) && OpenMessage(doc).message.Said?
    ensures OpenMessage(doc).created && !OpenMessage(doc).message.closed
  {
  }

  lemma AddCallRunning(doc: Document, tools: Tools, delta: CallDelta)
    requires Running(doc)
    ensures Running(AddCall(doc, tools, delta))
  {
  }

  lemma NoteKept(tools: Tools, f: Fields, tape: Tape, doc: Document, reasoning: string, reason: string)
    requires Kept(tools, f, tape, doc)
    ensures Kept(tools, f, tape, doc.(reasoning := reasoning, incompleteReason := reason))
  {
    assert Images(tools, doc.(reasoning := reasoning, incompleteReason := reason)) == Images(tools, doc);
  }

  // ---- calls finished and listed in any order --------------------------------------------------

  predicate Placed(doc: Document, index: int) {
    index in doc.calls && doc.calls[index].placed
  }

  /** `order` lists the placed calls that are not in `left`. */
  ghost predicate Listing(doc: Document, order: seq<int>, left: set<int>) {
    var listing :=
      && left <= doc.calls.Keys
      && (forall i :: i in order <==> Placed(doc, i) && i !in left)
      && (forall j, k :: 0 <= j < k < |order| ==> order[j] != order[k]);
    listing
  }

  lemma ListingTurn(doc: Document, order: seq<int>, left: set<int>, index: int)
    requires Listing(doc, order, left) && index in left
    ensures index in doc.calls
    ensures Listing(doc, if doc.calls[index].placed then order + [index] else order, left - {index})
  {
  }

  lemma OutputGrows(doc: Document, tools: Tools, order: seq<int>, index: int)
    ensures Output(doc, tools, order + [index]) == Output(doc, tools, order) + [FinalCall(tools, CallAt(doc, index))]
  {
    assert (order + [index])[..|order|] == order;
  }

  lemma ListingEnd(doc: Document, order: seq<int>)
    requires Listing(doc, order, {})
    ensures Lists(order, PlacedCalls(doc))
  {
  }

  lemma NothingPlaced(doc: Document)
    requires Listing(doc, [], {})
    ensures PlacedCalls(doc) == {}
  {
    var none: seq<int> := [];
    ListingEnd(doc, none);
    assert forall i :: i in PlacedCalls(doc) ==> i in none;
  }

  /** Finishing is under way: the calls listed so far are done, and those left are as they were. */
  ghost predicate Finishing(tools: Tools, doc0: Document, order: seq<int>, doc: Document, left: set<int>) {
    var stands :=
      && Listing(doc0, order, left)
      && doc == FinishCalls(doc0, tools, order)
      && doc.calls.Keys == doc0.calls.Keys;
    stands
  }

  lemma {:induction false} FinishCallsKeys(doc: Document, tools: Tools, order: seq<int>)
    ensures FinishCalls(doc, tools, order).calls.Keys == doc.calls.Keys
    ensures forall i :: i in doc.calls ==>
              FinishCalls(doc, tools, order).calls[i].(done := false) == doc.calls[i].(done := false)
  {
    if order != [] {
      FinishCallsKeys(doc, tools, order[..|order| - 1]);
    }
  }

  lemma FinishingTurn(tools: Tools, doc0: Document, order: seq<int>, doc: Document, left: set<int>, index: int)
    requires Finishing(tools, doc0, order, doc, left) && index in left
    ensures index in doc0.calls && index in doc.calls
    ensures Finishing(tools, doc0, if doc0.calls[index].placed then order + [index] else order,
                      FinishCall(doc, tools, index), left - {index})
  {
    ListingTurn(doc0, order, left, index);
    FinishCallsKeys(doc0, tools, order);
    assert (order + [index])[..|order|] == order;
    assert FinishCalls(doc0, tools, order + [index]) == FinishCall(doc, tools, index);
    assert doc.calls[index].(done := false) == doc0.calls[index].(done := false);
  }

  lemma FinishingEnd(tools: Tools, doc0: Document, order: seq<int>, doc: Document)
    requires Finishing(tools, doc0, order, doc, {})
    ensures doc == FinishCalls(doc0, tools, order) && Lists(order, PlacedCalls(doc0))
  {
    ListingEnd(doc0, order);
  }

  lemma {:induction false} AddCallsRunning(doc: Document, tools: Tools, deltas: seq<CallDelta>)
    requires Running(doc)
    ensures Running(AddCalls(doc, tools, deltas))
  {
    if deltas != [] {
      AddCallsRunning(doc, tools, deltas[..|deltas| - 1]);
      AddCallRunning(AddCalls(doc, tools, deltas[..|deltas| - 1]), tools, deltas[|deltas| - 1]);
    }
  }

  lemma StepRunning(doc: Document, tools: Tools, chunk: Chunk)
    requires Running(doc)
    ensures Running(Step(doc, tools, chunk))
  {
    if chunk.Choice? {
      AddCallsRunning(doc, tools, chunk.calls);
    }
  }

  class Converter {
    const options: Options
    var sent: seq<Frame>
    var number: nat
    var responseCreated: bool
    var messageOpened: bool
    var messageClosed: bool
    var outputIndex: nat
    var fullText: string
    var messageItemId: nat
    var reasoningText: string
    var incompleteReason: string
    var toolCalls: map<int, ToolCall>
    ghost var doc: Document

    ghost function State(): Fields
      reads this
    {
      Fields(responseCreated, Speech(messageOpened, messageClosed, fullText, messageItemId), outputIndex, toolCalls)
    }

    ghost function Written(): Tape
      reads this
    {
      Tape(number, sent)
    }

    /** A client that read everything written holds the document. */
    ghost predicate Valid()
      reads this
    {
      var inStep :=
        && Kept(options.tools, State(), Written(), doc)
        && reasoningText == doc.reasoning && incompleteReason == doc.incompleteReason;
      inStep
    }

    constructor (options: Options)
      ensures Valid() && doc == Fresh && this.options == options
    {
      this.options := options;
      sent, number, responseCreated, messageOpened, messageClosed := [], 0, false, false, false;
      outputIndex, fullText, messageItemId, reasoningText, incompleteReason, toolCalls := 0, "", 0, "", "", map[];
      doc := Fresh;
    }

    method Send(e: Event)
      modifies `number, `sent
      ensures Written() == Post(old(Written()), e)
    {
      number := number + 1;
      sent := sent + [Frame(number, e)];
    }

    method EnsureResponseCreated()
      requires Valid()
      modifies this
      ensures Valid() && doc == Create(old(doc))
    {
      ShadowAt(options.tools, State(), Written(), doc, 0);
      if responseCreated {
        return;
      }
      CreateKept(options.tools, State(), Written(), doc);
      responseCreated := true;
      doc := Create(doc);
      Send(Created);
      Send(InProgress);
    }

    method OpenMessageItem()
      requires Valid()
      modifies this
      ensures Valid() && doc == OpenMessage(old(doc))
    {
      ShadowAt(options.tools, State(), Written(), doc, 0);
      if messageOpened {
        return;
      }
      OpenMessageCreated(doc);
      EnsureResponseCreated();
      StartMessage();
    }

    method StartMessage()
      requires Valid() && doc.created && doc.message.Unsaid?
      modifies this
      ensures Valid() && doc == OpenMessage(old(doc))
    {
      OpenMessageKept(options.tools, State(), Written(), doc);
      messageItemId := outputIndex;
      Send(ItemAdded(outputIndex, Opening.Message));
      Send(PartAdded(outputIndex, TextChannel));
      messageOpened := true;
      doc := OpenMessage(doc);
    }

    method AppendTextDelta(text: string)
      requires Valid()
      modifies this
      ensures Valid() && doc == AddText(old(doc), text)
    {
      if text == "" {
        return;
      }
      OpenMessageItem();
      SpokenKept(options.tools, State(), Written(), doc, text);
      fullText := fullText + text;
      Send(Delta(outputIndex, TextChannel, text));
      doc := Spoken(doc, text);
    }

    method SendMessageDone(item: Item)
      modifies `number, `sent
      ensures Written() == SettleMessage(old(Written()), outputIndex, item)
    {
      Send(ValueDone(outputIndex, TextChannel, item.content));
      Send(PartDone(outputIndex, TextChannel, item.content));
      Send(ItemDone(outputIndex, item));
    }

    method CloseMessageItem()
      requires Valid()
      modifies this
      ensures Valid() && doc == CloseMessage(old(doc))
    {
      ShadowAt(options.tools, State(), Written(), doc, 0);
      if messageOpened && !messageClosed {
        CloseNow();
      }
    }

    method CloseNow()
      requires Valid() && Speaking(doc.message)
      modifies this
      ensures Valid() && doc == CloseMessage(old(doc))
    {
      CloseMessageKept(options.tools, State(), Written(), doc);
      SendMessageDone(Item(messageItemId, Opening.Message, fullText, ""));
      messageClosed := true;
      outputIndex := outputIndex + 1;
      doc := CloseMessage(doc);
    }

    /** What a delta says about its call is remembered. */
    method TakeIn(delta: CallDelta)
      requires Valid() && !CallAt(doc, delta.index).done
      modifies `toolCalls, `doc
      ensures Valid()
      ensures doc == old(doc).(calls :=
                old(doc).calls[delta.index := Merge(options.tools, CallAt(old(doc), delta.index), delta)])
    {
      ShadowAt(options.tools, State(), Written(), doc, delta.index);
      MergeKept(options.tools, State(), Written(), doc, delta);
      var state := if delta.index in toolCalls then toolCalls[delta.index] else NoCallYet;
      var id := options.tools.callId(delta.id);
      if id != "" {
        state := state.(callId := id);
      }
      if delta.name != "" {
        state := state.(name := delta.name);
      }
      state := state.(arguments := state.arguments + delta.arguments);
      toolCalls := toolCalls[delta.index := state];
      doc := doc.(calls := doc.calls[delta.index := Merge(options.tools, CallAt(doc, delta.index), delta)]);
    }

    /** A call whose id and name are known is announced once. */
    method Announce(index: int)
      requires Valid() && doc.created && index in doc.calls && Known(doc.calls[index])
      modifies this
      ensures Valid() && doc == OpenCall(old(doc), options.tools, index)
    {
      ShadowAt(options.tools, State(), Written(), doc, index);
      if toolCalls[index].placed {
        return;
      }
      CloseMessageItem();
      AnnounceNow(index);
    }

    method AnnounceNow(index: int)
      requires Valid() && doc.created && !Speaking(doc.message)
      requires index in doc.calls && Known(doc.calls[index]) && !doc.calls[index].placed
      modifies this
      ensures Valid() && doc == PlaceCall(old(doc), options.tools, index)
    {
      ShadowAt(options.tools, State(), Written(), doc, index);
      PlaceCallKept(options.tools, State(), Written(), doc, index);
      var state := toolCalls[index];
      Send(ItemAdded(outputIndex, CallOpening(options.tools, state.callId, state.name)));
      toolCalls := toolCalls[index := state.(placed := true, outputIndex := outputIndex)];
      outputIndex := outputIndex + 1;
      doc := PlaceCall(doc, options.tools, index);
    }

    /** Arguments not passed on yet go out, unless the tool takes them whole. */
    method PassOn(index: int)
      requires Valid() && doc.created && index in doc.calls && doc.calls[index].placed && !doc.calls[index].done
      modifies this
      ensures Valid() && doc == StreamArguments(old(doc), options.tools, index)
    {
      ShadowAt(options.tools, State(), Written(), doc, index);
      var state := toolCalls[index];
      if Withheld(options.tools, state.name) {
        return;
      }
      if |state.arguments| > state.writtenArguments {
        StreamKept(options.tools, State(), Written(), doc, index);
        Send(Delta(state.outputIndex, ArgumentsChannel, state.arguments[state.writtenArguments..]));
        toolCalls := toolCalls[index := state.(writtenArguments := |state.arguments|)];
        doc := StreamArguments(doc, options.tools, index);
      }
    }

    method HandleToolCall(delta: CallDelta)
      requires Valid() && Running(doc)
      modifies this
      ensures Valid() && Running(doc) && doc == AddCall(old(doc), options.tools, delta)
    {
      AddCallRunning(doc, options.tools, delta);
      TakeIn(delta);
      ShadowAt(options.tools, State(), Written(), doc, delta.index);
      var state := toolCalls[delta.index];
      if state.callId != "" && state.name != "" {
        EnsureResponseCreated();
        Announce(delta.index);
        PassOn(delta.index);
      }
    }

    method HandleToolCallDelta(deltas: seq<CallDelta>)
      requires Valid() && Running(doc)
      modifies this
      ensures Valid() && Running(doc) && doc == AddCalls(old(doc), options.tools, deltas)
    {
      for n := 0 to |deltas|
        invariant Valid() && Running(doc) && doc == AddCalls(old(doc), options.tools, deltas[..n])
      {
        HandleToolCall(deltas[n]);
        assert deltas[..n + 1][..n] == deltas[..n];
      }
      assert deltas[..|deltas|] == deltas;
    }

    method HandleChunk(chunk: Chunk)
      requires Valid() && Running(doc)
      modifies this
      ensures Valid() && Running(doc) && doc == Step(old(doc), options.tools, chunk)
    {
      StepRunning(doc, options.tools, chunk);
      if chunk.Choice? {
        HandleToolCallDelta(chunk.calls);
        AppendTextDelta(chunk.content);
        Note(reasoningText + chunk.reasoning, ReasonFor(chunk.finishReason, incompleteReason));
      }
    }

    /** What is kept for the end of the turn. */
    method Note(reasoning: string, reason: string)
      requires Valid()
      modifies `reasoningText, `incompleteReason, `doc
      ensures Valid() && doc == old(doc).(reasoning := reasoning, incompleteReason := reason)
    {
      NoteKept(options.tools, State(), Written(), doc, reasoning, reason);
      reasoningText, incompleteReason := reasoning, reason;
      doc := doc.(reasoning := reasoning, incompleteReason := reason);
    }

    method FinishToolCall(index: int)
      requires Valid() && index in doc.calls
      modifies this
      ensures Valid() && doc == FinishCall(old(doc), options.tools, index)
    {
      ShadowAt(options.tools, State(), Written(), doc, index);
      var state := toolCalls[index];
      if state.placed && !state.done {
        FinishNow(index);
      }
    }

    method FinishNow(index: int)
      requires Valid() && doc.created && index in doc.calls && doc.calls[index].placed && !doc.calls[index].done
      modifies this
      ensures Valid() && doc == FinishCall(old(doc), options.tools, index)
    {
      ShadowAt(options.tools, State(), Written(), doc, index);
      FinishKept(options.tools, State(), Written(), doc, index);
      var state := toolCalls[index];
      toolCalls := toolCalls[index := state.(done := true)];
      doc := FinishCall(doc, options.tools, index);
      var arguments := if Blank(state.arguments) then "{}" else state.arguments;
      SendCallDone(state.outputIndex, CallItem(options.tools, state.outputIndex, state.callId, state.name, arguments));
    }

    method SendCallDone(k: nat, item: Item)
      modifies `number, `sent
      ensures Written() == SettleCall(old(Written()), k, item)
    {
      match item.opening {
        case CustomCall(_, _) => Send(ValueDone(k, InputChannel, item.content));
        case SearchCall(_) =>
        case _ => Send(ValueDone(k, ArgumentsChannel, item.content));
      }
      Send(ItemDone(k, item));
    }

    /** Calls are finished in whatever order the map yields them. */
    method FinalizeToolCalls() returns (ghost order: seq<int>)
      requires Valid()
      modifies this
      ensures Valid() && doc == FinishCalls(old(doc), options.tools, order)
      ensures Lists(order, PlacedCalls(old(doc)))
    {
      ghost var doc0 := doc;
      order := [];
      ShadowAt(options.tools, State(), Written(), doc, 0);
      var left: set<int> := toolCalls.Keys;
      while left != {}
        invariant Valid() && Finishing(options.tools, doc0, order, doc, left)
        decreases left
      {
        Inhabited(left);
        var index :| index in left;
        FinishingTurn(options.tools, doc0, order, doc, left, index);
        FinishToolCall(index);
        order := if doc0.calls[index].placed then order + [index] else order;
        left := left - {index};
      }
      FinishingEnd(options.tools, doc0, order, doc);
    }

    /** The items of the terminal event: the message, then the calls in whatever order the map yields
        them this time. */
    method BuildCompletedOutput() returns (output: seq<Item>, ghost listed: seq<int>)
      requires Valid()
      ensures Lists(listed, PlacedCalls(doc)) && output == Output(doc, options.tools, listed)
    {
      ShadowAt(options.tools, State(), Written(), doc, 0);
      output := if messageOpened then [Item(messageItemId, Opening.Message, fullText, "")] else [];
      listed := [];
      var left: set<int> := toolCalls.Keys;
      while left != {}
        invariant Listing(doc, listed, left) && output == Output(doc, options.tools, listed)
        decreases left
      {
        Inhabited(left);
        var index :| index in left;
        ShadowAt(options.tools, State(), Written(), doc, index);
        ListingTurn(doc, listed, left, index);
        OutputGrows(doc, options.tools, listed, index);
        var state := toolCalls[index];
        if state.placed {
          var arguments := if Blank(state.arguments) then "{}" else state.arguments;
          output := output + [CallItem(options.tools, state.outputIndex, state.callId, state.name, arguments)];
          listed := listed + [index];
        }
        left := left - {index};
      }
      ListingEnd(doc, listed);
    }

    /** The last event of a turn. */
    method SendLast(e: Event)
      requires Valid()
      modifies `number, `sent
      ensures Read(sent) == Hear(View(options.tools, doc, old(number)), e)
    {
      LastHeard(options.tools, State(), Written(), doc, e);
      Send(e);
    }

    /** Reasoning alone becomes the answer where the options say so; then the message is closed. */
    method FallBackAndClose()
      requires Valid()
      modifies this
      ensures Valid() && doc == CloseMessage(FallBack(old(doc), options))
    {
      ShadowAt(options.tools, State(), Written(), doc, 0);
      if options.allowReasoningFallback && fullText == "" && reasoningText != "" {
        AppendTextDelta(reasoningText);
      }
      CloseMessageItem();
    }

    /** Everything still open is closed. */
    method CloseEverything() returns (ghost order: seq<int>)
      requires Valid()
      modifies this
      ensures Valid() && doc == Finish(old(doc), options, order) && Lists(order, PlacedCalls(old(doc)))
    {
      FallBackKeeps(doc, options);
      FallBackAndClose();
      order := FinalizeToolCalls();
    }

    method Finalize() returns (ghost order: seq<int>, ghost listed: seq<int>, ghost n: nat)
      requires Valid()
      modifies this
      ensures Lists(order, PlacedCalls(old(doc))) && Lists(listed, PlacedCalls(old(doc)))
      ensures var all := Finish(old(doc), options, order);
              Read(sent) == Hear(View(options.tools, all, n),
                                 Ended(EndingFor(old(doc).incompleteReason), Output(all, options.tools, listed)))
    {
      order := CloseEverything();
      FinishKeeps(old(doc), options, order);
      listed, n := SendTerminal();
    }

    method SendTerminal() returns (ghost listed: seq<int>, ghost n: nat)
      requires Valid()
      modifies `number, `sent
      ensures Lists(listed, PlacedCalls(doc))
      ensures Read(sent) == Hear(View(options.tools, doc, n),
                                 Ended(EndingFor(doc.incompleteReason), Output(doc, options.tools, listed)))
    {
      var output: seq<Item>;
      output, listed := BuildCompletedOutput();
      n := number;
      SendLast(Ended(EndingFor(incompleteReason), output));
    }

    method HasAnyOutput() returns (some: bool)
      requires Valid()
      ensures some == HasOutput(doc, options)
    {
      ShadowAt(options.tools, State(), Written(), doc, 0);
      if messageOpened || (options.allowReasoningFallback && reasoningText != "") {
        return true;
      }
      var left: set<int> := toolCalls.Keys;
      while left != {}
        invariant Listing(doc, [], left)
        decreases left
      {
        Inhabited(left);
        var index :| index in left;
        ShadowAt(options.tools, State(), Written(), doc, index);
        if toolCalls[index].placed {
          assert index in PlacedCalls(doc);
          return true;
        }
        ListingTurn(doc, [], left, index);
        left := left - {index};
      }
      NothingPlaced(doc);
      return false;
    }

    /** An error of the upstream's own goes out bare, with no sequence number. */
    method Abort(message: string)
      requires Valid()
      modifies `sent
      ensures Read(sent) == Accept(View(options.tools, doc, number), ErrorFrame(message))
    {
      ErrorHeard(options.tools, State(), Written(), doc, message);
      sent := sent + [ErrorFrame(message)];
    }
  }

  lemma LastHeard(tools: Tools, f: Fields, tape: Tape, doc: Document, e: Event)
    requires Kept(tools, f, tape, doc)
    ensures Read(Post(tape, e).log) == Hear(View(tools, doc, tape.number), e)
  {
    PostHears(tape, View(tools, doc, tape.number), e);
  }

  lemma ErrorHeard(tools: Tools, f: Fields, tape: Tape, doc: Document, message: string)
    requires Kept(tools, f, tape, doc)
    ensures Read(tape.log + [ErrorFrame(message)]) == Accept(View(tools, doc, tape.number), ErrorFrame(message))
  {
    ReadAppend(tape.log, ErrorFrame(message));
  }

  lemma FallBackKeeps(doc: Document, options: Options)
    ensures CloseMessage(FallBack(doc, options)).calls == doc.calls
    ensures CloseMessage(FallBack(doc, options)).incompleteReason == doc.incompleteReason
  {
  }

  lemma {:induction false} FinishCallsKeep(doc: Document, tools: Tools, order: seq<int>)
    ensures PlacedCalls(FinishCalls(doc, tools, order)) == PlacedCalls(doc)
    ensures FinishCalls(doc, tools, order).incompleteReason == doc.incompleteReason
  {
    FinishCallsKeys(doc, tools, order);
    forall i | i in doc.calls ensures FinishCalls(doc, tools, order).calls[i].placed == doc.calls[i].placed {
      assert FinishCalls(doc, tools, order).calls[i].(done := false) == doc.calls[i].(done := false);
    }
    if order != [] {
      FinishCallsKeep(doc, tools, order[..|order| - 1]);
    }
  }

  lemma FinishKeeps(doc: Document, options: Options, order: seq<int>)
    ensures PlacedCalls(Finish(doc, options, order)) == PlacedCalls(doc)
    ensures Finish(doc, options, order).incompleteReason == doc.incompleteReason
  {
    FallBackKeeps(doc, options);
    FinishCallsKeep(CloseMessage(FallBack(doc, options)), options.tools, order);
  }

  // ---- the whole run ---------------------------------------------------------------------------

  lemma OneMoreChunk(tools: Tools, chunks: seq<Chunk>, n: nat)
    requires n < |chunks|
    ensures Meaning(tools, chunks[..n + 1]) == Step(Meaning(tools, chunks[..n]), tools, chunks[n])
    ensures (DoneMarker in chunks[..n + 1]) == (DoneMarker in chunks[..n] || chunks[n].DoneMarker?)
  {
    assert chunks[..n + 1][..n] == chunks[..n];
    assert chunks[..n + 1] == chunks[..n] + [chunks[n]];
  }

  /** Where the loop stands once it has taken in `n` chunks. */
  ghost predicate Taken(tools: Tools, chunks: seq<Chunk>, n: nat, closed: bool, doc: Document) {
    var taken :=
      && n <= |chunks| && (forall i :: 0 <= i < n ==> !chunks[i].Fault?)
      && closed == (DoneMarker in chunks[..n]) && doc == Meaning(tools, chunks[..n]);
    taken
  }

  lemma TakenNext(tools: Tools, chunks: seq<Chunk>, n: nat, closed: bool, doc: Document)
    requires Taken(tools, chunks, n, closed, doc) && n < |chunks| && !chunks[n].Fault?
    ensures Taken(tools, chunks, n + 1, closed || chunks[n].DoneMarker?, Step(doc, tools, chunks[n]))
  {
    OneMoreChunk(tools, chunks, n);
  }

  lemma AllTaken(tools: Tools, chunks: seq<Chunk>, n: nat, closed: bool, doc: Document)
    requires Taken(tools, chunks, n, closed, doc) && (n < |chunks| ==> chunks[n].Fault?)
    ensures n == FirstFault(chunks) && closed == (DoneMarker in chunks[..n]) && doc == Meaning(tools, chunks[..n])
  {
  }

  method TakeChunk(converter: Converter, chunks: seq<Chunk>, n: nat, closed: bool) returns (marked: bool)
    requires converter.Valid() && Running(converter.doc)
    requires Taken(converter.options.tools, chunks, n, closed, converter.doc) && n < |chunks| && !chunks[n].Fault?
    modifies converter
    ensures converter.Valid() && Running(converter.doc)
    ensures Taken(converter.options.tools, chunks, n + 1, marked, converter.doc)
  {
    TakenNext(converter.options.tools, chunks, n, closed, converter.doc);
    converter.HandleChunk(chunks[n]);
    marked := closed || chunks[n].DoneMarker?;
  }

  method Scan(converter: Converter, chunks: seq<Chunk>) returns (n: nat, closed: bool)
    requires converter.Valid() && converter.doc == Fresh
    modifies converter
    ensures n == FirstFault(chunks) && closed == (DoneMarker in chunks[..n])
    ensures converter.Valid() && converter.doc == Meaning(converter.options.tools, chunks[..n])
  {
    n, closed := 0, false;
    while n < |chunks| && !chunks[n].Fault?
      invariant n <= |chunks| && converter.Valid() && Running(converter.doc)
      invariant Taken(converter.options.tools, chunks, n, closed, converter.doc)
    {
      closed := TakeChunk(converter, chunks, n, closed);
      n := n + 1;
    }
    AllTaken(converter.options.tools, chunks, n, closed, converter.doc);
  }

  lemma AsViewed(tools: Tools, f: Fields, tape: Tape, doc: Document)
    requires Kept(tools, f, tape, doc)
    ensures Read(tape.log) == View(tools, doc, tape.number)
  {
  }

  /** The whole conversion: whatever the upstream sends, the client holds what `Delivered` says. */
  method Stream(options: Options, chunks: seq<Chunk>, dropped: bool)
    returns (out: seq<Frame>, outcome: Outcome, ghost order: seq<int>, ghost listed: seq<int>, ghost n: nat)
    ensures outcome == Verdict(options, chunks, dropped)
    ensures outcome.Answered? ==> Lists(order, PlacedCalls(Meaning(options.tools, chunks)))
                                    && Lists(listed, PlacedCalls(Meaning(options.tools, chunks)))
    ensures Read(out) == Delivered(options, chunks, dropped, order, listed, n)
  {
    var converter := new Converter(options);
    var k, closed := Scan(converter, chunks);
    assert k == |chunks| ==> chunks[..k] == chunks;
    AsViewed(options.tools, converter.State(), converter.Written(), converter.doc);
    order, listed, n := [], [], converter.number;
    if k < |chunks| {
      outcome := UpstreamError(chunks[k].message);
      converter.Abort(chunks[k].message);
    } else {
      outcome, order, listed, n := Conclude(converter, dropped, dropped || (chunks != [] && !closed));
    }
    out := converter.sent;
  }

  /** The end of a body without an error in it.  Where reading it failed nothing more is written. */
  method Conclude(converter: Converter, dropped: bool, interrupted: bool)
    returns (outcome: Outcome, ghost order: seq<int>, ghost listed: seq<int>, ghost n: nat)
    requires converter.Valid() && (dropped ==> interrupted)
    modifies converter
    ensures var doc, options := old(converter.doc), converter.options;
            if interrupted then outcome == Interrupted
            else if HasOutput(doc, options) then outcome == Answered(EndingFor(doc.incompleteReason))
            else outcome == NothingSent
    ensures outcome.Answered?
            ==> Lists(order, PlacedCalls(old(converter.doc))) && Lists(listed, PlacedCalls(old(converter.doc)))
    ensures var doc, options := old(converter.doc), converter.options;
            Read(converter.sent)
            == if dropped || !HasOutput(doc, options) then View(options.tools, doc, n)
               else if interrupted then Hear(View(options.tools, Create(doc), n), Aborted(CUT_MESSAGE))
               else
                 var all := Finish(doc, options, order);
                 Hear(View(options.tools, all, n),
                      Ended(EndingFor(doc.incompleteReason), Output(all, options.tools, listed)))
  {
    AsViewed(converter.options.tools, converter.State(), converter.Written(), converter.doc);
    order, listed, n := [], [], converter.number;
    var output := converter.HasAnyOutput();
    if interrupted {
      outcome := Interrupted;
      if !dropped && output {
        converter.EnsureResponseCreated();
        n := converter.number;
        converter.SendLast(Aborted(CUT_MESSAGE));
      }
    } else if !output {
      outcome := NothingSent;
    } else {
      outcome := Answered(EndingFor(converter.incompleteReason));
      order, listed, n := converter.Finalize();
    }
  }
}
