/** The Claude -> Responses stream converter: an object that hands its events to a gate, which holds
    them back until the turn shows something. */
module ClaudeToResponsesStream {
  import opened Interruption
  import opened ResponsesClient
  import opened ToolDialect
  import opened ClaudeToResponsesDocument
  import opened MapOrder

  /** The writer in front of the client: it keeps what is written until told the turn is visible. */
  class VisibilityGate {
    var delivered: seq<Frame>
    var buf: seq<Frame>
    var visible: bool
    ghost var log: seq<Frame>

    /** The client has either everything written so far, or nothing. */
    ghost predicate Valid()
      reads this
    {
      Gated(visible, delivered, buf, log)
    }

    constructor ()
      ensures Valid() && !visible && log == []
    {
      delivered, buf, visible, log := [], [], false, [];
    }

    method Write(f: Frame)
      requires Valid()
      modifies this
      ensures Valid() && visible == old(visible) && log == old(log) + [f]
    {
      if visible {
        delivered := delivered + [f];
      } else {
        buf := buf + [f];
      }
      log := log + [f];
    }

    method MarkVisible()
      requires Valid()
      modifies this
      ensures Valid() && visible && log == old(log)
    {
      if visible {
        return;
      }
      visible := true;
      if |buf| > 0 {
        delivered := delivered + buf;
        buf := [];
      }
    }
  }

  ghost predicate Gated(visible: bool, delivered: seq<Frame>, buf: seq<Frame>, log: seq<Frame>) {
    var honest := if visible then delivered == log && buf == [] else delivered == [] && buf == log;
    honest
  }

  /** One block as the converter remembers it. */
  datatype BlockState = BlockState(entry: Entry, outputIndex: nat)

  datatype Fields = Fields(
    outputIndex: nat,
    responseCreated: bool,
    blocks: map<int, BlockState>,
    outputItems: seq<Item>,
    stopReason: string)

  /** Converter and document in step: the client that reads the tape holds the document. */
  ghost predicate Kept(dialect: Dialect, f: Fields, tape: Tape, visible: bool, doc: Document) {
    var inStep :=
      && Hears(tape, View(dialect, doc, tape.number))
      && Sound(doc)
      && f.outputIndex == |doc.items| && f.responseCreated == doc.created
      && f.outputItems == doc.output && f.stopReason == doc.stopReason
      && visible == doc.visible
      && Mirrors(f.blocks, doc);
    inStep
  }

  ghost predicate Mirrors(blocks: map<int, BlockState>, doc: Document) {
    && blocks.Keys == doc.latest.Keys
    && (forall i :: i in doc.latest ==> doc.latest[i] < |doc.items|)
    && (forall i :: i in doc.latest ==> blocks[i] == BlockState(doc.items[doc.latest[i]], doc.latest[i]))
  }

  // ---- what each write means to the client -----------------------------------------------------

  lemma CreateKept(dialect: Dialect, f: Fields, tape: Tape, visible: bool, doc: Document)
    requires Kept(dialect, f, tape, visible, doc) && !f.responseCreated
    ensures Kept(dialect, f.(responseCreated := true), Post(Post(tape, Created), InProgress), visible, Create(doc))
  {
    var r := View(dialect, doc, tape.number);
    PostHears(tape, r, Created);
    PostHears(Post(tape, Created), Hear(r, Created), InProgress);
  }

  lemma ImagesAppend(dialect: Dialect, items: seq<Entry>, entry: Entry)
    ensures Images(dialect, items + [entry]) == Images(dialect, items) + [Image(dialect, |items|, entry)]
  {
  }

  lemma ImagesUpdate(dialect: Dialect, items: seq<Entry>, k: nat, entry: Entry)
    requires k < |items|
    ensures Images(dialect, items[k := entry]) == Images(dialect, items)[k := Image(dialect, k, entry)]
  {
  }

  /** What is written when a block begins. */
  function Announce(dialect: Dialect, tape: Tape, k: nat, start: Start): Tape {
    var added := Post(tape, ItemAdded(k, OpeningOf(dialect, start)));
    if start.TextStart? then Post(added, PartAdded(k, TextChannel))
    else if start.ThoughtStart? && start.visible then Post(added, PartAdded(k, SummaryChannel))
    else added
  }

  lemma AnnounceHeard(dialect: Dialect, tape: Tape, doc: Document, index: int, start: Start)
    requires Hears(tape, View(dialect, doc, tape.number)) && doc.created && !start.UnknownStart?
    ensures var next := Announce(dialect, tape, |doc.items|, start);
            Hears(next, View(dialect, StartBlock(doc, index, start), next.number))
  {
    var r, k := View(dialect, doc, tape.number), |doc.items|;
    var added := ItemAdded(k, OpeningOf(dialect, start));
    PostHears(tape, r, added);
    if start.TextStart? || (start.ThoughtStart? && start.visible) {
      PostHears(Post(tape, added), Hear(r, added), PartAdded(k, ChannelFor(start)));
    }
    AnnouncedView(dialect, doc, index, start, tape.number);
  }

  function ChannelFor(start: Start): Channel {
    if start.TextStart? then TextChannel else SummaryChannel
  }

  /** A client of `doc` that is told of a block holds the document with that block in it. */
  lemma AnnouncedView(dialect: Dialect, doc: Document, index: int, start: Start, n: nat)
    requires doc.created && !start.UnknownStart?
    ensures var k, next := |doc.items|, StartBlock(doc, index, start);
            var r := Hear(View(dialect, doc, n), ItemAdded(k, OpeningOf(dialect, start)));
            if start.TextStart? || (start.ThoughtStart? && start.visible)
            then Hear(r, PartAdded(k, ChannelFor(start))) == View(dialect, next, n + 2)
            else r == View(dialect, next, n + 1)
  {
    ImagesAppend(dialect, doc.items, Begin(start));
  }

  lemma AnnounceKept(dialect: Dialect, f: Fields, tape: Tape, visible: bool, doc: Document, index: int, start: Start)
    requires Kept(dialect, f, tape, visible, doc) && f.responseCreated && !start.UnknownStart?
    ensures Kept(dialect,
                 f.(outputIndex := f.outputIndex + 1,
                    blocks := f.blocks[index := BlockState(Begin(start), f.outputIndex)]),
                 Announce(dialect, tape, f.outputIndex, start), visible || Shows(start), StartBlock(doc, index, start))
  {
    AnnounceHeard(dialect, tape, doc, index, start);
    StepSound(doc, dialect, BlockStart(index, start));
  }

  lemma PieceHeard(dialect: Dialect, tape: Tape, doc: Document, index: int, piece: Piece)
    requires Hears(tape, View(dialect, doc, tape.number)) && Sound(doc) && Live(doc, index)
    ensures var k := doc.latest[index];
            var next := if Streams(dialect, doc.items[k].start, piece)
                        then Post(tape, Delta(k, ChannelOf(piece), piece.text)) else tape;
            Hears(next, View(dialect, AddPiece(doc, dialect, index, piece), next.number))
  {
    var k := doc.latest[index];
    ImagesUpdate(dialect, doc.items, k, Hold(dialect, doc.items[k], piece));
    if Streams(dialect, doc.items[k].start, piece) {
      PostHears(tape, View(dialect, doc, tape.number), Delta(k, ChannelOf(piece), piece.text));
    } else {
      SameImage(dialect, k, doc.items[k], piece);
      assert Images(dialect, doc.items)[k := Image(dialect, k, doc.items[k])] == Images(dialect, doc.items);
    }
  }

  lemma SameImage(dialect: Dialect, k: nat, entry: Entry, piece: Piece)
    requires !Streams(dialect, entry.start, piece) && !entry.closed
    ensures Image(dialect, k, Hold(dialect, entry, piece)) == Image(dialect, k, entry)
  {
  }

  lemma PieceKept(dialect: Dialect, f: Fields, tape: Tape, visible: bool, doc: Document, index: int, piece: Piece)
    requires Kept(dialect, f, tape, visible, doc) && Live(doc, index)
    ensures var b := f.blocks[index];
            Kept(dialect, f.(blocks := f.blocks[index := b.(entry := Hold(dialect, b.entry, piece))]),
                 if Streams(dialect, b.entry.start, piece)
                 then Post(tape, Delta(b.outputIndex, ChannelOf(piece), piece.text))
                 else tape, visible, AddPiece(doc, dialect, index, piece))
  {
    PieceHeard(dialect, tape, doc, index, piece);
    StepSound(doc, dialect, BlockDelta(index, piece));
  }

  /** What is written when a block is done. */
  function WrapUp(dialect: Dialect, tape: Tape, k: nat, entry: Entry): Tape {
    var item := ItemOf(dialect, k, entry);
    match OpeningOf(dialect, entry.start)
    case Message =>
      Post(Post(Post(tape, ValueDone(k, TextChannel, entry.body)), PartDone(k, TextChannel, entry.body)),
           ItemDone(k, item))
    case Reasoning =>
      if entry.start.ThoughtStart? && entry.start.visible
      then Post(Post(Post(tape, ValueDone(k, SummaryChannel, entry.body)), PartDone(k, SummaryChannel, entry.body)),
                ItemDone(k, item))
      else Post(tape, ItemDone(k, item))
    case FunctionCall(_, _) => Post(Post(tape, ValueDone(k, ArgumentsChannel, item.content)), ItemDone(k, item))
    case CustomCall(_, _) => Post(Post(tape, ValueDone(k, InputChannel, item.content)), ItemDone(k, item))
    case SearchCall(_) => Post(tape, ItemDone(k, item))
  }

  /** The reader once item `k`, `n` events on, is done. */
  function WithDone(r: Reader, k: nat, item: Item, n: nat): Reader {
    if r.Rejected? || k >= |r.items| || r.items[k].Refused? then Rejected
    else r.(count := r.count + n, items := r.items[k := r.items[k].(stage := Finished(item))],
            finished := r.finished + [item])
  }

  /** Item `k` is open, at `stage`, on a reader that is following. */
  predicate At(r: Reader, k: nat, opening: Opening, stage: Stage) {
    r.Reader? && r.phase.Streaming? && k < |r.items| && r.items[k].Progress?
    && r.items[k].opening == opening && r.items[k].stage == stage
  }

  lemma DoneHeard(tape: Tape, r: Reader, k: nat, item: Item)
    requires Hears(tape, r) && item.id == k
    requires At(r, k, item.opening, Wrapped(item.content))
             || (At(r, k, item.opening, Announced) && (item.opening.Reasoning? || item.opening.SearchCall?))
    ensures Hears(Post(tape, ItemDone(k, item)), WithDone(r, k, item, 1))
  {
    PostHears(tape, r, ItemDone(k, item));
  }

  /** A part settled, wrapped and done, as the client takes it. */
  lemma PartHeard(tape: Tape, r: Reader, k: nat, channel: Channel, item: Item)
    requires Hears(tape, r) && item.id == k && At(r, k, item.opening, Flowing) && HasParts(item.opening, channel)
    ensures var t := Post(Post(tape, ValueDone(k, channel, item.content)), PartDone(k, channel, item.content));
            Hears(Post(t, ItemDone(k, item)), WithDone(r, k, item, 3))
  {
    var r1 := Hear(r, ValueDone(k, channel, item.content));
    var t1 := Post(tape, ValueDone(k, channel, item.content));
    PostHears(tape, r, ValueDone(k, channel, item.content));
    PostHears(t1, r1, PartDone(k, channel, item.content));
    DoneHeard(Post(t1, PartDone(k, channel, item.content)), Hear(r1, PartDone(k, channel, item.content)), k, item);
  }

  /** A call's value given whole and done, as the client takes it. */
  lemma ValueHeard(tape: Tape, r: Reader, k: nat, channel: Channel, item: Item)
    requires Hears(tape, r) && item.id == k && At(r, k, item.opening, Announced) && HasValue(item.opening, channel)
    ensures Hears(Post(Post(tape, ValueDone(k, channel, item.content)), ItemDone(k, item)), WithDone(r, k, item, 2))
  {
    PostHears(tape, r, ValueDone(k, channel, item.content));
    DoneHeard(Post(tape, ValueDone(k, channel, item.content)), Hear(r, ValueDone(k, channel, item.content)), k, item);
  }

  /** An item wrapped up on its own: from any reading that has it open, to the one that has it done. */
  lemma WrapUpHeard(dialect: Dialect, tape: Tape, r: Reader, k: nat, entry: Entry)
    requires Hears(tape, r) && !entry.closed && !entry.start.UnknownStart?
    requires At(r, k, OpeningOf(dialect, entry.start), StageOf(dialect, k, entry))
    ensures var next := WrapUp(dialect, tape, k, entry);
            next.number >= tape.number
            && Hears(next, WithDone(r, k, ItemOf(dialect, k, entry), next.number - tape.number))
  {
    var item := ItemOf(dialect, k, entry);
    match item.opening
    case Message => PartHeard(tape, r, k, TextChannel, item);
    case Reasoning =>
      if entry.start.ThoughtStart? && entry.start.visible {
        PartHeard(tape, r, k, SummaryChannel, item);
      } else {
        DoneHeard(tape, r, k, item);
      }
    case FunctionCall(_, _) => ValueHeard(tape, r, k, ArgumentsChannel, item);
    case CustomCall(_, _) => ValueHeard(tape, r, k, InputChannel, item);
    case SearchCall(_) => DoneHeard(tape, r, k, item);
  }

  lemma WrapUpKept(dialect: Dialect, f: Fields, tape: Tape, visible: bool, doc: Document, index: int)
    requires Kept(dialect, f, tape, visible, doc) && Live(doc, index)
    ensures var b := f.blocks[index];
            Kept(dialect,
                 f.(blocks := f.blocks[index := b.(entry := b.entry.(closed := true))],
                    outputItems := f.outputItems + [ItemOf(dialect, b.outputIndex, b.entry)]),
                 WrapUp(dialect, tape, b.outputIndex, b.entry), visible, CloseBlock(doc, dialect, index))
  {
    var k := doc.latest[index];
    WrapUpRead(dialect, tape, doc, index);
    StepSound(doc, dialect, BlockStop(index));
  }

  lemma WrapUpRead(dialect: Dialect, tape: Tape, doc: Document, index: int)
    requires Hears(tape, View(dialect, doc, tape.number)) && Sound(doc) && Live(doc, index)
    ensures var k := doc.latest[index];
            var next := WrapUp(dialect, tape, k, doc.items[k]);
            Hears(next, View(dialect, CloseBlock(doc, dialect, index), next.number))
  {
    var k := doc.latest[index];
    if doc.fits {
      WrapUpHeard(dialect, tape, View(dialect, doc, tape.number), k, doc.items[k]);
      ImagesUpdate(dialect, doc.items, k, doc.items[k].(closed := true));
    } else {
      WrapUpUnheard(dialect, tape, k, doc.items[k]);
    }
  }

  lemma WrapUpUnheard(dialect: Dialect, tape: Tape, k: nat, entry: Entry)
    requires Hears(tape, Rejected)
    ensures Hears(WrapUp(dialect, tape, k, entry), Rejected)
  {
    var item := ItemOf(dialect, k, entry);
    match OpeningOf(dialect, entry.start)
    case Message => PostsUnheard(tape, ValueDone(k, TextChannel, entry.body),
                                 PartDone(k, TextChannel, entry.body), ItemDone(k, item));
    case Reasoning =>
      PostsUnheard(tape, ValueDone(k, SummaryChannel, entry.body),
                   PartDone(k, SummaryChannel, entry.body), ItemDone(k, item));
      PostHears(tape, Rejected, ItemDone(k, item));
    case FunctionCall(_, _) => PostsUnheard(tape, ValueDone(k, ArgumentsChannel, item.content),
                                            ItemDone(k, item), ItemDone(k, item));
    case CustomCall(_, _) => PostsUnheard(tape, ValueDone(k, InputChannel, item.content),
                                          ItemDone(k, item), ItemDone(k, item));
    case SearchCall(_) => PostHears(tape, Rejected, ItemDone(k, item));
  }

  lemma PostsUnheard(tape: Tape, e1: Event, e2: Event, e3: Event)
    requires Hears(tape, Rejected)
    ensures Hears(Post(Post(tape, e1), e2), Rejected) && Hears(Post(Post(Post(tape, e1), e2), e3), Rejected)
  {
    PostHears(tape, Rejected, e1);
    PostHears(Post(tape, e1), Rejected, e2);
    PostHears(Post(Post(tape, e1), e2), Rejected, e3);
  }

  lemma LiveMirrored(dialect: Dialect, f: Fields, tape: Tape, visible: bool, doc: Document, index: int)
    requires Kept(dialect, f, tape, visible, doc)
    ensures Live(doc, index) <==> index in f.blocks && !f.blocks[index].entry.closed
    ensures Live(doc, index) ==> f.blocks[index] == BlockState(doc.items[doc.latest[index]], doc.latest[index])
    ensures f.blocks.Keys == doc.latest.Keys
  {
  }

  /** Where closing the remaining blocks stands: those in `order` were open and are closed. */
  ghost predicate Closing(dialect: Dialect, doc0: Document, order: seq<int>, doc: Document) {
    var stands :=
      && doc == CloseAll(doc0, dialect, order)
      && (forall j, k :: 0 <= j < k < |order| ==> order[j] != order[k])
      && (forall i :: i in order ==> Live(doc0, i) && !Live(doc, i))
      && (forall i :: Live(doc0, i) ==> i in order || Live(doc, i));
    stands
  }

  lemma CloseOther(dialect: Dialect, doc: Document, index: int, i: int)
    requires Sound(doc)
    ensures Live(CloseBlock(doc, dialect, index), i) <==> Live(doc, i) && i != index
  {
  }

  lemma ClosingNext(dialect: Dialect, doc0: Document, order: seq<int>, doc: Document, index: int)
    requires Closing(dialect, doc0, order, doc) && Sound(doc) && Live(doc, index)
    ensures Closing(dialect, doc0, order + [index], CloseBlock(doc, dialect, index))
    ensures forall i :: Live(CloseBlock(doc, dialect, index), i) <==> Live(doc, i) && i != index
  {
    forall i ensures Live(CloseBlock(doc, dialect, index), i) <==> Live(doc, i) && i != index {
      CloseOther(dialect, doc, index, i);
    }
    OrderGrows(doc0, dialect, order, index);
    LiveBefore(doc0, dialect, order, index);
  }

  lemma OrderGrows(doc0: Document, dialect: Dialect, order: seq<int>, index: int)
    ensures CloseAll(doc0, dialect, order + [index]) == CloseBlock(CloseAll(doc0, dialect, order), dialect, index)
  {
    assert (order + [index])[..|order|] == order;
  }

  /** Closing opens nothing. */
  lemma {:induction false} LiveBefore(doc0: Document, dialect: Dialect, order: seq<int>, i: int)
    requires Live(CloseAll(doc0, dialect, order), i)
    ensures Live(doc0, i)
  {
    if order != [] {
      LiveBefore(doc0, dialect, order[..|order| - 1], i);
    }
  }

  /** Closing is under way, and only blocks in `left` are open. */
  ghost predicate Remaining(dialect: Dialect, doc0: Document, order: seq<int>, doc: Document, left: set<int>) {
    var stands := Closing(dialect, doc0, order, doc) && forall i :: Live(doc, i) ==> i in left;
    stands
  }

  lemma ClosingStart(dialect: Dialect, doc0: Document)
    ensures Remaining(dialect, doc0, [], Create(doc0), doc0.latest.Keys)
  {
  }

  lemma ClosingTurn(dialect: Dialect, doc0: Document, order: seq<int>, doc: Document, left: set<int>, index: int)
    requires Remaining(dialect, doc0, order, doc, left) && Sound(doc)
    ensures Remaining(dialect, doc0, if Live(doc, index) then order + [index] else order,
                      CloseBlock(doc, dialect, index), left - {index})
  {
    if Live(doc, index) {
      ClosingNext(dialect, doc0, order, doc, index);
    }
  }

  lemma ClosingEnd(dialect: Dialect, doc0: Document, order: seq<int>, doc: Document)
    requires Remaining(dialect, doc0, order, doc, {})
    ensures doc == CloseAll(doc0, dialect, order) && Lists(order, LiveBlocks(doc0)) && LiveBlocks(doc) == {}
  {
  }

  class Converter {
    const dialect: Dialect
    const gate: VisibilityGate
    var number: nat
    var outputIndex: nat
    var responseCreated: bool
    var stopReason: string
    var blocks: map<int, BlockState>
    var outputItems: seq<Item>
    ghost var doc: Document

    ghost function State(): Fields
      reads this
    {
      Fields(outputIndex, responseCreated, blocks, outputItems, stopReason)
    }

    ghost function Written(): Tape
      reads this, gate
    {
      Tape(number, gate.log)
    }

    /** The gate is honest, and a client that read everything written holds the document. */
    ghost predicate Valid()
      reads this, gate
    {
      gate.Valid() && Kept(dialect, State(), Written(), gate.visible, doc)
    }

    constructor (dialect: Dialect)
      ensures Valid() && fresh(gate) && doc == Fresh && this.dialect == dialect
    {
      this.dialect := dialect;
      this.gate := new VisibilityGate();
      number, outputIndex, responseCreated, stopReason := 0, 0, false, "";
      blocks, outputItems, doc := map[], [], Fresh;
    }

    method Send(e: Event)
      requires gate.Valid()
      modifies `number, gate
      ensures gate.Valid() && gate.visible == old(gate.visible)
      ensures Written() == Post(old(Written()), e)
    {
      number := number + 1;
      gate.Write(Frame(number, e));
    }

    method EnsureResponseCreated()
      requires Valid()
      modifies this, gate
      ensures Valid() && doc == Create(old(doc)) && responseCreated
    {
      if responseCreated {
        return;
      }
      CreateKept(dialect, State(), Written(), gate.visible, doc);
      responseCreated := true;
      doc := Create(doc);
      Send(Created);
      Send(InProgress);
    }

    /** The events that begin a block's item. */
    method SendAdded(k: nat, start: Start)
      requires gate.Valid()
      modifies `number, gate
      ensures gate.Valid() && gate.visible == old(gate.visible)
      ensures Written() == Announce(dialect, old(Written()), k, start)
    {
      Send(ItemAdded(k, OpeningOf(dialect, start)));
      if start.TextStart? {
        Send(PartAdded(k, TextChannel));
      } else if start.ThoughtStart? && start.visible {
        Send(PartAdded(k, SummaryChannel));
      }
    }

    method HandleContentBlockStart(index: int, start: Start)
      requires Valid()
      modifies this, gate
      ensures Valid() && doc == StartBlock(old(doc), index, start)
    {
      EnsureResponseCreated();
      if !start.UnknownStart? {
        AddItem(index, start);
      }
    }

    /** A block of a kind the client can be shown begins an output item. */
    method AddItem(index: int, start: Start)
      requires Valid() && doc.created && !start.UnknownStart?
      modifies this, gate
      ensures Valid() && doc == StartBlock(old(doc), index, start)
    {
      AnnounceKept(dialect, State(), Written(), gate.visible, doc, index, start);
      var k := outputIndex;
      if start.TextStart? || start.ToolStart? {
        gate.MarkVisible();
      }
      outputIndex := outputIndex + 1;
      blocks := blocks[index := BlockState(Begin(start), k)];
      doc := StartBlock(doc, index, start);
      SendAdded(k, start);
    }

    method HandleContentBlockDelta(index: int, piece: Piece)
      requires Valid()
      modifies this, gate
      ensures Valid() && doc == AddPiece(old(doc), dialect, index, piece)
    {
      LiveMirrored(dialect, State(), Written(), gate.visible, doc, index);
      if index !in blocks || blocks[index].entry.closed {
        return;
      }
      PieceKept(dialect, State(), Written(), gate.visible, doc, index, piece);
      var block := blocks[index];
      blocks := blocks[index := block.(entry := Hold(dialect, block.entry, piece))];
      doc := AddPiece(doc, dialect, index, piece);
      if Streams(dialect, block.entry.start, piece) {
        Send(Delta(block.outputIndex, ChannelOf(piece), piece.text));
      }
    }

    /** The events that finish a block's item, and the item in the output. */
    method SendDone(k: nat, entry: Entry)
      requires gate.Valid()
      modifies `number, `outputItems, gate
      ensures gate.Valid() && gate.visible == old(gate.visible)
      ensures outputItems == old(outputItems) + [ItemOf(dialect, k, entry)]
      ensures Written() == WrapUp(dialect, old(Written()), k, entry)
    {
      SendDoneEvents(k, entry);
      outputItems := outputItems + [ItemOf(dialect, k, entry)];
    }

    method SendDoneEvents(k: nat, entry: Entry)
      requires gate.Valid()
      modifies `number, gate
      ensures gate.Valid() && gate.visible == old(gate.visible)
      ensures Written() == WrapUp(dialect, old(Written()), k, entry)
    {
      var item := ItemOf(dialect, k, entry);
      match item.opening {
        case Message =>
          Send(ValueDone(k, TextChannel, entry.body));
          Send(PartDone(k, TextChannel, entry.body));
        case Reasoning =>
          if entry.start.ThoughtStart? && entry.start.visible {
            Send(ValueDone(k, SummaryChannel, entry.body));
            Send(PartDone(k, SummaryChannel, entry.body));
          }
        case FunctionCall(_, _) => Send(ValueDone(k, ArgumentsChannel, item.content));
        case CustomCall(_, _) => Send(ValueDone(k, InputChannel, item.content));
        case SearchCall(_) =>
      }
      Send(ItemDone(k, item));
    }

    method CloseContentBlock(index: int)
      requires Valid()
      modifies this, gate
      ensures Valid() && doc == CloseBlock(old(doc), dialect, index)
    {
      LiveMirrored(dialect, State(), Written(), gate.visible, doc, index);
      if index !in blocks || blocks[index].entry.closed {
        return;
      }
      WrapUpKept(dialect, State(), Written(), gate.visible, doc, index);
      var block := blocks[index];
      blocks := blocks[index := block.(entry := block.entry.(closed := true))];
      doc := CloseBlock(doc, dialect, index);
      SendDone(block.outputIndex, block.entry);
    }

    /** One turn of the loop below. */
    method CloseIfOpen(index: int, ghost order0: seq<int>) returns (ghost order: seq<int>)
      requires Valid() && index in blocks
      modifies this, gate
      ensures Valid() && blocks.Keys == old(blocks.Keys)
      ensures doc == CloseBlock(old(doc), dialect, index)
      ensures order == if Live(old(doc), index) then order0 + [index] else order0
    {
      order := order0;
      LiveMirrored(dialect, State(), Written(), gate.visible, doc, index);
      if !blocks[index].entry.closed {
        CloseContentBlock(index);
        order := order + [index];
        LiveMirrored(dialect, State(), Written(), gate.visible, doc, index);
      }
    }

    /** Blocks that never saw their stop are closed in whatever order the map yields them. */
    method CloseRemainingBlocks() returns (ghost order: seq<int>)
      requires Valid()
      modifies this, gate
      ensures Valid() && doc == CloseAll(old(doc), dialect, order)
      ensures Lists(order, LiveBlocks(old(doc))) && LiveBlocks(doc) == {}
    {
      ghost var doc0 := doc;
      EnsureResponseCreated();
      order := [];
      var left: set<int> := blocks.Keys;
      LiveMirrored(dialect, State(), Written(), gate.visible, doc, 0);
      ClosingStart(dialect, doc0);
      while left != {}
        invariant Valid() && left <= blocks.Keys && Remaining(dialect, doc0, order, doc, left)
        decreases left
      {
        Inhabited(left);
        var index :| index in left;
        ClosingTurn(dialect, doc0, order, doc, left, index);
        order := CloseIfOpen(index, order);
        left := left - {index};
      }
      ClosingEnd(dialect, doc0, order, doc);
    }

    method HandleMessageDelta(reason: string)
      requires Valid()
      modifies this
      ensures Valid() && doc == Step(old(doc), dialect, MessageDelta(reason))
    {
      if reason != "" {
        ReasonKept(dialect, State(), Written(), gate.visible, doc, reason);
        stopReason := reason;
        doc := doc.(stopReason := reason);
      }
    }

    /** One upstream event. */
    method Handle(e: Upstream)
      requires Valid()
      modifies this, gate
      ensures Valid() && doc == Step(old(doc), dialect, e)
    {
      match e {
        case MessageStart => EnsureResponseCreated();
        case BlockStart(index, start) => HandleContentBlockStart(index, start);
        case BlockDelta(index, piece) => HandleContentBlockDelta(index, piece);
        case BlockStop(index) => CloseContentBlock(index);
        case MessageDelta(reason) => HandleMessageDelta(reason);
        case _ =>
      }
    }

    /** The last event of a turn: what the client makes of it, if the turn is visible. */
    method SendLast(e: Event)
      requires Valid()
      modifies `number, gate
      ensures gate.Valid() && gate.visible == old(gate.visible) && gate.log != []
      ensures Read(gate.log) == Hear(View(dialect, doc, |gate.log| - 1), e)
    {
      LastHeard(dialect, State(), Written(), gate.visible, doc, e);
      Send(e);
    }

    method Finalize()
      requires Valid() && LiveBlocks(doc) == {} && doc.created
      modifies this, gate
      ensures gate.Valid() && gate.visible == old(gate.visible) && gate.log != []
      ensures Read(gate.log)
           == Hear(View(dialect, old(doc), |gate.log| - 1), Ended(EndingFor(old(doc).stopReason), old(doc).output))
    {
      ghost var again := CloseRemainingBlocks();
      NothingToClose(dialect, old(doc), again);
      TellState(dialect, State(), Written(), gate.visible, doc);
      SendLast(Ended(EndingFor(stopReason), outputItems));
    }

    /** A turn the upstream cut: nothing more for a client that has seen nothing. */
    method Interrupt() returns (ghost order: seq<int>)
      requires Valid()
      modifies this, gate
      ensures gate.Valid() && gate.visible == old(gate.visible) == old(doc.visible)
      ensures gate.visible ==> gate.log != [] && Lists(order, LiveBlocks(old(doc)))
      ensures gate.visible ==> var all := CloseAll(old(doc), dialect, order);
                Read(gate.log) == Hear(View(dialect, all, |gate.log| - 1), Ended(Failed(CUT_MESSAGE), all.output))
    {
      order := [];
      TellState(dialect, State(), Written(), gate.visible, doc);
      if gate.visible {
        order := CloseRemainingBlocks();
        TellState(dialect, State(), Written(), gate.visible, doc);
        ClosingKeeps(old(doc), dialect, order);
        SendLast(Ended(Failed(CUT_MESSAGE), outputItems));
      }
    }

    /** An error of the upstream's own is shown at once, with everything held back so far. */
    method Abort(message: string)
      requires Valid()
      modifies this, gate
      ensures gate.Valid() && gate.visible && gate.log != []
      ensures Read(gate.log) == Hear(View(dialect, Create(old(doc)), |gate.log| - 1), Aborted(message))
    {
      EnsureResponseCreated();
      LastHeard(dialect, State(), Written(), gate.visible, doc, Aborted(message));
      gate.MarkVisible();
      Send(Aborted(message));
    }
  }

  // ---- the whole run ---------------------------------------------------------------------------

  lemma ReasonKept(dialect: Dialect, f: Fields, tape: Tape, visible: bool, doc: Document, reason: string)
    requires Kept(dialect, f, tape, visible, doc)
    ensures Kept(dialect, f.(stopReason := reason), tape, visible, doc.(stopReason := reason))
  {
    SoundReason(doc, reason);
  }

  lemma SoundReason(doc: Document, reason: string)
    requires Sound(doc)
    ensures Sound(doc.(stopReason := reason))
  {
  }

  lemma LastHeard(dialect: Dialect, f: Fields, tape: Tape, visible: bool, doc: Document, e: Event)
    requires Kept(dialect, f, tape, visible, doc)
    ensures var log := Post(tape, e).log;
            log != [] && Read(log) == Hear(View(dialect, doc, |log| - 1), e)
  {
    PostHears(tape, View(dialect, doc, tape.number), e);
  }

  lemma TellState(dialect: Dialect, f: Fields, tape: Tape, visible: bool, doc: Document)
    requires Kept(dialect, f, tape, visible, doc)
    ensures f.outputItems == doc.output && f.stopReason == doc.stopReason && visible == doc.visible && Sound(doc)
  {
  }

  lemma NothingToClose(dialect: Dialect, doc: Document, order: seq<int>)
    requires Lists(order, LiveBlocks(doc)) && LiveBlocks(doc) == {} && doc.created
    ensures CloseAll(doc, dialect, order) == doc
  {
    assert forall j :: 0 <= j < |order| ==> order[j] in order;
  }

  lemma {:induction false} ClosingKeeps(doc: Document, dialect: Dialect, order: seq<int>)
    ensures var all := CloseAll(doc, dialect, order);
            all.created && all.visible == doc.visible && all.stopReason == doc.stopReason
  {
    if order != [] {
      ClosingKeeps(doc, dialect, order[..|order| - 1]);
    }
  }

  /** `isThinkingOnlyEmptyOutput`. */
  method IsThinkingOnlyEmptyOutput(ending: Ending, output: seq<Item>) returns (empty: bool)
    ensures empty == (ending.Completed? && forall k :: 0 <= k < |output| ==> output[k].opening.Reasoning?)
  {
    if !ending.Completed? {
      return false;
    }
    for k := 0 to |output|
      invariant forall j :: 0 <= j < k ==> output[j].opening.Reasoning?
    {
      if !output[k].opening.Reasoning? {
        return false;
      }
    }
    return true;
  }

  method Scan(converter: Converter, events: seq<Upstream>) returns (n: nat, closed: bool)
    requires converter.Valid() && converter.doc == Fresh
    modifies converter, converter.gate
    ensures n == FirstFault(events) && closed == (MessageStop in events[..n])
    ensures converter.Valid() && converter.doc == Meaning(converter.dialect, events[..n])
  {
    n, closed := 0, false;
    while n < |events| && !events[n].Fault?
      invariant n <= |events| && closed == (MessageStop in events[..n])
      invariant forall i :: 0 <= i < n ==> !events[i].Fault?
      invariant converter.Valid() && converter.doc == Meaning(converter.dialect, events[..n])
    {
      OneMoreEvent(converter.dialect, events, n);
      converter.Handle(events[n]);
      closed := closed || events[n].MessageStop?;
      n := n + 1;
    }
  }

  lemma OneMoreEvent(dialect: Dialect, events: seq<Upstream>, n: nat)
    requires n < |events|
    ensures Meaning(dialect, events[..n + 1]) == Step(Meaning(dialect, events[..n]), dialect, events[n])
    ensures (MessageStop in events[..n + 1]) == (MessageStop in events[..n] || events[n].MessageStop?)
  {
    assert events[..n + 1][..n] == events[..n];
    assert events[..n + 1] == events[..n] + [events[n]];
  }

  /** The whole conversion.  Whatever the upstream sends, the client holds what `Delivered` says: every
      item as the document has it, or nothing at all while the turn has shown nothing. */
  method Stream(dialect: Dialect, events: seq<Upstream>)
    returns (out: seq<Frame>, outcome: Outcome, ghost order: seq<int>)
    ensures outcome == Verdict(dialect, events)
    ensures outcome.UpstreamError? || out == []
            || Lists(order, LiveBlocks(Meaning(dialect, events)))
    ensures Read(out) == Delivered(dialect, events, order, if out == [] then 0 else |out| - 1)
    ensures out == [] <==> FirstFault(events) == |events| && !Meaning(dialect, events).visible
  {
    var converter := new Converter(dialect);
    var n, closed := Scan(converter, events);
    ghost var doc := converter.doc;
    order := [];
    assert n == |events| ==> events[..n] == events;
    TellState(dialect, converter.State(), converter.Written(), converter.gate.visible, doc);
    if n < |events| {
      outcome := UpstreamError(events[n].message);
      converter.Abort(events[n].message);
    } else if events != [] && !closed {
      outcome := Interrupted;
      order := converter.Interrupt();
    } else {
      outcome, order := Conclude(converter);
    }
    out := converter.gate.delivered;
  }

  /** A turn that ended as it should: an answer, or no answer at all. */
  method Conclude(converter: Converter) returns (outcome: Outcome, ghost order: seq<int>)
    requires converter.Valid()
    modifies converter, converter.gate
    ensures converter.gate.Valid()
    ensures converter.gate.visible == old(converter.doc.visible)
    ensures outcome == if !old(converter.doc.visible) && EndingFor(old(converter.doc.stopReason)).Completed?
                       then ThinkingOnly else Answered(EndingFor(old(converter.doc.stopReason)))
    ensures Lists(order, LiveBlocks(old(converter.doc)))
    ensures converter.gate.visible ==> converter.gate.log != []
    ensures converter.gate.visible ==> var all := CloseAll(old(converter.doc), converter.dialect, order);
              Read(converter.gate.log)
              == Hear(View(converter.dialect, all, |converter.gate.log| - 1),
                      Ended(EndingFor(old(converter.doc.stopReason)), all.output))
  {
    order := converter.CloseRemainingBlocks();
    ClosingKeeps(old(converter.doc), converter.dialect, order);
    TellState(converter.dialect, converter.State(), converter.Written(), converter.gate.visible, converter.doc);
    var ending := EndingFor(converter.stopReason);
    var empty := IsThinkingOnlyEmptyOutput(ending, converter.outputItems);
    if !converter.gate.visible && empty {
      outcome := ThinkingOnly;
    } else {
      outcome := Answered(ending);
      converter.Finalize();
    }
  }
}
