/** A strict reader of an Anthropic Messages event stream.

    The converters that write this protocol promise a trace that a strict client can follow: one
    `message_start` first, content blocks numbered 0, 1, 2, ..., every delta between its own block's
    start and stop, text and thinking never open together, everything stopped before the stream ends.
    `Read` is that client.  It knows nothing of the converters: it either rejects a trace or returns
    the message it assembled from it. */
module ClaudeClient {

  /** What a content block is announced as.  A signed block is a thinking block restored whole. */
  datatype Opening =
    | TextBlock
    | ThinkingBlock
    | SignedBlock(payload: string)
    | ToolBlock(id: string, name: string)

  datatype Lane = TextLane | ThinkingLane | ArgumentLane

  datatype Event =
    | MessageStart
    | BlockStart(index: nat, opening: Opening)
    | Delta(index: nat, lane: Lane, text: string)
    | BlockStop(index: nat)
    | MessageDelta(stopReason: string)
    | MessageStop
    | Error(message: string)

  datatype Block = Block(opening: Opening, body: string)

  datatype Phase =
    | Idle
    | Streaming
    | Ending(stopReason: string)
    | Finished(stopReason: string)
    | Broken
    | Cut

  /** `speaking` says that the last block is a text or thinking block still open; `tools` are the
      open tool blocks. */
  datatype Reader = Rejected | Reader(phase: Phase, blocks: seq<Block>, speaking: bool, tools: set<nat>)

  function LaneOf(opening: Opening): Lane {
    match opening
    case TextBlock => TextLane
    case ThinkingBlock => ThinkingLane
    case SignedBlock(_) => ThinkingLane
    case ToolBlock(_, _) => ArgumentLane
  }

  function Extend(blocks: seq<Block>, i: nat, text: string): seq<Block> {
    if i < |blocks| then blocks[i := blocks[i].(body := blocks[i].body + text)] else blocks
  }

  function Accept(r: Reader, e: Event): Reader {
    if r.Rejected? then Rejected
    else match e
      case MessageStart =>
        if r.phase.Idle? then r.(phase := Streaming) else Rejected
      case BlockStart(i, opening) =>
        if !r.phase.Streaming? || i != |r.blocks| || r.speaking then Rejected
        else if opening.ToolBlock? then r.(blocks := r.blocks + [Block(opening, "")], tools := r.tools + {i})
        else r.(blocks := r.blocks + [Block(opening, "")], speaking := true)
      case Delta(i, lane, text) =>
        if !r.phase.Streaming? || text == "" then Rejected
        else if lane.ArgumentLane? then
          if i in r.tools then r.(blocks := Extend(r.blocks, i, text)) else Rejected
        else if r.speaking && i + 1 == |r.blocks| && LaneOf(r.blocks[i].opening) == lane
        then r.(blocks := Extend(r.blocks, i, text)) else Rejected
      case BlockStop(i) =>
        if !r.phase.Streaming? then Rejected
        else if i in r.tools then r.(tools := r.tools - {i})
        else if r.speaking && i + 1 == |r.blocks| then r.(speaking := false) else Rejected
      case MessageDelta(reason) =>
        if r.phase.Streaming? && !r.speaking && r.tools == {} then r.(phase := Ending(reason)) else Rejected
      case MessageStop =>
        if r.phase.Ending? then r.(phase := Finished(r.phase.stopReason))
        else if r.phase.Broken? && !r.speaking && r.tools == {} then r.(phase := Cut) else Rejected
      case Error(_) =>
        if r.phase.Idle? || r.phase.Streaming? then r.(phase := Broken) else Rejected
  }

  function Read(trace: seq<Event>): Reader {
    if trace == [] then Reader(Idle, [], false, {})
    else Accept(Read(trace[..|trace| - 1]), trace[|trace| - 1])
  }

  /** Reading goes event by event: one more event is one more `Accept`. */
  lemma {:induction false} ReadAppend(trace: seq<Event>, e: Event)
    ensures Read(trace + [e]) == Accept(Read(trace), e)
  {
    assert (trace + [e])[..|trace|] == trace;
  }

  /** A client content with a whole trace was content with every prefix of it. */
  lemma {:induction false} ReadPrefix(trace: seq<Event>, n: nat)
    requires n <= |trace| && Read(trace).Reader?
    ensures Read(trace[..n]).Reader?
    decreases |trace| - n
  {
    if n < |trace| {
      ReadPrefix(trace, n + 1);
      assert trace[..n + 1] == trace[..n] + [trace[n]];
      ReadAppend(trace[..n], trace[n]);
    } else {
      assert trace[..n] == trace;
    }
  }

  /** The reading of a trace up to and with its `i`-th event. */
  lemma ReadNext(trace: seq<Event>, i: nat)
    requires i < |trace|
    ensures Read(trace[..i + 1]) == Accept(Read(trace[..i]), trace[i])
  {
    assert trace[..i + 1] == trace[..i] + [trace[i]];
    ReadAppend(trace[..i], trace[i]);
  }

  lemma ExtendFresh(blocks: seq<Block>, opening: Opening, text: string)
    ensures Extend(blocks + [Block(opening, "")], |blocks|, text) == blocks + [Block(opening, text)]
  {
    assert "" + text == text;
  }

  /** What is open has been started: open tool blocks are tool blocks of the message, and only its
      last block can be an open text or thinking block. */
  lemma {:induction false} OpenBlocksExist(trace: seq<Event>)
    requires Read(trace).Reader?
    ensures var r := Read(trace);
            && (forall i :: i in r.tools ==> i < |r.blocks| && r.blocks[i].opening.ToolBlock?)
            && (r.speaking ==> r.blocks != [] && !r.blocks[|r.blocks| - 1].opening.ToolBlock?)
  {
    if trace != [] {
      OpenBlocksExist(trace[..|trace| - 1]);
    }
  }
}
