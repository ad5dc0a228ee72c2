/** A Chat Completions stream as its converters read it. */
module ChatUpstream {

  datatype CallDelta = CallDelta(index: int, id: string, name: string, arguments: string)

  /** One `data:` line.  `Skipped` is a line without a usable choice. */
  datatype Chunk =
    | Fault(message: string)
    | DoneMarker
    | Skipped
    | Choice(reasoning: string, content: string, calls: seq<CallDelta>, finishReason: string)

  function FirstFault(chunks: seq<Chunk>): (n: nat)
    ensures n <= |chunks|
    ensures forall i :: 0 <= i < n ==> !chunks[i].Fault?
    ensures n < |chunks| ==> chunks[n].Fault?
  {
    if chunks == [] || chunks[0].Fault? then 0 else 1 + FirstFault(chunks[1..])
  }

  /** All the text a stream carries. */
  function Carried(chunks: seq<Chunk>): string {
    if chunks == [] then ""
    else Carried(chunks[..|chunks| - 1]) + (if chunks[|chunks| - 1].Choice? then chunks[|chunks| - 1].content else "")
  }

  /** All the reasoning a stream carries. */
  function Reasoned(chunks: seq<Chunk>): string {
    if chunks == [] then ""
    else Reasoned(chunks[..|chunks| - 1])
         + (if chunks[|chunks| - 1].Choice? then chunks[|chunks| - 1].reasoning else "")
  }

  /** All the call deltas a stream carries. */
  function Calls(chunks: seq<Chunk>): seq<CallDelta> {
    if chunks == [] then []
    else Calls(chunks[..|chunks| - 1]) + (if chunks[|chunks| - 1].Choice? then chunks[|chunks| - 1].calls else [])
  }

  /** All the argument fragments of upstream call `c`, joined. */
  function Fragments(calls: seq<CallDelta>, c: int): string {
    if calls == [] then ""
    else Fragments(calls[..|calls| - 1], c)
         + (if calls[|calls| - 1].index == c then calls[|calls| - 1].arguments else "")
  }
}
