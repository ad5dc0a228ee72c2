/** How a Claude or Chat tool call is spelled for the Responses client that declared the tool. */
module ToolDialect {
  import opened ResponsesClient
  import Text

  datatype Shape = FunctionShape | CustomShape | SearchShape

  /** `shape` is the kind of tool an upstream tool name stands for and `shown` the name the client
      registered; `callId` cleans an upstream call id; `unwrap` takes a custom tool's input out of its
      arguments. */
  datatype Tools = Tools(
    shape: string -> Shape,
    shown: string -> string,
    callId: string -> string,
    unwrap: string -> string)

  predicate Blank(s: string) {
    Text.TrimSpace(s) == ""
  }

  /** Custom and search calls are handed over whole when they are done. */
  predicate Withheld(tools: Tools, name: string) {
    !tools.shape(name).FunctionShape?
  }

  predicate CallLike(opening: Opening) {
    opening.FunctionCall? || opening.CustomCall? || opening.SearchCall?
  }

  function CallOpening(tools: Tools, callId: string, name: string): Opening {
    match tools.shape(name)
    case FunctionShape => FunctionCall(callId, tools.shown(name))
    case CustomShape => CustomCall(callId, tools.shown(name))
    case SearchShape => SearchCall(callId)
  }

  function CallItem(tools: Tools, k: nat, callId: string, name: string, arguments: string): Item {
    Item(k, CallOpening(tools, callId, name),
         if tools.shape(name).CustomShape? then tools.unwrap(arguments) else arguments, "")
  }

  /** The client is told of a call by the name it registered, as the kind of tool it declared; a search tool
      needs no name. */
  predicate CalledAs(tools: Tools, opening: Opening, callId: string, name: string) {
    && CallLike(opening) && opening.callId == callId
    && (opening.FunctionCall? <==> tools.shape(name).FunctionShape?)
    && (opening.CustomCall? <==> tools.shape(name).CustomShape?)
    && (opening.SearchCall? || opening.name == tools.shown(name))
  }

  lemma EmptyObjectIsNotBlank()
    ensures !Blank("{}")
  {
    assert Text.TrimLeft("{}") == "{}";
    assert Text.TrimRight("{}") == "{}";
  }
}
