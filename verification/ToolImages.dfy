/** Images that a tool returned: where a protocol's tool result can only hold text, they follow in a
    message of their own, after a line that says which call they are from. */
module ToolImages {
  import Strings = Text

  /** The names calls were made under, by call id. */
  type Names = map<string, string>

  function Digits(n: nat): string {
    if n < 10 then [('0' as int + n) as char] else Digits(n / 10) + [('0' as int + n % 10) as char]
  }

  function ImageNote(count: nat): string {
    if count == 1 then "[The tool returned an image; it follows in the next message.]"
    else "[The tool returned " + Digits(count) + " images; they follow in the next message.]"
  }

  function AppendImageNote(text: string, count: nat): string {
    if Strings.TrimSpace(text) == "" then ImageNote(count) else text + "\n\n" + ImageNote(count)
  }

  function Origin(names: Names, callId: string): string {
    if callId in names && names[callId] != "" then names[callId] + " (tool call " + callId + ")" else callId
  }

  function Label(names: Names, callId: string): string {
    "[From the result of " + Origin(names, callId) + ":]"
  }
}
