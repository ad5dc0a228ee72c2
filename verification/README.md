# A verified model of the gateway's protocol logic

The gateway lets a client of one chat protocol use a model that speaks another. This project models the part of
it where that is decided, in `internal/gateway`, and proves what it keeps:

- **Four stream converters** (Responses → Claude, Chat → Claude, Claude → Responses, Chat → Responses). Each is
  modelled with the converter's own state and writes. What it writes is read by a *strict client*
  (`ClaudeClient`, `ResponsesClient`) that knows nothing of the converter: it follows block and item lifecycles,
  indices and sequence numbers, and rejects a trace it cannot follow. Beside each converter stands a *document*
  (`…Document`): what the upstream said, event by event, with no counters, flags or wire events. Each `Stream`
  method is proved against the two: for every upstream run, what the strict client holds at the end is what the
  document says. The `…Fidelity` modules, with `CallRouting`, `ClaudeToResponsesContents`, `ChatToClaudeLosses`
  and the `…Endings` modules, then prove what documents preserve and how turns end, for all runs and in terms of
  the upstream's own events.
- **Conversation histories**: Claude messages to Responses input and back (`ResponsesHistory`,
  `HistoryRoundTrip`) and what each side reads in the other's rendering (`HistoryLines`), the four preparation
  steps before a request (`ClaudePreparation`, `PreparedHistory`, `StandIns`), Claude messages to Chat messages
  (`ChatHistory`), when a strict Chat upstream takes them (`ChatAcceptance`) and that they say what was said,
  block by block (`ChatLines`, `HistoryContents`), and taking refused thinking out (`ThinkingRefusal`,
  `ThinkingMemory`). A history is a sequence of messages; its meaning is the flat sequence of (role, block), so
  that "nothing lost, nothing moved" is an equation.
- **Small stateful protocols**: the token refresh (`TokenRefresh`), concurrent refusals of thinking
  (`RefusalRaces`), the digest-chain session store (`DigestSessions`), the empty-turn guard (`EmptyTurnGuard`,
  `EmptyTurns`), the last-used writer (`LastUsed`), the tool registry (`ToolRegistry`), and the login throttle
  (`AuthThrottle`). Those that run concurrently are state machines over their atomic steps, and the theorems
  range over every interleaving.

Where a Go function ranges over a map, the model walks it in an arbitrary order, and the theorems hold for all of
them. JSON, base64url, digests, tool-name spelling and ids are parameters; a theorem that needs something of them
says so in a `requires` (an encoding has an inverse, a digest is sixteen bytes long and tells names apart). SSE
framing (section 9.2 of the WHATWG HTML Living Standard) is modelled only where it decides something, in the
empty-turn guard.

The converters whose Go state is a set of local variables changed by closures (Responses → Claude and Chat →
Claude) keep those variables in a record, with one function for each closure and a method for the loop; those
whose Go state is a struct with methods are classes.

## What turned out not to hold

Each is proved exactly, with the condition under which the promise does hold:

- Chat → Responses: text that comes after a call has closed the message is sent on the closed item
  (`ChatToResponsesFidelity.TextAfterACallIsLost`), and a call whose name or id changes after it was announced is
  done as something it was not announced as (`RenamedCallIsLost`). A strict client rejects both. A run is
  followed to its end if and only if no text is late and every call ends true to what it was announced as
  (`FollowedIff`).
- Claude → Chat: a result that comes after the user has said something else finds its call already answered by a
  stand-in, and answers it a second time, which a strict upstream refuses (`ChatAcceptance.LateResultRefused`).
  Such an upstream takes a conversation if and only if every call has an id and every result stands in the first
  non-empty user entry after its call, once (`StrictIffInOrder`); `StrictIffOrderly` adds results that go by the
  stand-in id.
- Chat → Claude: text in a chunk that also carries calls is dropped; the whole answer arrives if and only if no
  chunk does that (`ChatToClaudeFidelity.WholeAnswerIff`). Reasoning after the answer is dropped
  (`ChatToClaudeLosses.WholeReasoningIff`), and so is an id or a name that a call's first delta lacked
  (`AnnouncedInFullIff`).
- Claude → Responses: a turn that stops short before any text or tool block counts as answered and yet sends its
  client nothing (`ClaudeToResponsesFidelity.SilentIff`); a block begun over an open one of the same index leaves
  an item undone (`AllDoneIff`). What is sent to a block of another kind is put into it all the same: a block
  holds just the text of its own kind if and only if nothing of another kind was said to it
  (`ClaudeToResponsesContents.OwnTextsIff`).
- Responses → Claude: final arguments that do not extend the streamed fragments are appended whole; the block
  holds the final string if and only if they do extend them (`ArgumentsArriveWhole`).
- A second round trip of a history changes it again if and only if a tool result with an id held a linked image
  (`LeftLinks.SettledAfterOneIff`).
- The empty-turn guard cuts frames independently of how they were written if and only if no CRLF blank line
  stands before an LF one (`EmptyTurnGuard.PiecesDoNotMatterIff`).
- The refusal memory asks for each signature and records what is new under separate locks: two refusals of one
  signature can both be new (`RefusalRaces.BothRefuse`), but only if the second had asked before the first
  recorded, or the memory started again (`NewlyRefusedOnce`).
- Last-used times are to be written at most once in five minutes. A key is taken into unforced batches five
  minutes apart; the writes themselves are closer by as long as the earlier one waited on the store, and no
  closer (`LastUsed.WritesAreSpaced`, `GapIsTight`).
- The login throttle is described as a sliding window of eight failures in ten minutes. It counts in fixed
  windows: fifteen in ten minutes can be recorded, and never sixteen (`AuthThrottle.FifteenInTenMinutes`,
  `TwiceTheLimitLessOne`).
- The tool registry exports names as they are and looks them up trimmed: in any registry, an exported name with
  blanks around it is found again if and only if what is left without them stands for the same tool, as it is or
  failing that in lower case (`ToolRegistry.ExportFoundIff`); the alias a tool wears leads back to it if and only
  if no other tool has that name or wore it before (`AliasFoundIff`). Two tools share one flat name if and only
  if their joined names are equal or one is exactly what the other is cut to (`FlatNamesCollideIff`); namespaces
  without the separator keep them apart unless a joined name is exactly 64 bytes long (`PlainNamesApart`).

## Model

| member | source | states |
|---|---|---|
| ClaudeClient.OpenBlocksExist | internal/gateway/convert_claude_responses_stream.go:36-248 | in any trace the strict client accepts, every open tool block was started as one, and only the last block can be an open text or thinking block, so the two are never open together |
| ResponsesToClaudeStream.HandleInStep | internal/gateway/convert_claude_responses_stream.go:323-422 | each upstream event's writes change the client's message exactly as the event changes the document, whatever is open |
| ResponsesToClaudeStream.Stream | internal/gateway/convert_claude_responses_stream.go:250-471 | for every upstream run: a strict client follows the whole trace (one start, indices 0, 1, 2, …, each block stopped once, deltas inside their own blocks, stop last) and holds exactly the document's blocks; faults, cut streams and empty streams end as the code ends them |
| ResponsesToClaudeStream.CloseCompleted | internal/gateway/convert_claude_responses_stream.go:441-470 | a finished turn is closed in whatever order the open calls are walked, with the stop reason `tool_use` when a tool was used and none other was given |
| ClaudeWire.CloseInterrupted | internal/gateway/stream_interruption_close.go:94-136 | a cut turn leaves the client with every block stopped and an error, or with nothing at all when nothing had been started |
| ResponsesToClaudeFidelity.NothingLost | internal/gateway/convert_claude_responses_stream.go:123-200 | character by character and lane by lane, with each call announced where it was made, the client sees what the upstream said: merging deltas into blocks loses, repeats and reorders nothing |
| CallRouting.RoutedToOwner | internal/gateway/convert_claude_responses_stream.go:201-220 | on every run and for all identities, blank and negative ones included, an event is taken for the call the upstream itself last announced with its item id, or failing that with its output index |
| CallRouting.AnnouncedOwnsItsOwn | internal/gateway/convert_claude_responses_stream.go:157-169 | where calls share no item id and no output index, each announced call owns those it was announced with |
| CallRouting.OwnerOfTheRun | internal/gateway/convert_claude_responses_stream.go:364-411 | where moreover calls are announced before anything is said of them, whom an event speaks of does not depend on when it comes |
| ResponsesToClaudeFidelity.CallsAreIndependent | internal/gateway/convert_claude_responses_stream.go:201-233 | on every run, a call's block, openness and sent arguments are what the upstream's events that speak of it add up to alone, however other calls, text and thinking are interleaved |
| ResponsesToClaudeFidelity.ArgumentsArriveWhole | internal/gateway/convert_claude_responses_stream.go:478-486 | fragments, `arguments.done` and `output_item.done` in any mix leave the block holding the final string if and only if that string extends the fragments |
| ResponsesToClaudeFidelity.ParallelCallFidelity | internal/gateway/convert_claude_responses_stream.go:364-411 | on a whole run whose item ids and output indexes tell calls apart and whose calls are announced first, a call added once and done once gets one tool block with its id, which holds its final arguments if and only if they extend the fragments that bear its item id or output index |
| ResponsesToClaudeFidelity.LoneCallSettles | internal/gateway/convert_claude_responses_stream.go:364-411 | the same on any run, for the events that speak of the call by the announcements before them |
| ResponsesToClaudeFidelity.FirstFaultEnds | internal/gateway/convert_claude_responses_stream.go:276-284 | the first error the upstream reports ends the run there; the client holds what was said before it, and the error |
| ResponsesToClaudeFidelity.OutcomeIs | internal/gateway/convert_claude_responses_stream.go:424-470 | without an error, a non-empty body with no report of its end was cut; of the others one that said nothing has nothing to close; any other turn is finished; and what the client sees of the end is the same |
| ResponsesToClaudeFidelity.ReasonIs | internal/gateway/convert_claude_responses_stream.go:412-470 | on every finished run the client is told the stop reason that the last report with a status gives: a tool if a call was announced before it, else a refusal, the length or the end of the turn; and a tool also where that is the end of the turn or there is no such report, and any call was announced |
| ResponsesToClaudeDocument.LatestDistinct | internal/gateway/convert_claude_responses_stream.go:157-199 | two calls never own the same block |
| ResponsesToClaudeDocument.OpenIsLatest | internal/gateway/convert_claude_responses_stream.go:157-199 | the block recorded as open for a call is the last one announced for it |
| ChatToClaudeStream.HandleToolCallInStep | internal/gateway/convert_openai_claude_stream.go:228-273 | a call delta opens the call's block at most once and sends its fragment to that block, as the client reads it |
| ChatToClaudeStream.CloseInOrder | internal/gateway/convert_openai_claude_stream.go:316-328 | at the end the open tool blocks are stopped in the order they were opened, and the client accepts it |
| ChatToClaudeStream.Stream | internal/gateway/convert_openai_claude_stream.go:123-351 | for every upstream run the strict client follows the trace and holds the page the run's acts draw; a finished turn ends with the tool stops in opening order, the stop reason and the stop |
| ChatToClaudeFidelity.ThinkingPrecedesAnswer | internal/gateway/convert_openai_claude_stream.go:216-224 | in everything delivered, once a text block has begun no thinking block starts and no thinking is added |
| ChatToClaudeFidelity.WireThinkingFirst | internal/gateway/convert_openai_claude_stream.go:83-121 | a trace whose message holds no thinking after an answer has none on the wire after the answer began |
| ChatToClaudeFidelity.EveryCallCounts | internal/gateway/convert_openai_claude_stream.go:228-274 | no call delta is dropped, whatever text or reasoning is dropped around it |
| ChatToClaudeFidelity.EachCallOwnsABlock | internal/gateway/convert_openai_claude_stream.go:228-273 | each upstream call index owns one block for the whole run, announced with the id and name it was first heard with and holding all of its fragments and no other's |
| ChatToClaudeFidelity.ParallelCallsArriveWhole | internal/gateway/convert_openai_claude_stream.go:310-351 | on a completed run different calls end in different delivered blocks, each with its whole arguments |
| ChatToClaudeFidelity.NothingLost | internal/gateway/convert_openai_claude_stream.go:83-121 | the page shows the acts of the run, each once and in order |
| ChatToClaudeFidelity.WholeAnswerIff | internal/gateway/convert_openai_claude_stream.go:226-289 | the text delivered is all the text sent if and only if no chunk carries text beside a non-empty call list |
| ChatToClaudeLosses.WholeReasoningIff | internal/gateway/convert_openai_claude_stream.go:216-224 | the reasoning delivered is all the reasoning sent if and only if none comes after a chunk whose text was delivered |
| ChatToClaudeLosses.AnnouncedInFullIff | internal/gateway/convert_openai_claude_stream.go:228-262 | a call's block bears the first id and the first name the call was given if and only if neither came after its first delta |
| ChatToClaudeEndings.FirstFaultEnds | internal/gateway/convert_openai_claude_stream.go:157-177 | the first error the upstream reports ends the run there, and the client is told of it |
| ChatToClaudeEndings.OutcomeIs | internal/gateway/convert_openai_claude_stream.go:290-351 | without an error, a non-empty body without `[DONE]` was cut; of the others one without a choice has nothing to close; any other turn is finished, for the finish reason given last, or `end_turn` if none was |
| ClaudeToResponsesStream.VisibilityGate.constructor | internal/gateway/convert_responses_claude_stream.go:52-60 | a new gate has delivered nothing and holds nothing |
| ClaudeToResponsesStream.VisibilityGate.Write | internal/gateway/convert_responses_claude_stream.go:68-73 | what has been written is logged, and the client has either none or all of the log |
| ClaudeToResponsesStream.VisibilityGate.MarkVisible | internal/gateway/convert_responses_claude_stream.go:86-100 | once marked, the client has the whole log, and nothing of it was lost or sent twice |
| ClaudeToResponsesStream.Converter.HandleContentBlockStart | internal/gateway/convert_responses_claude_stream.go:200-352 | a block start is announced at the next output index, replaces whatever its index stood for, and makes the turn visible for text and tool blocks |
| ClaudeToResponsesStream.Converter.HandleContentBlockDelta | internal/gateway/convert_responses_claude_stream.go:354-423 | a delta is accumulated in the open block its index stands for and streamed on that item, or ignored |
| ClaudeToResponsesStream.Converter.CloseContentBlock | internal/gateway/convert_responses_claude_stream.go:425-584 | a block is closed once, and its item done with what the block adds up to |
| ClaudeToResponsesStream.Converter.CloseRemainingBlocks | internal/gateway/convert_responses_claude_stream.go:604-616 | blocks never stopped are closed in whatever order the map yields, each exactly once |
| ClaudeToResponsesStream.IsThinkingOnlyEmptyOutput | internal/gateway/convert_responses_claude.go:102-112 | true just when the status is completed and every output item is reasoning |
| ClaudeToResponsesStream.Conclude | internal/gateway/convert_responses_claude_stream.go:788-831 | a turn that ended is either reported as thinking only, with nothing delivered, or finished, with all blocks closed and the terminal event listing the items done |
| ClaudeToResponsesStream.Stream | internal/gateway/convert_responses_claude_stream.go:714-831 | for every upstream run the client holds the document or nothing at all; it is sent nothing if and only if there was no upstream error and no text or tool block had begun |
| ClaudeToResponsesFidelity.VisibleIff | internal/gateway/convert_responses_claude_stream.go:209-254 | a turn is visible if and only if it began a text or tool block |
| ClaudeToResponsesFidelity.OnlyThoughtsUnseen | internal/gateway/convert_responses_claude_stream.go:804-830 | while nothing is visible every finished item is a reasoning item |
| ClaudeToResponsesFidelity.ThinkingOnlyIff | internal/gateway/convert_responses_claude_stream.go:816-826 | the retry error is returned if and only if the stream ended properly, having begun no text or tool block, and its last stop reason is none of those that say it stopped short |
| ClaudeToResponsesFidelity.SilentIff | internal/gateway/convert_responses_claude_stream.go:618-657 | a turn counts as answered and sends nothing if and only if it ended properly, having begun no text or tool block, and its last stop reason says that it ran out of tokens or refused |
| ClaudeToResponsesFidelity.OneItemPerBlock | internal/gateway/convert_responses_claude_stream.go:200-352 | there are as many items as blocks of known kinds were begun |
| ClaudeToResponsesContents.EntryHoldsWhatWasTold | internal/gateway/convert_responses_claude_stream.go:354-423 | on every run, a block holds its start text and then every piece sent to its index until it was stopped or begun over, has the signature last sent, and was streamed exactly the pieces its kind passes on |
| ClaudeToResponsesContents.MatchedIsStreamed | internal/gateway/convert_responses_claude_stream.go:354-423 | a block sent only pieces of its kind streams them all, or none where it is hidden, and a text or visible thinking is done with its start followed by what was streamed |
| ClaudeToResponsesContents.OwnTextsIff | internal/gateway/convert_responses_claude_stream.go:361-415 | a block holds just the text of its own kind of pieces if and only if no piece of another kind said anything |
| ClaudeToResponsesContents.FinalArguments | internal/gateway/convert_responses_claude_stream.go:478-507 | a call, held back or not, is done with the JSON sent for it, or with its start input if that was blank, or with `{}`; never with blank arguments; a custom tool is handed what is in them |
| ClaudeToResponsesFidelity.FitsIff | internal/gateway/convert_responses_claude_stream.go:354-423 | the only thing on which a client can lose the thread is a piece streamed to a block of another kind |
| ClaudeToResponsesContents.MisfitIff | internal/gateway/convert_responses_claude_stream.go:354-423 | that is so if and only if a piece the upstream sent to an open block is passed on and of another kind |
| ClaudeToResponsesFidelity.FirstFaultEnds | internal/gateway/convert_responses_claude_stream.go:745-769 | the first error the upstream reports ends the run there, and a client still following is told of it |
| ClaudeToResponsesFidelity.OutcomeIs | internal/gateway/convert_responses_claude_stream.go:796-831 | without an error, the outcome read off the upstream: cut without its end; thinking only, or answered; and answered as incomplete for tokens, as filtered, or as completed, by the last stop reason that was given |
| ClaudeToResponsesFidelity.FollowedIff | internal/gateway/convert_responses_claude_stream.go:604-657 | a run without an error is followed to its end if and only if it showed nothing or no piece was misfit; where it showed something the client is told the ending its last stop reason calls for, or that it was cut, and the done items in done order |
| ClaudeToResponsesFidelity.OrphanedIff | internal/gateway/convert_responses_claude_stream.go:200-352 | an item is left that nothing can close any more if and only if a block was begun over an open one |
| ClaudeToResponsesFidelity.AllDoneIff | internal/gateway/convert_responses_claude_stream.go:604-616 | a finished turn leaves no item undone if and only if no block was begun over an open one of the same index |
| ClaudeToResponsesFidelity.EveryBlockDoneOnce | internal/gateway/convert_responses_claude_stream.go:604-657 | the client of such a turn, finished or cut, has one item for each block, each done, and the terminal event lists each block's item once |
| ClaudeToResponsesContents.EveryBlockArrivesWhole | internal/gateway/convert_responses_claude_stream.go:425-657 | for every block start of such a turn the client has one item, streamed the pieces passed on, done with the text, thinking or arguments the upstream sent, a call under the name and kind the client declared, and listed once by the terminal event |
| ClaudeToResponsesContents.HeldAtFault | internal/gateway/convert_responses_claude_stream.go:745-769 | where the upstream reports an error, the client has an item for each block begun before it, was streamed just what is passed on of it, and has it done if and only if the upstream had stopped it |
| ClaudeToResponsesContents.AbandonsIff | internal/gateway/convert_responses_claude_stream.go:200-352 | a block is abandoned if and only if one is begun at an index whose block was neither stopped nor begun over |
| ClaudeToResponsesFidelity.BlocksAreIndependent | internal/gateway/convert_responses_claude_stream.go:354-584 | a block fares among others exactly as it would alone |
| ResponsesClient.NumberedInSequence | internal/gateway/convert_responses_claude_stream.go:144-147 | sequence numbers of an accepted trace are 1, 2, 3, … without a gap |
| ResponsesClient.OncePerItem | internal/gateway/convert_openai_responses_chat_stream.go:112-263 | in an accepted trace item indices are 0, 1, 2, …, every item is announced once and done at most once, and done exactly when the client has it finished |
| ResponsesClient.RejectedForGood | internal/gateway/convert_openai_responses_chat_stream.go:112-115 | no later event mends a trace a client could not follow |
| ChatToResponsesStream.Converter.AppendTextDelta | internal/gateway/convert_openai_responses_chat_stream.go:151-211 | text is accumulated and streamed on the message item, which is opened first, even where that item is already closed |
| ChatToResponsesStream.Converter.CloseMessageItem | internal/gateway/convert_openai_responses_chat_stream.go:213-263 | an open message is done once with all its text, and closing again does nothing |
| ChatToResponsesStream.Converter.HandleToolCallDelta | internal/gateway/convert_openai_responses_chat_stream.go:301-386 | a call is announced when both its id and name are known, closing the message first, and its held-back arguments follow |
| ChatToResponsesStream.Converter.FinalizeToolCalls | internal/gateway/convert_openai_responses_chat_stream.go:388-448 | announced calls are done once each, in whatever order the map yields |
| ChatToResponsesStream.Stream | internal/gateway/convert_openai_responses_chat_stream.go:562-687 | for every upstream run and every order the calls are walked in, the client holds what the document delivers, and the outcome is the one the code reports |
| ChatToResponsesFidelity.EveryCallTold | internal/gateway/convert_openai_responses_chat_stream.go:301-386 | at every point, what is known of a call is what its own deltas said; it is announced if and only if both its id and its name have come, and then nothing it may stream is held back |
| ChatToResponsesFidelity.CallsArriveWhole | internal/gateway/convert_openai_responses_chat_stream.go:388-448 | a call ends as an item if and only if it was given both an id and a name, however late; the item holds all its fragments, and a plain function's were all streamed |
| ChatToResponsesFidelity.MessageHoldsText | internal/gateway/convert_openai_responses_chat_stream.go:151-211 | the message holds all the text of the run, and exists if and only if there was some |
| ChatToResponsesFidelity.ClosedIffSilenced | internal/gateway/convert_openai_responses_chat_stream.go:301-386 | the message is closed before the end if and only if a call was announced after text had begun |
| ChatToResponsesFidelity.FitsIff | internal/gateway/convert_openai_responses_chat_stream.go:151-386 | before the end a client loses the thread if and only if text came after the message was closed, or arguments were streamed as a function's on a call announced as something else |
| ChatToResponsesFidelity.SettledMessage | internal/gateway/convert_openai_responses_chat_stream.go:489-537 | at the end the message is the answer, or the reasoning where that may stand in for a missing one, and is closed |
| ChatToResponsesFidelity.AnyOrderSameItems | internal/gateway/convert_openai_responses_chat_stream.go:450-487 | the items listed and the items done are the same, in whatever two orders the calls are walked |
| ChatToResponsesFidelity.FollowedIff | internal/gateway/convert_openai_responses_chat_stream.go:301-537 | a finished turn is followed to its terminal event if and only if no text was late and every call goes at the end by what it was announced as and streamed nothing against it; every item is then done, and the event lists the same items, the answer first |
| ChatToResponsesFidelity.FollowedIffNotLate | internal/gateway/convert_openai_responses_chat_stream.go:489-537 | where no call is given a second id or name, a finished turn is followed if and only if no text was late |
| ChatToResponsesEndings.FirstFaultEnds | internal/gateway/convert_openai_responses_chat_stream.go:611-625 | the first error the upstream reports ends the run there, and a client still following is told of it |
| ChatToResponsesEndings.OutcomeIs | internal/gateway/convert_openai_responses_chat_stream.go:659-686 | without an error: cut if the body was dropped or lacks `[DONE]`; answered if moreover anything was said, an answer, reasoning in its place, or a call with an id and a name; and incomplete if a finish reason said so, as the last such reason says |
| ChatToResponsesEndings.CutIsTold | internal/gateway/convert_openai_responses_chat_stream.go:671-679 | a cut turn is told as one, unless nothing was said or the body itself was dropped |
| ChatToResponsesEndings.TextSoFar | internal/gateway/convert_openai_responses_chat_stream.go:611-679 | where a turn broke off, a client following it has been streamed all the text there was, in one message, done if and only if a call came after it |
| ChatToResponsesEndings.CallSoFar | internal/gateway/convert_openai_responses_chat_stream.go:301-386 | and of every call that had an id and a name by then, by what it was announced as, with the arguments of a plain function as far as they had come, and not as done |
| ChatToResponsesEndings.AnswerIsListed | internal/gateway/convert_openai_responses_chat_stream.go:450-537 | on a finished run with no late text and no call untrue to its name, the terminal event lists the whole answer, if there is one, then each call that was ever given an id and a name, once, under the name and kind the client declared and with all its arguments, and nothing else |
| ChatToResponsesFidelity.RenamedCallIsLost | internal/gateway/convert_openai_responses_chat_stream.go:301-386 | without late text, any call named once and then otherwise makes an answered turn that a strict client rejects |
| ChatToResponsesFidelity.TextAfterACallIsLost | internal/gateway/convert_openai_responses_chat_stream.go:151-193 | a concrete run, text, call, text, that a strict client rejects |
| ToolIds.ValidIdKept | internal/gateway/convert_tools.go:114-134 | a valid id passes both sanitizers unchanged |
| ToolIds.SanitizedIsValid | internal/gateway/convert_tools.go:114-134 | whatever the id was, the sanitized one is one Anthropic accepts, and sanitizing it again changes nothing |
| ToolIds.RewrittenStayApart | internal/gateway/convert_tools.go:108-134 | ids that had to be rewritten stay apart as far as their digests do, though they may read alike |
| ToolIds.RewrittenReadsAlike | internal/gateway/convert_tools.go:114-134 | a rewritten id has the letters, digits and dashes of the id it was, all of them and in order, or the first of them where it was cut, and then the digest |
| ToolIds.RunBecomesOne | internal/gateway/convert_tools.go:114-134 | each run of characters that ids cannot have becomes one underscore |
| ToolIds.IdCharIff | internal/gateway/convert_tools.go:100-121 | the characters of ids are the letters, the digits, the underscore and the dash |
| ToolIds.PairedIdTaken | internal/gateway/convert_openai_responses_chat_stream.go:277-299 | of two ids on two lines the one that begins with `call_` is taken, and the first if both or neither does |
| ClaudeHistory.GroupFlat | internal/gateway/convert_responses_claude.go:121-153 | pushing blocks into messages by role loses and reorders nothing |
| ClaudeHistory.GroupOfFlat | internal/gateway/convert_responses_claude.go:121-153 | an alternating history of non-empty messages is what its blocks are grouped into again |
| ClaudeHistory.SameBlocksSameHistory | internal/gateway/convert_responses_claude.go:415-432 | two alternating histories of non-empty messages with the same blocks are the same |
| ResponsesHistory.ClaudeMessagesToResponsesInput | internal/gateway/convert_claude_responses.go:87-215 | the buffer-and-flush loop yields the items the history stands for |
| ResponsesHistory.ResponsesInputToClaudeMessages | internal/gateway/convert_responses_claude.go:177-285 | the loop over items yields the grouping of the blocks the items stand for |
| HistoryLines.LinesAreTold | internal/gateway/convert_claude_responses.go:87-215 | what a Responses upstream reads in the input a history is turned into, item by item, is what its blocks say where they stand: words, images, calls with their arguments, results followed by their images under a heading that names the call, thinking with its summary |
| HistoryLines.WordsInTheirPlace | internal/gateway/convert_claude_responses.go:103-134 | input text is given by users only and output text by assistants only |
| HistoryLines.EveryTextIsSaid | internal/gateway/convert_claude_responses.go:103-134 | every text that is not blank stands in a message of its speaker, as output text of an assistant or input text of a user |
| HistoryLines.ItemComesBack | internal/gateway/convert_responses_claude.go:177-285 | wherever an item stands in any input at all, it comes back in its place as what it is to be, a failed result as failed, arguments that cannot be read as an empty object, thinking the gateway did not seal not at all; and what is around it as without it |
| HistoryLines.NoteCounts | internal/gateway/convert_tools.go:220-232 | the note on the images of a result says how many they are |
| HistoryRoundTrip.RoundTrip | internal/gateway/convert_claude_responses.go:87-215 | every history, well formed or not, comes back as exactly what survives of it, in order, grouped into messages |
| HistoryRoundTrip.WellFormedRoundTrip | internal/gateway/convert_responses_claude.go:24-58 | a history of carried blocks comes back block for block, signed thinking identical and in place, strings boxed and neighbours of one role merged |
| HistoryRoundTrip.SecondTripIff | internal/gateway/convert_responses_claude.go:155-285 | a second trip changes nothing more if and only if the first left no linked image |
| LeftLinks.SettledAfterOneIff | internal/gateway/convert_responses_claude.go:155-285 | on the history itself: a second trip changes nothing more if and only if no tool result with an id holds a non-blank address that is not inline data |
| HistoryRoundTrip.DataUrlTakenApart | internal/gateway/convert_responses_claude.go:155-175 | inline image data with a plain media type survives being put into an address and taken out |
| ClaudePreparation.MergeAdjacent | internal/gateway/convert_responses_claude.go:415-432 | adjacent messages of one role are joined: the history's blocks, grouped |
| ClaudePreparation.PairToolUses | internal/gateway/convert_responses_claude.go:287-355 | walking and extending the list in place gives every unanswered call a stand-in result in the next user message |
| ClaudePreparation.DropTrailingThinking | internal/gateway/convert_responses_claude.go:363-411 | trailing thinking of assistant messages goes, but for the one placeholder; emptied messages go and neighbours join |
| ClaudePreparation.Prepare | internal/gateway/convert_responses_claude.go:461-470 | the four steps in their order |
| PreparedHistory.PreparedShape | internal/gateway/convert_responses_claude.go:363-446 | what is sent begins with the user, alternates, has no empty message, and ends no turn in thinking but for the placeholder |
| PreparedHistory.EveryCallAnswered | internal/gateway/convert_responses_claude.go:287-355 | every call of what is sent is answered by a result in a user message |
| StandIns.AnsweredOnce | internal/gateway/convert_responses_claude.go:287-355 | in what is sent every id is answered just as often as the client answered it, and exactly once if it did not and an assistant called under that id |
| PreparedHistory.CallsAnsweredPromptly | internal/gateway/convert_responses_claude.go:287-355 | a call the client never answered is answered in the very next message, whatever is dropped or merged afterwards |
| PreparedHistory.NothingElseChanges | internal/gateway/convert_responses_claude.go:287-446 | erasing stand-ins and the lead leaves the merged history with its trailing thinking trimmed, block for block |
| PreparedHistory.ConversationConserved | internal/gateway/convert_responses_claude.go:287-446 | erasing thinking, stand-ins and the lead leaves exactly the (role, block) sequence that came in |
| PreparedHistory.TurnKept | internal/gateway/convert_responses_claude.go:363-399 | an assistant's turn is left up to its last block that is not thinking; one of nothing but thinking as one empty thinking block if any of it was redacted, and not at all otherwise |
| TokenRefresh.RotatedTokensStaySpent | internal/gateway/claude_oauth.go:531-594 | over every interleaving of callers, sign-ins and removals, a refresh token that was rotated away is never spent again |
| TokenRefresh.StoredTokenWorks | internal/gateway/claude_oauth.go:583-594 | whenever the lock is free, the stored refresh token is one that can still be spent |
| TokenRefresh.OneRefreshPerExpiry | internal/gateway/chatgpt_oauth.go:419-463 | any number of callers, with any leads, racing one expiry make at most one successful refresh, and one more for each sign-in during the race with a credential that expires within it |
| TokenRefresh.EnterWaitsIff | internal/gateway/claude_oauth.go:509-530 | a caller waits for the lock if and only if its credential has no access token, or does not outlast the lead it asks for, or has an expiry that is not known where that counts as over |
| TokenRefresh.ReadAgainLeavesIff | internal/gateway/claude_oauth.go:531-546 | behind the lock a caller goes away without refreshing if and only if nothing is stored any more or what is stored can be used |
| TokenRefresh.SpendsOnlyStale | internal/gateway/claude_oauth.go:531-552 | over every run, whoever is about to spend a refresh token holds a credential that could not be used when it was read again behind the lock |
| TokenRefresh.StaleIsRefreshed | internal/gateway/claude_oauth.go:531-594 | a credential that cannot be used is refreshed: its refresh token is spent once, and what the upstream grants is stored, with the old refresh token where it was not rotated |
| TokenRefresh.RemovedStaysRemoved | internal/gateway/claude_oauth.go:531-583 | a provider that was removed stays removed until somebody signs in, whoever was refreshing its credential meanwhile |
| ChatHistory.ClaudeMessagesToOpenAI | internal/gateway/convert_tools.go:1531-1690 | whatever comes in, every call with an id is answered, by a result or a stand-in, before anything else is said; every image of a result is said once, in order, before the next assistant turn; every result is reported once, in order, under its call's id; and a strict upstream's books end as the entries say |
| ChatHistory.CallsAnsweredInRun | internal/gateway/convert_tools.go:1541-1550 | in such a conversation each call with an id is answered within the unbroken run of tool messages right after its assistant message |
| ChatLines.EveryBlockIsTold | internal/gateway/convert_tools.go:1531-1690 | what the messages say, moment by moment, is what each block of the conversation says where it stands: users their words and images after the images of their results, each under a heading that names its call; assistants their calls with their texts, or texts and images |
| ChatLines.EveryResultIsReported | internal/gateway/convert_tools.go:220-272 | the reports sent are those of the results with an id, in order: the words, marked if it failed and does not say so, and a note on images |
| HistoryContents.UserIsHeard | internal/gateway/convert_tools.go:1636-1680 | every text of a user that is not blank is said in the converted conversation, word for word |
| HistoryContents.AssistantIsHeard | internal/gateway/convert_tools.go:1580-1630 | every text of an assistant that is not blank stands whole in its turn |
| HistoryContents.CallIsMade | internal/gateway/convert_tools.go:1580-1630 | every call with a name is made, with its input |
| HistoryContents.ResultIsReported | internal/gateway/convert_tools.go:249-272 | a result with an id is reported under it, and every text it holds stands whole in the report |
| HistoryContents.FailureIsMarkedIff | internal/gateway/convert_tools.go:242-247 | a report begins with the mark of a failure if and only if the result failed or itself begins so |
| HistoryContents.ImageIsShown | internal/gateway/convert_tools.go:249-272 | every image of a result with an id is among what the user says |
| HistoryContents.OutputHoldsTexts | internal/gateway/convert_tools.go:278-310 | every text of a result stands whole in the output string sent to a Responses upstream |
| ChatAcceptance.StrictIffOrderly | internal/gateway/convert_tools.go:1531-1690 | an upstream that owes an answer to every call, and takes a tool message only for a call still owed one, takes the whole conversion with nothing owed if and only if the entries are orderly, stand-in ids included |
| ChatAcceptance.StrictIffInOrder | internal/gateway/convert_tools.go:1636-1677 | where no result goes by the stand-in id: it does if and only if every call has an id, and every result answers a still unanswered call of the assistant entry whose first non-empty user entry it stands in |
| ChatAcceptance.LateResultRefused | internal/gateway/convert_tools.go:1541-1550 | a call, words of the user, and then its result: the upstream refuses the conversion, for every call, words and result |
| ChatHistory.DropKeepsOthers | internal/gateway/convert_tools.go:209-216 | taking an answered call off the waiting list takes no other call off it |
| ThinkingRefusal.Strip | internal/gateway/claude_thinking_bind.go:119-178 | the loop that drops blocks reports a change just when one goes, and joins neighbours only where a whole message went |
| ThinkingRefusal.MergeTurnsFlat | internal/gateway/claude_pass_through_normalize.go:346-393 | joining neighbours moves no block |
| ThinkingRefusal.StrippedFlat | internal/gateway/claude_thinking_bind.go:119-178 | what is left is exactly the blocks to be kept, in their roles and order |
| ThinkingRefusal.FlatIsSaid | internal/gateway/claude_pass_through_normalize.go:346-393 | the blocks of a history are what its turns say, a string as one text and a blank one as none |
| ThinkingRefusal.JoinedAlternate | internal/gateway/claude_pass_through_normalize.go:346-393 | where neighbours are joined no two of one role are left |
| ThinkingRefusal.KeptSpares | internal/gateway/claude_thinking_bind.go:119-178 | blocks that are not thinking are untouched, and any change leaves strictly fewer thinking blocks |
| ThinkingMemory.RefusalMemory.Refuse | internal/gateway/claude_thinking_bind.go:97-109 | the keys are remembered for their owner, and past its bound the memory starts again |
| ThinkingMemory.RefusalMemory.StripRefused | internal/gateway/claude_thinking_bind.go:180-190 | thinking refused before is left out of what is sent |
| ThinkingMemory.RefusalMemory.StripBound | internal/gateway/claude_thinking_bind.go:321-434 | a change is reported just when thinking at or after the refused position was not refused before; it is then remembered and all of it cut |
| ThinkingMemory.CutExactly | internal/gateway/claude_thinking_bind.go:321-434 | a cut leaves everything before the position, thinking included, and everything from it on but the thinking |
| ThinkingMemory.BoundCut | internal/gateway/claude_thinking_bind.go:321-434 | when a change is reported, the cut is as above, all that is not thinking keeps role and order, and the thinking count strictly falls |
| ThinkingMemory.CutAtNamed | internal/gateway/claude_thinking_bind.go:321-434 | where the refusal names a thinking block, what stands before it is spared and the thinking from it on is taken |
| ThinkingMemory.CutEverywhere | internal/gateway/claude_thinking_bind.go:321-434 | where it names none, all thinking is taken |
| ThinkingMemory.RememberedUntilFull | internal/gateway/claude_thinking_bind.go:97-109 | refused keys are remembered beside the others up to 16384 in all; past that only the new ones are |
| RefusalRaces.NewlyRefusedOnce | internal/gateway/claude_thinking_bind.go:86-109 | over every interleaving of questions and recordings, an owner's signature is newly refused again only if the memory started again in between or the second refusal asked before the first recorded |
| RefusalRaces.BothRefuse | internal/gateway/claude_thinking_bind.go:321-434 | two refusals that both ask before either records do both refuse the signature anew |
| ThinkingMemory.RefusedOnceAlone | internal/gateway/claude_thinking_bind.go:97-109 | with one refusal at a time, a signature refused anew twice for one owner means the memory started again in between |
| ThinkingMemory.SentClean | internal/gateway/claude_thinking_bind.go:180-190 | what is sent holds nothing its owner has refused, and is otherwise unchanged |
| ThinkingMemory.AnsweredIffThinking | internal/gateway/claude_thinking_bind.go:321-434 | a refusal of a history sent clean has something to cut if and only if any thinking is left in it, so retries end |
| ThinkingMemory.MemoryBounded | internal/gateway/claude_thinking_bind.go:97-109 | the memory never holds more than its bound, or the keys of one refusal where those are more |
| DigestSessions.DigestSessionStore.BindOrReuse | internal/gateway/chatgpt_prompt_cache.go:133-157 | the key of the longest live stored prefix is returned and its life begins again; else a new key is bound to the whole chain; whatever order the expired are reaped in |
| DigestSessions.JoinInjective | internal/gateway/chatgpt_prompt_cache.go:133-157 | different digest chains have different names in the store |
| DigestSessions.FreshIsAnchored | internal/gateway/chatgpt_prompt_cache.go:133-157 | a chain bound afresh when nothing stored extends it anchors its conversation |
| DigestSessions.KeyIsStable | internal/gateway/chatgpt_prompt_cache.go:133-157 | every later turn of an anchored conversation whose gaps stay under the lifetime gets the same key, however other conversations' calls interleave |
| DigestSessions.FreshKeysApart | internal/gateway/chatgpt_prompt_cache.go:133-157 | two different conversations that the store does not know are bound to different keys, as far as the digest tells them apart |
| DigestSessions.LongestAnswers | internal/gateway/chatgpt_prompt_cache.go:145-156 | of the beginnings of the chain, two digests or longer, that name a stored session whose time is not up, the longest answers with its key and is renewed for a lifetime; where there is none, the digest of the whole chain becomes the key |
| DigestSessions.OnlyExpiredAreReaped | internal/gateway/chatgpt_prompt_cache.go:133-157 | a request drops every session that is over and no other, and binds or renews one for a lifetime from then |
| EmptyTurnGuard.Guard.Write | internal/gateway/claude_empty_turn.go:75-98 | complete frames are passed on one by one and the rest is held |
| EmptyTurnGuard.Guard.Flush | internal/gateway/claude_empty_turn.go:58-73 | what is held is passed on as a frame |
| EmptyTurnGuard.PiecesDoNotMatter | internal/gateway/claude_empty_turn.go:75-123 | on a stream with LF blank lines the bytes passed on depend only on the bytes written, and are what a frame-by-frame reading yields |
| EmptyTurnGuard.PiecesDoNotMatterIff | internal/gateway/claude_empty_turn.go:113-123 | frames are cut alike for all ways of writing the bytes if and only if no CRLF blank line stands before an LF one |
| EmptyTurnGuard.AtMostOneReplaced | internal/gateway/claude_empty_turn.go:125-144 | with writes, flushes and closes in any order, what is passed on is the input, or the input with one fragment replaced by the error frame |
| EmptyTurnGuard.VisiblePassesOn | internal/gateway/claude_empty_turn.go:125-144 | once a visible block was seen, what is passed on and held grows by exactly the bytes written |
| EmptyTurns.SeenIff | internal/gateway/claude_empty_turn.go:125-158 | a frame counts as opening a visible block if and only if `"content_block":` stands in it and, at or after that, one of the three readable types; and as closing if and only if `"message_stop"` stands in it |
| EmptyTurns.EmptyTurnReplacedIff | internal/gateway/claude_empty_turn.go:75-158 | in the bytes alone: a written and closed stream reaches its client unchanged if and only if no frame that holds `"message_stop"` comes before every frame that opens a text or a tool call; otherwise the first such frame, and nothing else, is replaced by the error |
| EmptyTurns.OrderlyCut | internal/gateway/claude_empty_turn.go:75-123 | on an orderly stream the frames meant there are those of the bytes written, however they were written |
| EmptyTurns.FrameIsCut | internal/gateway/claude_empty_turn.go:113-123 | the first frame ends behind the first LF blank line of the bytes, or behind the first CRLF one if there is no LF one, and there is no frame without either |
| EmptyTurns.OrderlyIff | internal/gateway/claude_empty_turn.go:113-123 | a stream is orderly if and only if no CRLF blank line of its bytes stands before an LF one |
| LastUsed.Toucher.Touch | internal/gateway/apikey_touch.go:64-82 | the last time of a key is noted, nothing else changes |
| LastUsed.Toucher.TakeBatch | internal/gateway/apikey_touch.go:113-129 | just the due keys leave the pending ones, stamped, for writing |
| LastUsed.NothingIsLost | internal/gateway/apikey_touch.go:64-134 | over every interleaving of touches, flushes and single writes, a key's last time is pending, in the batch under way, or in the store |
| LastUsed.ForcedFlushLands | internal/gateway/apikey_touch.go:113-134 | from a forced flush until the next batch is taken, whatever is touched meanwhile, the last time of every key touched before it is in the batch or the store, and in the store once the batch is written |
| LastUsed.TakenIff | internal/gateway/apikey_touch.go:113-129 | a flush takes a pending time if and only if it is forced or the key was not taken in the last five minutes; what it leaves stays pending |
| LastUsed.TakenIffNotLately | internal/gateway/apikey_touch.go:113-129 | on every run, an unforced flush takes a pending time if and only if no flush took one of the same key in the five minutes before |
| LastUsed.WritesAreSpaced | internal/gateway/apikey_touch.go:113-134 | an unforced write of a key was taken at least five minutes after any earlier write of it was, and is made at least five minutes after it less the time that one waited |
| LastUsed.GapIsTight | internal/gateway/apikey_touch.go:120-127 | a run in which two unforced writes of one key are exactly that close, for every waiting time |
| ToolRegistry.ToolContext.AddClaudeTool | internal/gateway/codex_tool_context.go:118-138 | the first tool of a name is exported; a cloaked alias is noted only where it is free |
| ToolRegistry.AddingTies | internal/gateway/codex_tool_context.go:118-138 | one more registration keeps exports, seen names and lookups in agreement with the list of registrations |
| ToolRegistry.ExportsResolve | internal/gateway/codex_tool_context.go:118-182 | after any registrations exported names are distinct, and each stands for the first tool registered under it, never for another's alias |
| ToolRegistry.ToolContext.LookupSpec | internal/gateway/codex_tool_context.go:323-348 | the three stages, trimmed, as one of the client's names and in lower case, find what the first of them to stand for anything stands for, whatever order the client's names are walked in |
| ToolRegistry.FlatNamesFit | internal/gateway/codex_tool_context.go:460-476 | a flattened name has at most 64 bytes, is the joined name where that fits, and keeps its digest where it is cut |
| ToolRegistry.FlatNamesCollideIff | internal/gateway/codex_tool_context.go:460-476 | two tools share a flat name if and only if their joined names are equal or one of them is what the other is cut to |
| ToolRegistry.PlainNamesApart | internal/gateway/codex_tool_context.go:460-476 | where namespaces neither hold nor end in the separator and no joined name is exactly 64 bytes long, tools share a flat name if and only if namespace and name are the same |
| ToolRegistry.FlatNamesCollide | internal/gateway/codex_tool_context.go:460-476 | any three names a, b, c make two different tools, c in a__b and b__c in a, that share a flat name |
| ToolRegistry.ExportFoundIff | internal/gateway/codex_tool_context.go:323-348 | in any registry, an exported name is found again as its own tool if and only if it has no blanks around it, or what is left without them stands for that tool, as it is or failing that in lower case |
| ToolRegistry.TakenForKnownIff | internal/gateway/convert_tools.go:1275-1314 | a name is taken for one the client knows if and only if it is some spelling of one, and then for one it spells; a name the client uses is left as it is, and so is one that spells nothing the client knows |
| ToolRegistry.RespelledIsFound | internal/gateway/codex_tool_context.go:323-348 | in any registry, a name that stands for no tool itself is found as the tool exported under its lower case, or under what its cloak hides where the client does not know it otherwise |
| ToolRegistry.AliasFoundIff | internal/gateway/codex_tool_context.go:118-138 | in any registry, the alias a tool wears is looked up as that tool if and only if no other tool is exported under it and no other that wears it was registered before |
| ToolRegistry.FunctionToolIsFound | internal/gateway/codex_tool_context.go:158-182 | a function tool is found, under its name or its namespace's flat name, as the kind, bare name and namespace it was registered with, unless the name was taken before |
| AuthThrottle.Throttle.IsBlocked | internal/gateway/auth_throttle.go:49-62 | a key is blocked just while its window is current and its count at the limit, and the wait is what is left of the window |
| AuthThrottle.Throttle.Fail | internal/gateway/auth_throttle.go:64-87 | a failure is counted in the current window or begins a new one, and expired entries are swept when the map is full, in any order |
| AuthThrottle.Throttle.Try | internal/gateway/auth_throttle.go:110-202 | unless it is turned away, a wrong login is recorded for its source and its account, and a right one clears both |
| AuthThrottle.SweepNeverMatters | internal/gateway/auth_throttle.go:64-96 | on every run of right and wrong logins with a clock that does not go back, sweeping changes no answer the throttle gives |
| AuthThrottle.TwiceTheLimitLessOne | internal/gateway/auth_throttle.go:49-96 | as long as nobody succeeds from a source, no ten minutes hold more than fifteen recorded failures of it; of an account, sixty-three; others may succeed |
| AuthThrottle.FifteenInTenMinutes | internal/gateway/auth_throttle.go:17-24 | fifteen are reached: the window is fixed, not sliding |
| AuthThrottle.TurnedAwayIff | internal/gateway/auth_throttle.go:110-122 | a login is turned away if and only if eight failures of its source or thirty-two of its account were counted in a window that is still running |
| AuthThrottle.FailureCounts | internal/gateway/auth_throttle.go:64-87 | a recorded failure adds one to a running window or begins a new one, whether or not the map is swept |
| AuthThrottle.SuccessClears | internal/gateway/auth_throttle.go:198-203 | a right login that is let through clears its source and its account and nobody else |

## Left out

- Transport: HTTP, proxying, line scanning, JSON decoding and the writes' own errors. A converter's input is the sequence of decoded events, its output the sequence of events written.
- A body that ends cleanly and one whose reading fails are told apart only where the code goes on differently.
- Message and item ids, model names, token usage, timestamps and headers, which the converters copy.
- Stop-sequence detection in Chat → Claude: the stop reason is the one mapped from the finish reason.
- Error bodies: an upstream error is a message, not the object the error converters make of it.
- Tool name restoration, OAuth cloaking and call-id prefixes are function parameters.
- In the stream converters, records that the Go code keeps by reference in a map are modelled as map entries that are replaced, and the closures' shared variables as a record passed along; aliasing is not modelled.
- Responses → Claude and Chat → Claude write to a list of events; that several writes may be buffered together is not modelled.
- Items on the way back from Responses input other than messages, function calls, their outputs and reasoning (custom tool calls, tool search, namespaces), and document blocks on the way forth.
- `is_error` of a tool result: the Responses history does not carry it, so it is outside the round trip.
- Image sources given by address inside tool results of a Chat history.
- Parallel-tool settings, system prompts, tools and tool choice, which are copied beside the messages.
- A thinking block's encoding is a pair of functions with an assumed inverse, for blocks the gateway encoded itself.
- ChatHistory.CallsAnsweredInRun: calls without an id go by one stand-in id and get no stand-in result, so they are not covered by it; `ChatAcceptance` says when they are answered.
- ChatHistory.ClaudeMessagesToOpenAI: where no message at all is left the code returns an error, the model the empty list.
- TokenRefresh.OneRefreshPerExpiry: assumes that a refreshed token outlasts the race by any caller's lead.
- TokenRefresh.RotatedTokensStaySpent: assumes that sign-ins bring fresh tokens and that a failed refresh spends nothing; the unlocked label backfill, restarts and the store on disk are not modelled.
- DigestSessions.KeyIsStable: assumes a clock that does not go back; how a digest chain is derived from a request is not modelled.
- DigestSessions.FreshKeysApart: as far as the digest, a parameter, tells the chains apart.
- ToolIds.RewrittenStayApart: as far as the digest, a parameter, tells the ids apart.
- RefusalRaces: what a refusal asks for and in which order is left to the run; a history that was stripped before another request's refusal was recorded is sent as it was stripped.
- ThinkingMemory.RefusedOnceAlone: one refusal at a time; the interleavings are in `RefusalRaces`.
- EmptyTurns.EmptyTurnReplacedIff: flushes in mid-stream, which pass part of a frame on, are covered by `EmptyTurnGuard.AtMostOneReplaced` alone.
- LastUsed: a failed store write is lost in the code too and is not modelled; the timer is a step that may happen at any time; the flusher's clock is assumed not to go back.
- ToolRegistry.AliasFoundIff: for aliases with no blanks around them.
- ToolRegistry: the digest is assumed to tell names apart; trimming, lower case, cloaking and the fixed table of cloaked names are parameters.
- AuthThrottle.TwiceTheLimitLessOne: a success of the key itself, which clears its count, is outside the runs counted; checking and recording are one step each, with no other request between the check and the record.
- AuthThrottle: how a request's source is found and an account name is normalised.
- Sign-in flows: pending authorisations, callback claims and the exchange of a code; only the refresh of a stored credential is modelled.
- The pass-through path's own trailing-thinking trim and tool stubs, stable Chat call ids and the building of Codex call items: close relatives of what is modelled, or single-branch mappings.
- Gemini conversions, the Chat stream of a Responses upstream, the Cursor bridge, balance panels, RBAC tables, host metrics and the desktop shell.
