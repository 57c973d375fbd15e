# BrighTO Router: a Dafny model of its protocol core

BrighTO Router is an LLM gateway. Four parts of it carry most of its logic, and this project models those four and proves what they promise.

1. **The Anthropic/OpenAI bridge.** A streaming translator turns an upstream OpenAI SSE stream into Anthropic events; a second path translates a whole response at once; a third prints a finished message as events; a fourth translates requests.
   `Translator` is the translator as a state machine on values, and `SseTranslator` is the class with the source's fields and methods, each proved equal to a step of that machine. `Response` and `Request` hold the two whole-value translations with their loops.
   - `EventGrammar` and `Transcript`: every run of `feed`, `finish` and `abort` emits a well-formed event sequence, for an exact grammar.
   - `Chunking`: how the bytes are cut does not matter, and exactly when it would.
   - `ToolFragments`: how tool-call fragments are interleaved does not matter.
   - `Refinement` and `Cuts`: whatever way an answer is cut into frames, a client that assembles the stream gets what the non-stream path computes.
   - `MessageLaws` and `StreamLaws`: what each field of a translated message is, in terms of the upstream body, and the stop reason and token counts of a stream in terms of its own events.
   - `Failures`: refused frames, aborts and overlong lines end a stream with their own error, however the bytes are cut.
   - `MessageSse`, `Sdk`, `SdkReader`, `EndToEnd`: printing, framing, the SDK's reader, and the whole way from upstream bytes to the SDK's user.
   - `ContentLaws`, `Adjacency` and `History`: the request side keeps everything that is said, in order, and the tool-call protocol, and an answer sent back as history says the same again. `Acceptance`: exactly which requests are translated.
2. **The budget store.** `Budget` is the store and its self-settling reservation as classes; `Interleaving` is the same algorithm as a step system with any number of threads, where a load, an exchange that may fail for no reason, and an update are one step each; `Progress` proves that a thread left alone does what the sequential store does and always gets to the end; `ModelShare` relates per-model counters to totals; `Rpm` is the request-rate bucket; `Calendar` is the period arithmetic.
3. **The request head.** `HeadScan` is the prefix scanner with its loops, `JsonGrammar` is the byte grammar of sections 2 to 7 of RFC 8259 with the reading of the request head, `JsonReference` and `HeadReference` say without any order of reading which bytes are JSON and which bodies carry which head, and `HeadRoute` proves that the scanner agrees with the full parse and that both body routes carry the same head and bytes.
4. **The multipart field.** `Multipart` proves the lens laws of the `model` field reader and writer.

`Common`, `Json`, `Bridge` and `Client` hold shared values: JSON as a datatype, the event vocabulary, and the client-side fold `Assemble`, which is what an event sequence means.

## Hypotheses

Libraries are parameters, and each theorem names the laws it needs.

- `Codec.RoundTrips`: decoding an encoded JSON value gives it back, for every value of the datatype. The real library meets this on the values it can represent: integers of 64 bits, and other numbers up to its float rounding, which without its `float_roundtrip` feature is best effort. The theorems speak of a library without those limits. `OneLine`: encoded JSON holds no line break, and an object is written between braces.
- `Utf8.Lawful`: UTF-8 round trips, and encoding makes no line break of its own. `KeepsLines`: lossy decoding of a line without a newline gives text without one, and of nothing gives nothing.
- `env.signature` is any function: the signature hash is never looked into.
- `decode` in the head modules is any partial decoder of JSON string literals.
- Each call of the rate limiter carries a flag that says whether the ignored weak exchange on `last_refill_ms` took effect (`stored`). The rate-limit theorems hold for all flags, with the number of lost writes in the bound; the bound without that term is the case where none is lost. `WireLaws` is the law for the usual wire only: lossy decoding of encoded text gives the text. Calls for one key are serial, as the map entry's write lock makes them.

## Where the code and the expectation differ

- **RPM bound.** "At most L + elapsed * L / 60000 grants between two times" fails exactly when, at the first of the two times, the bucket is full and part of a token has accrued since the last refill (`RateBoundIsExact`, both directions). Only a bucket that has never been asked can be in that state (`RateBoundAfterFirstCall`). Each refill time lost to the ignored exchange adds at most L to the bound (`GrantsBounded`), and losing them all grants every call (`LostRefillIsUnbounded`).
- **Line limit.** A complete line longer than 1 MiB passes if its newline arrives in the same chunk and fails otherwise (`LongLineDepends`); chunk independence holds exactly for streams in which no line completed before the end is that long (`ChunkIndependenceIsExact`).
- **Per-model counters** stay within their total in every reachable state in which no thread is *behind*: no settlement that lowers its amount (a rollback, or a commit below the estimate) has taken its share off the total and not yet off the model (`ModelsWithinTotal`). Every thread that is behind, with whatever owner, period, model and amounts, is reached from level seeds with the model ahead (`BehindExceeds`); so that is the exact condition (`ModelsWithinTotalIsExact`).
- **Streaming uploads.** The fast path forwards a body the full parse would refuse exactly when streaming is allowed and the scan finds stream=false in the first chunks: it never reads the rest (`RoutesAgree`, `RestIsUnread`).
- **`"error": null`** is ignored in a stream frame and fatal in a whole body (`NullErrorDiffers`).
- **Multipart.** Reading after rewriting gives the new value exactly when it holds no delimiter (`PutGet`), and likewise for a second rewrite (`PutPut`). A field name that holds a blank line would break this (`BlankLineInNameBreaksPutGet`); the router only uses `model`.
- **History.** An empty text beside tool calls comes back as a null content, and a turn of thinking alone leaves no message (`HistoryRoundTrip`).
- **retry_after** is exact when the limit divides 60000 and one millisecond short otherwise (`RetryAfterIsTight`).

## Model

| member | source | states |
|---|---|---|
| `SseTranslator.SseTranslator.constructor` | src/bridge/stream.rs:48-67 | a new translator is the initial session: nothing buffered, nothing sent |
| `SseTranslator.SseTranslator.Feed` | src/bridge/stream.rs:69-98 | the whole new session (buffer and all fields) is the state machine's, the returned events are exactly what was added to everything sent so far |
| `SseTranslator.SseTranslator.Finish` | src/bridge/stream.rs:100-124 | flushes an unterminated tail line by line, then ends the stream; a finished translator is left alone |
| `SseTranslator.SseTranslator.Abort` | src/bridge/stream.rs:136-146 | closes the open block and ends with an error event, unless already finished |
| `SseTranslator.SseTranslator.ProcessLine` | src/bridge/stream.rs:148-172 | the line rules: data prefix, bare JSON, comments, `[DONE]`, invalid JSON |
| `SseTranslator.SseTranslator.TakeLine` | src/bridge/stream.rs:69-98 | one decoded line, with its failure turned into the closing error |
| `SseTranslator.SseTranslator.ProcessValue` | src/bridge/stream.rs:174-212 | error frames, first nonempty id, last positive usage, then the first choice |
| `SseTranslator.SseTranslator.ProcessChoice` | src/bridge/stream.rs:202-212 | delta before message, and a finish reason closes the open block |
| `SseTranslator.SseTranslator.ProcessDelta` | src/bridge/stream.rs:214-258 | reasoning, then content, then tool fragments, all ignored where they have the wrong type |
| `SseTranslator.SseTranslator.EmitContent` | src/bridge/stream.rs:260-275 | string or array content; other types say nothing |
| `SseTranslator.SseTranslator.EmitParts` | src/bridge/stream.rs:264-273 | the loop over content parts equals the fold over them |
| `SseTranslator.SseTranslator.EmitText` | src/bridge/stream.rs:277-291 | opens a text block if none is open and sends one delta; empty text sends nothing |
| `SseTranslator.SseTranslator.EmitThinking` | src/bridge/stream.rs:293-313 | the same for thinking, remembering the text for the signature |
| `SseTranslator.SseTranslator.OpenTextBlock` | src/bridge/stream.rs:315-334 | starts the message and closes another block first, takes the next index |
| `SseTranslator.SseTranslator.OpenThinkingBlock` | src/bridge/stream.rs:336-358 | the same for a thinking block |
| `SseTranslator.SseTranslator.CloseOpen` | src/bridge/stream.rs:360-389 | a thinking block gets its signature before its stop event |
| `SseTranslator.SseTranslator.EnsureStarted` | src/bridge/stream.rs:439-469 | exactly one message_start, with the usage seen so far or the estimate |
| `SseTranslator.SseTranslator.TakeFragment` | src/bridge/stream.rs:391-437 | one fragment changes its own slot and nothing else |
| `SseTranslator.SseTranslator.TakeFragments` | src/bridge/stream.rs:225-234 | the loop over a frame's tool calls routes every fragment in order |
| `SseTranslator.SseTranslator.SendTool` | src/bridge/stream.rs:479-516 | one tool_use block, or the error that stops the stream |
| `SseTranslator.SseTranslator.SendTools` | src/bridge/stream.rs:477-516 | taking the least remaining slot each time sends the calls in ascending order |
| `SseTranslator.SseTranslator.Finalize` | src/bridge/stream.rs:471-548 | start, close, tools, fallback block, closing events; or the first bad tool call's error |
| `SseTranslator.SseTranslator.Deliver` | src/bridge/stream.rs:517-547 | the fallback block if nothing was said, then message_delta and message_stop |
| `SseTranslator.SseTranslator.EndWith` | src/bridge/stream.rs:136-146 | closes the open block, sends one error event and finishes |
| `SseTranslator.SseTranslator.Fail` | src/bridge/stream.rs:550-558 | ends with the error once, never twice |
| `Translator.DataLineCarries` | src/bridge/stream.rs:148-172 | a data line carries its trimmed rest, whatever carriage returns end it, and an empty one nothing |
| `Translator.OtherLineCarries` | src/bridge/stream.rs:148-172 | any other line carries something exactly when it is a bare object |
| `Failures.RefusedOrAccepted` | src/bridge/stream.rs:148-212 | a payload is an accepted frame, or it is refused for exactly one reason: no JSON, no object, or its own non-null error |
| `Failures.BadLineBreaks` | src/bridge/stream.rs:148-180 | from every live state a line with a refused payload closes the open block, sends exactly one error event with that reason (the frame's own `message`, or the error string itself) and finishes |
| `Failures.AbortBreaks` | src/bridge/stream.rs:136-146 | an abort does the same with the status and words it was given |
| `Failures.LongTailBreaks` | src/bridge/stream.rs:69-98 | a tail over 1 MiB breaks the stream after the lines before it |
| `Failures.ShortTailWaits` | src/bridge/stream.rs:69-98 | a tail within 1 MiB is kept, and nothing breaks |
| `Failures.BrokenStreamRaises` | src/bridge/stream.rs:550-558 | for every stream with a refused frame before any `[DONE]`, in any chunks: everything said before it is delivered, one error event with the frame's own reason follows the closed block, nothing comes after, and the SDK raises |
| `EventGrammar.ApplyKeeps` | src/bridge/stream.rs:69-146 | every call keeps the invariant tying the fields to the events sent so far; a live buffer holds no newline and fits the limit; finish and abort end the stream |
| `EventGrammar.RunKeeps` | src/bridge/stream.rs:69-146 | so every sequence of calls does |
| `EventGrammar.FinalizeEnds` | src/bridge/stream.rs:471-548 | from a live state finalize either ends the event grammar or leaves a state an error event can end |
| `EventGrammar.EndedStaysEnded` | src/bridge/stream.rs:69-146 | after the ending no call changes or sends anything |
| `Transcript.GrammarIsExact` | src/bridge/stream.rs:277-389 | the recogniser accepts an event sequence if and only if it renders a well-formed transcript: lone error, or start, blocks numbered from 0 each opened, filled with its own kind and closed, thinking signed over exactly its own text, one ending |
| `Transcript.EveryRunIsATranscript` | src/bridge/stream.rs:136-146 | every complete run of calls sends the rendering of a well-formed transcript, and later calls add nothing |
| `Chunking.SplitConcat` | src/bridge/stream.rs:69-98 | lines and tail of a concatenation come from the first part's tail and the second part |
| `Chunking.FeedAllIsWhole` | src/bridge/stream.rs:69-98 | feeding chunks equals translating the lines of their concatenation, and the buffer is its tail |
| `Chunking.ChunkIndependence` | src/bridge/stream.rs:69-124 | two splits of the same bytes end in the same state, events and error, before and after finish |
| `Chunking.FinalNewline` | src/bridge/stream.rs:100-124 | a missing final newline changes nothing |
| `Chunking.LongLineDepends` | src/bridge/stream.rs:69-98 | an overlong line passes in one chunk and fails when its newline comes later |
| `Chunking.ChunkIndependenceIsExact` | src/bridge/stream.rs:69-98 | every prefix of a stream is independent of its cutting if and only if no line completed while the translator is live exceeds the limit |
| `ToolFragments.SlotsAreIndependent` | src/bridge/stream.rs:391-437 | after any mixed stream each slot holds the fold of its own fragments, and only addressed slots exist |
| `ToolFragments.InterleavingIsIrrelevant` | src/bridge/stream.rs:391-437 | two interleavings with the same order per slot build the same calls |
| `ToolFragments.SlotMeaning` | src/bridge/stream.rs:391-437 | first nonempty id, first nonempty name, and arguments equal to the string fragments since the last object fragment behind that object's text |
| `ToolFragments.FragmentsInOrder` | src/bridge/stream.rs:225-258 | every object in a frame's list is a fragment for the slot it names, or its place in the list; a legacy call comes last, for slot 0 |
| `ToolFragments.BlocksAscend` | src/bridge/stream.rs:477-516 | the emission order lists every slot once, ascending |
| `ToolFragments.StreamTools` | src/bridge/stream.rs:174-258 | over whole frame sequences the tool map depends only on the fragments |
| `ToolFragments.ToolFragmentsCommute` | src/bridge/stream.rs:391-516 | frame sequences with the same fragments per index end in the same calls and send the same tool blocks |
| `Response.ToolInput` | src/bridge/response.rs:223-252 | arguments are accepted only as a JSON object |
| `Response.ExtractTextBlocks` | src/bridge/response.rs:143-169 | string, null, array and other contents, part by part |
| `Response.ExtractToolCalls` | src/bridge/response.rs:171-192 | all calls in order or the first bad one's error; the legacy call only when there is no other |
| `Response.AppendTexts` | src/bridge/response.rs:52-56 | the loop appends exactly the nonempty texts |
| `Response.BuildParts` | src/bridge/response.rs:30-64 | thinking, texts or refusal, tools, in that order, and never empty |
| `Response.BuildMessage` | src/bridge/response.rs:10-88 | the whole translation, each error in the order the code checks it |
| `MessageLaws.WholeStopReason` | src/bridge/response.rs:96-122 | for every accepted body: "max_tokens" exactly when the finish reason is "length" or "max_tokens", otherwise "tool_use" exactly when the message holds a tool_use block and the finish reason is not "content_filter", otherwise "end_turn" |
| `MessageLaws.WholeUsage` | src/bridge/response.rs:128-141 | both token counts are those of `usage`, or of the body without one, under either of their names; no prompt count means the estimate |
| `MessageLaws.WholeContent` | src/bridge/response.rs:30-64 | the message holds exactly what the upstream message thinks, says and calls, in that order, each call with its id, name and parsed arguments |
| `MessageLaws.WholeErrorIsReported` | src/bridge/response.rs:10-29 | a body with an error is refused with that error's own words |
| `MessageLaws.RefusedExactlyWhenBroken` | src/bridge/response.rs:10-88 | a body is accepted if and only if it is an object without an error, with a first choice and a message whose content has a legal type and whose calls can all be rendered |
| `StreamLaws.StreamStopReason` | src/bridge/stream.rs:471-548 | for any bytes in any chunks: a stream that ends without an error closes with message_delta and message_stop, with the stop reason above in terms of the finish reason it recorded and whether it sent a tool block |
| `StreamLaws.AssembledStopReason` | src/bridge/stream.rs:528-537 | the same for the message the client assembles, with the last finish reason the frames told |
| `StreamLaws.StartTokensAreTold` | src/bridge/stream.rs:439-469 | message_start carries the last positive prompt count reported up to the frame that first spoke, or the estimate |
| `Bridge.KeepIsFilter` | src/bridge/mod.rs:101-115 | made-up ids keep exactly the ASCII letters and digits, and in message ids dashes, in order |
| `Bridge.SyntheticIdsDiffer` | src/bridge/response.rs:254-265 | calls without an id get different ids |
| `Bridge.MadeUpIds` | src/bridge/mod.rs:101-115 | what made-up ids look like, with their length limits |
| `Refinement.StreamFollows` | src/bridge/stream.rs:174-258 | after any frames of the domain the client has seen exactly the reasoning and text they told |
| `Refinement.SlotsMatch` | src/bridge/stream.rs:391-516 | the buffered slots, in order, are the whole body's tool calls |
| `Refinement.ToolsAgree` | src/bridge/response.rs:171-221 | sending the buffered calls and building the whole calls succeed together and give the same blocks |
| `Refinement.FinalizeAgrees` | src/bridge/stream.rs:471-548 | the finished stream assembles to the whole message, or both fail |
| `Refinement.StreamingRefinesWhole` | src/bridge/response.rs:10-88 | for every frame sequence and body carrying the same answer, text in strings or content arrays, tool calls or one legacy call, with null or unread keys as upstreams send them, the assembled stream has the id, model, content, signatures, stop_reason and output tokens of the whole translation, and one fails exactly when the other does, with the same error |
| `Refinement.NullErrorDiffers` | src/bridge/stream.rs:178-180 | a null error key is as if absent in a frame and fatal in a whole body |
| `Cuts.CutCarriesAnswer` | src/bridge/stream.rs:174-258 | any legal cutting into frames, tool fragments interleaved at will or one legacy call, is in the common domain with the body it adds up to |
| `Cuts.EveryCutRefines` | src/bridge/stream.rs:471-548 | so, however an answer is cut, the stream assembles to what the non-stream path makes of the whole |
| `Cuts.EveryCutDelivers` | src/bridge/stream.rs:69-124 | the same from upstream bytes that spell the frames, in any chunks, to the SDK's user |
| `MessageSse.MessageToSse` | src/bridge/stream.rs:585-764 | the printing loop equals the event list of the message, with its defaults for missing fields |
| `MessageSse.PrintedMessageAssembles` | src/bridge/stream.rs:585-764 | assembling the printed events gives back the very message |
| `MessageSse.PrintedFrame` | src/bridge/stream.rs:585-764 | whatever a message leaves out, the printed stream starts and ends whole, with the documented stand-ins |
| `MessageSse.PrintedBlock` | src/bridge/stream.rs:585-764 | each block type prints its own events with stand-ins for missing parts; other types print nothing |
| `Sdk.EventRoundTrip` | src/bridge/stream.rs:277-389 | the JSON of every event except errors determines the event |
| `Sdk.ErrorEventTells` | src/bridge/mod.rs:82-87 | an error event carries the words it was given, cut after 2000 characters with a mark |
| `Sdk.ErrorTypes` | src/bridge/mod.rs:117-129 | the error type of every status |
| `SdkReader.Events` | brighto.py:217-243 | the SDK's line loop: data lines, blank lines, end mark, errors, incomplete event |
| `SdkReader.EventVerdict` | brighto.py:217-243 | one event on the wire, in any number of data lines: `[DONE]` ends, an object that reports no error is yielded, everything else raises, and so does a stream that stops before the blank line |
| `SdkReader.OtherLinesArePassed` | brighto.py:217-243 | event names, comments and other fields change nothing |
| `SdkReader.LineEndings` | brighto.py:217-243 | LF, CR LF and a lone CR each end one line |
| `SdkReader.PrintThenRead` | src/bridge/mod.rs:70-80 | framing events and splitting the bytes back yields the same events, and an error event at the end raises |
| `EndToEnd.PrintThenParse` | brighto.py:217-243 | for every message the non-stream path builds, print, frame, split and assemble return the same message |
| `EndToEnd.StreamReadBack` | brighto.py:217-243 | every grammatical event sequence is read back whole, and one that ends in an error raises |
| `EndToEnd.WireFeeds` | src/bridge/stream.rs:69-98 | bytes whose lines spell the frames, in any chunks and then finished, drive the translator through exactly those frames: with or without a done mark or a final newline, with CRLF, comments, blank lines, other fields, no space or no data prefix; after a done mark the stream has ended before finish |
| `EndToEnd.UsualWire` | src/bridge/stream.rs:148-172 | data lines and blank lines ended by the done mark are one such spelling |
| `EndToEnd.StreamDelivers` | brighto.py:217-243 | the SDK's user holds the whole body's message, or an exception where it was refused |
| `EndToEnd.BytesRefineWhole` | src/bridge/stream.rs:69-124 | upstream bytes of any such spelling in, SDK bytes out: the delivered message is the non-stream translation, and the SDK raises exactly where that is refused |
| `Request.ReadSystemContent` | src/bridge/request.rs:121-152 | a string, or text blocks joined by blank lines, or the first bad block's error |
| `Request.ConvertResultContent` | src/bridge/request.rs:373-416 | error marking, parts in order, and a single text sent as a string |
| `Request.ConvertUserMessage` | src/bridge/request.rs:215-263 | tool answers first in order, then one message with the remaining parts in order; thinking dropped; the first bad block decides the error |
| `Request.ConvertAssistantMessage` | src/bridge/request.rs:265-350 | texts joined, calls in order, thinking dropped, nothing pushed for an empty turn |
| `Request.ConvertMessage` | src/bridge/request.rs:154-179 | dispatch on the role, with each missing part refused |
| `Request.TakeMessage` | src/bridge/request.rs:58-72 | system text is set aside, everything else is appended |
| `Request.ConvertMessages` | src/bridge/request.rs:57-72 | the loop collects both lists in order or stops at the first error |
| `Request.AnthropicToOpenAi` | src/bridge/request.rs:11-83 | validation, system collection, translation and the leading system message as one function of the parsed body |
| `ContentLaws.CompactIsHeard` | src/bridge/request.rs:252-260 | sending a single text as a string loses nothing and adds nothing |
| `ContentLaws.UserTurnKeepsContent` | src/bridge/request.rs:215-263 | a user turn becomes its tool results, each with its own id and content, then one message that says exactly its text and image blocks, in order and number, each with its very text or URL; string content is kept |
| `ContentLaws.ToolResultAnswers` | src/bridge/request.rs:352-416 | a tool message says its result's own blocks in order, led by the error mark exactly when `is_error` is true |
| `ContentLaws.AssistantTurnKeepsContent` | src/bridge/request.rs:265-350 | an assistant turn becomes its texts joined and its calls in order, each with its id, name and printed input |
| `ContentLaws.JoinIsBlankLineBetween` | src/bridge/request.rs:121-152 | joining puts one blank line between any two parts and changes neither |
| `ContentLaws.SystemContentIsJoined` | src/bridge/request.rs:121-152 | system content is a string, or all its blocks' texts joined |
| `ContentLaws.FirstBadDecides` | src/bridge/request.rs:121-152 | the first block that cannot be read decides the error |
| `ContentLaws.WhyBlocksAreRefused` | src/bridge/request.rs:154-416 | a block without a type is invalid, a type the turn has no use for is unsupported |
| `ContentLaws.RefusedRequestIsClientError` | src/bridge/request.rs:11-83 | every refusal has status 400 |
| `ContentLaws.HeaderIsKept` | src/bridge/request.rs:11-83 | the public model, a positive token limit and the stream flag are passed on |
| `Acceptance.AcceptedExactlyWhenSound` | src/bridge/request.rs:11-83 | a request is translated if and only if its limit is positive, its system text and every block of every message is well formed for its role, and some message has more to say than thoughts (the fields under "Left out" aside) |
| `Adjacency.AdjacencyIsExact` | src/bridge/request.rs:47-83 | in the translated list each assistant message is followed at once by exactly the tool messages for its calls, with no orphan, if and only if the Anthropic history settles every tool use before anyone speaks again |
| `Adjacency.TurnByTurnIsAdjacent` | src/bridge/request.rs:215-350 | it does when each turn with tool uses is followed, ignoring system-role and thinking-only messages, by a user turn that answers exactly them |
| `Adjacency.OneLeadingSystem` | src/bridge/request.rs:47-83 | the only system message is the first; it is there exactly when some system text is not blank, and joins all such texts in order |
| `Adjacency.LedgerIsAdjacency` | src/bridge/request.rs:215-350 | a running ledger of owed answers closes at zero exactly for adjacent lists |
| `Adjacency.UserTurnOwes` | src/bridge/request.rs:215-263 | a translated user turn pays off exactly the ids in its tool_result blocks, before it speaks |
| `Adjacency.AssistantTurnOwes` | src/bridge/request.rs:265-350 | a translated assistant turn owes exactly the ids in its tool_use blocks |
| `History.HistoryRoundTrip` | src/bridge/response.rs:30-64 | a message sent back as history becomes the same text and the same ordered calls, only thinking dropped, with the exact treatment of empty text |
| `History.ArgumentsKeepTheirValue` | src/bridge/request.rs:265-350 | resent arguments read as the same object as the upstream's own argument text |
| `History.HistoryIsStable` | src/bridge/request.rs:265-350 | a second trip changes nothing |
| `Calendar.DaysRoundTrip` | src/budget/mod.rs:493-518 | every integer day becomes a valid date and comes back |
| `Calendar.DateRoundTrip` | src/budget/mod.rs:493-518 | every valid date, of any year, comes back |
| `Calendar.CivilStep` | src/budget/mod.rs:503-518 | the next day number is the next calendar day |
| `Calendar.CivilIsDayByDay` | src/budget/mod.rs:503-518 | the arithmetic equals counting day by day from 1970-01-01, in both directions, with the 4/100/400 rule |
| `Calendar.PeriodStartIsStart` | src/budget/mod.rs:478-491 | a period start is at most the time, is midnight, is its own start, and its date is the first of the time's month for monthly budgets and the time's own date for all others |
| `Calendar.SameMonthSameStart` | src/budget/mod.rs:478-491 | two times have the same monthly start exactly when they share year and month |
| `Calendar.SameDaySameStart` | src/budget/mod.rs:478-491 | under every other period two times have the same start exactly when they share the date |
| `Calendar.PeriodStartIsMonotone` | src/budget/mod.rs:478-491 | later times never have earlier starts |
| `Calendar.MonthPeriodLength` | src/budget/mod.rs:478-491 | the next monthly start is one month length later, 28 to 31 days, and the times in between are exactly those with this start |
| `Rpm.RpmBucket.constructor` | src/budget/mod.rs:89-95 | a new bucket is full |
| `Rpm.RpmBucket.TryTake` | src/budget/mod.rs:97-136 | the exchange loop, whatever fails spuriously, takes the one step of the bucket function |
| `Rpm.TokensCapped` | src/budget/mod.rs:97-136 | stored tokens never exceed the limit, even if the clock steps back and whichever refill times are lost |
| `Rpm.OneMoreCall` | src/budget/mod.rs:97-136 | a run with one more call: its bucket, its grants and its lost writes |
| `Rpm.GrantsBounded` | src/budget/mod.rs:97-136 | grants between two times are at most limit + elapsed * limit / 60000, plus limit for each lost refill time, unless the bucket starts full with a residue |
| `Rpm.ResidueBreaksTheBound` | src/budget/mod.rs:97-136 | and from every such state some calls exceed it with nothing lost |
| `Rpm.RateBoundIsExact` | src/budget/mod.rs:97-136 | the bound holds for all calls if and only if the starting state is not one of those |
| `Rpm.RateBoundAfterFirstCall` | src/budget/mod.rs:449-455 | once a bucket has been asked, or when no part of a token has accrued since it was made or a whole one has, the bound holds |
| `Rpm.LostRefillIsUnbounded` | src/budget/mod.rs:97-136 | if every refill time is lost, every call is granted |
| `Rpm.RetryAfterIsTight` | src/budget/mod.rs:97-136 | after a refusal an attempt is granted if and only if it comes at or after the told time, plus one millisecond when the limit does not divide 60000 |
| `Budget.ClaimsAreShaped` | src/budget/mod.rs:202-235 | a request claims nothing, or one total, or that total and then one model of the same owner and period |
| `Budget.ClaimsMeaning` | src/budget/mod.rs:202-235 | a key's own budget hides its team's; the total is claimed up to the plan's cap, and the model exactly when the plan caps it, up to that cap |
| `Budget.RollbackIsExact` | src/budget/mod.rs:410-434 | rolling covered reservations back takes off exactly what they held |
| `Budget.CommitIsExact` | src/budget/mod.rs:400-434 | committing replaces the estimate by the actual amount on every counter |
| `Budget.RamBudgetStore.constructor` | src/budget/mod.rs:148-156 | an empty store |
| `Budget.RamBudgetStore.SeedUsage` | src/budget/mod.rs:289-304 | sets one counter |
| `Budget.RamBudgetStore.ReserveScope` | src/budget/mod.rs:348-398 | reserves exactly when the amount fits what remains; a refusal reports what remains and changes no counter |
| `Budget.RamBudgetStore.RollbackScopes` | src/budget/mod.rs:410-414 | subtracts scope by scope, saturating |
| `Budget.RamBudgetStore.CommitScopes` | src/budget/mod.rs:400-408 | adjusts scope by scope |
| `Budget.RamBudgetStore.TakeRpm` | src/budget/mod.rs:449-455 | creates the bucket on first use and takes from it |
| `Budget.RamBudgetStore.Undo` | src/budget/mod.rs:206-247 | gives back everything this reservation put on the counters so far |
| `Budget.RamBudgetStore.ReserveAll` | src/budget/mod.rs:202-235 | every claimed counter in turn, or none; refused exactly when some claim does not fit |
| `Budget.RamBudgetStore.Reserve` | src/budget/mod.rs:194-249 | all or nothing across scopes and the request bucket: refused for the first claim that does not fit, with what remains of it; rate limited exactly when all fit, the key has a limit and its bucket (full if new) has nothing available, with the announced wait; a success moves exactly the claimed counters by the estimate and exactly that bucket by one taken token; a refusal leaves every counter and bucket as it was |
| `Budget.RefusalKeepsBucket` | src/budget/mod.rs:97-136 | a refused request takes no request token |
| `Budget.BudgetReservation.constructor` | src/budget/mod.rs:244-248 | a reservation starts unsettled |
| `Budget.BudgetReservation.Commit` | src/budget/mod.rs:44-48 | settles once with the actual amount |
| `Budget.BudgetReservation.Rollback` | src/budget/mod.rs:51-55 | settles once by giving back |
| `Budget.BudgetReservation.Drop` | src/budget/mod.rs:58-65 | gives back exactly what was not settled |
| `Budget.ReserveThenCommit` | src/budget/mod.rs:194-249 | adds exactly the actual amount to each claimed counter, whatever the estimate was |
| `Budget.ReserveThenDrop` | src/budget/mod.rs:58-65 | leaves every counter as it was |
| `Budget.ReserveOne` | src/budget/mod.rs:237-242 | one request of a key is one call on its bucket or none, and touches no other bucket |
| `Budget.ReserveMany` | src/budget/mod.rs:237-242 | over any requests of one key, those that succeed in a window are within the rate bound |
| `Interleaving.StepConserves` | src/budget/mod.rs:348-434 | every step of any thread keeps each counter balanced |
| `Interleaving.NeverSaturates` | src/budget/mod.rs:425-434 | a balanced counter covers the reservation about to be settled on it |
| `Interleaving.TokensAreConserved` | src/budget/mod.rs:194-249 | in every schedule of any number of threads each counter equals its seed plus uncommitted reservations plus committed actual amounts, and no subtraction saturates |
| `Interleaving.BudgetCapHolds` | src/budget/mod.rs:348-414 | under fixed limits every reachable counter is at most the larger of seed and limit, plus what commits overran |
| `Progress.ReserveAlone` | src/budget/mod.rs:194-249 | a reserve whose thread runs alone, with any spurious failures: it comes to hold exactly its claims, moved by the amount, only if all fitted, and comes to rest without only if one did not, with every counter as before |
| `Progress.CommitAlone` | src/budget/mod.rs:400-408 | a commit whose thread runs alone is at every point on the way to the sequential commit |
| `Progress.GiveBackAlone` | src/budget/mod.rs:410-414 | and giving back, when dropped or rate limited, to the sequential rollback |
| `Progress.FinishesAlone` | src/budget/mod.rs:348-434 | from every state of any number of threads, wherever the others stopped, a thread can go on alone until it holds its reservations or is idle |
| `ModelShare.ModelsWithinTotal` | src/budget/mod.rs:202-235 | in every reachable state with no thread behind, in whatever stage the others are, an owner's models add up to at most its total, even when budgets or periods change in between |
| `ModelShare.BehindExceeds` | src/budget/mod.rs:400-414 | every thread that is behind is reached from level seeds, with the models ahead of the total by exactly what is yet to be taken off |
| `ModelShare.ModelsWithinTotalIsExact` | src/budget/mod.rs:400-414 | a condition on the stages of threads guarantees the property in all reachable states if and only if it admits no thread that is behind |
| `HeadScan.SkipSpaces` | src/handlers.rs:308-313 | the next byte that is not JSON white space |
| `HeadScan.FindStringEnd` | src/handlers.rs:315-330 | the closing quote, with escapes skipped |
| `HeadScan.TakeTopString` | src/handlers.rs:248-299 | a top-level string is a key if a colon follows; what it tells and where the scan goes on |
| `HeadScan.NextMove` | src/handlers.rs:228-302 | what one byte does to position and depth |
| `HeadScan.ScanHeadPrefix` | src/handlers.rs:212-306 | the loop equals the scan function on every input |
| `HeadScan.ScanIsFinal` | src/handlers.rs:212-306 | a finding never changes when more bytes arrive, whatever the bytes are |
| `JsonGrammar.QuoteIsEnd` | src/handlers.rs:315-330 | for grammatical strings the scanner's quote is the grammar's |
| `JsonGrammar.PassValue` | src/handlers.rs:212-306 | from a grammatical value, which at the top level no colon may follow, the scan goes on as from behind it, except that an undecodable string at the top level stops it |
| `JsonReference.RecogniserIsExact` | src/handlers.rs:29-36 | the recogniser accepts exactly the JSON values of RFC 8259, described without any order of reading, wherever no number could go on |
| `HeadReference.HeadIsExact` | src/handlers.rs:29-36 | an object body has a head if and only if its members read as one: known keys at most once, a model string without escapes, a literal flag |
| `HeadReference.ListIsExact` | src/handlers.rs:29-36 | an array body has a head if and only if it lists the model, then maybe the flag, then maybe the options |
| `HeadReference.OtherBodiesHaveNone` | src/handlers.rs:29-36 | any other body has none |
| `HeadRoute.MembersAgree` | src/handlers.rs:212-306 | member by member the scan knows what the parse knows, and finds both fields exactly when the parse has both and no undecodable string value stands before them |
| `HeadRoute.WholeScanAgrees` | src/handlers.rs:29-36 | on a body the parse accepts a finding is the parse's head, and one is made exactly when the body is an object that says stream and no undecodable string value stands at its top level before both fields are known |
| `HeadRoute.ScanRefinesParse` | src/handlers.rs:212-306 | for every prefix of such a body the scan needs more or finds the parse's model and stream flag |
| `HeadRoute.CollectJoins` | src/handlers.rs:188-203 | collecting joins the chunks in order if and only if none fails and all together are within the limit; of two failures the first is reported |
| `HeadRoute.CollectRemaining` | src/handlers.rs:188-203 | the loop collects the rest, or reports the limit or the broken chunk |
| `HeadRoute.ReadIncomingBody` | src/handlers.rs:128-186 | streams exactly the candidates: large announced bodies whose first chunks, up to the prefix limit, are found to say stream=false; everything else is buffered with the verdict of reading at once |
| `HeadRoute.IntoProxyBody` | src/handlers.rs:85-113 | a candidate that may not stream is collected and parsed in full |
| `HeadRoute.RoutesAgree` | src/handlers.rs:85-203 | for every chunking and length: the verdict of the full parse unless a candidate may stream; whenever the full parse accepts, its model and stream flag and exactly the body's bytes; a refused body is forwarded exactly when streaming is allowed and it is a candidate |
| `HeadRoute.OnlyAPrefixIsScanned` | src/handlers.rs:152-186 | only the first 16 KiB, and the chunk that goes past them, are scanned |
| `HeadRoute.SmallBodiesAreReadWhole` | src/handlers.rs:128-150 | bodies under 64 KiB or of unannounced length are read whole |
| `HeadRoute.RestIsUnread` | src/handlers.rs:152-172 | a candidate is one whatever follows the bytes that told its head |
| `Multipart.FindFrom` | src/handlers.rs:1030-1037 | the first occurrence at or after a place, or none |
| `Multipart.SpanShape` | src/handlers.rs:1030-1037 | what the three searches find: a head, a value without a delimiter, a tail that starts with one |
| `Multipart.ShapeSpan` | src/handlers.rs:1160-1171 | any bytes of that shape are read as that value; a delimiter cannot straddle the value's end |
| `Multipart.PartIsRead` | src/handlers.rs:1030-1037 | a part spelled out byte by byte is read as its value and rewritten in place |
| `Multipart.UnnamedIsNotRead` | src/handlers.rs:1030-1037 | a body that names the field nowhere has none |
| `Multipart.PutGet` | src/handlers.rs:1160-1171 | reading after rewriting returns the value if and only if it holds no delimiter |
| `Multipart.PutGetText` | src/handlers.rs:1030-1037 | and as text, trimmed |
| `Multipart.GetPut` | src/handlers.rs:1160-1171 | rewriting with the raw current value changes nothing |
| `Multipart.PutPut` | src/handlers.rs:1160-1171 | a second rewrite makes the first irrelevant if and only if the first value holds no delimiter |
| `Multipart.OutsideUntouched` | src/handlers.rs:1160-1171 | rewriting works exactly when reading does and touches no byte outside the field |
| `Multipart.EarlierFieldsKept` | src/handlers.rs:1160-1171 | every field before the rewritten one is read as before |
| `Multipart.ModelFieldLens` | src/handlers.rs:967 | the laws at `model`, the only field the router passes |
| `Multipart.BlankLineInNameBreaksPutGet` | src/handlers.rs:1030-1037 | a field name holding a blank line breaks the first law |

## Left out

- Integer widths: block indices (u32), counters (u64), periods and days (i64) and limits are unbounded here; the sums are assumed not to overflow. `as_u64` reading of JSON numbers is bounded as in the source. The 128-bit refill product is taken as exact.
- Error wording: errors keep their kind and status, and the words of the upstream or the caller, but the router's own sentences are one placeholder.
- SHA-style hashing in `thinking_signature`, the JSON text library, UTF-8 and lossy decoding: parameters with the laws listed above.
- Refinement domain: content arrays in the whole body, a refusal in place of content, `thinking` in place of the reasoning keys, tool calls without a function, reasoning after text and speech after the finish reason, where the two paths differ by design; the input-token count of message_start, which may come before any usage (`StreamLaws.StartTokensAreTold` says what it is).
- SdkReader.Events: frames on CR, LF and CRLF as the HTTP library does on a whole body, not its behaviour when a CRLF falls on a chunk boundary; HTTP and transport errors are not modelled; a number too small for a float counts as nonzero.
- Request.AnthropicToOpenAi: stops at the message list; tools, tool_choice, temperature, top_p, stop_sequences and metadata, which are independent field copies, are not modelled, nor is the error one of them may raise.
- HeadRoute.ReadIncomingBody: does not model `stream_options_present`, which only the full parse decides and only stream=false requests use.
- Concurrency gauge: acquire and release of in-flight slots is the reservation loop with a limit of ones and would only add easy members.
- Team synchronisation and metrics snapshots of the budget store: map plumbing.
- Memory orderings and map internals: each atomic operation is one step.
- `is_finished` and `take_error`: field reads.
- Token estimates, error-envelope tables, proxying, routing, the ledger, the admin portal, configuration and the database.
