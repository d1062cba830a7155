# A model of the router's stream conversions, identifiers, audit log and lens

The router accepts Anthropic Messages requests, forwards them to OpenAI-style upstreams (Chat Completions
or Responses) and converts the answers back. Most of its hard code is an incremental form that has to agree
with a simple one. The lens tails the router's audit log into a database and prices it. This project models
that code in Dafny and proves what it promises.

JSON values are records of the fields the code reads. Libraries (JSON parsing and printing, base64, the
replay signature, `derive_response`) are function parameters or plain fields. Code that updates fields is a
class; each class is proved against a functional reading of it, and the properties are proved of that. What a
reading comes to is proved once more against the bare fields of the input: events, items, lines and steps.

| files | component |
|---|---|
| `Utf8`, `Utf8Strings`, `SseFormat`, `SseDecoder`, `SsePrinter`, `SseLines`, `SseMarker` | server-sent events: the incremental decoder, the one-shot parser, the printer, and events of several lines |
| `Anthropic`, `AnthropicFrames`, `Marks` | the Anthropic client as a fold over frames; whole messages as frames, and character by character |
| `ChatEvents`, `ChatLive`, `ChatBuffered`, `ChatEquivalence`, `ChatSignatures` | Chat streams converted live and converted whole, the comparison, and signatures that come late |
| `ChatTools`, `ChatTranscript`, `ChatSays`, `ChatBufferedSays`, `ChatReplay` | what both Chat messages say, told from the events: calls, texts, reasoning and signatures |
| `ResponsesItems`, `ResponsesOrder`, `ResponsesSpec`, `ResponsesLaws`, `ResponsesInterleaving`, `ResponsesAggregator`, `ResponsesSlots`, `ResponsesAccepts` | aggregation of Responses streams, what each slot holds, told from its events, and what is accepted |
| `ResponsesTransform`, `ResponsesSays` | the transform to a message, and what the message says, told from the output items |
| `Progressive`, `ProgressiveSays`, `ProgressivePrefix` | text forwarded ahead of the message, which text that is, and when it stays a beginning of what is held |
| `Bodies` | both conversions from the chunks of a body, read failures included |
| `Identity`, `RequestRewrites`, `ResponsesHistory`, `Sidecar`, `SidecarPlaces` | aliases, the request rewrites that use them and what they keep, and media moved out of tool results |
| `AuditQueue`, `AuditRuns`, `Exchange`, `AuditContents` | the audit log's queue, error throttle and exchange records, what a run did with each entry, and what each record holds |
| `IngestRows`, `IngestSchedule`, `IngestSafety`, `IngestOrders`, `Ingest`, `IngestLines` | the lens: tailing the logs, crashes, the order of scans, and what a line puts into which column |
| `Overview`, `PricingLaws`, `OverviewBalance` | the lens: prices, token by token, and the cost of an overview |

The client fold (`Anthropic.Run`) goes to `Broken` on any frame that does not fit the grammar: one start,
blocks numbered from 0 with one open at a time, a signature last in its thinking block, one stop. So a run
that ends in `Complete` is a complete word of the grammar, and one that does not end in `Broken` is a prefix.

## Properties that hold under a condition

- The incremental decoder accepts a body that is not UTF-8 when the first broken line comes after `[DONE]`; the one-shot parser refuses it (`SseFormat.DecodeDiffersExactly`).
- Live and buffered Chat conversion part on "stop" after tool calls, on a tool call without arguments, and also on refusal text under a finish reason neither knows: only the buffered path accepts that (`ChatEquivalence.FinishAgrees`).
- Error logs are a minute apart in every run if and only if the clock never reads 0 (`ErrorThrottle.MinuteApartExactly`); which readings can follow each other is `ErrorThrottle.PossibleExactly`.
- A request in several log files comes out right in every column when the files are scanned in turn (`IngestSafety.ScansInTurnAreSafe`). When an earlier file is read after a later one, because it could not be read before or grew late, a column is the same in every schedule if and only if the files that could decide it agree (`IngestOrders.OrderMattersExactly`). The lines the router writes agree on everything but the columns the first line read fills in (`IngestOrders.RouterLinesAgree`).
- Grouped totals cost what the requests cost, at all rates, if and only if in every group capping the totals adds up what was capped row by row (`OverviewBalance.CostsAgreeExactly`); a single row always does (`OverviewBalance.OneRowBalances`). The savings shown need the same of the cached counts alone, uncapped by the input (`OverviewBalance.SavingsAgreeExactly`).
- Where the text forwarded early begins what the aggregate holds on a channel, it still does after the next delta, whatever that says, if and only if the part is not settled on that channel and nothing but the forwarded text is held there (`ProgressivePrefix.PrefixKeptExactly`). A stream whose forwarded deltas all meet this, or repeat what is held already, keeps the prefix to its end (`ProgressivePrefix.ForwardedBeginsHeld`). Deltas "a", done "a", delta "b" miss it because the part is settled, refusal "r" and then text "t" because the two are held apart (`ProgressivePrefix.SmallStreams`).
- A signature delta means the same live and buffered if and only if it comes first of all, right behind thinking, or behind a tool call when nothing was thought before (`ChatEquivalence.SignatureAgreesExactly`). A stream that ends with a late one gives two messages, unless the block that the buffered path seals comes out as it would have anyway (`ChatSignatures.LastSignatureExactly`).
- The lookup at lens/src/ingest.rs:709-718 reads body columns from `exchanges`, which the schema keeps in `exchange_bodies`; it therefore yields nothing, and what a response derives depends on its log entry alone.

## Model

| member | source | states |
|---|---|---|
| `SseFormat.DecodeAgreesWithParse` | rust/src/sse.rs:33-248 | every body the one-shot parser accepts the incremental decoder reads the same way, events and `[DONE]` alike; on UTF-8 bodies both accept and refuse the same |
| `SseFormat.DecodeDiffersExactly` | rust/src/sse.rs:49-219 | the two differ exactly on bodies that are not UTF-8 but reach `[DONE]` before the first broken line, and then only the decoder accepts |
| `SseFormat.DecodeDiffersAfterDone` | rust/src/sse.rs:52-107 | any invalid bytes after a `[DONE]` event make the two differ |
| `SseFormat.PushThenFinish` | rust/src/sse.rs:34-107 | reading a chunk and going on is reading on with the chunk still buffered: chunking never matters |
| `SseFormat.EarlyBoundIsExact` | rust/src/sse.rs:109-116 | the early size error fires only where the finished line, or the end of the stream, would have been refused anyway |
| `SseFormat.ScanGrows` | rust/src/sse.rs:49-107 | bytes that arrive later cannot change how the lines before them were read, including a CR held back at a chunk edge |
| `SseDecoder.IncrementalSseDecoder.Push` | rust/src/sse.rs:34-43 | the decoder's fields after a chunk are those of the reading; nothing before the resume offset ends a line, the buffer is one unfinished line, and what is pending fits `MAX_EVENT_BYTES` |
| `SseDecoder.IncrementalSseDecoder.Finish` | rust/src/sse.rs:45-47 | the end of the stream dispatches what is pending, or fails, as the reading does |
| `SseDecoder.IncrementalSseDecoder.Scan` | rust/src/sse.rs:49-107 | draining the buffer line by line with a resume offset is the reading from the start |
| `SseDecoder.IncrementalSseDecoder.ProcessLine` | rust/src/sse.rs:118-143 | one line counts against both bounds and extends the pending data, or dispatches |
| `SseDecoder.IncrementalSseDecoder.DispatchEvent` | rust/src/sse.rs:145-157 | pending data become one event, their lines joined in order (`SseLines.LinesReadBack`), or the end when they trim to `[DONE]` |
| `SseDecoder.DecodeChunks` | rust/src/streaming.rs:48-110 | for every split of a body into chunks, pushing them and finishing gives the events and the `[DONE]` flag of the reading of the whole body |
| `SseDecoder.SplitSseLines` | rust/src/sse.rs:221-248 | the index loop splits at LF, CR and CRLF as the line by line definition does |
| `SseDecoder.ParseSseBytes` | rust/src/sse.rs:167-219 | the one-shot parser computes the reading of whole bodies, errors included |
| `SsePrinter.PrintThenParse` | rust/src/sse.rs:160-165 | parsing the printed frames gives back exactly their payloads, in order, for both parsers |
| `SsePrinter.DecodePrinted` | rust/src/sse.rs:160-165 | so does the incremental decoder under any chunking of the printed text |
| `SsePrinter.PrintedDoneStops` | rust/src/sse.rs:145-165 | a frame whose payload trims to `[DONE]` ends the reading there, whatever follows: the condition on payloads is needed |
| `SsePrinter.ObjectsAreNotDone` | rust/src/sse.rs:160-165 | JSON objects, all the router prints, never trim to `[DONE]` |
| `SseLines.LinesReadBack` | rust/src/sse.rs:118-219 | for all lists of payloads: however the lines of each are spread over `data` lines, with other fields and comments between them, a space or none, and any line ending, both readings give back exactly the payloads, in order |
| `SseLines.PayloadsReadBack` | rust/src/sse.rs:118-219 | any payload without CR that is not the marker and fits the bounds, each of its lines a `data: ` line of its own, is read back whole by both |
| `SseLines.DecodeLines` | rust/src/sse.rs:34-157 | and by the decoder under any chunking |
| `SseLines.TooMuchIsRefused` | rust/src/sse.rs:118-134 | an event of more than 16 MiB, or of more than 65536 lines, is refused whatever surrounds it |
| `SseMarker.DoneExactly` | rust/src/sse.rs:145-157 | a payload counts as the end if and only if it is `[DONE]` with nothing but white space around it |
| `Utf8.CutAtAscii` | rust/src/sse.rs:76-90 | cutting at an ASCII byte keeps UTF-8 validity on both sides, and putting together restores it |
| `Utf8Strings.ValidExactly` | rust/src/sse.rs:72-97 | bytes are taken for UTF-8 if and only if they are the encoding of a text, as section 3 of RFC 3629 has it |
| `Anthropic.PrefixOfGoodRun` | rust/src/streaming.rs:849-961 | every prefix of frames that fit the grammar fits it |
| `Anthropic.JoinedHasNoNeighbours` | rust/src/transform/responses.rs:517-541 | after joining, no two texts are adjacent |
| `Anthropic.JoinedAbsorbs` | rust/src/transform/responses.rs:517-541 | joining a text into the last block early or leaving it to the final pass is the same |
| `Anthropic.JoinedKeepsToolUse` | rust/src/transform/responses.rs:517-541 | joining neither adds nor drops tool calls |
| `AnthropicFrames.BlockDecodes` | rust/src/transform/response.rs:349-414 | the frames of a block give the client exactly that block, next in line |
| `AnthropicFrames.MessageToSse` | rust/src/transform/response.rs:321-436 | the client reads back the message: content block for block and the stop |
| `ChatBodies.ConvertChatBody` | rust/src/streaming.rs:31-111 | for every chunking of every body, whether it ends or the read fails, the live frames decode to the message of what is heard; decoding, event and read errors end the stream after a start and whole or open blocks |
| `ChatBodies.AggregateChatBody` | rust/src/sse.rs:250-496 | parsing, aggregation and transform of a whole body |
| `ChatBodies.BodiesAgree` | rust/src/streaming.rs:31-111 | a body the one-shot parser accepts, its events ordinary and its signatures in time, however it is cut, is converted live to what the buffered path makes of it, exactly unless a guard holds at its end |
| `ChatLive.ConvertChatStream` | rust/src/streaming.rs:505-847 | for every event sequence the live frames, read by the client, are the specified message; on error the frames sent are a start and whole or open blocks; every prefix fits the grammar |
| `ChatLive.ChatStreamState.constructor` | rust/src/streaming.rs:482-503 | nothing sent, nothing open |
| `ChatLive.ChatStreamState.OnRawEvent` | rust/src/streaming.rs:505-700 | one event moves the state as specified, fails exactly when specified, and the frames returned are what the client needs to follow |
| `ChatLive.ChatStreamState.Finish` | rust/src/streaming.rs:702-847 | a successful finish completes the message; it fails exactly on an empty or unterminated stream, an unknown reason or unusable tool calls; after a failure it sends nothing |
| `ChatLive.ChatStreamState.EnsureStarted` | rust/src/streaming.rs:849-865 | one message start |
| `ChatLive.ChatStreamState.EmitText` | rust/src/streaming.rs:867-886 | text extends the open text block or opens one after closing the other; once a tool call has begun it waits, and whatever was open is closed |
| `ChatLive.ChatStreamState.EmitThinking` | rust/src/streaming.rs:888-912 | the same for thinking, whose text is kept for replay even when it is not shown |
| `ChatLive.ChatStreamState.EnsureBlock` | rust/src/streaming.rs:914-931 | block indices count up from 0, one open at a time |
| `ChatLive.ChatStreamState.CloseOpen` | rust/src/streaming.rs:933-961 | a thinking block gets exactly one signature, just before its end, and uses up the upstream one |
| `ChatLive.ChatStreamState.OnSignature` | rust/src/streaming.rs:551-577 | a signature waits for the open block, or goes to the deferred thinking it follows |
| `ChatLive.ChatStreamState.OnContent` | rust/src/streaming.rs:578-609 | a string or each part in turn, with placeholders for images and bounded JSON for the rest |
| `ChatLive.ChatStreamState.OnToolCall` | rust/src/streaming.rs:619-652 | a fragment joins its tool: the id is stable, the name grows, arguments are appended, and the tool keeps the place of its first fragment |
| `ChatLive.ChatStreamState.EmitAllDeferred` | rust/src/streaming.rs:756-813 | what waited is sent in order, each tool once, as a call or as a diagnostic |
| `ChatLive.MergeToolDelta` | rust/src/streaming.rs:969-993 | an id that changes is an error; a name that begins with the name so far replaces it, any other is appended; arguments are appended (over whole streams: `ChatTools.LiveTools`) |
| `ChatLiveSpec.OnEventKeepsTidy` | rust/src/streaming.rs:619-674 | in every state each tool waits at exactly one place, and nothing waits before the first tool |
| `ChatLiveSpec.ToolUseOnlyWhenStoppingForIt` | rust/src/streaming.rs:725-826 | a tool_use block appears only in a message that stops for tool use |
| `ChatTools.LiveTools` | rust/src/streaming.rs:619-652 | for every event list and index: the arguments held are the argument fragments for that index one after the other, the id is the first non-empty one and all others equal it, the name grows by extension or is appended to |
| `ChatTools.FollowedExactly` | rust/src/streaming.rs:505-700 | a stream is followed to its end if and only if no event is malformed or an error and no call is given two ids |
| `ChatSays.LiveConvertsExactly` | rust/src/streaming.rs:702-755 | it becomes a message if and only if, besides, it ends for a known reason and every call to be made has an id, a name and an object for arguments |
| `ChatSays.LiveSays` | rust/src/streaming.rs:505-847 | the message shows, character by character and in order, the reasoning unless omitted, the texts of all parts, the refusal and the annotations of its events; each call stands where its first fragment came, with the first id, the original of the whole name and the parsed concatenation of its arguments; and it stops for their reason, refusal and usage |
| `ChatReplay.ReasoningIsReplayed` | rust/src/transform/response.rs:480-494 | when thinking is omitted and upstream sends no signature of the router's own, or is shown and upstream sends none, decoding the signatures of the message gives back the whole reasoning of the stream |
| `ChatReplay.UpstreamSignatureIsSent` | rust/src/streaming.rs:933-961 | a signature that comes with its reasoning, ahead of a text and of any call, seals that reasoning in the message: always when it is shown, and when omitted if the router made it |
| `ChatBuffered.ChatAggregate.OnEvent` | rust/src/sse.rs:265-430 | one event of the aggregation; what was said always leaves a block behind |
| `ChatBuffered.ChatAggregate.OnSignature` | rust/src/sse.rs:308-326 | a signature goes to the last thinking block however far back, or makes one |
| `ChatBuffered.ChatAggregate.Conclude` | rust/src/sse.rs:431-456 | the finish reason reported, with what `[DONE]` stands for |
| `ChatBuffered.TransformBlocks` | rust/src/transform/response.rs:77-120 | the output blocks as content, failing exactly when one fails |
| `ChatBuffered.ConvertChatBytes` | rust/src/sse.rs:265-496 | aggregation of parsed events followed by the transform is the specified buffered conversion |
| `ChatBufferedSays.BufferedSays` | rust/src/transform/response.rs:66-319 | the buffered message says what its events say, as the live one does, with the annotations of an event ahead of its calls |
| `ChatEquivalence.LiveEqualsBuffered` | rust/src/streaming.rs:505-847 | for every stream of ordinary events whose signatures come in time the live frames decode to the buffered message, adjacent texts joined, same stop, same failures, exactly unless one of three guards holds at the end |
| `ChatEquivalence.FinishAgrees` | rust/src/transform/response.rs:66-319 | the same for one pair of finished states: agreement if and only if no guard holds |
| `ChatEquivalence.PieceAgrees` | rust/src/sse.rs:296-430 | one piece, a signature in time included, keeps the two states in step: the collected parts are those sent followed by those deferred |
| `ChatEquivalence.OrdinaryPieces` | rust/src/streaming.rs:532-695 | in the domain both paths read an event's parts in one order |
| `ChatEquivalence.SendAllShape` | rust/src/streaming.rs:756-813 | sending what was deferred adds, up to joining, exactly the blocks the buffered path renders |
| `ChatEquivalence.StopsApart` | rust/src/streaming.rs:737-745 | with "stop" after tool calls the two messages always differ |
| `ChatEquivalence.ToolsFail` | rust/src/transform/response.rs:438-451 | a tool call that cannot be made, or has no arguments, fails the buffered path |
| `ChatEquivalence.UnknownReason` | rust/src/transform/response.rs:292-305 | under an unknown reason the buffered path succeeds exactly when it saw refusal text |
| `ChatEquivalence.SignatureAgreesExactly` | rust/src/streaming.rs:555-579 | from states in step a signature leads to states in step if and only if nothing was collected yet, the last part is thinking, or a tool call came and no thinking |
| `ChatEquivalence.AllTogetherInTime` | rust/src/streaming.rs:545-579 | in a stream that sends each signature along with thinking, or none, every signature comes in time |
| `ChatSignatures.LastSignatureExactly` | rust/src/sse.rs:308-326 | a stream that ends with a signature, those before it in time, gives one message on both paths if and only if this one comes in time or changes nothing in the block it seals |
| `ChatSignatures.LateContents` | rust/src/sse.rs:308-326 | a late signature adds a block live, adds one buffered, or changes one, and the joined contents differ unless the changed block is the same |
| `ChatSignatures.SignatureBeforeThinking` | rust/src/streaming.rs:889-913 | a signature sent behind text, before the first thinking, is taken by the thinking that follows on both paths |
| `ChatSignatures.SignatureBehindText` | rust/src/streaming.rs:938-949 | any thinking, any text, then a signature: one message if and only if the replay signature comes out the same with and without it |
| `ChatSignatures.SignaturesPart` | rust/src/sse.rs:308-326 | an instance: thinking "a", text "b" and signature "sig" give two messages |
| `ChatEquivalence.RequestMapsSpareUnknown` | rust/src/transform/identity.rs:16-42 | the name map of a request never takes "unknown" for an alias, as the comparison demands |
| `ResponsesItems.JoinIsLeastUpperBound` | rust/src/sse.rs:1014-1026 | `merge_snapshot_text` is the least upper bound of the prefix order, defined exactly for comparable texts |
| `ResponsesItems.JoinLaws` | rust/src/sse.rs:1014-1026 | it is idempotent and commutative, errors included |
| `ResponsesItems.JoinAssociates` | rust/src/sse.rs:1014-1026 | it is associative, definedness included |
| `ResponsesItems.AppendPart` | rust/src/sse.rs:1308-1362 | a part is found by its marker or else by its position, or added; it grows by a delta or to a snapshot that begins with it; effective indices stay distinct |
| `ResponsesItems.MergeParts` | rust/src/sse.rs:944-1012 | every streamed part joins the terminal part of its index, missing ones are added, an omitted one is an error; afterwards the indices are 0 to n-1 |
| `ResponsesOrder.NormalizeParts` | rust/src/sse.rs:1439-1463 | the parts come out sorted by original index, as many as came in: a function of what was said at which index |
| `ResponsesOrder.InOrderIsDense` | rust/src/sse.rs:1439-1463 | as many parts as indices, each at its rank: a huge index leaves no hole |
| `ResponsesLaws.StepExtends` | rust/src/sse.rs:529-791 | every successful event only extends each part's text and each call's arguments in the prefix order; identities, kinds and places stay |
| `ResponsesLaws.JoinItemExtends` | rust/src/sse.rs:866-942 | an item joined with a snapshot extends both |
| `ResponsesLaws.AcceptedTextSurvives` | rust/src/sse.rs:794-854 | whatever any prefix of a successful stream said is a prefix of what the aggregate says, call by call and part by part |
| `ResponsesLaws.OutputExtends` | rust/src/sse.rs:824-854 | the terminal merge keeps every streamed and every terminal item at its index, extended |
| `ResponsesLaws.EventsCommute` | rust/src/sse.rs:571-725 | delta and done events with explicit indices that write to different slots commute, errors included |
| `ResponsesLaws.EventsCommuteExactly` | rust/src/sse.rs:571-725 | for events that both take effect, exactly when they agree on the item they would make up |
| `ResponsesInterleaving.AnyInterleaving` | rust/src/sse.rs:571-725 | any two interleavings with the same events per slot aggregate alike, wherever they stand in a stream, errors included |
| `ResponsesInterleaving.SlotsDecide` | rust/src/sse.rs:571-725 | from any state they lead to the same state, or both fail |
| `ResponsesLaws.InterleavingIsIrrelevant` | rust/src/sse.rs:1138-1145 | swapping two such events anywhere changes nothing in the aggregate or its failure |
| `ResponsesAggregator.ResponsesSseAggregator.PushRaw` | rust/src/sse.rs:529-791 | the vectors with markers, updated in place, are the items and parts by index; in every reachable state no two parts of an item answer to one index |
| `ResponsesAggregator.ResponsesSseAggregator.OnText` | rust/src/sse.rs:571-725 | a delta for a finalized part is skipped, any other grows its part, and a done event finalizes it |
| `ResponsesAggregator.ResponsesSseAggregator.OnItem` | rust/src/sse.rs:549-570 | an item is stored or joined, registered by id, and its snapshots finalize their parts |
| `ResponsesAggregator.ResponsesSseAggregator.Finish` | rust/src/sse.rs:794-821 | the payload for the transform, or the failure, as specified |
| `ResponsesAggregator.MergeItem` | rust/src/sse.rs:866-942 | identities must agree, texts and arguments join, other members are overwritten |
| `ResponsesAggregator.MergeOutput` | rust/src/sse.rs:824-854 | streamed items in ascending order join their terminal items or follow them; a gap is an error |
| `ResponsesAggregator.ValidateFunctions` | rust/src/sse.rs:1082-1136 | succeeds exactly when every identified streamed call is confirmed by the terminal output |
| `ResponsesSlots.PartsAreTold` | rust/src/sse.rs:571-725 | each part of each item holds what the events for its place say: deltas appended until it is settled, done texts and items with the longer text; other events do not matter |
| `ResponsesSlots.HeadsAreTold` | rust/src/sse.rs:549-725 | each item has the kind, ids, name and arguments that the events for its index give it, announced or made up |
| `ResponsesSlots.EndIsTold` | rust/src/sse.rs:726-791 | the stream ends as its first terminal event says |
| `ResponsesSlots.PayloadIsTold` | rust/src/sse.rs:794-821 | and the payload has the status, the reason, the error and the usage of that event |
| `ResponsesSlots.ConfirmedExactly` | rust/src/sse.rs:1082-1136 | a stream that ends is aggregated if and only if every streamed call with its ids and a name is confirmed at its index by a terminal call with the same, or with nothing at all, and the streamed items join the terminal ones |
| `ResponsesAccepts.StepExactly` | rust/src/sse.rs:529-791 | which events are accepted, field by field: any delta, a whole text or whole arguments that go on from what was said, an item that agrees with the one at its index, an end with the status it announces, and everything after the end |
| `ResponsesAccepts.StepsExactly` | rust/src/sse.rs:529-791 | a stream is followed to its end if and only if each event is accepted in the state that those before it led to |
| `ResponsesAccepts.ItemsJoinExactly` | rust/src/sse.rs:866-1012 | items join if and only if their kinds, ids, names and kinds of parts do not contradict each other, their texts begin one with the other, and no streamed part is left out |
| `ResponsesAccepts.OutputExactly` | rust/src/sse.rs:824-854 | the terminal merge succeeds if and only if there is no terminal item, or streamed items agree with those of their index and go on behind them without a gap |
| `ResponsesAccepts.OutputIsTold` | rust/src/sse.rs:824-942 | at each index comes out the only item there is, or the two joined: the longer texts and arguments, the ids and the name of either |
| `ResponsesTransform.TransformResponsesJson` | rust/src/transform/responses.rs:272-515 | the buffer of pending reasoning is equivalent to emitting each item's blocks directly in output order, and the final test of the refusal text changes nothing |
| `ResponsesTransform.Coalesce` | rust/src/transform/responses.rs:517-541 | the loop joins adjacent texts |
| `ResponsesTransform.EmitFunctionCall` | rust/src/transform/responses.rs:340-377 | a call becomes a tool call, a diagnostic or an error, with what it carries as in `ResponsesSays.SolidSaid`, and the flag says whether the content has a tool call |
| `ResponsesTransformSpec.StopsForToolsExactly` | rust/src/transform/responses.rs:434-502 | the stop reason is tool_use if and only if the content holds a tool_use block |
| `ResponsesTransformSpec.RefusalTextMeansRefusal` | rust/src/transform/responses.rs:286-300 | refusal text is collected only when some item refuses: the last `is_refusal` update is a no-op |
| `ResponsesTransformSpec.ItemsOnlyAdd` | rust/src/transform/responses.rs:308-433 | each item only adds blocks after those before it |
| `ResponsesSays.ResponsesSay` | rust/src/transform/responses.rs:272-515 | the message shows, character by character and in order, the reasoning of the items unless omitted, the texts of the parts with their annotations, placeholders and calls; cut off or refused calls are told as text; and it stops for what the items and the status say |
| `ResponsesSays.TransformsExactly` | rust/src/transform/responses.rs:272-377 | there is a message if and only if the payload has no error, is completed or incomplete, has an output, and each of its items can be said: reasoning has an id and, when omitted, encrypted content; a call that is not held back has an id, a name and an object for arguments; nothing is of a kind without a counterpart |
| `ResponsesSays.SolidSaid` | rust/src/transform/responses.rs:308-377 | its thinking and its tool calls are those of the output items, in order, one each: a call with the text of `call_id`, or of `id` when that member is missing, its name and its parsed arguments; thinking exactly when not omitted or encrypted content is there |
| `ResponsesSays.StopsForCalls` | rust/src/transform/responses.rs:434-502 | a message that is neither refused nor cut short has tool calls if and only if the output has function calls |
| `ResponsesSays.CallsAreWhole` | rust/src/transform/responses.rs:340-377 | a call that is made has an id, a name and an object for arguments |
| `ResponsesBodies.ConvertResponsesBody` | rust/src/streaming.rs:123-212 | for every chunking of every body, whether it ends or the read fails, the frames decode to exactly the buffered message of what is heard; there is an error exactly when there is none or the forwarded text does not fit |
| `Progressive.ConvertResponsesStream` | rust/src/streaming.rs:214-413 | for every event sequence, when aggregation, transform and finish succeed, the frames sent early followed by the final ones decode to exactly the buffered message, with one start and one stop; it fails exactly when the buffered conversion does or the forwarded text does not fit |
| `ProgressiveSays.ForwardedExactly` | rust/src/streaming.rs:228-368 | what goes out early is the text deltas for the first part of the first item, in order, up to the end or the first text that belongs elsewhere, and nothing once reasoning or a call has come first |
| `ProgressivePrefix.PrefixKeptExactly` | rust/src/streaming.rs:295-368 | where the forwarded text begins what is held, it does so after every possible next delta if and only if the part is not settled and what is held is the forwarded text |
| `ProgressivePrefix.ForwardedBeginsHeld` | rust/src/sse.rs:571-600 | when every forwarded delta of a stream meets that guard, or repeats what is held, the forwarded text begins what is held after the stream |
| `ProgressivePrefix.ForwardedBeginsOutput` | rust/src/sse.rs:794-854 | and it begins that text of the first output item after the terminal merge |
| `ProgressivePrefix.GuardedFits` | rust/src/streaming.rs:370-413 | so such a stream is not refused at its end, when its first item comes out as a message with a first part of that kind |
| `ProgressivePrefix.SettledThenDelta` | rust/src/sse.rs:571-600 | for all texts: a delta after its part was settled is forwarded and not held |
| `ProgressivePrefix.RefusalThenText` | rust/src/sse.rs:1308-1362 | for all texts: a refusal and then a text in one part are forwarded as one text, which begins neither of the two held, with nothing settled |
| `ProgressivePrefix.SmallStreams` | rust/src/streaming.rs:295-368 | three streams from the start: a settled repeat and a refusal with a text that break the prefix, and a settled repeat that keeps it |
| `Progressive.ResponsesProgressiveState.OnRawEvent` | rust/src/streaming.rs:228-368 | only text of the first part of the first item is forwarded, and only while nothing else has come |
| `Progressive.ResponsesProgressiveState.Finish` | rust/src/streaming.rs:370-413 | succeeds exactly when the message begins with the forwarded text, and then completes the message |
| `Identity.UniqueAlias` | rust/src/transform/identity.rs:104-118 | a free alias is found within `used.len() + 1` probes: it is the first free candidate, and is then in use |
| `Identity.TakenFitInUsed` | rust/src/transform/identity.rs:104-118 | distinct probes give distinct candidates, so no more of them can be taken than names are in use |
| `Identity.XorTwice` | rust/src/transform/identity.rs:107-110 | XOR with a fixed hash is undone by itself, hence injective in the attempt |
| `Identity.HexInjective` | rust/src/transform/identity.rs:110-111 | fixed-width hex is injective |
| `Identity.StableHash` | rust/src/transform/identity.rs:120-135 | the hash is FNV-1a over the bytes of the value and the attempt |
| `Identity.AliasMapTheorem` | rust/src/transform/identity.rs:16-75 | the map fixes legal names, gives legal results of at most 64 characters, is injective on the request's names, and is undone by its reverse; an alias is the first 47 characters of its name, each illegal one an underscore, then an underscore and 16 hexadecimal digits |
| `Identity.MapDependsOnSetOnly` | rust/src/transform/identity.rs:16-34 | neither order nor repetition of names matters |
| `Identity.BuildMap` | rust/src/transform/identity.rs:16-70 | both constructors build the specified map |
| `ToolNames.ChatRequest.PrepareToolNames` | rust/src/transform/request.rs:403-487 | every place that names a function is collected and then renamed by the map of exactly those names: tools, choice and messages stand where they stood |
| `ToolNames.EveryPlaceIsCollected` | rust/src/transform/request.rs:403-438 | the names the map is made of are those of the tools, of the tool choice, and of every call and legacy call of every message: no more, no less |
| `ToolNames.PreparedRequestTheorem` | rust/src/transform/request.rs:403-487 | names sent are legal, responses can undo the renaming, and two places share a name afterwards exactly when they did before |
| `ResponsesRequest.CollectResponsesHistoryCallIds` | rust/src/transform/responses.rs:241-270 | every id the rewrite looks up has been collected |
| `ResponsesRequest.WiredAt` | rust/src/transform/responses.rs:165-189 | each outbound reference is the one at its place in the history, its id put on the wire and all else kept |
| `ResponsesRequest.PairsTheorem` | rust/src/transform/identity.rs:51-75 | ids on the wire have at most 64 characters and are shared exactly when the originals were |
| `ResponsesRequest.RewriteCalls` | rust/src/transform/responses.rs:165-189 | each call goes out with its wire id, its reasoning right before the first call of that id |
| `ResponsesRequest.RewriteMessage` | rust/src/transform/responses.rs:66-189 | one message's items; an error exactly on malformed replay state |
| `ResponsesRequest.TransformResponsesRequest` | rust/src/transform/responses.rs:55-190 | the outbound calls and results are those of the history, in order, with everything they carry and wire ids that pair exactly as the originals did |
| `ResponsesHistory.HistoryIsSaid` | rust/src/transform/responses.rs:66-189 | the texts of the outbound history are those of the messages, in order and under their roles, an assistant that only calls left out |
| `ResponsesHistory.CallComesLast` | rust/src/transform/responses.rs:165-189 | each call comes right behind all the reasoning that belongs to it, unless an earlier call of its id took that |
| `ResponsesHistory.ReasoningIsReplayed` | rust/src/transform/responses.rs:66-164 | the reasoning of output blocks is replayed in order, all of it; reasoning that stands alone goes ahead of the text |
| `SidecarSpec.SidecarConservesMedia` | rust/src/transform/request.rs:1927-1992 | images and files over all messages are the same and in the same order, none is left in a tool message, tool runs stay together, other messages keep their own parts |
| `SidecarSpec.PassKeeps` | rust/src/transform/request.rs:1934-1988 | after any number of messages, what is placed and what is pending is what came in |
| `Sidecar.NormalizeMultimodalToolResults` | rust/src/transform/request.rs:1927-1992 | the loop with its pending buffer computes the specified plan |
| `Sidecar.FlushSidecars` | rust/src/transform/request.rs:2030-2060 | the sidecar goes before a user message's own parts, or into a user message of its own |
| `SidecarPlaces.RunIsPlaced` | rust/src/transform/request.rs:1927-1992 | for every run of tool messages: their media, grouped and marked with their number when several have some, go before the own parts of the user message that follows, or into a user message of their own ahead of any other |
| `SidecarPlaces.LastRunIsPlaced` | rust/src/transform/request.rs:1927-1992 | those of a run at the end go into a last user message |
| `SidecarPlaces.ToolKeepsTexts` | rust/src/transform/request.rs:1942-1988 | a tool message keeps its texts: one as its content, several as parts, and without any a word on where the media went |
| `SidecarPlaces.FilesKeepReferences` | rust/src/transform/request.rs:1994-2028 | a file part keeps what it refers to, and becomes its fallback text when it refers to nothing |
| `AuditQueue.AuditQueueIsSafe` | rust/src/model_log.rs:357-396 | in every interleaving `pending_writes` is the number of unfinished accepted writes and at most 512, writes never overlap, no flusher sleeps without a notification to come, and a returned flush left nothing behind that was accepted before its call |
| `AuditQueue.SafeAlways` | rust/src/model_log.rs:357-396 | the invariant holds over all runs from any state that has it |
| `AuditQueue.SleepersAreNotStuck` | rust/src/model_log.rs:373-380 | while a flusher sleeps some task can step, and every such step brings the notification nearer |
| `AuditQueue.FlushReturns` | rust/src/model_log.rs:388-396 | when all tasks are done a flusher returns within two steps |
| `AuditRuns.AcceptedExactly` | rust/src/model_log.rs:357-372 | at every position of every run an appended entry joins the tasks if and only if fewer than 512 of them are unfinished |
| `AuditRuns.AppendsAreConserved` | rust/src/model_log.rs:357-372 | after any number of steps, tasks and dropped entries together are the appends made |
| `AuditRuns.DropsExactly` | rust/src/model_log.rs:357-364 | something was dropped if and only if an append found exactly 512 unfinished writes |
| `AuditRuns.FewAreNeverDropped` | rust/src/model_log.rs:357-364 | a run with at most 512 appends drops nothing |
| `AuditRuns.TaskLives` | rust/src/model_log.rs:375-382 | what a run did with a task is a beginning of one life: spawned, locked, written once, subtracted, notified, unlocked |
| `AuditRuns.FlushSawAll` | rust/src/model_log.rs:388-396 | when a flush has returned, each entry accepted before its call has been written |
| `ErrorThrottle.ThrottleIsSafe` | rust/src/model_log.rs:398-427 | in every interleaving a log follows another by 60 seconds at least unless the earlier read the clock as 0, and suppressed calls are conserved |
| `ErrorThrottle.PossibleExactly` | rust/src/model_log.rs:398-427 | the readings some run logs are exactly those that follow each other by 60 seconds at least, except after a reading of 0 |
| `ErrorThrottle.MinuteApartExactly` | rust/src/model_log.rs:398-427 | over the readings a clock may give, all runs keep 60 seconds between logs if and only if 0 is not among them |
| `ErrorThrottle.ClockAtZero` | rust/src/model_log.rs:404-409 | an instance: logs at 0 and at 5 |
| `Exchange.Forward` | rust/src/router.rs:333-433 | on every path, wherever the exchange or the body is dropped, the records offered are the request records and exactly one terminal record; none when logging is off |
| `Exchange.StreamingCapture.Push` | rust/src/model_log.rs:471-480 | the captured bytes are the prefix of the pushed ones up to the limit |
| `Exchange.StreamingCapture.Record` | rust/src/model_log.rs:501-533 | the record tells a whole body, a read error and an abandoned one apart |
| `Exchange.StreamingCapture.Drop` | rust/src/model_log.rs:549-555 | dropping an unfinished capture offers its record, and the exchange it owns adds none |
| `Exchange.StreamingCapture.Finish` | rust/src/model_log.rs:482-485 | finishing offers one record and the drop that follows none |
| `Exchange.Exchange.Drop` | rust/src/model_log.rs:133-144 | an exchange without a terminal record offers a cancellation with its phase |
| `Exchange.RecordResponse` | rust/src/model_log.rs:292-324 | a buffered response offers one record |
| `AuditRecords.OneTerminal` | rust/src/model_log.rs:204-355 | exactly one terminal record, and it comes last |
| `AuditRecords.StreamedBodyIsPrefix` | rust/src/model_log.rs:471-600 | in full mode the record keeps the prefix of length min(total, limit) and says truncated exactly when that is not all |
| `AuditContents.MetadataKeepsNoBody` | rust/src/model_log.rs:578-600 | in metadata mode no record keeps a byte of a body |
| `AuditContents.RequestsComeFirst` | rust/src/model_log.rs:204-268 | the client's request, when it is logged, and then the one sent, with their lengths |
| `AuditContents.RequestBodies` | rust/src/model_log.rs:578-600 | in full mode each keeps its body up to the limit and says whether that is all |
| `AuditContents.TerminalByPath` | rust/src/model_log.rs:133-355 | cancelled with its phase, failed with the transport's error, or answered with the status: exactly as the path went |
| `AuditContents.BufferedResponse` | rust/src/model_log.rs:270-324 | whole exactly when all was read, else with the shortened error and what was read |
| `AuditContents.StreamedResponse` | rust/src/model_log.rs:471-555 | whole exactly when the body ended, abandoned exactly when dropped without a read error, with every chunk counted and whether the protocol was complete |
| `IngestSafety.CrashSafe` | lens/src/ingest.rs:126-241 | for every schedule of scans, crashes and stored offsets, in any order of files, once all files that mention a request are read, each column they agree on is as if every complete line had been applied once |
| `IngestSafety.ScansInTurnAreSafe` | lens/src/ingest.rs:126-150 | when a file is begun only after those before it are done, every request is so in every column, wherever its lines are and whatever the crashes |
| `IngestSafety.StepKeeps` | lens/src/ingest.rs:186-229 | one statement, one stored offset or one restart keeps track, column by column, of which statement decides |
| `IngestSafety.OneFileDecides` | lens/src/ingest.rs:126-375 | each column ends up with what one of the files that write it most strongly puts there |
| `IngestOrders.OrderMattersExactly` | lens/src/ingest.rs:126-241 | a column is the same after all finished schedules if and only if the files agree on it |
| `IngestOrders.UnexplainedSchedules` | lens/src/ingest.rs:126-150 | when lost offsets make whole files be read again, some schedule leaves an entry of neither order of two files, if and only if they clash on an overwritten and on a filled column |
| `IngestOrders.InterruptedEntry` | lens/src/ingest.rs:216-228 | an offset stored inside a file lets another file's lines come in between |
| `IngestOrders.RouterLinesAgree` | rust/src/model_log.rs:204-355 | when each kind of line about a request is in one file, the files agree on every column but the shared ones |
| `IngestOrders.RouterLinesDoNotClash` | rust/src/model_log.rs:204-355 | such lines never clash on an overwritten column |
| `IngestOrders.SharedColumnsAreAFiles` | lens/src/ingest.rs:254-279 | the shared columns are those of the first line of some file |
| `IngestRows.ReplayIsHarmless` | lens/src/ingest.rs:243-375 | replaying a beginning of the log before the whole of it changes nothing |
| `IngestRows.TwiceIsOnce` | lens/src/ingest.rs:253-302 | statements that begin with the shared insert, run twice, do what they do once |
| `IngestRows.ColumnsChangeByTotal` | lens/src/ingest.rs:36-50 | a list of statements amounts to one change per column of the row and its bodies: left alone, filled if empty, or overwritten |
| `IngestRows.CellsDetermine` | lens/src/ingest.rs:253-375 | the columns are all there is to an entry |
| `IngestLog.NextLine` | lens/src/ingest.rs:191-205 | from the end of a line, the next newline ends the next complete line, and without one there is none yet |
| `IngestLog.CompletePrefix` | lens/src/ingest.rs:199-202 | a log that has grown has the same complete lines first |
| `IngestLog.OffsetsAreBoundaries` | lens/src/ingest.rs:203-229 | an offset is 0 or just after a newline |
| `Ingest.LensDb.ScanOnce` | lens/src/ingest.rs:126-150 | the files in the order of their names, unreadable ones passed over; each is read to its last complete line and its offset stored; when all but the last will not grow, the scan is in turn, and when every log is found whole, every request then stands as if each line had been applied once |
| `Ingest.LensDb.IngestFile` | lens/src/ingest.rs:152-229 | every complete line from the stored offset, or from the start of a file cut short or replaced, is applied and the end of the last stored; every write is a step of the schedule, so it may be cut off anywhere; other files are left alone |
| `Ingest.LensDb.WhatIsThere` | lens/src/ingest.rs:126-241 | for the database at hand: what all files agree on is there, and after scans in turn everything is |
| `Ingest.LensDb.FullScan` | lens/src/ingest.rs:126-150 | after a scan that found every log whole nothing is left to be read |
| `Ingest.LensDb.ReadLines` | lens/src/ingest.rs:190-226 | the batched loop stands at the end of a line after every line and every stored offset |
| `Ingest.LensDb.ApplyEntry` | lens/src/ingest.rs:243-301 | the shared insert and then the statements of the event, in order |
| `Ingest.LensDb.ApplyEvent` | lens/src/ingest.rs:284-301 | which statements each event issues, none for an unknown one; what they put where is `IngestLines.LineDoes` |
| `IngestLines.LineDoes` | lens/src/ingest.rs:243-375 | on any entry, each column after a line of each event kind: what the line writes, what it fills in where nothing was, or what was there; the outcome is "ok" exactly for a status from 200 to 299, and derived values come only with it |
| `IngestLines.OnceSays` | lens/src/ingest.rs:243-375 | over all lines of a log a column holds what the last line that writes it says, else the first that fills it, else nothing |
| `IngestLines.WholeScanSays` | lens/src/ingest.rs:126-375 | so does every column of every request after a scan that found each log whole |
| `IngestLines.WholeScanOutcome` | lens/src/ingest.rs:591-700 | and the outcome of a request is then that of its last terminal line |
| `Ingest.LensDb.PersistOffset` | lens/src/ingest.rs:231-241 | the stored offset is the end of a line whose statements, and all before it, have been executed |
| `Ingest.LensDb.StoredOffsetsEndLines` | lens/src/ingest.rs:203-229 | stored offsets are always line boundaries |
| `Pricing.Matched` | lens/src/pricing.rs:100-112 | the pattern longest in bytes found in the model's name, the first of equals |
| `Pricing.BestIsBest` | lens/src/pricing.rs:100-112 | the specified choice is the best one, and there is none exactly when nothing matches |
| `Pricing.NormalizedPrices` | lens/src/pricing.rs:125-184 | normalizing the counters first changes no price and no tier |
| `Pricing.PricesAdd` | lens/src/pricing.rs:153-184 | on well-formed counters the price is linear within a tier |
| `Pricing.SavingsAdd` | lens/src/pricing.rs:191-204 | savings add up despite the cut-off at zero |
| `PricingLaws.PriceExactly` | lens/src/pricing.rs:100-112 | the price is that of the pattern longest in UTF-8 bytes, the first of equals, among those found in the model's name whatever the case of ASCII letters, percent signs at a pattern's end cut off and empty patterns left out; without one it is the fixed fallback |
| `PricingLaws.TokenByToken` | lens/src/pricing.rs:153-184 | nothing costs nothing, and one more token, plain, cached, written to the cache, output or reasoning, costs its own rate times the factor of its side |
| `PricingLaws.TierByInput` | lens/src/pricing.rs:125-151 | the long tier applies exactly above the threshold; up to it the price is that of a model without tiers |
| `PricingLaws.SavingIsADifference` | lens/src/pricing.rs:191-204 | the saving is the price with the cached tokens as plain ones less the price, if positive |
| `Overview.OnePass` | lens/src/api.rs:552-743 | the cost and savings of one pass are the sums over individual requests, malformed rows included |
| `Overview.MultiQuery` | lens/src/api.rs:890-937 | the cost and the savings of the grouped totals are those sums where the groups balance |
| `Overview.BuildOverview` | lens/src/api.rs:527-550 | where the counters make sense the dispatch on row count and client cannot change the cost |
| `OverviewBalance.CostsAgreeExactly` | lens/src/api.rs:645-660 | grouped totals cost what the requests cost at all rates if and only if in each group the capped total is the sum of the capped rows |
| `OverviewBalance.SavingsAgreeExactly` | lens/src/pricing.rs:191-204 | the same for the savings, if and only if the cached totals are the sums of the capped counts |
| `OverviewBalance.OneRowBalances` | lens/src/pricing.rs:153-184 | one row costs the same either way, whatever its counters |
| `Overview.AnyKeyFirst` | lens/src/api.rs:710-743 | the order in which a hash map gives its groups does not matter |

## Left out

- HTTP, routing, timers and file I/O: only the decisions, steps, drops and records are modelled; a `Notified` future counts every `notify_waiters` call made after its creation.
- JSON parsing and printing, base64, UUIDs and the FNV hash's collision rate: tool arguments are text with a parse result given as a parameter, made-up ids are inputs.
- Audio: the audio events, `merge_streamed_audio_semantics` and `audio_transcripts` (rust/src/sse.rs:604-652 and 1028-1080) are not modelled; `output_audio` parts of a payload are.
- Content parts, items and members of an unexpected JSON type (a part that is not an object, an id that is a number): the fields the code reads have their expected type or are missing.
- Message id, model and usage: ids and models are not compared, usage is carried as text, and its conversion is not modelled.
- `url_citation` filtering: citations come as the JSON text the code would print.
- `thinking_blocks`, `annotations` and audio of buffered Chat payloads that did not come from a stream (rust/src/transform/response.rs:121-290): only the branches an aggregate can take are modelled.
- `response_meta` of the Responses aggregate: the model name it supplies is not part of the message compared.
- `program`, `compaction` and similar items are errors in the transform; the texts of error messages are not modelled.
- Machine integers: indices and counters are unbounded, `saturating_add` and `usize` conversions are not modelled, and prices are real numbers.
- Identity.BuildMap: assumes fewer than 2 to the 63 names, below any addressable input.
- ResponsesRequest.TransformResponsesRequest: assumes a history of fewer than 2 to the 63 ids, and leaves out the tools, tool choice and parameters the request also carries.
- ChatEquivalence.LiveEqualsBuffered: covers events with string finish reasons and without legacy function calls or tool calls mixed with annotations, and signatures that come in time; elsewhere the paths differ by design.
- ChatBufferedSays.BufferedSays: when the buffered path fails is left to `LiveEqualsBuffered` and `LiveConvertsExactly`; of events with string finish reasons and without the legacy function call, whose id the buffered path makes up at the end.
- ChatReplay.ReasoningIsReplayed: asks of the replay signature that decoding undoes encoding and that only signatures with the router's prefix decode.
- ChatReplay.UpstreamSignatureIsSent: of signatures that come with their reasoning in one event; those that come elsewhere are compared path against path in `ChatSignatures`.
- ChatSignatures.LastSignatureExactly: of a late signature that ends the stream; what follows one can make the two messages meet again (`SignatureBeforeThinking`).
- Ingest.LensDb.IngestFile: a file that was replaced and has already grown past its stored offset is not covered, the code resumes in the middle of it; database errors, the retention sweep and the one-time backfills are not modelled.
- IngestOrders.UnexplainedSchedules: of two files read whole; with offsets stored inside a file (`InterruptedEntry`) columns can also have different last writers, which `OrderMattersExactly` covers column by column.
- Exchange.Forward: offers records to the queue; that the bounded queue may drop them is in `AuditQueue`.
- Overview: series, latency, status and client counts of the overview page.
- SQLite schema and migration, the dashboard's other queries, the HTML page and the entry point.
- Request validation, header and URL parsing, effort clamping and status mapping.
