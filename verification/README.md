# Crated runtime: a verified model

Crated runs an agent: it streams answers from a model provider, limits how many
requests are in flight, retries requests that fail, and owns the tool processes
("skills") the agent may call. This project models the parts of it where the logic is
hardest and proves, for all inputs and all runs, what they are for.

- `PushIter` is Go's push iterator protocol and the algebra the streaming code shares.
  A consumer (`Sink`) is any policy that may stop at any element; calling `yield` after
  a refusal violates `Yield`'s precondition, so every producer that verifies respects
  the protocol. A fold over input is a machine (`Run`), and `NestedCut` says that
  stopping an inner loop early cannot be observed outside.
- `Sse`, `SseFormat`, `SseStandard` are the event-stream reader, the round trip of
  printing and reading, and the algorithm of the WHATWG HTML Living Standard (sections
  9.2.5 and 9.2.6) as an independent reference.
- `Llm`, `Anthropic`, `AnthropicStream`, `OpenAI`, `OpenAIStream` are the two providers:
  the stream of fragments folded into responses, the one-shot conversion, and that the
  first rebuilds the second, end to end from the bytes on the wire.
- `Limiter`, `LimiterSteps`, `Middleware`, `Stack` are the limiter (as one caller sees
  it, and as atomic steps of any number of goroutines), the logging and limiting
  decorators, and a whole request through all of them, loop by loop and interleaved.
- `HttpClient`, `Backoff` are the retry loop, driven by an arbitrary world, and the
  exact arithmetic of its delays.
- `Models`, `Runtime`, `RuntimeSteps` are the model registry and the lifecycle of skills
  and agent, sequentially and as steps of concurrent `Close` and `Reload` calls.
- `History`, `AnthropicHistory`, `OpenAIHistory` convert conversations; `Origins` splits
  a list of allowed origins; `Text` and `Seqs` hold lemmas on strings and sequences.

Code that updates state in a loop is a method or a class with the same branches, proved
equal to a function; the lemmas are about that function. JSON decoding is a record of
arbitrary functions; where a server's encoder appears, decoding what it encodes gives the
value back, and the encoding is one trimmed, non-empty line.

## Where the code does not do what one might expect

Each of these is proved: the exact condition under which the expectation holds, and an
input at which it does not.

- The reader departs from the standard it says it handles. `SseStandard.AgreesWithStandard`
  says exactly on which texts the events are the standard's; a byte order mark and a lone
  CR are outside it, and the `Departs...` lemmas show the two different outcomes of each
  kind of departure.
- A comment in the OpenAI provider expects the usage in the final chunk; a usage that
  comes after the chunk with the finish reason is never read (`OpenAIStream.UsageReported`,
  `OpenAIStream.LateUsageLost`).
- With both text and tool calls, the OpenAI stream hands over the text, the one-shot
  conversion drops it (`OpenAIStream.StreamAgreesWithSync`, `OpenAIStream.TextBesideCallsDeparts`).
- An Anthropic tool call without arguments arrives with a nil map when streamed and with
  an empty one when not (`AnthropicStream.StreamAgreesWithSync`, `AnthropicStream.EmptyInputDeparts`).
- A stream that breaks off without an error or a final message ends without the
  consumer being told (`EndIsTold` and `SilentEnd` of both providers).
- An `Init` that fails for a missing environment variable closes nothing, unlike every
  other failure after the models are set up; the caller's `Close` must
  (`Runtime.InitAlone`, `Runtime.EnvFailureLeaves`).
- `Reload` says it uses the new brain configuration; the model stays the default of the
  registry that `Init` built from the first one (`Runtime.Serve`, `Runtime.ReloadKeepsModel`).
- Options that have been defaulted once change when defaulted again if retries were
  disabled (`HttpClient.DefaultedTwice`), and the largest size limit makes every body
  read as empty (`HttpClient.Client.ReadBody`).
- In the Anthropic history the result of a call without an id refers to a tool use that
  is not there (`AnthropicHistory.ResultFindsCall`, `AnthropicHistory.ResultWithoutId`).
- The OpenAI history drops function responses that are not the first part of a tool
  content (`OpenAIHistory.ResponsesKept`, `OpenAIHistory.SecondResponseLost`,
  `OpenAIHistory.UserResponseLost`), and the text that accompanies calls
  (`OpenAIHistory.ModelTextKept`, `OpenAIHistory.TextBesideCallLost`). The Anthropic history
  keeps one text of the last system content and drops every other
  (`AnthropicHistory.SystemKept`, `AnthropicHistory.FirstSystemLost`).

## Model

| member | source | states |
|---|---|---|
| PushIter.Sink.constructor | internal/sse/reader.go:39 | a consumer starts with nothing delivered and may be yielded to |
| PushIter.Sink.Yield | internal/sse/reader.go:52-54 | yield may be called only while it has never answered false; it delivers one element and answers whether the consumer goes on |
| PushIter.CutUnique | internal/sse/reader.go:52-54 | the stream and the consumer's policy fix what is received |
| PushIter.CutAll | internal/sse/reader.go:52-54 | a consumer that never stops receives all, and nothing but all |
| PushIter.RunAppend | internal/sse/reader.go:45-72 | folding one input after another is resuming the fold of the first; a finished fold ignores the rest |
| PushIter.RunPrefix | internal/sse/reader.go:45-72 | more input never takes back what was yielded |
| PushIter.ReadStops | internal/runtime/providers/anthropic/anthropic.go:179-284 | a loop body that returns has stopped its own producer at the cut, and its consumer has the cut of the whole output |
| PushIter.NestedCut | internal/runtime/middleware/middleware.go:135-139 | stopping the inner iterator when the loop body returns cannot be observed by the consumer: it receives the same with and without |
| PushIter.RunClosesOnce | internal/runtime/providers/openai/openai.go:187-273 | a loop that returns right after a closing element puts out at most one, as its last |
| Sse.AfterLine | internal/sse/reader.go:45-72 | one line more extends what has been delivered by what that line completes |
| Sse.Read | internal/sse/reader.go:38-85 | for every stream and every stopping point the consumer receives the cut of all events, then of the scanner's error |
| Sse.ReaderNeverDone | internal/sse/reader.go:45-72 | no line ends the reader or makes it report an error; only the end of the input does |
| Sse.LostIsLast | internal/sse/reader.go:74-83 | an error is delivered exactly if scanning failed, and nothing follows it |
| Sse.LostAfterEvents | internal/sse/reader.go:74-83 | a failure takes nothing back: all that was read is delivered, the pending event too, and then the error |
| Sse.BrokenBody | internal/sse/reader.go:74-83 | a body that breaks off is read like one that just ends, and then the error |
| SseFormat.ScanAssembled | internal/sse/reader.go:40-46 | scanning gives back the lines sent, with LF and CRLF mixed freely |
| SseFormat.ScannerLimit | internal/sse/reader.go:42 | a line of characters of one to four bytes is refused exactly if it has 1,048,576 bytes or more |
| SseFormat.ScannerLimitMixed | internal/sse/reader.go:42 | the same for a line of characters of two widths |
| SseFormat.SpaceIs | internal/sse/reader.go:59-62 | white space is exactly the 25 characters with the Unicode property White_Space |
| SseFormat.ValueRead | internal/sse/reader.go:58-62 | a field's value is what stands between the white space around it |
| SseFormat.RunSignificant | internal/sse/reader.go:69-71 | comments, id, retry and unknown lines anywhere make no difference |
| SseFormat.RunEventLines | internal/sse/reader.go:48-67 | the printed lines of an event are read as exactly that event, with nothing left pending, if and only if its type and data lines are trimmed and its first data line is not empty |
| SseFormat.RoundTrip | internal/sse/reader.go:38-85 | any printable events, printed with any terminators and ignored lines, are read back exactly |
| SseFormat.ReadAppend | internal/sse/reader.go:44-79 | reading A followed by B gives A's events and then B's whenever A ends a line with nothing pending |
| SseFormat.FlushAtEnd | internal/sse/reader.go:74-79 | two more line feeds at the end change nothing: a pending event is delivered at the end of the input |
| SseStandard.LinesAgree | internal/sse/reader.go:40-46 | without a lone CR the standard's lines are those of the scanner's lines that are ended |
| SseStandard.BlockExact | internal/sse/reader.go:48-72 | whatever type was left over, on one block both deliver the same event or both none, exactly if the block has no data, or conforms: data lines coloned, trimmed but for one space, the first not empty; the type in force taken the same way |
| SseStandard.OneLineExact | internal/sse/reader.go:48-72 | a block of one line makes a difference exactly if it is a data line that is colonless, empty or not trimmed |
| SseStandard.DepartsOnEmptyData | internal/sse/reader.go:61-67 | a concrete departure: the standard dispatches an event with empty data, the reader none |
| SseStandard.DepartsOnSpaces | internal/sse/reader.go:62 | a concrete departure: of two leading spaces the standard keeps one in the data, the reader none |
| SseStandard.DepartsOnTypeAlone | internal/sse/reader.go:49-59 | a concrete departure: after a block that has only a type, the next event has that type for the reader and none for the standard |
| SseStandard.NextBlock | internal/sse/reader.go:44-72 | having put out the same events so far, both do so after one block more exactly if it conforms, given the type left over |
| SseStandard.AgreeBefore | internal/sse/reader.go:44-72 | events that agree in the end agreed after every block: a difference is never made good later |
| SseStandard.BlocksAgree | internal/sse/reader.go:44-72 | the events of any list of blocks are the standard's exactly if every block conforms, given the type left over from those before it |
| SseStandard.TailExact | internal/sse/reader.go:74-79 | with a last block that no blank line ends, the events agree exactly if all blocks conform and that one has no data |
| SseStandard.AgreesWithStandard | internal/sse/reader.go:38-85 | for every text without byte order mark and lone CR: the events are the standard's if and only if no line is too long, every block conforms, and the text does not break off in a block with data |
| SseStandard.DepartsOnLoneCR | internal/sse/reader.go:40-46 | a concrete departure: a lone CR ends a line for the standard only |
| SseStandard.DepartsOnByteOrderMark | internal/sse/reader.go:58-61 | a concrete departure: behind a byte order mark the reader does not know the first line |
| Llm.ToInt32 | internal/runtime/providers/anthropic/anthropic.go:274-276 | the result is the 32-bit number congruent to the count modulo 2^32, so the count itself when it fits |
| Llm.ObjectOf | internal/runtime/providers/anthropic/anthropic.go:240-241 | arguments are filled exactly by a JSON object, with its fields |
| Llm.NormaliseCanonical | internal/runtime/providers/anthropic/anthropic.go:210-221 | two lists of parts have one normal form (adjacent texts merged, empty ones dropped) exactly if they say and call the same things in the same order |
| Anthropic.UsageExact | internal/runtime/providers/anthropic/anthropic.go:272-278 | the usage is reported as counted exactly if both counts and their sum fit 32 bits |
| Anthropic.LoopBody.constructor | internal/runtime/providers/anthropic/anthropic.go:174-177 | the loop starts without blocks, usage and stop reason |
| Anthropic.LoopBody.StartBlock | internal/runtime/providers/anthropic/anthropic.go:192-200 | the accumulators grow to the index and that one is replaced, all others kept |
| Anthropic.LoopBody.Take | internal/runtime/providers/anthropic/anthropic.go:179-283 | one event: accumulators, usage, stop reason and what is yielded are those of the step function; it goes on only if the consumer does |
| Anthropic.GenerateStreaming | internal/runtime/providers/anthropic/anthropic.go:167-285 | for every stream and stopping point the consumer receives the cut of the fold's output, and the event reader is stopped at its cut; a refused request gives one error |
| Anthropic.ConvertSyncResponse | internal/runtime/providers/anthropic/anthropic.go:506-534 | text and tool-use blocks in order, others skipped, with the usage; the finish is MaxTokens exactly for max_tokens, else Stop |
| Anthropic.StreamClosesOnce | internal/runtime/providers/anthropic/anthropic.go:179-284 | in every stream nothing follows an error or the response that completes the turn |
| Anthropic.StreamItems | internal/runtime/providers/anthropic/anthropic.go:179-284 | everything yielded is a chunk of one part, an error without response, or a completion with a finish reason |
| Anthropic.EndReported | internal/runtime/providers/anthropic/anthropic.go:179-284 | of any deliveries, decoded or not: the consumer is told the end exactly if there is a read error, an undecodable event or a message_stop, and is told last, by the first of these, in its words |
| AnthropicStream.LatestStart | internal/runtime/providers/anthropic/anthropic.go:196-200 | the position of a start of this block |
| AnthropicStream.NoLaterStart | internal/runtime/providers/anthropic/anthropic.go:196-200 | no later position starts the block: it is the latest |
| AnthropicStream.SinceIs | internal/runtime/providers/anthropic/anthropic.go:223-228 | what accumulates is the block's fragments after its latest start, in order |
| AnthropicStream.HistoryReflected | internal/runtime/providers/anthropic/anthropic.go:186-228 | after any interleaving of blocks every accumulator holds exactly its latest start and the fragments since; without a start it can yield nothing |
| AnthropicStream.CallAtStop | internal/runtime/providers/anthropic/anthropic.go:237-253 | a stop yields a call exactly if the block's latest start is a tool use, with that start's name and the arguments its fragments since spell |
| AnthropicStream.OnlyStopsCall | internal/runtime/providers/anthropic/anthropic.go:185-283 | nothing but a stop yields a call |
| AnthropicStream.TurnReflected | internal/runtime/providers/anthropic/anthropic.go:255-264 | stop reason and usage are the last that a message_delta carried |
| AnthropicStream.TurnCompleted | internal/runtime/providers/anthropic/anthropic.go:266-280 | the end of the message completes the turn with them: MaxTokens exactly for max_tokens, else Stop |
| AnthropicStream.EndIsTold | internal/runtime/providers/anthropic/anthropic.go:179-285 | an error or a completed turn is yielded exactly if the end of the message, a decoding error or a read error is met |
| AnthropicStream.SilentEnd | internal/runtime/providers/anthropic/anthropic.go:179-285 | a concrete stream that ends without the consumer being told |
| AnthropicStream.RunCore | internal/runtime/providers/anthropic/anthropic.go:282 | pings and unknown events anywhere make no difference |
| AnthropicStream.RunPiece | internal/runtime/providers/anthropic/anthropic.go:186-253 | one fragmented block says what the block says, whatever was accumulated before |
| AnthropicStream.SyncSaysTheSame | internal/runtime/providers/anthropic/anthropic.go:506-517 | streamed blocks say what the one-shot conversion's parts say exactly if every call's fragments spell its input |
| AnthropicStream.TurnAgrees | internal/runtime/providers/anthropic/anthropic.go:174-284 | a fragmented turn rebuilds the one-shot response (normal form of parts, finish reason, usage) exactly if fragments spell inputs |
| AnthropicStream.StreamAgreesWithSync | internal/runtime/providers/anthropic/anthropic.go:174-284 | the same with other events anywhere and anything after the end of the message |
| AnthropicStream.EmptyInputDeparts | internal/runtime/providers/anthropic/anthropic.go:240-241 | a tool call without arguments is streamed with a nil map where the one-shot conversion has an empty one |
| AnthropicStream.Transmission | internal/sse/reader.go:38-85 | messages encoded, printed as an event stream and read decode to the same messages |
| AnthropicStream.EndToEnd | internal/runtime/providers/anthropic/anthropic.go:174-284 | from the bytes on the wire: fragmented, encoded, printed, read and folded, an answer is the one-shot answer exactly if fragments spell inputs |
| OpenAI.UsageExact | internal/runtime/providers/openai/openai.go:262-268 | the usage is reported as counted exactly if its three counts fit 32 bits |
| OpenAI.LoopBody.constructor | internal/runtime/providers/openai/openai.go:183-185 | the loop starts without calls and usage |
| OpenAI.LoopBody.TakeCalls | internal/runtime/providers/openai/openai.go:228-240 | every delta grows the slice to its index, replaces id and name if it has them, appends its arguments |
| OpenAI.LoopBody.BuildParts | internal/runtime/providers/openai/openai.go:251-258 | one function call for each accumulator, in order |
| OpenAI.LoopBody.TakeChoice | internal/runtime/providers/openai/openai.go:212-272 | text first, then calls, then the completing response if there is a finish reason; a refused text ends it |
| OpenAI.LoopBody.Take | internal/runtime/providers/openai/openai.go:187-273 | one event, with the end mark, decoding errors, usage and empty choices |
| OpenAI.GenerateStreaming | internal/runtime/providers/openai/openai.go:176-274 | for every stream and stopping point the consumer receives the cut of the fold's output, and the event reader is stopped at its cut; a refused request gives one error |
| OpenAI.ConvertSyncResponse | internal/runtime/providers/openai/openai.go:500-538 | the first choice's calls by name and spelled arguments, or else its text; its finish MaxTokens exactly for length, Safety exactly for content_filter, else Stop; without choices a bare Stop |
| OpenAI.StreamClosesOnce | internal/runtime/providers/openai/openai.go:187-273 | in every stream nothing follows an error or the response that completes the turn |
| OpenAI.StreamItems | internal/runtime/providers/openai/openai.go:187-273 | everything yielded is a chunk of one part, an error without response, or a completion with a finish reason |
| OpenAI.EndReported | internal/runtime/providers/openai/openai.go:187-272 | of any deliveries, decoded or not: the consumer is told the end exactly if the first thing to end the stream is a read error, an undecodable chunk or a finish reason, and is told just that |
| OpenAIStream.AccumulatedFrom | internal/runtime/providers/openai/openai.go:229-240 | there are as many calls as the highest index demands, and each is made from its own deltas: last non-empty id and name, all arguments |
| OpenAIStream.InterleavingIrrelevant | internal/runtime/providers/openai/openai.go:229-240 | deltas that agree index by index accumulate to the same calls however they are interleaved |
| OpenAIStream.RunToFinish | internal/runtime/providers/openai/openai.go:187-272 | a stream says the text up to the finishing chunk, then the completion; nothing later counts |
| OpenAIStream.TurnCompleted | internal/runtime/providers/openai/openai.go:242-272 | the stream ends with the finish reason of the finishing chunk, MaxTokens exactly for length, Safety exactly for content_filter, else Stop, and the last usage up to it |
| OpenAIStream.ChunkingIrrelevant | internal/runtime/providers/openai/openai.go:187-260 | streams whose deltas up to the finish agree index by index complete with the same calls, however grouped into chunks |
| OpenAIStream.FinalCalls | internal/runtime/providers/openai/openai.go:250-260 | one call for each index up to the highest, with its last non-empty name and the arguments its fragments spell |
| OpenAIStream.EndIsTold | internal/runtime/providers/openai/openai.go:187-274 | an error or a completed turn is yielded exactly if the first thing to end the stream is not the end mark |
| OpenAIStream.SilentEnd | internal/runtime/providers/openai/openai.go:193-195 | a concrete stream that ends without the consumer being told |
| OpenAIStream.UsageReported | internal/runtime/providers/openai/openai.go:203-206 | a usage sent once is reported exactly if it comes no later than the finishing chunk, and otherwise none is |
| OpenAIStream.LateUsageLost | internal/runtime/providers/openai/openai.go:203-206 | a concrete stream, with the usage in a chunk of its own after the finish, whose usage is lost |
| OpenAIStream.SameCalls | internal/runtime/providers/openai/openai.go:250-260 | fragmented calls complete as the one-shot conversion's calls |
| OpenAIStream.StreamAgreesWithSync | internal/runtime/providers/openai/openai.go:187-272 | a fragmented choice completes with the one-shot calls and finish reason and the last usage so far, and rebuilds the one-shot response exactly if it lacks calls or text and that usage is the response's |
| OpenAIStream.BothSaid | internal/runtime/providers/openai/openai.go:511-521 | with a text beside calls only the stream hands over the text, so the two differ |
| OpenAIStream.TextBesideCallsDeparts | internal/runtime/providers/openai/openai.go:511-521 | a concrete stream of one chunk, with a text and a call, that differs so |
| OpenAIStream.Transmission | internal/sse/reader.go:38-85 | chunks encoded, printed as an event stream and read decode to the same chunks |
| OpenAIStream.EndToEnd | internal/runtime/providers/openai/openai.go:183-273 | the agreement of stream and one-shot response, from the bytes on the wire |
| Limiter.CapacityFor | internal/ratelimit/limiter.go:20-37 | exactly a positive limit is kept, any other becomes ten |
| Limiter.Limiter.constructor | internal/ratelimit/limiter.go:34-42 | all slots free, all counters zero |
| Limiter.Limiter.Acquire | internal/ratelimit/limiter.go:46-56 | a slot and two counters, or one counter and an error; nothing else changes |
| Limiter.Limiter.Release | internal/ratelimit/limiter.go:59-62 | the slot is given back and one request fewer is active; nothing else changes |
| LimiterSteps.InvKept | internal/ratelimit/limiter.go:46-62 | every atomic step of every goroutine keeps: slots, active, total and dropped count exactly the requests at the matching points |
| LimiterSteps.Safety | internal/ratelimit/limiter.go:46-62 | in every reachable interleaving 0 <= active <= slots <= capacity, and no more than active requests are inside the guarded call |
| LimiterSteps.ReleaseNeverBlocks | internal/ratelimit/limiter.go:59-62 | no request past the select ever waits for the channel |
| LimiterSteps.Progress | internal/ratelimit/limiter.go:46-62 | while a request is unfinished some request can step, without any cancellation |
| LimiterSteps.RunsAreBounded | internal/ratelimit/limiter.go:46-62 | a run takes at most five steps for each request, besides making it |
| LimiterSteps.Quiescence | internal/ratelimit/limiter.go:46-62 | a run that can go no further has finished all requests: nothing active, all slots free, total plus dropped is the number of calls of Acquire |
| LimiterSteps.Undisturbed | internal/ratelimit/limiter.go:46-62 | without interference the steps add up to the sequential Acquire and Release |
| Middleware.LogOf | internal/runtime/middleware/middleware.go:55-70 | the logger's variables after any items: their number, the last response, the errors |
| Middleware.LogPasses | internal/runtime/middleware/middleware.go:59-74 | the logger's loop, as a fold, hands on every element |
| Middleware.PassPasses | internal/runtime/middleware/middleware.go:135-139 | the limiter's loop, as a fold, hands on every element |
| Middleware.Logged | internal/runtime/middleware/middleware.go:37-108 | the consumer receives the cut of the inner stream; one error line for each error handed on; exactly if neither stopped nor failed a summary with the number of items, the usage of the last response and the names of its calls in order |
| Middleware.RateLimited | internal/runtime/middleware/middleware.go:127-141 | the cut of the inner stream if a slot was acquired, else exactly one error that says so; on every exit the slot is back |
| Stack.DecoratorsTransparent | internal/runtime/models.go:174-177 | through both decorators the consumer has the cut of the provider's own output |
| Stack.ReaderStopped | internal/runtime/providers/anthropic/anthropic.go:179-284 | a provider that stops the event reader early yields what it would have yielded anyway |
| Stack.OutputClosesOnce | internal/runtime/providers/openai/openai.go:187-273 | for either provider nothing follows an error or a completed turn |
| Stack.Open | internal/sse/reader.go:38-85 | the reader, consumed by a provider's loop body, gives it the cut it would have asked for |
| Stack.Generate | internal/runtime/providers/anthropic/anthropic.go:94-99 | either provider's stream, cut for the consumer |
| Stack.Serve | internal/runtime/models.go:174-177 | one request through reader, provider, logger and limiter: the consumer receives the cut of everything, nothing after an error, a completed turn or its refusal, and all counters but one are back |
| Stack.Feed | internal/runtime/middleware/middleware.go:59-74 | one delivery: every item is noted and handed on before the next, until the consumer refuses or the turn ends |
| Stack.Interleaved | internal/runtime/providers/anthropic/anthropic.go:179-284 | the loops interleaved as they run: the same cut, and no line read that was not asked for |
| Stack.ServeInterleaved | internal/runtime/middleware/middleware.go:127-141 | with the slot taken before anything is read and held until the last loop has returned, the consumer receives what Serve delivers |
| Stack.AnthropicAnswer | internal/runtime/models.go:174-177 | through the whole stack an Anthropic answer is the one-shot answer exactly if fragments spell inputs |
| Stack.OpenAIAnswer | internal/runtime/models.go:174-177 | through the whole stack an OpenAI answer has the one-shot calls and finish, and is the one-shot answer unless it has text and calls or its usage comes late |
| HttpClient.Defaulted | internal/httpclient/client.go:66-83 | exactly a positive number of retries and a non-zero timeout and size are kept; all zero becomes 120 s, 10 MiB and 3; negative retries become none |
| HttpClient.DefaultedTwice | internal/httpclient/client.go:74-78 | defaulting twice is defaulting once exactly if retries were not disabled; if they were, they are on again |
| HttpClient.Client.constructor | internal/httpclient/client.go:95-104 | a client holds defaulted options |
| HttpClient.Network.RoundTrip | internal/httpclient/client.go:155 | an attempt sends the body as it stands and uses it up |
| HttpClient.Client.Do | internal/httpclient/client.go:108-178 | a response returned is that of the last attempt and has none of the five statuses, every attempt before it met a network error or one of them; outcome, attempts, bodies sent and responses closed are those the world explains |
| HttpClient.Client.Try | internal/httpclient/client.go:124-177 | the same for the loop; it is never left with a response in hand |
| HttpClient.Client.Prepare | internal/httpclient/client.go:128-153 | a retry goes ahead exactly if the wait is not cancelled and the body can be had again, and then the body is the replayed one |
| HttpClient.Client.Settle | internal/httpclient/client.go:155-171 | a transient outcome becomes the last error and its response is closed; any other is returned open |
| HttpClient.Client.ReadBody | internal/httpclient/client.go:182-192 | the whole body or an error, never a part of it; except that the largest limit reads nothing |
| HttpClient.TransientIs | internal/httpclient/client.go:40-46 | an attempt is tried again after a network error and after 429, 500, 502, 503 and 504, and after nothing else |
| HttpClient.ErrorIs | internal/httpclient/client.go:156-171 | the last error is the network's message, or the status and the first 1024 characters of the body |
| HttpClient.OutcomeMeans | internal/httpclient/client.go:127-177 | which attempts were made, how they ended, and why there were no more, in terms of statuses, cancellations and body resets |
| HttpClient.OutcomeUnique | internal/httpclient/client.go:127-177 | the world explains one outcome and one number of attempts |
| HttpClient.FirstNonTransient | internal/httpclient/client.go:127-177 | undisturbed, the first response with any other status is returned, or the last error after all attempts |
| HttpClient.ClosedAre | internal/httpclient/client.go:167-171 | the responses closed are exactly those with one of the five statuses |
| HttpClient.OnlyReturnedStaysOpen | internal/httpclient/client.go:162-171 | every response obtained is closed exactly once, except the one returned |
| HttpClient.SameBody | internal/httpclient/client.go:146-152 | all attempts send the same body exactly if the replayed body is the request's own or there was no retry |
| Backoff.SafeAttempts | internal/httpclient/client.go:222 | the delay fits a 64-bit duration before it is capped exactly for attempts 1 to 35 |
| Backoff.NominalDelays | internal/httpclient/client.go:34-36 | the nominal delays are 0.5, 1, 2, 4, 8 and 16 seconds, then 30 |
| Backoff.WithinQuarter | internal/httpclient/client.go:221-229 | the wait lies in [3d/4, 5d/4) of the nominal delay d and reaches both ends, and the random draw's argument is positive |
| Backoff.NominalStep | internal/httpclient/client.go:222-225 | the closed form of the nominal total grows by the nominal delay of each retry |
| Backoff.TotalWithinQuarter | internal/httpclient/client.go:127-143 | the total wait over n retries lies in [3S/4, 5S/4) of the nominal total S |
| Runtime.FirstUnready | internal/runtime/runtime.go:75-100 | all skills before it are ready, and it is not |
| Runtime.AllToolsets | internal/runtime/runtime.go:87 | with all skills ready there is one toolset for each, in order |
| Runtime.Runtime.constructor | internal/runtime/runtime.go:50-59 | a new runtime has no agent, no skills and nothing to close |
| Models.NewModelRegistry | internal/runtime/models.go:91-111 | there is no registry exactly if a default entry cannot be created; otherwise it holds the models created and a warning names each entry skipped |
| Models.DefaultIsNamed | internal/runtime/models.go:113-120 | the registry's default is the model of the brain's last default entry, or an error if there is none |
| Runtime.Runtime.Close | internal/runtime/runtime.go:199-206 | afterwards every closer ever obtained has been run once, in order, however often Close was called |
| Runtime.Runtime.ConnectSkill | internal/runtime/runtime.go:78-98 | a skill's toolset and closer are recorded even if its preload fails; a failed connection or preload closes everything, a missing variable nothing |
| Runtime.Runtime.ConnectSkills | internal/runtime/runtime.go:75-100 | the error is that of the first skill that is not ready, and the resources are those of the skills tried |
| Runtime.Runtime.Init | internal/runtime/runtime.go:63-131 | ends with the first failure in order; no closer is lost; an agent exists exactly on success, with the Agentfile's name, description and prompt, the model its brain names, and the toolsets of all skills in order |
| Runtime.Runtime.Reload | internal/runtime/runtime.go:160-195 | success installs the new Agentfile and an agent with its name, description and prompt, the old toolsets and the default model of the registry Init built; failure changes neither |
| Runtime.InitAlone | internal/runtime/runtime.go:78-80 | a failed Init has run every closer it obtained exactly if the first failure is not a missing variable or nothing had been obtained; else it has run none |
| Runtime.EnvFailureLeaves | internal/runtime/runtime.go:78-80 | a concrete configuration in which a closer has been obtained, not run, and left to the caller |
| Runtime.Serve | cmd/crated/main.go:187-196 | under the deferred Close, whatever Init, reloads and other closes do, each closer obtained has run exactly once; the agent is that of the Agentfile last loaded, and has the model this one names exactly if the first one names the same |
| Runtime.ReloadKeepsModel | internal/runtime/runtime.go:154-180 | a concrete reload that names another model: it succeeds and the agent keeps the first one |
| RuntimeSteps.Safety | internal/runtime/runtime.go:185-206 | in every interleaving: closers run once and in order, a Close that has returned means all have run, only the lock's holder can find agent and Agentfile apart, and there is one holder |
| RuntimeSteps.Progress | internal/runtime/runtime.go:185-206 | while a call is unfinished some call can go on |
| RuntimeSteps.Quiescence | internal/runtime/runtime.go:185-206 | a run that can go no further and had a Close has run every closer; the lock is free and the agent current |
| RuntimeSteps.RunsAreBounded | internal/runtime/runtime.go:185-206 | a run takes at most five steps for each call besides making it, and one for each closer |
| RuntimeSteps.CloseAlone | internal/runtime/runtime.go:199-206 | without interference the steps of a first Close run every closer in order, those of a later one nothing |
| RuntimeSteps.ReloadAlone | internal/runtime/runtime.go:160-195 | without interference the steps of a Reload install agent and Agentfile, or neither |
| AnthropicHistory.ImagesOf | internal/runtime/providers/anthropic/anthropic.go:427-457 | each part becomes the block of the first of its fields that is set, or none |
| AnthropicHistory.ImageIs | internal/runtime/providers/anthropic/anthropic.go:430-455 | what each kind of part becomes: a text, a tool use with id, name and arguments, a result under its id or else its name, or nothing |
| AnthropicHistory.ConvertContents | internal/runtime/providers/anthropic/anthropic.go:418-470 | the loop computes the fold over the contents |
| AnthropicHistory.ContentKept | internal/runtime/providers/anthropic/anthropic.go:418-470 | the blocks of all messages are, in order, the images of all recognised parts of contents that are not system contents |
| AnthropicHistory.NoEmptyMessage | internal/runtime/providers/anthropic/anthropic.go:459 | no message is empty |
| AnthropicHistory.RolesFit | internal/runtime/providers/anthropic/anthropic.go:459-467 | every message holds the blocks of one spoken content, as a user's if it starts with a tool result and under the content's role otherwise |
| AnthropicHistory.ResultFindsCall | internal/runtime/providers/anthropic/anthropic.go:436-455 | a result refers to the id of its call's tool use exactly if the call has an id, or no name either |
| AnthropicHistory.ResultWithoutId | internal/runtime/providers/anthropic/anthropic.go:436-455 | a concrete call without id whose result refers to no tool use |
| History.MapRole | internal/runtime/providers/anthropic/anthropic.go:472-481 | the model becomes the assistant, every other role stays |
| History.IdOr | internal/runtime/providers/openai/openai.go:423-426 | an id stays, unless it is empty: then it is the name |
| AnthropicHistory.LastSystemWins | internal/runtime/providers/anthropic/anthropic.go:422-425 | the system text is the first text of the last system content |
| AnthropicHistory.SystemKept | internal/runtime/providers/anthropic/anthropic.go:422-425 | the system text is all the text of all system contents exactly if only the last of them has any, in one part |
| AnthropicHistory.FirstSystemLost | internal/runtime/providers/anthropic/anthropic.go:422-425 | two concrete system contents of which the first is lost |
| OpenAIHistory.TextOf | internal/runtime/providers/openai/openai.go:473-481 | all texts of a content, concatenated |
| OpenAIHistory.ConvertContent | internal/runtime/providers/openai/openai.go:415-455 | the message of one content: result, calls or text |
| OpenAIHistory.ConvertContents | internal/runtime/providers/openai/openai.go:412-460 | one message for each content, in order |
| OpenAIHistory.RoleKept | internal/runtime/providers/openai/openai.go:462-471 | a message has its content's role, with the model as assistant |
| OpenAIHistory.CallsKept | internal/runtime/providers/openai/openai.go:432-451 | every call of a model content is sent, once and in order, with its id or else its name, its name and its arguments |
| OpenAIHistory.ResultsFindTheirCalls | internal/runtime/providers/openai/openai.go:420-451 | a tool content whose first part answers an earlier call, by id and name, refers to the id of a call in an earlier message |
| OpenAIHistory.OtherResponsesDropped | internal/runtime/providers/openai/openai.go:420-430 | a response that is not the first part of a tool content makes no difference to the message |
| OpenAIHistory.ResponsesKept | internal/runtime/providers/openai/openai.go:420-430 | all responses of a content are sent exactly if each is the first part of a tool content |
| OpenAIHistory.SecondResponseLost | internal/runtime/providers/openai/openai.go:420-430 | two responses in a tool content: the second is lost |
| OpenAIHistory.UserResponseLost | internal/runtime/providers/openai/openai.go:415-430 | a response in a user content: it is lost |
| OpenAIHistory.ModelTextKept | internal/runtime/providers/openai/openai.go:432-455 | a model content's text is sent exactly if there is none or it comes without calls |
| OpenAIHistory.TextBesideCallLost | internal/runtime/providers/openai/openai.go:452-454 | a text beside a call: it is lost |
| Origins.SplitComma | internal/frontend/playground/playground.go:179-190 | the loop computes the split on commas |
| Origins.TrimSpace | internal/frontend/playground/playground.go:168-176 | the loops remove all surrounding spaces and tabs |
| Origins.SplitOrigins | internal/frontend/playground/playground.go:156-165 | the trimmed entries that are not blank |
| Origins.SplitExact | internal/frontend/playground/playground.go:179-190 | the parts are comma-free, one more than the commas, and join to the input |
| Origins.OriginsRoundTrip | internal/frontend/playground/playground.go:156-176 | trimmed, comma-free origins printed with any padding and any blank entries are read back exactly |

## Left out

- Sse.Read: works on characters; bytes that are not valid UTF-8 and the Unicode details of trimming beyond the White_Space property are not modelled. A final unterminated line of exactly the buffer's size may be accepted or refused depending on how the body reports its end; the model refuses it.
- Stack.Serve: runs the four nested loops one after the other, innermost first, with each producer stopped where its own loop body stops it; Stack.ServeInterleaved runs them interleaved. Panics inside a consumer are not modelled.
- Middleware.Logged: log lines carry counts, usage and call names; durations, levels and the debug line before the request are left out.
- LimiterSteps.Safety: the two loads of one `Stats` snapshot are not atomic in the code and a snapshot taken between steps is not modelled; counters are unbounded.
- LimiterSteps.Progress: which waiting request gets a free slot is not determined; the code promises no fairness.
- HttpClient.Client.Do: the transport, headers, timeouts, redirects and logging are left out; `GetBody` yields the same body every time or fails, and error excerpts are cut by characters where the code cuts by bytes.
- HttpClient.Client.ReadBody: which of its two errors is reported when a body both fails and is too long is not stated.
- Backoff.WithinQuarter: attempts beyond 35 are excluded; the conversion of such a delay to int64 depends on the platform.
- Runtime.Runtime.Init: what makes a skill connect or a model be created is an input, the same whenever it is asked for, and a model is known by its description, not as an instance; `Init` is called once, as main does. Toolsets are left as they are when `Init` fails.
- RuntimeSteps.Safety: the locked getters, which only read, and reads of the old Agentfile for logging are left out.
- Anthropic.GenerateStreaming: building and sending the request is one input, refused or opened; error texts keep only their prefixes. Negative indexes, on which the code panics, are excluded by the type.
- OpenAI.GenerateStreaming: the same, and the warning logged for malformed arguments.
- AnthropicStream.EndToEnd: blocks are sent one after the other and the turn has one `message_delta`; the usage in `message_start` is ignored by the code, so the one-shot response compared with has the usage of the `message_delta`. Interleaved blocks are the subject of HistoryReflected and CallAtStop.
- One-shot requests (`generateSync`), `DoStream`, tool declarations and request parameters are not modelled.
- The Gemini provider, provider and frontend registries of their kinds, configuration loading, profiles and health endpoints are simple look-ups and are not modelled.
- The forced exit on a second signal, the REPL, the WebSocket handling and the browser pages are user interface and are not modelled.
