# Verified model of the LLM gateway

The gateway accepts requests in one of three protocols (OpenAI Chat Completions, OpenAI Responses,
Anthropic Messages), routes them to a provider that may speak another one, translates through a
shared intermediate representation (IR), and reports token usage to a control plane. This project
models its four hardest parts in Dafny and proves what they keep over every input and every run:

- **Streaming translators.** Three decoders (upstream events to IR events), three encoders (IR events
  to client frames) and the `Stream` façade. Each is a class whose methods are proved against a
  small state machine over values; the theorems are about that state machine. A second set of
  state machines, defined on the frames or on the upstream chunks alone, plays the client: it checks
  the block grammar, replays frames by index, and reassembles the message it heard.
- **Request codecs and usage arithmetic.** Three printer/parser pairs with their loops, the
  normalisation `ToIR ∘ FromIR`, what each direction keeps of what is said, of the settings and of
  the tool calls, which requests are refused, and the arithmetic of normalising and rendering usage.
- **Relay, failover and billing.** The attempt loop, the SSE line parser, the relay loop with its
  truncation classification, the metering queue as an interleaving step system, and retry
  against a control plane that deduplicates.
- **Router and poller.** Weighted order without replacement over immutable snapshots, and the ETag
  cache against any history of its server.

`dafny verify dfyconfig.toml` checks the whole project.

## How to read it

| files | what they hold |
|---|---|
| `Folds`, `Ir`, `RequestIr`, `TokenUsage` | shared vocabulary: runs as folds, IR events, IR requests, usage |
| `ChatDecoder`, `AnthropicDecoder`, `ResponsesDecoder` | upstream payload to IR events |
| `AnthropicEncoder`, `ResponsesEncoder`, `ChatEncoder` | IR event to client frames |
| `AnthropicGrammar`, `ResponsesReplay` | strict clients that read the frames |
| `StreamContract`, `ChatContract` | the contract decoders owe encoders, and the Chat decoder keeping it |
| `StreamMeaning`, `AnthropicMeaning`, `ResponsesMeaning`, `ChatMeaning`, `EndToEnd` | text and tool calls from upstream chunks to all three clients |
| `AnthropicUpstream`, `ResponsesUpstream` | what those upstreams say, and when their decoders keep the contract |
| `UpstreamEnds`, `ClosingFrames` | stop reasons, names, ids, signatures and usage at both ends, in literal wire terms |
| `Facade`, `FacadeMeaning`, `FacadeThinking`, `FacadeUsage`, `UsageAgreement` | `Stream.Feed`/`Fail`; what its client reads, hears, is shown and is told of every provider; client-visible against billed usage |
| `AnthropicRequest`, `ChatRequest`, `ResponsesRequest`, `RequestTranslation` | the request codecs and `Translator.Request` |
| `RequestGist`, `AnthropicGist`, `ChatGist`, `ResponsesGist` | what a request says, apart from how a protocol writes it, and its being kept |
| `RequestSettings`, `RequestRefusals` | the settings of a request, and which requests are refused |
| `Sse`, `Relay`, `Failover` | SSE lines, one relayed response, the attempt loop |
| `MeteringQueue`, `Delivery` | the queue under every interleaving; delivery with retries |
| `Routing`, `RoutePoller` | snapshots and weighted order; the route cache |

Wire JSON enters as datatypes at the decoding boundary. Generated ids are parameters (`Input` pairs
an event with arbitrary tokens). Random draws, lost messages, write failures and deadlines are
parameters too, so every theorem quantifies over them. Some properties one might expect are false of
the code; each comes with a concrete counterexample and the exact condition:

- The Anthropic frame grammar can break on a negative tool index (the `-1` sentinel of the open
  block's bookkeeping): `AnthropicGrammar.NegativeIndexClosesTwice`, exactly when a lost index is
  addressed again: `AnthropicGrammar.GrammarExact`.
- The Chat decoder can break the stream contract on a negative tool index:
  `ChatContract.NegativeIndexStaysOpen`, exactly then: `ChatContract.ContractExact`.
- A tool call whose arguments are interrupted by text or reasoning is heard as several calls by
  Anthropic and Responses clients: `EndToEnd.InterruptedCallIsSplit`, exactly when arguments arrive
  after an interruption: `EndToEnd.MeaningPreserved`.
- Client-visible and billed usage can differ: `UsageAgreement.UnreadableUsageDisagrees` and
  `UsageAgreement.ZeroCountersDisagree`, exactly when: `UsageAgreement.ChatUsageAgrees` and, by the
  counters that the events last tell and last bill, `UsageAgreement.AnthropicStopExact`.
- The Anthropic and Responses decoders can break the contract, or keep it and split a call:
  `AnthropicUpstream.OverlappingCallsAreUnfit`, `AnthropicUpstream.InterleavedTextSplits` and their
  namesakes in `ResponsesUpstream`, exactly when: `AnthropicUpstream.UpstreamExact` and
  `ResponsesUpstream.UpstreamExact`.
- An accepted report can stay in the queue for good: `MeteringQueue.LateSendIsStranded`, exactly the
  reports sent after the last worker left: `MeteringQueue.StrandedExactly`.
- ETag headers that identify tables do not keep the route cache coherent:
  `RoutePoller.HeaderTagsAreNotEnough`, exactly when: `RoutePoller.StaleExactly`.
- One normalisation pass is not enough for Chat and Responses requests: `ChatRequest.OnePassIsNotEnough`
  and `ResponsesRequest.OnePassIsNotEnough`; when it is, by a condition on the request, and that two
  always are: `ChatRequest.TwoPassesAreEnough` and `ResponsesRequest.TwoPassesAreEnough`.
- Translating a request can lose a tool call or its arguments without an error:
  `RequestTranslation.MisplacedCallIsLost` and `RequestTranslation.TruncatedArgumentsAreLost`, exactly
  when: `RequestTranslation.EveryDirectionKeepsTools`.

Where code and documentation disagree the model follows the code: the retry backoff reaches
6.4 s although the cap reads 5 s; `Load` does not sort tiers by weight although the snapshot's
comment says so; a translated upstream `error` event counts as a terminal event and is billed as a
completed stream; and a sender that passed `Enqueue`'s fast path may still send after the workers
have drained.

## Model

| member | source | states |
|---|---|---|
| `AnthropicEncoder.AnthropicStreamOut.CloseOpen` | internal/protocol/translate/stream_anthropic.go:354-368 | closing emits one stop for the open block and drops a non-negative source index from the map; the fields refine `Close` |
| `AnthropicEncoder.AnthropicStreamOut.EnsureOpen` | internal/protocol/translate/stream_anthropic.go:335-352 | a text or thinking block is open afterwards, whatever was open before being stopped first |
| `AnthropicEncoder.AnthropicStreamOut.OpenTool` | internal/protocol/translate/stream_anthropic.go:277-290 | a tool block gets the next dense index and a non-empty id; the fields refine `StartTool` |
| `AnthropicEncoder.AnthropicStreamOut.OnThinkingDone` | internal/protocol/translate/stream_anthropic.go:246-275 | redacted payloads become a block of their own, a signature goes to the open thinking block, foreign payloads emit nothing |
| `AnthropicEncoder.AnthropicStreamOut.OnToolInput` | internal/protocol/translate/stream_anthropic.go:292-303 | arguments address the block of their source index, reopening one if it is gone |
| `AnthropicEncoder.AnthropicStreamOut.OnToolStop` | internal/protocol/translate/stream_anthropic.go:305-313 | a stop closes exactly the block of its source index, or nothing |
| `AnthropicEncoder.AnthropicStreamOut.FromIR` | internal/protocol/translate/stream_anthropic.go:216-333 | one event turns the abstract state and emits the frames of `Step`; every theorem about runs is about `Step` |
| `AnthropicEncoder.EncodeAll` | internal/protocol/translate/stream_anthropic.go:212-333 | over a whole stream a fresh encoder emits exactly the frames of `Run` |
| `AnthropicGrammar.GrammarExact` | internal/protocol/translate/stream_anthropic.go:216-368 | for every event sequence: blocks are numbered 0,1,2,…, started once, stopped once before the next start, deltas fit the open block and nothing is open at the closing frames, if and only if no negative index that lost its block is addressed again |
| `AnthropicGrammar.StreamOut` | internal/protocol/translate/stream_anthropic.go:212-368 | what a fresh encoder emits for a whole stream is grammatical if and only if no lost negative index is addressed |
| `AnthropicGrammar.GrammarForNonNegativeTools` | internal/protocol/translate/stream_anthropic.go:216-368 | every event sequence with non-negative tool indices is rendered grammatically |
| `AnthropicGrammar.NegativeIndexClosesTwice` | internal/protocol/translate/stream_anthropic.go:354-368 | a three-event stream with index -1 whose tool block is stopped twice |
| `AnthropicMeaning.AnthropicHears` | internal/protocol/translate/stream_anthropic.go:216-368 | over every contract-respecting stream the client reassembles the same text, one extra call per interrupted argument, and the same ordered calls if and only if there is none |
| `ResponsesEncoder.ResponsesStreamOut.CloseOpen` | internal/protocol/translate/stream_openai_responses.go:368-395 | closing appends the finished item to `output` and emits its done frames at its output index; refines `Close` |
| `ResponsesEncoder.ResponsesStreamOut.CloseTool` | internal/protocol/translate/stream_openai_responses.go:397-407 | a function call is finished with its arguments, or `{}` when there were none |
| `ResponsesEncoder.ResponsesStreamOut.OnText` | internal/protocol/translate/stream_openai_responses.go:264-276 | text goes to the open message, opening one first if needed; refines `Step` |
| `ResponsesEncoder.ResponsesStreamOut.OnThinkingDone` | internal/protocol/translate/stream_openai_responses.go:290-311 | an opaque reasoning item is replayed verbatim as an item of its own, otherwise open reasoning is closed |
| `ResponsesEncoder.ResponsesStreamOut.OnToolInput` | internal/protocol/translate/stream_openai_responses.go:326-337 | arguments go to the open call of their source index, or to a new one |
| `ResponsesEncoder.ResponsesStreamOut.FromIR` | internal/protocol/translate/stream_openai_responses.go:252-366 | one event turns the abstract state, emits the bodies of `Step` and numbers the frames consecutively |
| `ResponsesEncoder.EncodeAll` | internal/protocol/translate/stream_openai_responses.go:230-366 | over a whole stream a fresh encoder emits exactly the bodies of `Run`, its sequence numbers counting 0,1,2,… |
| `ResponsesReplay.StreamAgreesWithSummary` | internal/protocol/translate/stream_openai_responses.go:234-407 | for every event sequence: a strict client that checks added/done pairing, indices, repeated contents and non-overlap is satisfied; each terminal frame lists exactly the items rebuilt from the deltas streamed before it |
| `ResponsesReplay.StreamOut` | internal/protocol/translate/stream_openai_responses.go:230-407 | a fresh encoder fed a whole stream emits frames numbered 0,1,2,… from first to last that satisfy the strict client and sum themselves up |
| `ResponsesReplay.TerminalFrameIsLast` | internal/protocol/translate/stream_openai_responses.go:350-363 | a stop or error ends in the terminal frame, with nothing open and the whole output listed |
| `ResponsesMeaning.HeardIsSummary` | internal/protocol/translate/stream_openai_responses.go:241-250 | what a client reassembles from the deltas is what the summary would say at any point |
| `ResponsesMeaning.ResponsesHears` | internal/protocol/translate/stream_openai_responses.go:252-407 | as `AnthropicHears`, for tool indices of any sign |
| `ChatEncoder.ChatStreamOut.FromIR` | internal/protocol/translate/stream_openai_chat.go:242-303 | one event turns the abstract state and emits the chunks of `Step` |
| `ChatEncoder.EncodeAll` | internal/protocol/translate/stream_openai_chat.go:217-303 | over a whole stream a fresh encoder emits exactly the chunks of `Run` |
| `ChatMeaning.ChatHears` | internal/protocol/translate/stream_openai_chat.go:208-303 | the Chat encoder never splits a call: over every contract-respecting stream its client hears the whole meaning |
| `ClosingFrames.AnthropicCloses` | internal/protocol/translate/stream_anthropic.go:315-328 | for every stream and every MessageStop: the last frames are message_delta and message_stop; the stop reason has its literal wire name; the four counters are those of the event, or, when it has no usage, of the last MessageStart |
| `ClosingFrames.ChatCloses` | internal/protocol/translate/stream_openai_chat.go:279-296 | the finish reason in literal wire names (a stop after calls is `tool_calls`), then the usage of the event when it has one, then the marker |
| `ClosingFrames.ResponsesCloses` | internal/protocol/translate/stream_openai_responses.go:339-366 | the terminal frame with the literal status for each stop reason, and the usage of the event when it has one |
| `ClosingFrames.ErrorsClose` | internal/protocol/translate/stream_openai_responses.go:358-363 | an error ends every client's message with its own text |
| `ClosingFrames.FirstFrames` | internal/protocol/translate/stream_anthropic.go:218-236 | the first frames name the model and the message, with a generated id only when it has none |
| `ClosingFrames.ThinkingIsReplayable` | internal/protocol/translate/stream_anthropic.go:246-275 | a signature closes the thinking block it belongs to; redacted data and reasoning items are passed on whole |
| `ClosingFrames.CallsAreResumed` | internal/protocol/translate/stream_anthropic.go:292-303 | arguments for a call that is no longer open start it again under its own name and id |
| `ChatDecoder.ChatStreamIn.CloseCurrentTool` | internal/protocol/translate/stream_openai_chat.go:182-190 | the open tool block, if any, gets its stop and its index counts as closed |
| `ChatDecoder.ChatStreamIn.FinishIfNeeded` | internal/protocol/translate/stream_openai_chat.go:192-203 | one MessageStop at most, after everything open was closed; refines `Terminate` |
| `ChatDecoder.ChatStreamIn.OnFragment` | internal/protocol/translate/stream_openai_chat.go:129-164 | a tool fragment opens, continues or is refused by the phase of its index; refines `OnCall` |
| `ChatDecoder.ChatStreamIn.OnChoices` | internal/protocol/translate/stream_openai_chat.go:112-171 | the loop over choices performs the operations of all choice-0 entries in order, stopping at the first refusal |
| `ChatDecoder.ChatStreamIn.ToIR` | internal/protocol/translate/stream_openai_chat.go:89-178 | one payload performs `Ops`, and a refusal drops the events of that payload |
| `StreamContract.PrefixRespects` | internal/protocol/translate/ir.go:158-168 | the contract (one start first, tool blocks never overlap, inputs between their own start and stop, one stop with everything closed) holds at every point of a stream that keeps it |
| `ChatContract.DecoderKeepsContract` | internal/protocol/translate/stream_openai_chat.go:89-203 | every chunk sequence decoded without error yields a contract-respecting stream, given non-negative tool indices |
| `ChatContract.ContractExact` | internal/protocol/translate/stream_openai_chat.go:182-203 | on streams that end in their MessageStop, the contract holds if and only if no tool index is negative |
| `ChatContract.NegativeIndexStaysOpen` | internal/protocol/translate/stream_openai_chat.go:182-203 | a call with index -1 is decoded without error and never closed, so that the stream stops with its block open |
| `ChatContract.ClosedIndexRejected` | internal/protocol/translate/stream_openai_chat.go:133-139 | once a tool block's stop was emitted, any later fragment for its index, wherever in the next payload, is a decode error |
| `EndToEnd.MeaningPreserved` | internal/protocol/translate/stream_openai_chat.go:89-303 | for every Chat chunk sequence decoded without error: all three clients hear the concatenated content; the Chat client hears the upstream calls; the Anthropic and the Responses client hear them if and only if no arguments follow an interruption |
| `EndToEnd.UninterruptedIsPreserved` | internal/protocol/translate/stream_openai_chat.go:117-128 | in particular when nothing arrives while a call is open |
| `EndToEnd.EncodersAgree` | internal/protocol/translate/stream_openai_chat.go:208-303 | over every contract-respecting event stream all three encoders convey the same text; the block-structured ones show one extra call per input to an interrupted tool, and the Chat encoder's calls if and only if there is none |
| `EndToEnd.InterruptedCallIsSplit` | internal/protocol/translate/stream_openai_chat.go:117-128 | a concrete chunk, decoded without error, whose one call two of the three clients hear as two |
| `AnthropicDecoder.AnthropicStreamIn.ToIR` | internal/protocol/translate/stream_anthropic.go:65-190 | one upstream event turns the block table and the usage as `Step` does and emits its IR events |
| `AnthropicDecoder.AnthropicStreamIn.StartBlock` | internal/protocol/translate/stream_anthropic.go:85-110 | a block start is filed under its index; a tool start is announced with id and name |
| `ResponsesDecoder.ResponsesStreamIn.ToIR` | internal/protocol/translate/stream_openai_responses.go:70-176 | one upstream event turns the item tables as `Step` does and emits its IR events |
| `UpstreamEnds.AnthropicStops` | internal/protocol/translate/response.go:61-80 | message_stop gives the reason of the last message_delta, by the literal names of the wire |
| `UpstreamEnds.AnthropicNames` | internal/protocol/translate/stream_anthropic.go:74-84 | message_start names message and model, an error event its cause |
| `UpstreamEnds.ChatStops` | internal/protocol/translate/response.go:195-216 | the stop reason is that of the last finish_reason, where "stop" after any tool call counts as a tool stop |
| `UpstreamEnds.ChatNames` | internal/protocol/translate/stream_openai_chat.go:100-108 | the first chunk names message and model, an error payload its kind and message |
| `UpstreamEnds.ResponsesStops` | internal/protocol/translate/openai_responses.go:507-530 | the first final response ends the stream, with its error or with the stop reason of its status; a completed one with any call is a tool stop |
| `UpstreamEnds.ResponsesNames` | internal/protocol/translate/stream_openai_responses.go:78-90 | response.created names message and model, an error event its cause |
| `UpstreamEnds.ChatCallsAreNamed` | internal/protocol/translate/stream_openai_chat.go:129-164 | arguments are announced with the first id and the first name that any fragment of their call gave |
| `UpstreamEnds.AnthropicCallsAreNamed` | internal/protocol/translate/stream_anthropic.go:112-140 | arguments are announced with the id and name of their block, whatever other blocks did in between |
| `UpstreamEnds.ResponsesCallsAreNamed` | internal/protocol/translate/stream_openai_responses.go:118-126 | arguments find their call by item id before output index, and carry its call id and name |
| `UpstreamEnds.ThinkingIsSealed` | internal/protocol/translate/stream_anthropic.go:112-148 | a stopped thinking block gives all its text and all its signature, whatever other blocks did in between; a redacted one is given when it starts |
| `UpstreamEnds.ReasoningIsPassedOn` | internal/protocol/translate/stream_openai_responses.go:128-148 | a finished reasoning item is found by its id and passed on whole |
| `Facade.Stream.Feed` | internal/protocol/translate/translate.go:234-258 | feeding decodes, renders the batch, latches `ended` on a terminal event, and emits nothing once ended; refines `Act` |
| `Facade.Stream.Fail` | internal/protocol/translate/translate.go:269-279 | failing renders one error event and ends the stream, or does nothing once ended |
| `Facade.TerminalIsLast` | internal/protocol/translate/translate.go:234-258 | each of the three decoders puts MessageStop or Error last in its batch |
| `Facade.ActSafe` | internal/protocol/translate/translate.go:234-279 | one call keeps: at most one closing frame, last, with the encoder's nothing open |
| `Facade.EveryCallSequenceIsSafe` | internal/protocol/translate/translate.go:234-279 | for all nine protocol pairs and every sequence of Feed and Fail: at most one closing frame, no frame after it, nothing open then, and no further call changes anything |
| `FacadeMeaning.SentToClient` | internal/protocol/translate/translate.go:234-279 | for all nine protocol pairs and every sequence of calls, the frames sent are those of one encoder run over the events passed on |
| `FacadeMeaning.EveryCallSequenceReadsWell` | internal/protocol/translate/translate.go:234-279 | for every provider and every sequence of Feed and Fail: a Responses client reads an orderly stream that sums itself up; an Anthropic client reads a grammatical one if and only if no lost negative index was addressed |
| `FacadeMeaning.FedStream` | internal/protocol/translate/translate.go:220-258 | for every provider and client: of the payloads fed, a fresh stream takes all, or those up to the one whose last event ends it, and passes on exactly what they decode to |
| `FacadeMeaning.FedStreamIsHeard` | internal/protocol/translate/translate.go:220-258 | for every sequence of payloads fed to a fresh stream with a Chat provider and each client: the payloads taken are all, or those up to the one that ends in the terminal event; what is sent is grammatical or orderly; it says the text of the payloads taken, and their calls if and only if the client is Chat or no arguments follow an interruption |
| `FacadeMeaning.FedAnthropicIsHeard` | internal/protocol/translate/stream_anthropic.go:65-190 | for every sequence of payloads fed to a stream with an Anthropic provider and each client: the contract is kept if and only if nothing came out of turn, and then the client hears the text, and the calls if and only if it is a Chat client or no input follows an interruption |
| `FacadeMeaning.FedResponsesIsHeard` | internal/protocol/translate/stream_openai_responses.go:70-176 | the same for a Responses provider |
| `FacadeUsage.ClientIsTold` | internal/protocol/translate/translate.go:234-258 | for all nine protocol pairs: when a stream ends in a MessageStop, the client's last frames tell the usage of that event, number by number; an OpenAI client is told nothing when it has none |
| `FacadeUsage.ResponsesProviderTellsBilled` | internal/protocol/translate/stream_openai_responses.go:150-165 | every client of a Responses provider whose stream ends in a MessageStop with usage is told exactly what is billed |
| `FacadeUsage.AnthropicProviderTells` | internal/protocol/translate/stream_anthropic.go:150-176 | every client of an Anthropic provider whose stream ends in a MessageStop with usage is told what the events last told, and that is what is billed whenever each counter has the same value where it is last told and last billed |
| `FacadeUsage.ChatProviderTellsBilled` | internal/protocol/translate/stream_openai_chat.go:107-111 | every client of a Chat provider whose stream ends in a MessageStop is told what is billed, unless an unreadable usage object follows a readable one; an OpenAI client is then told nothing |
| `FacadeThinking.ReasoningIsShown` | internal/protocol/translate/translate.go:220-258 | for all nine protocol pairs: of the payloads a stream takes, the client is shown all reasoning text, in order, and nothing else |
| `FacadeThinking.RunsShow` | internal/protocol/translate/stream_openai_chat.go:242-303 | over event streams of any shape, each encoder shows exactly the reasoning deltas |
| `AnthropicUpstream.UpstreamExact` | internal/protocol/translate/stream_anthropic.go:65-190 | for every decodable stream: the decoder keeps the contract if and only if a reading of the upstream events alone finds nothing out of turn, and then its events carry the text, the calls and the splits of that reading |
| `AnthropicUpstream.GrammaticalIsClean` | internal/protocol/translate/stream_anthropic.go:65-190 | a server that sends one block at a time, with deltas that suit it, is never out of turn and never splits a call |
| `AnthropicUpstream.OverlappingCallsAreUnfit` | internal/protocol/translate/stream_anthropic.go:85-110 | two tool blocks at once are decoded without error and break the contract |
| `AnthropicUpstream.InterleavedTextSplits` | internal/protocol/translate/stream_anthropic.go:112-140 | text between the pieces of a call keeps the contract and splits the call |
| `ResponsesUpstream.UpstreamExact` | internal/protocol/translate/stream_openai_responses.go:70-187 | as for an Anthropic upstream, with items found by id before index |
| `ResponsesUpstream.GrammaticalIsClean` | internal/protocol/translate/stream_openai_responses.go:70-187 | a server that adds and finishes one item at a time is never out of turn and never splits a call |
| `ResponsesUpstream.OverlappingCallsAreUnfit` | internal/protocol/translate/stream_openai_responses.go:70-176 | two function calls at once are decoded without error and break the contract |
| `ResponsesUpstream.InterleavedTextSplits` | internal/protocol/translate/stream_openai_responses.go:70-176 | text between the pieces of a call keeps the contract and splits the call |
| `UsageAgreement.ChatMeter.Feed` | internal/protocol/openai_chat.go:51-62 | the metering parser overwrites its usage as `MeterChat` does |
| `UsageAgreement.ResponsesMeter.Feed` | internal/protocol/openai_responses.go:47-64 | as `MeterResponses` |
| `UsageAgreement.AnthropicMeter.Feed` | internal/protocol/anthropic_messages.go:38-81 | counters are updated selectively, as `MeterAnthropic` |
| `UsageAgreement.ChatBillsTheLast` | internal/protocol/openai_chat.go:51-64 | what is billed for a Chat stream is its last readable usage object, those beside errors among them |
| `UsageAgreement.ChatUsageAgrees` | internal/protocol/translate/stream_openai_chat.go:107-111 | the payload that stops a Chat stream carries the billed usage if and only if no unreadable usage object follows a readable one |
| `UsageAgreement.UnreadableUsageDisagrees` | internal/protocol/openai_chat.go:51-64 | a readable usage object and then an unreadable one: the client is told no usage and the first object is billed |
| `UsageAgreement.ResponsesUsageAgrees` | internal/protocol/translate/stream_openai_responses.go:150-165 | the MessageStop of a Responses upstream always carries the billed usage |
| `UsageAgreement.AnthropicStepExact` | internal/protocol/translate/stream_anthropic.go:74-176 | decoder and metering parser stay in step over one event if and only if its counters satisfy `KeepsAgreement` |
| `UsageAgreement.AnthropicUsageExact` | internal/protocol/anthropic_messages.go:38-83 | decoder and metering parser agree at every point of a stream if and only if every event keeps them in step; agreement on the way is more than a client can see |
| `UsageAgreement.AnthropicStopExact` | internal/protocol/translate/stream_anthropic.go:74-176 | for every decodable stream: what the MessageStop tells and what is billed, each in closed form off the events alone, and that they are equal if and only if every counter has the same value in the event that last tells it and in the one that last bills it, and something is told if and only if something is billed |
| `UsageAgreement.LaterCountersMend` | internal/protocol/anthropic_messages.go:38-83 | a stream that disagrees on the way and agrees at the stop |
| `UsageAgreement.ZeroCountersDisagree` | internal/protocol/translate/stream_anthropic.go:150-176 | a message_delta with zero input-side counters: the client is told those of message_start and zeros are billed |
| `UsageAgreement.AnthropicUsageAgrees` | internal/protocol/anthropic_messages.go:38-83 | when message_start carries usage and each usage-bearing message_delta carries output tokens with none, or all and not all zero, of the input-side counters, the MessageStop carries the billed usage |
| `TokenUsage.ChainConserves` | internal/protocol/translate/response.go:286-308 | any chain of rendering and re-parsing through the three protocols keeps the total and the output; which of the four counters moves is given in closed form |
| `TokenUsage.LaterHopsAreSilent` | internal/protocol/openai_chat.go:21-36 | after the first OpenAI hop, no further OpenAI hop changes any counter |
| `TokenUsage.ChatUsageParses` | internal/protocol/openai_chat.go:21-36 | a Chat usage object is taken apart without loss, cache writes by the first of three fields that is set |
| `TokenUsage.ResponsesUsageParses` | internal/protocol/openai_responses.go:19-45 | the same for a Responses usage object |
| `TokenUsage.AnthropicUsageParses` | internal/protocol/anthropic_messages.go:19-83 | an Anthropic usage object counts apart already, and what is missing is zero |
| `RequestIr.JoinTextLoop` | internal/protocol/translate/openai_chat.go:275-286 | the joining loop computes `JoinText` |
| `RequestIr.AppendAll` | internal/protocol/translate/anthropic.go:318-376 | an appending loop that leaves at the first error gives the concatenation of what the elements give, or that error |
| `RequestIr.StablePrints` | internal/protocol/translate/openai_chat.go:442-453 | a URL that is not empty and not a data URL without media type survives reading and printing |
| `RequestIr.OnePassIsStable` | internal/protocol/translate/openai_chat.go:264-273 | one reading and printing makes any URL stable |
| `RequestIr.StaysExactly` | internal/protocol/translate/openai_chat.go:442-453 | an image read from a URL comes back from printing and reading if and only if the URL is stable |
| `RequestIr.PlacedIsAll` | internal/protocol/translate/openai_chat.go:186-205 | the calls of assistant turns and results of user and tool turns are all there are, if and only if none is out of place |
| `AnthropicRequest.ReadResultLoop` | internal/protocol/translate/anthropic.go:208-232 | nested result blocks become one string if and only if all of them are text, otherwise the raw JSON is kept |
| `AnthropicRequest.Hoist` | internal/protocol/translate/anthropic.go:258-263 | exactly the leading system turns move into the system prompt, in order |
| `AnthropicRequest.MergeAdjacent` | internal/protocol/translate/anthropic.go:392-409 | the loop that edits its last message computes `Merge` |
| `AnthropicRequest.MergeExact` | internal/protocol/translate/anthropic.go:392-409 | merging keeps the sequence of blocks with their roles and every system turn as it is, leaves no two adjacent turns of one role except system, and leaves alternating turns alone |
| `AnthropicRequest.Build` | internal/protocol/translate/anthropic.go:236-314 | the loops together compute `FromIR`, including both error paths |
| `AnthropicRequest.PrintedIsCanonical` | internal/protocol/translate/anthropic.go:236-376 | everything printed has a text-only system prompt, does not open with a system turn, alternates, and holds only blocks the parser gives back |
| `AnthropicRequest.CanonicalReturns` | internal/protocol/translate/anthropic.go:90-204 | parser and printer undo each other on everything the printer writes |
| `AnthropicRequest.OnePassIsEnough` | internal/protocol/translate/anthropic.go:90-314 | `ToIR ∘ FromIR` is idempotent on every request it accepts, whatever default limit the second pass is given |
| `AnthropicRequest.KeepsTools` | internal/protocol/translate/anthropic.go:236-376 | a successful `FromIR` keeps every tool call (id, name, arguments) and every result id, in order |
| `AnthropicRequest.FindsTools` | internal/protocol/translate/anthropic.go:157-204 | a successful `ToIR` finds every tool call and result of the body, in order |
| `AnthropicRequest.InPlaceExact` | internal/protocol/translate/anthropic.go:145-204 | tool blocks are in place in the IR if and only if they are in the body |
| `AnthropicGist.Finds` | internal/protocol/translate/anthropic.go:90-232 | what is read is all the body says, utterance by utterance: texts, images, thinking, calls with arguments, results with their text and error flag, each with its speaker |
| `AnthropicGist.Keeps` | internal/protocol/translate/anthropic.go:236-409 | a body that can be written says all there is to say, in order and by the same speakers, except unsigned thinking and foreign reasoning; the system prompt, opening system turns included, only words |
| `ChatRequest.ReadMessages` | internal/protocol/translate/openai_chat.go:321-372 | the loop with its `leading` flag hoists exactly the leading instructions and keeps the rest in place |
| `ChatRequest.RenderParts` | internal/protocol/translate/openai_chat.go:241-262 | parts become one string joined by newlines if and only if all are text |
| `ChatRequest.BuildUser` | internal/protocol/translate/openai_chat.go:154-185 | results leave a user turn first, as messages of their own, then the parts as one message if there are any |
| `ChatRequest.BuildAssistant` | internal/protocol/translate/openai_chat.go:186-212 | one message with text and calls; the content is absent exactly when there are only calls |
| `ChatRequest.Build` | internal/protocol/translate/openai_chat.go:88-143 | the loops together compute `FromIR`, including its error paths |
| `ChatRequest.RegularReturns` | internal/protocol/translate/openai_chat.go:147-215 | a turn of the shape the parser produces comes back as one turn, unchanged except that its images settle |
| `ChatRequest.OnePassIsRegular` | internal/protocol/translate/openai_chat.go:290-403 | one pass turns any request into that shape |
| `ChatRequest.PassOnRegular` | internal/protocol/translate/openai_chat.go:88-403 | what a further pass does, exactly: it joins the system texts and settles images |
| `ChatRequest.TwoPassesAreEnough` | internal/protocol/translate/openai_chat.go:88-403 | from the second pass on nothing changes; one pass suffices if and only if at most one system message opens the printed request and no image of a user turn has a data URL without media type, both read off the request itself |
| `ChatRequest.OnePassIsNotEnough` | internal/protocol/translate/openai_chat.go:106-110 | two opening system turns that the first pass hoists and only the second joins |
| `ChatRequest.KeepsTools` | internal/protocol/translate/openai_chat.go:145-237 | a successful `FromIR` keeps exactly the calls of assistant turns and the results of user and tool turns, in order; all of them if and only if none is out of place |
| `ChatRequest.FindsTools` | internal/protocol/translate/openai_chat.go:323-372 | a successful `ToIR` finds every result and every tool call, in order, and leaves all of them in place; the calls have the arguments of the body, to the letter, if and only if all of these are empty or valid JSON |
| `ChatGist.Finds` | internal/protocol/translate/openai_chat.go:290-453 | what is read is all the body says, its images by the data URLs they stand for |
| `ChatGist.Keeps` | internal/protocol/translate/openai_chat.go:88-286 | what the written body says: per turn, results first (marked when they failed), words joined by lines unless there are images, then calls; instructions joined by blank lines |
| `RequestGist.JoinTextJoins` | internal/protocol/translate/openai_chat.go:275-286 | the joined text is the texts with blank lines in between |
| `RequestGist.DataUrlsAreInline` | internal/protocol/translate/openai_chat.go:443-453 | a base64 data URL is split where the marker first occurs, whatever stands before and after |
| `RequestGist.OtherUrlsAreLinks` | internal/protocol/translate/openai_chat.go:443-453 | any other URL is a link |
| `ResponsesRequest.AppendAssistant` | internal/protocol/translate/openai_responses.go:223-229 | appending to an assistant turn edits it in place, otherwise starts one |
| `ResponsesRequest.ReadItems` | internal/protocol/translate/openai_responses.go:151-186 | the item loop gives the turns of all items with consecutive assistant turns joined, or the first error |
| `ResponsesRequest.BuildAssistant` | internal/protocol/translate/openai_responses.go:378-411 | text is flushed before every call and every reasoning payload, and at the end |
| `ResponsesRequest.BuildUser` | internal/protocol/translate/openai_responses.go:357-371 | results become items at once, text and images follow as one message if there are any |
| `ResponsesRequest.BuildItems` | internal/protocol/translate/openai_responses.go:344-415 | the message loop prints the turns one after the other |
| `ResponsesRequest.AssistantReturns` | internal/protocol/translate/openai_responses.go:378-411 | reading back the items of an assistant turn gives its content, in order and whole |
| `ResponsesRequest.TurnsReturn` | internal/protocol/translate/openai_responses.go:151-229 | regular turns, no two assistant turns adjacent, come back one by one with settled images |
| `ResponsesRequest.PassOnRegular` | internal/protocol/translate/openai_responses.go:109-441 | what a further pass does, exactly: images settle |
| `ResponsesRequest.TwoPassesAreEnough` | internal/protocol/translate/openai_responses.go:109-441 | every request is accepted; from the second pass on nothing changes; one pass suffices if and only if no image of a user turn has a data URL without media type |
| `ResponsesRequest.OnePassIsNotEnough` | internal/protocol/translate/openai_responses.go:267-274 | an image whose data URL has no media type and gains one only in the second pass |
| `ResponsesRequest.KeepsTools` | internal/protocol/translate/openai_responses.go:344-415 | as for Chat; out-of-place blocks are dropped without an error |
| `ResponsesRequest.FindsTools` | internal/protocol/translate/openai_responses.go:140-188 | as for Chat |
| `ResponsesGist.Finds` | internal/protocol/translate/openai_responses.go:109-319 | what is read is all the body says, across the joining of assistant turns |
| `ResponsesGist.Keeps` | internal/protocol/translate/openai_responses.go:321-465 | what the written body says: per turn, results first, then words and images in order; assistant words, calls and reasoning items in order |
| `RequestTranslation.EveryDirectionKeepsTools` | internal/protocol/translate/translate.go:149-160 | in every direction a translated request has the same tool calls, arguments to the letter, and result ids, in order, if and only if no tool block is out of place for the target (only an Anthropic body can have one, and an Anthropic target takes it) and all arguments are empty or valid JSON |
| `RequestTranslation.EveryDirectionKeepsWhatIsSaid` | internal/protocol/translate/translate.go:149-160 | in every direction, what is read from a body is all it says, and the translated body says all of it that the target can say, given for each target on the request alone |
| `RequestTranslation.AnthropicSaysTheSame` | internal/protocol/translate/translate.go:149-160 | from any protocol, an Anthropic body says the same utterances one by one, but for reasoning it could not replay, when instructions are words only |
| `RequestSettings.Kept` | internal/protocol/translate/translate.go:149-160 | in every direction, sampling settings, stream flag, stop words, limit, tool choice, parallel calls, response format and tool definitions are those of the original, except for what the target has no field for |
| `RequestSettings.ChatExtras` | internal/protocol/translate/openai_chat.go:118-143 | a streamed Chat request asks for its usage; only Bedrock is told not to reason, and only beside tools |
| `RequestRefusals.TranslatedExactly` | internal/protocol/translate/translate.go:149-160 | a request is translated if and only if its body can be read and what is read can be written; both conditions are on the body and the request alone |
| `RequestTranslation.MisplacedCallIsLost` | internal/protocol/translate/openai_responses.go:357-371 | a call in a user turn of an Anthropic body is accepted and missing from the Responses body |
| `RequestTranslation.TruncatedArgumentsAreLost` | internal/protocol/translate/openai_chat.go:350-356 | a call whose arguments were cut off is accepted and sent on with the empty object |
| `RequestTranslation.DefaultIsReported` | internal/protocol/translate/translate.go:145-160 | the `defaulted` flag, computed apart from the body, tells exactly whether the body's positive limit is the default |
| `Sse.RoundTrip` | internal/provider/bedrock_invoke.go:162-176 | for every list of frames as the gateway prints them, the line parser over the printed bytes dispatches exactly that list (section 9.2 of the WHATWG HTML Living Standard) |
| `Sse.AnyStyleReads` | internal/proxy/handler.go:534-570 | the same for every spelling: lines and blank lines ended with LF or CRLF, with or without the space after the colon, payloads split over several data lines, padded event names, comments in between, and a tail without its blank line |
| `Sse.FlushWriter.WriteOut` | internal/proxy/handler.go:590-603 | the first write error latches, later writes are swallowed, and the whole length is always reported |
| `Sse.PassThroughIsPrefix` | internal/proxy/handler.go:494-508 | in pass-through the client has received a prefix of the upstream bytes, and all of them if no write failed |
| `Relay.ReadLoop.Dispatch` | internal/proxy/handler.go:512-532 | a dispatched event is metered always and translated while translation works; refines `Progress` |
| `Relay.ReadLoop.OnLine` | internal/proxy/handler.go:540-553 | one line turns the parser and may dispatch; `done` is set exactly after the terminal event |
| `Relay.ReadLoop.ReadAll` | internal/proxy/handler.go:539-583 | the loop reads to the terminal event, a translation failure or the end of input, and concludes |
| `Relay.BillingIsExact` | internal/proxy/handler.go:391-583 | for all upstream bytes and whatever decodes, writes and reads fail: the events handled are those of the lines read, unread ones being left only after the end; `clientErr` holds if and only if one of the writes failed, one write per call that gave the client something; `translateErr` if and only if an event reached the unended stream and could not be decoded; the run is billed exactly what its events metered if and only if neither holds, the message ended and no read failed before, and otherwise costs nothing and is reported as 504 after a deadline, else 499 if the client is gone or could not be written to, else 502; unless a read failed first the message is closed in the end |
| `Relay.PassThroughBillingIsExact` | internal/proxy/handler.go:501-563 | for every chunking of the upstream bytes and every fate of the writes: what the events of the bytes metered is billed if and only if no read and no write failed, in which case the client has all bytes |
| `Relay.RelayStream` | internal/proxy/handler.go:494-583 | a fresh stream and reading loop, translated or passed through, give exactly the verdict that the two billing theorems are about |
| `Relay.RelayBuffered` | internal/proxy/handler.go:443-492 | a buffered response is billed if and only if it was read whole, was a success, could be rendered and was taken by the client; a spoilt one is reported as 504, 499 or 502 by its cause, never as a success |
| `Failover.Serve` | internal/proxy/handler.go:156-339 | candidates are tried in order, each at most once and at most the configured number; each one before the last was passed over for a listed cause, and each early end has one; exactly one response is written: 404 without candidates, 400 for a bad body, 504 exactly for a deadline, otherwise 502, or the answer, which is a 429 or 5xx only from the last position; usage reports likewise |
| `MeteringQueue.QueueIsSafe` | internal/metering/queue.go:43-109 | over every interleaving: accepted copies of every report are conserved among channel, delivery and finished; a call begun after the close is refused; once all workers have exited every copy sent before the close is finished (`StrandedExactly` says exactly which are not) |
| `MeteringQueue.StrandedExactly` | internal/metering/queue.go:47-109 | over every interleaving, once all workers have exited: the channel holds exactly the reports sent after the last of them left, every other accepted copy is finished, and all are finished if and only if no send came that late |
| `MeteringQueue.LateCallChangesNothing` | internal/metering/queue.go:43-50 | the only step left to a call begun after the close refuses it and touches nothing else |
| `MeteringQueue.LateSendIsStranded` | internal/metering/queue.go:47-58 | a run in which a report sent after the close stays in the channel for good |
| `Delivery.Deliver` | internal/metering/queue.go:111-140 | in exchanges: every attempt before the last met a transport or read error or a status of 429, 408 or at least 500; if the last did too, all maxRetries+1 attempts were made and the report is dropped; the verdict on every other answer is given by its status and body; the waits are 200, 400, 800, 1600, 3200, 6400, 6400, … ms |
| `Delivery.BackoffDoubles` | internal/metering/queue.go:136-138 | waits double while below 5 s, so that they reach 6.4 s and no more |
| `Delivery.ControlPlane.HandleUsage` | cmd/mock-controlplane/main.go:126-158 | a report is accepted if and only if it has an id and a known key; it is recorded once per id, and answered as duplicate exactly when the id was seen |
| `Delivery.ExactlyOnce` | internal/controlplane/client.go:228-267 | under any lost requests, lost answers, retries and interleaving: each id is recorded at most once; "ok" and "duplicate" imply the id is recorded once, "rejected" that the report is never recorded, and nothing under its id if no other report has it; at most maxRetries+1 attempts |
| `Routing.PickInterval` | internal/router/router.go:126-134 | the draws that select candidate i are an interval of exactly weight_i values, so the default index is never reached by fall-through |
| `Routing.OrderPermutes` | internal/router/router.go:114-139 | for every draw the order is a permutation of the tier |
| `Routing.EveryOrderPossible` | internal/router/router.go:114-139 | and every permutation comes out for some draws |
| `Routing.Walk` | internal/router/router.go:127-134 | the walk over running sums finds the candidate of the draw |
| `Routing.DrawAll` | internal/router/router.go:114-139 | the in-place loop over the remaining candidates computes `Order` |
| `Routing.WeightedOrder` | internal/router/router.go:114-139 | works on a copy: the shared tier is not modified |
| `Routing.AttemptsArePermutation` | internal/router/router.go:97-111 | the attempts are a permutation of the model's providers with effective weights, sorted by priority |
| `Routing.PermutationTries` | internal/router/router.go:41-111 | such a permutation tries every provider once, with its code, its model code, its protocol, its priority and its weight, or 1 if that is not positive |
| `Routing.Router.Load` | internal/router/router.go:41-67 | a new snapshot holds, for every model, tiers by ascending priority; the old one is left as it is |
| `Routing.Router.Attempts` | internal/router/router.go:97-111 | the attempts for a model try each of its providers once, by ascending priority, without changing the snapshot; the fields of each attempt are those of its provider |
| `RoutePoller.Poller.Sync` | internal/router/router.go:163-181 | one poll loads the router or leaves it alone and changes the tag as `SyncStep` does |
| `RoutePoller.Poller.Route` | internal/router/router.go:97-111 | the attempts for a model try each of its providers in the table last loaded once, by ascending priority; there are none for an unknown model |
| `RoutePoller.PollAll` | internal/router/router.go:152-181 | a fresh poller and its router over any history hold what the history says; when tags identify tables and the last Sync returns nil, the server's table |
| `RoutePoller.SyncIsCoherent` | internal/controlplane/client.go:135-188 | against any history of tables and faults in which tags identify tables (section 13.1.2 of RFC 9110): a Sync that returns nil leaves the snapshot equal to the server's table and remembers its tag, any other changes nothing; which outcome it has is given by the fault, the table and the snapshot; and a non-empty snapshot never becomes empty |
| `RoutePoller.StaleExactly` | internal/controlplane/client.go:135-188 | against any history in which ETag headers identify tables: a Sync that returns nil leaves another table than the server's if and only if the table held came without a header and its version equals the header now sent for a different table |
| `RoutePoller.HeaderTagsAreNotEnough` | internal/controlplane/client.go:135-188 | the version that stands in for a missing header can meet an equal header later, and the 304 then keeps the old table |

## Left out

- JSON byte encoding: wire bodies are datatypes, raw JSON is text known to be valid, and compaction or escaping of raw JSON by the encoder is not modelled.
- 64-bit wrap-around of token counts and sequence numbers: integers are unbounded.
- Envelope fields that are constant or a timestamp (`created`, `object`, chunk ids) in stream frames; element positions inside error messages.
- Streaming façade composition: `Facade.Stream` holds its decoder and encoder states as values, so sharing between the component objects is not captured.
- Non-streaming response content codecs and reasoning display rules: mostly field copies. Their usage arithmetic is in `TokenUsage`.
- `instructions: ""` and absent instructions are one value, since reading makes no difference between them.
- `RequestIr.AppendAll`: stands for all appending loops with early error return instead of one method per loop.
- `MeteringQueue.QueueIsSafe`: the channel has capacity at least 1, as the configuration requires; the drain deadline of Shutdown only ends the wait and is not a step.
- `Sse.RoundTrip`: covers frames as the gateway prints them; other spellings of the same lines are `Sse.AnyStyleReads`. Event names are those that trimming leaves alone, and payload lines hold no line breaks of their own; bytes are characters.
- `UsageAgreement.ChatUsageAgrees`: runs containing an upstream error payload are outside it, as such a stream does not end in MessageStop by itself.
- `Relay.PassThroughBillingIsExact`: does not model the line scanner's 16 MB limit; a longer line ends the parsing with an error, which is a read error here, and its bytes have already been passed on. `Relay.BillingIsExact` reads lines of any length in the same way.
- Key authentication, the debug endpoints of the mock control plane, and its reset of the dedupe set.
- Wall-clock time, TTFT and context deadlines, beyond a flag for "deadline hit"; the distribution of random draws.
- Config loading, protocol detection, header copying, error-body rendering, metrics and logging: single-branch facts.
- HTTP transport, SigV4, STS, the AWS SDK and Secrets Manager: foreign libraries whose results are inputs.
