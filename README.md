# Tiered model router — a Dafny model

This project models the core of a tiered model router made of three programs.

- **The message-block proxy** (`proxy/router_proxy.py`) is an HTTP endpoint that speaks the
  Anthropic messages protocol. It chooses a tier for each request:
  - a follow-up call that comes after the assistant's own turn is answered at once with an
    empty `end_turn` reply (the loop guard);
  - a model named in the Claude set goes to the Claude CLI (T3);
  - a model named in the Gemini set goes to the Gemini CLI (T2);
  - everything else is passed through to Ollama's native `/v1/messages` endpoint (T1).

  T2 and T3 answers are sent as a synthetic server-sent-event stream. A T1 stream forwards
  Ollama's bytes unchanged.
- **The Gemini bridge** (`proxy/gemini-bridge/gemini_bridge.py`) is an OpenAI-style chat
  endpoint. It maps the requested model name, flattens the chat messages into one prompt, runs
  the Gemini CLI, and answers with a chat completion. That completion is either streamed as
  20-character chunks or sent in one piece.
- **The command-line router** (`scripts/smart_router.py`) scores a prompt against keyword
  lists. A forced tier answers alone. Otherwise it tries Ollama, then Gemini, then Claude:
  - each of the first two up to the configured number of times;
  - Claude once, as the last resort.

  The first answer it accepts is returned, and a routing-history line is written for it.

## How the model is built

Backends are not run. Each model takes what the outside world does as a parameter:
- a process launch or HTTP call is an outcome value (`Outcomes.RunOutcome`,
  `ProxyRoutes.HttpOutcome`, `ProxyRoutes.Spawn`, `Tiers.StreamProc`), or a function from the
  launch number and arguments to such an outcome;
- the availability probes are booleans;
- the uuid-based ids and the clock readings are strings or numbers passed in.

The response stream (`wfile`) is the class `Wire.Sink`. It holds the sequence of frames
written so far and how many of them have been flushed. Each handler is a class that writes to
its sink. Each writing method states the frames it appends as a function of its inputs. The
properties are then proved about those functions:
- well-formed event streams;
- round trips of the event framing and the line splitting;
- slice counts and shapes;
- escalation order and the last-resort rule.

Content blocks of an unrecognized type: `_flatten` in `proxy/router_proxy.py` renders a list
item that is not an object as its string form. An object block whose `type` is not `text`,
`tool_result` or `tool_use` contributes nothing to the prompt. `ProxyPrompt.FlattenDropsUnknown`
states this.

## Model

| member | source | states |
|---|---|---|
| `Sse.EventFrameRoundTrip` | proxy/router_proxy.py:35-36 | an `event:`/`data:` frame, followed by anything, reads back as exactly its name and data, and the rest of the input is left untouched, when neither contains a newline |
| `Sse.EventStreamRoundTrip` | proxy/router_proxy.py:35-36 | a concatenation of event frames reads back as exactly the sequence of (name, data) pairs it was made from |
| `Sse.DataFrameRoundTrip` | proxy/gemini-bridge/gemini_bridge.py:96-97 | a `data:` frame reads back as exactly its payload, with the rest of the input untouched |
| `ProxyStream.BlankHasNoWords` | proxy/router_proxy.py:78 | an all-whitespace text has no words, so it reports zero output tokens |
| `ProxyStream.StartStream` | proxy/router_proxy.py:38-53 | appends `message_start` (input tokens 10, output 0) and `content_block_start` for block 0, flushes, and returns the message id |
| `ProxyStream.SendChunk` | proxy/router_proxy.py:55-60 | appends one `content_block_delta` for block 0 carrying the text, and flushes |
| `ProxyStream.EndStream` | proxy/router_proxy.py:62-70 | appends `content_block_stop`, a `message_delta` with `end_turn` and the output token count, and `message_stop`, then flushes |
| `ProxyStream.ReadBack` | proxy/router_proxy.py:35-36 | when every payload is a single line, a client reading the bytes `sse` writes for a run of events recovers each event's name and payload, in order |
| `ProxyStream.SyntheticReadBack` | proxy/router_proxy.py:35-70 | a client reading a synthetic stream sees `message_start`, `content_block_start`, one `content_block_delta` per chunk carrying that chunk's event, then `content_block_stop`, `message_delta` with the token count, and `message_stop` |
| `ProxyStream.SyntheticWellFormed` | proxy/router_proxy.py:38-70 | start, any number of chunks, then end always make a well-formed message stream: message start first, one block opened and closed, only block-0 deltas in between, `end_turn` before the stop. The deltas carry exactly the chunks sent, and there are chunks + 5 events |
| `ProxyStream.DeltaTextsOfDeltas` | proxy/router_proxy.py:55-60 | reading the delta texts back out of a run of chunk events gives exactly the chunk texts |
| `ProxyStream.WellFormedOfLayout` | proxy/router_proxy.py:38-70 | any event sequence laid out as start, block start, block-0 deltas, block stop, `end_turn` delta and stop is well formed |
| `ProxyPrompt.FlattenOne` | proxy/router_proxy.py:83-100 | a one-item list flattens to the item's own text: a non-object item to its string form, a text block to its `text` (default empty), a tool result to its flattened nested content, a tool use to a `[tool_use: name(input)]` note with defaults `tool` and `{}`, and any other object to nothing |
| `ProxyPrompt.FlattenAppend` | proxy/router_proxy.py:86-99 | flattening a list is joining the flattenings of its two halves with one newline, which is left out when either half is empty |
| `ProxyPrompt.FlattenDropsUnknown` | proxy/router_proxy.py:92-98 | an object block of an unrecognized type can be removed from any position without changing the flattened text |
| `ProxyPrompt.KeptNonEmpty` | proxy/router_proxy.py:99 | the parts kept for joining are never empty strings |
| `ProxyPrompt.JoinAppend` | proxy/router_proxy.py:99 | joining non-empty parts with newlines splits at the boundary of any two groups into the join of each group |
| `ProxyPrompt.PromptShape` | proxy/router_proxy.py:102-110 | the prompt lines are the system line (only when the system value is truthy) followed by one line per message in order. When no part contains a newline, splitting the prompt on newlines gives back exactly those lines. No messages and no system give the empty prompt |
| `ProxyPrompt.PromptLineRoles` | proxy/router_proxy.py:102-110 | when no part holds a newline, the prompt's line for a `user` message, or for one without a role, is its flattened content alone, and the line for any other role is `role: content` |
| `GeminiCli.AnswerCases` | proxy/router_proxy.py:167-182 | walking the candidate models: the first run that neither fails plainly (non-zero exit or blank output) nor succeeds decides the answer. A success answers with the stripped output, a timeout with `Gemini timeout`, any other exception with `Gemini error: ...`. If every run fails plainly the answer is `Gemini: no response` |
| `GeminiCli.AnswerSkips` | proxy/router_proxy.py:170-177 | runs that fail plainly are passed over without affecting the answer |
| `GeminiCli.FirstAnswer` | proxy/router_proxy.py:170-182 | the candidate loop returns the specified answer, and every process it launched before the last one failed plainly. When it stops early, the last one did not fail plainly |
| `ProxyRoutes.ClassifyExclusive` | proxy/router_proxy.py:25-31 | the Claude and Gemini model sets share no name. A request goes to T3 exactly when its model is in the Claude set, to T2 exactly when it is in the Gemini set, and to T1 exactly when it is in neither. Name routing never selects the loop guard |
| `ProxyRoutes.CallGeminiCli` | proxy/router_proxy.py:167-182 | the CLI call answers what the candidate walk over `gemini-2.5-flash`, `gemini-2.5-flash` specifies |
| `ProxyRoutes.RouteGeminiStream` | proxy/router_proxy.py:184-195 | the Gemini answer for the flattened prompt is written as a synthetic stream under the requested label: its 30-character slices as deltas and its word count as output tokens, ending flushed |
| `ProxyRoutes.SendSlices` | proxy/router_proxy.py:192-194 | the chunk loop appends one delta per 30-character slice of the text, in order |
| `ProxyRoutes.GeminiStreamShape` | proxy/router_proxy.py:184-195 | a streamed Gemini answer is well formed. It has ceil(L/30) deltas, all exactly 30 characters except the last (which has 1 to 30), and together they glue back to the answer. Its output tokens are the answer's word count |
| `ProxyRoutes.RouteClaudeStream` | proxy/router_proxy.py:201-230 | the Claude stream relays the spawned process's output lines as deltas, then an error note when the exit code is non-zero. A failed launch gives only a launch-error note. An exception after some lines were relayed gives those lines, then the launch-error note. It reports the word count of the output relayed as tokens and ends flushed |
| `ProxyRoutes.RelayClaude` | proxy/router_proxy.py:212-230 | between the two envelopes, the relay writes exactly the chunks and token count the spawned process determines |
| `ProxyRoutes.RelayOutput` | proxy/router_proxy.py:220-229 | the output loop writes each line and then the error note, or the lines read before an exception and then the launch-error note. Its token count is the word count of the output relayed |
| `ProxyRoutes.RelayLines` | proxy/router_proxy.py:220-223 | each output line is sent as a delta in order, and the per-line word counts add up to the returned token count |
| `ProxyRoutes.ClaudeStreamShape` | proxy/router_proxy.py:212-230 | the Claude stream is always well formed. The relayed lines glue back to the process's output, every line but the last ends in a newline, and there is one extra chunk exactly when the exit code is non-zero. A failed launch sends just the launch note, with zero tokens. An exception after some lines sends those lines, which glue back to the output read, then the launch note, and the tokens are those lines' word counts |
| `ProxyRoutes.ClaudeTextCases` | proxy/router_proxy.py:231-239 | a clean exit answers with the trimmed output. Every other outcome answers `[Claude error: ...]`, wrapping the trimmed error output or the exception text |
| `ProxyRoutes.RouteOllamaStream` | proxy/router_proxy.py:135-163 | the passthrough writes the received bytes in reads of at most 4096, then a one-chunk T1 error stream with one output token when the call failed (HTTP error, unreachable, or broken off), and it flushes whenever it wrote anything |
| `ProxyRoutes.Passthrough` | proxy/router_proxy.py:137-144 | the read loop forwards the body as its successive 4096-byte reads, in order, flushing after each |
| `ProxyRoutes.SendNote` | proxy/router_proxy.py:150-153 | an Ollama failure is reported as a complete synthetic stream under the T1 label whose single delta is the error note, with one output token |
| `ProxyRoutes.ForwardedRaw` | proxy/router_proxy.py:139-144 | the bytes carried by the forwarded reads, in order, are exactly the concatenation of the reads |
| `ProxyRoutes.OllamaStreamShape` | proxy/router_proxy.py:137-163 | the bytes a T1 stream forwards are exactly the body Ollama sent (none when it did not answer). Every read is 1 to 4096 bytes long, and an unbroken answer is forwarded with nothing added |
| `ProxyRoutes.OllamaErrorStream` | proxy/router_proxy.py:147-163 | whenever the call fails, the stream ends with a complete, well-formed synthetic error stream |
| `ProxyRoutes.OllamaReplyCases` | proxy/router_proxy.py:145-163 | a plain T1 request returns Ollama's body unchanged, or a complete reply under the T1 label carrying `[Qwen3 error CODE: body]` for an HTTP error status, or `[Qwen3 error: detail]` when Ollama cannot be reached or reading its body fails |
| `ProxyRoutes.LoopGuardReply` | proxy/router_proxy.py:317-326 | the loop guard's answer does not depend on any backend. It is a well-formed stream of just the two envelopes (five events, no delta, zero output tokens), or a reply with empty text and zero output tokens |
| `ProxyRoutes.RoutedByModel` | proxy/router_proxy.py:308-350 | an unguarded request is routed by its model name alone, and a request without a model goes to T1 |
| `ProxyRoutes.SyntheticRepliesWellFormed` | proxy/router_proxy.py:329-345 | every streamed answer other than T1's is a well-formed event stream |
| `ProxyRoutes.ProxyHandler.DoPost` | proxy/router_proxy.py:304-359 | records the model (default `claude-sonnet-4-6`) and the tier label, and appends exactly the response the request's tier specifies |
| `ProxyRoutes.ProxyHandler.AnswerGuarded` | proxy/router_proxy.py:317-326 | the loop-guard branch writes the guard's response |
| `ProxyRoutes.ProxyHandler.AnswerClaude` | proxy/router_proxy.py:329-336 | the T3 branch writes the Claude stream or a complete reply carrying the one-shot run's text |
| `ProxyRoutes.ProxyHandler.AnswerGemini` | proxy/router_proxy.py:338-345 | the T2 branch writes the Gemini stream or a complete reply carrying the CLI's answer |
| `ProxyRoutes.ProxyHandler.AnswerOllama` | proxy/router_proxy.py:347-359 | the T1 branch writes the passthrough stream or Ollama's reply |
| `GeminiBridge.MapModelFacts` | proxy/gemini-bridge/gemini_bridge.py:15-29 | every known name except `gemini-proxy` runs itself. `gemini-proxy` and every unknown name run `gemini-2.5-pro`. Every mapped model is a known name that maps to itself, so mapping is idempotent |
| `GeminiBridge.CallGemini` | proxy/gemini-bridge/gemini_bridge.py:26-42 | the bridge's CLI call answers what the candidate walk over the mapped model and then the default model specifies |
| `GeminiBridge.CallGeminiCases` | proxy/gemini-bridge/gemini_bridge.py:26-42 | the mapped model's stripped output when it succeeds. The timeout or error text as soon as a run times out or raises. The default model's output when the first run failed plainly and the second succeeds, and the second run's timeout or error text when it times out or raises. `Gemini: no response` when both fail plainly |
| `GeminiBridge.ExtractPrompt` | proxy/gemini-bridge/gemini_bridge.py:45-61 | the loop builds exactly the specified prompt: system lines inserted at the front, others appended, joined by newlines, and the `prompt` field (default empty) when there are no messages. It fails when the join would raise |
| `GeminiBridge.ArrangedSnoc` | proxy/gemini-bridge/gemini_bridge.py:56-59 | a system message puts its line in front of the parts so far, and any other message appends its part after them |
| `GeminiBridge.ArrangedOrder` | proxy/gemini-bridge/gemini_bridge.py:49-59 | the parts are the system lines from last to first, then the other messages' parts in message order, one part per message |
| `GeminiBridge.ArrangedWithoutSystem` | proxy/gemini-bridge/gemini_bridge.py:49-59 | with no system message, the parts follow the messages one for one |
| `GeminiBridge.ArrangedAllSystem` | proxy/gemini-bridge/gemini_bridge.py:56-57 | with only system messages, the lines come out in reverse message order |
| `GeminiBridge.PartCounts` | proxy/gemini-bridge/gemini_bridge.py:49-59 | every message contributes exactly one line or part |
| `GeminiBridge.OtherPartsFail` | proxy/gemini-bridge/gemini_bridge.py:52-59 | a part is unusable exactly when some non-system message's content is neither a string nor a list |
| `GeminiBridge.PromptFails` | proxy/gemini-bridge/gemini_bridge.py:45-61 | without messages the prompt is the `prompt` field (default empty). With messages, building the prompt fails exactly when some non-system message's content is neither a string nor a list |
| `GeminiBridge.ListContent` | proxy/gemini-bridge/gemini_bridge.py:52-55 | a content list shows as the space-joined texts of its object items, and a list with no object item shows as empty |
| `GeminiBridge.StreamOpenAiResponse` | proxy/gemini-bridge/gemini_bridge.py:64-98 | writes the role chunk, one content chunk per 20-character slice, the stop chunk and the `[DONE]` sentinel, ending flushed |
| `GeminiBridge.SendPieces` | proxy/gemini-bridge/gemini_bridge.py:79-88 | the content loop appends one chunk per 20-character slice of the text, in order, flushing after each |
| `GeminiBridge.OpenAiStreamShape` | proxy/gemini-bridge/gemini_bridge.py:64-98 | a streamed completion has ceil(L/20) + 3 frames. All but the sentinel carry the same id, creation time and model. Exactly the second-to-last has finish reason `stop`. The content pieces are 1 to 20 characters long and glue back to the text |
| `GeminiBridge.ResponseCases` | proxy/gemini-bridge/gemini_bridge.py:115-151 | the handler writes nothing exactly when the prompt cannot be built. Otherwise a stream starts with a data chunk and ends with the sentinel, and a plain reply is one completion for the requested model (default `gemini-2.5-pro`) carrying the CLI's answer |
| `GeminiBridge.BridgeHandler.DoPost` | proxy/gemini-bridge/gemini_bridge.py:115-151 | appends exactly the specified response for the request |
| `TaskAnalysis.ScoreExtremes` | scripts/smart_router.py:415-418 | a category scores 0 exactly when none of its keywords occurs in the lower-cased prompt, and the full keyword count exactly when all do |
| `TaskAnalysis.ScoreAppend` | scripts/smart_router.py:415-418 | scores add up over a split keyword list |
| `TaskAnalysis.ScoreGrows` | scripts/smart_router.py:415-418 | extending the prompt never lowers a score |
| `TaskAnalysis.ArgMaxFirst` | scripts/smart_router.py:421 | the scan returns a maximal score, and the first one among equal maxima |
| `TaskAnalysis.DominantFacts` | scripts/smart_router.py:421 | the dominant type is `general` exactly when every score is 0. Otherwise it is the first category, in the order coding, analysis, creative, complex, with the highest score |
| `TaskAnalysis.AnalyzeTask` | scripts/smart_router.py:409-430 | each score is at most its category's number of keywords |
| `TaskAnalysis.AnalysisFlags` | scripts/smart_router.py:409-430 | a task is complex exactly when a complex keyword occurs or the prompt has more than 500 words. It prefers local exactly when a coding keyword occurs. The word count is the number of whitespace-separated words |
| `Tiers.GetAvailableModel` | scripts/smart_router.py:155-171 | with no model listing there is no model. Otherwise the answer is the first installed model matching the first candidate (primary, then fallbacks) whose name before the colon occurs in some installed name |
| `Tiers.MatchesEmpty` | scripts/smart_router.py:166-167 | no installed model matches exactly when none contains the base name |
| `Tiers.FirstInstalledNone` | scripts/smart_router.py:164-169 | there is no model exactly when no candidate's base name occurs in any installed name |
| `Tiers.FirstInstalledAt` | scripts/smart_router.py:164-168 | when candidate k is the first with a match, the answer is its first match: an installed name that contains the candidate's base name |
| `Tiers.ReadFragments` | scripts/smart_router.py:213-226 | the read loop collects exactly the specified `response` values, or raises as specified |
| `Tiers.CollectFacts` | scripts/smart_router.py:213-226 | blank and non-JSON lines contribute nothing wherever they are. Nothing after the first `done` record is read. A line whose bytes do not decode, or that is JSON but not an object, makes the loop raise with that line's error, when no earlier line ended the loop or raised |
| `Tiers.CollectKept` | scripts/smart_router.py:220-223 | every collected `response` value is truthy |
| `Tiers.SkipTest` | scripts/smart_router.py:214-226 | the loop's test on the stripped line passes over exactly the blank and the non-JSON lines |
| `Tiers.JoinAllText` | scripts/smart_router.py:230 | joining collected values that are all strings gives their texts glued together in order |
| `Tiers.JoinFirstNonText` | scripts/smart_router.py:230 | the first collected value that is not a string makes the join raise with its error |
| `Tiers.OllamaReadRaises` | scripts/smart_router.py:213-257 | a line that raises in the read loop, before any `done` record, makes the run answer `(False, error)`, whatever the later lines, the exit code or the wait |
| `Tiers.OllamaReplyOk` | scripts/smart_router.py:213-233 | a successful run raised nothing while reading, exited with 0 within the wait, collected only strings, and answers their non-blank concatenation |
| `Tiers.OllamaRun` | scripts/smart_router.py:173-257 | a run answers per its specification: not available when no model is installed, the exception text when the launch fails, when a line raises in the read loop, or when the join meets a value that is not a string, `Timeout` when the wait times out, and the joined values when the exit code is 0 and they are not blank. Any successful answer is not blank |
| `Tiers.Without` | scripts/smart_router.py:303 | the remaining models are exactly the configured ones other than the first choice |
| `Tiers.WithoutAppend` | scripts/smart_router.py:303 | filtering a concatenation filters each part: the kept models stay in configuration order, and each occurrence is kept or dropped on its own |
| `Tiers.WithoutAbsent` | scripts/smart_router.py:303 | a list that does not name the first choice is kept whole, with its order and duplicates |
| `Tiers.GeminiCandidates` | scripts/smart_router.py:298-303 | the first candidate is the requested model (or the default, when none or an empty name is given) and is not tried again. The rest are the configured models without it, filtered in configuration order |
| `Tiers.GeminiRun` | scripts/smart_router.py:296-338 | a Gemini run answers what the candidate walk specifies |
| `Tiers.GeminiSkips` | scripts/smart_router.py:303-336 | candidates that time out, raise, or fail without an authentication complaint are passed over without affecting the answer |
| `Tiers.GeminiCases` | scripts/smart_router.py:303-338 | the first candidate not passed over decides. Success answers with the stripped output. A failure whose error output mentions `auth` or `login` answers `Auth required`. If every candidate is passed over, the answer is `All Gemini models failed` |
| `Tiers.GeminiOkNonBlank` | scripts/smart_router.py:319-322 | a successful Gemini answer is never blank |
| `Tiers.ClaudeReply` | scripts/smart_router.py:355-405 | a Claude run succeeds exactly when it exits with 0 and non-blank output, and it then answers with non-blank text. A completed run that failed answers with its error output |
| `SmartRouting.Plan` | scripts/smart_router.py:478-504 | the plan has the T1 runs, the T2 runs and one Claude run when escalation is on |
| `SmartRouting.OllamaRuns` | scripts/smart_router.py:479-486 | the plan opens with the Ollama runs, numbered from 0 |
| `SmartRouting.GeminiRuns` | scripts/smart_router.py:489-496 | the Gemini runs follow the Ollama runs, numbered from 0 |
| `SmartRouting.ClaudeRun` | scripts/smart_router.py:499-504 | with escalation on, Claude's single run closes the plan |
| `SmartRouting.PlanOrder` | scripts/smart_router.py:478-504 | tiers come in escalation order. Claude runs at most once and only last, only when escalation is on. Neither of the first two runs more often than the configured retries. T1 runs only when it goes first and is up, and T2 only when it is up |
| `SmartRouting.ChoiceFacts` | scripts/smart_router.py:481-504 | the chosen run is the first accepted one, and no choice means no run was accepted |
| `SmartRouting.Escalation` | scripts/smart_router.py:478-506 | the runs made are a prefix of the plan, each made only after every earlier one was turned down. When a run is accepted it is the last made, its output is the answer and its tier is logged. Otherwise every planned run was made, the answer is the all-failed text and nothing is logged |
| `SmartRouting.LastResort` | scripts/smart_router.py:498-504 | Claude runs only with escalation on, as the last run, after every Ollama and Gemini run the configuration allows was made and turned down |
| `SmartRouting.ChosenAt` | scripts/smart_router.py:483-504 | once the chosen run is known, the runs made, the answer and the history line follow from it |
| `SmartRouting.SmartRouter.Route` | scripts/smart_router.py:454-506 | a forced tier runs once and answers its output or `Tn failed`, logging nothing. Otherwise the router makes exactly the runs, gives exactly the answer, and appends exactly the history line that the escalation specification determines |
| `SmartRouting.SmartRouter.AutoRoute` | scripts/smart_router.py:478-506 | the automatic routing meets the escalation specification |
| `SmartRouting.SmartRouter.FromGemini` | scripts/smart_router.py:488-506 | once every Ollama run is turned down, the rest of the routing meets the escalation specification |
| `SmartRouting.SmartRouter.Accept` | scripts/smart_router.py:508-517 | accepting the chosen run answers its output and appends one success line naming its tier and the prompt's task type |
| `SmartRouting.SmartRouter.FromClaude` | scripts/smart_router.py:498-506 | once every earlier run is turned down, Claude's run or the all-failed text completes the escalation specification |
| `SmartRouting.TryRuns` | scripts/smart_router.py:481-486 | the retry loop of one tier stops at its first accepted run, which is the routing's first accepted run from that point. If none is accepted, the choice is the same as from the next tier on |
| `Text.StripEmptyIffBlank` | scripts/smart_router.py:232 | a stripped string is empty exactly when the string is all whitespace |
| `Text.SplitWords` | proxy/router_proxy.py:78 | `split()` yields only non-empty words without whitespace |
| `Text.SplitKeepsText` | proxy/router_proxy.py:78 | the words of `split()` glue back to the text with its whitespace removed |
| `Text.JoinSplitRoundTrip` | proxy/router_proxy.py:110 | splitting a join on its separator gives back the parts when none contains the separator |
| `Text.LinesShape` | proxy/router_proxy.py:220 | the lines a text stream yields glue back to the text, and every line but the last ends in a newline |
| `Text.LineWordsTotal` | proxy/router_proxy.py:220-223 | counting words line by line gives the word count of the whole text |
| `Text.ContainsExtend` | scripts/smart_router.py:415 | a substring occurrence survives appending text |
| `Seqs.SlicesConcat` | proxy/router_proxy.py:193-194 | the fixed-size slices glue back to the sequence |
| `Seqs.SlicesCount` | proxy/router_proxy.py:193 | there are ceil(L/n) slices |
| `Seqs.SlicesShape` | proxy/router_proxy.py:193-194 | every slice has 1 to n elements, and all but the last have exactly n |

## Left out

- JSON encoding and decoding are not modelled. Frames and replies are datatypes with the
  fields the programs write, not their byte encodings. A decoded request body is a datatype
  holding the fields the handlers read. The `data:` payload `json.dumps` writes for an event is
  a parameter of `ProxyStream.OnWire`, assumed to be a single line.
- The HTTP plumbing is not modelled: status lines and headers, `Content-Length`, `do_GET` (the
  health and model-list endpoints), and the access-log line of `log_message`. Only the body a
  handler writes to `wfile` is modelled, together with its flushes.
- The following are inputs rather than modelled behaviour:
  - process launches, `subprocess` timeouts and `urlopen`;
  - the `which`/`curl` availability probes;
  - `uuid` ids and `time`/`datetime` readings.
- The proxy rewrites the request's `model` and `stream` and sends it to Ollama. The model takes
  what Ollama answers as an input, so the body sent is not modelled.
- The following parts of the command-line router are not modelled:
  - the configuration file (`load_config`) and its merge;
  - the session-start file;
  - logging to stderr and files;
  - `status`;
  - the argument parser and the other commands of the script;
  - the `ollama pull` that a missing model triggers (only its reply is modelled).
- Printing to the terminal is left out.
- `OllamaTier.run` in non-streaming mode is not modelled, because the router never calls it that way.
- `OllamaTier.is_available` is not modelled; its answer is an input.
- `GeminiTier._build_cmd` (the `npx` fallback) is left out, because only which command runs
  differs.
- `ClaudeTier`'s API-key environment is left out.
- `SmartRouting.SmartRouter.Route`: each Gemini run's reply is an input (`Replies.t2`). It is
  not tied to `Tiers.GeminiRun`, so the `gemini_model` argument passed to it is not modelled.
  The same holds for the Ollama and Claude runs, whose one-run behaviour `Tiers` models
  separately.
- `Text.Lower` lower-cases ASCII letters only, so the keyword scores of a prompt with non-ASCII
  capitals may differ; Unicode case mapping is not modelled.
- `Tiers.ReadFragments`: a decoding error is tied to the line whose bytes do not decode. Python
  decodes the process output in buffered blocks, so the error can surface a few lines earlier;
  that position is not modelled. The text of each caught exception is taken as given.
- `Text.LinesShape`: a line of the Claude process output is what Python's text-mode line
  iteration yields, split at `\n` only; universal-newline translation of `\r` is not modelled.
- `GeminiBridge.ExtractPrompt`: messages are assumed to be objects and a list item's `text` a
  string. A message that is not an object, or a `text` that is not a string, raises in the
  source and is not modelled.
- `ProxyPrompt.FlattenOne`: the rendering of a non-object list item, and of a content value
  that is neither a string nor a list, is its string form, taken as given; Python's `str()` is
  not modelled.
- Exceptions other than the ones each function catches are not modelled; a request body that
  is not valid JSON is one of them.
- Concurrency between request handler threads is left out; each handler owns its response
  stream.
