# NeverLiie AI SDK — a Dafny model of the provider core

The SDK offers one chat interface over several LLM vendors. A caller passes OpenAI-style
messages, tools and a tool choice to `chat` or `chat_stream`. Each provider translates these into
its vendor's request payload. It posts the payload through a small HTTP client, normalises the
answer and, when streaming, turns the vendor's event stream into unified events. A unified event
is either a piece of text or one complete tool call.

This project models that core in Dafny and proves what it promises:

- `types.dfy` (module `Types`): the shared data model of messages, tools, tool calls, streaming
  events and completions, plus the helpers `Texts` and `Calls` that read a stream's text and its
  calls.
- `base.dfy` (`BaseProvider`): `_normalize_messages` and the `base_url` fallback.
- `client.dfy` (`HttpClient`): the mapping from a status to an exception, URL and header
  assembly, base-URL stripping, and the `data:` line framing of `post_stream`.
- `tool_declarations.dfy` (`ToolDeclarations`): the tools-to-declarations loop. Anthropic and
  Google share it and differ only in how they wrap the result.
- `chat_completions.dfy` (`ChatCompletions`): the OpenAI chat-completions format that the
  OpenAI-compatible and Mistral providers share. It covers the request payload and the
  index-keyed `tool_calls_buffer`, which accumulates fragments and flushes them on
  `finish_reason == "tool_calls"`.
- `openai_compatible.py` is modelled in `openai_compatible.dfy` (`OpenAICompatible`) and
  `mistral.py` in `mistral.dfy` (`Mistral`): their configuration, `chat` and `chat_stream`.
- `anthropic.py` is modelled in `anthropic.dfy` (`Anthropic`):
  - message translation, with the system prompt lifted out;
  - tool choice and payload;
  - response normalisation;
  - the single-slot stream state machine.
- `google.py` is modelled in `google.dfy` (`Google`):
  - contents and parts;
  - tool configuration and payload;
  - response normalisation;
  - the part-by-part stream with its set of names already yielded.

Where the source changes state step by step, the model does too:
- The stream reconstructors are classes whose fields are the generator's local variables.
- Translation loops are methods with `while` loops.
- Each of these is proved equal to a specification function (`Run`, `Translate`, `Contents`,
  `Declarations`, ...), and the properties are proved as lemmas about those functions.
- Vendor JSON enters already decoded, as datatypes. Where the source calls `json.loads` on a
  string, the model takes a parameter instead: `decode` for a stream payload, `parse` for tool
  arguments.
- `_normalize_streaming_content` is also a parameter, `normalize`. It is called at
  `openai_compatible.py:124`, but neither `OpenAICompatible` nor `BaseProvider` defines it, and no
  file in this model does.

## Model

| member | source | states |
|---|---|---|
| BaseProvider.NormalizeMessages | neverliie_ai_sdk/providers/_base.py:38-41 | a string becomes exactly one user message with that content; a list is passed through unchanged |
| BaseProvider.NewProvider | neverliie_ai_sdk/providers/_base.py:7-9 | the API key is kept unchanged; `base_url` is used when non-empty and otherwise falls back to the class default |
| HttpClient.ErrorDetails | neverliie_ai_sdk/_client.py:19-24 | the message is `error.message` when the body is an object holding one, else the raw text; `error_data` is the body when it is an object whose "error" entry is absent or an object, and None when the body is absent, not an object, or has an "error" entry that is not an object (the `.get` on it raises inside the `try`) |
| HttpClient.HandleError | neverliie_ai_sdk/_client.py:17-33 | raises exactly for status >= 400; 401 → AuthenticationError, 404 → NotFoundError, 429 → RateLimitError, every other status → InvalidRequestError; carries the status and the error details |
| HttpClient.NotOkAlwaysRaises | neverliie_ai_sdk/_client.py:46-47 | a response that is not ok always raises, and the error carries its status |
| HttpClient.Post | neverliie_ai_sdk/_client.py:41-49 | a response that is not ok gives the mapped error; an ok response gives its JSON body, or an error when the body is not JSON |
| HttpClient.StripTrailingSlashes | neverliie_ai_sdk/_client.py:9 | the result is a prefix of the input, does not end in '/', and only '/' characters were removed |
| HttpClient.Client.constructor | neverliie_ai_sdk/_client.py:8-12 | the stored base URL has its trailing slashes stripped; the key is kept; missing default headers become an empty map |
| HttpClient.Client.BuildUrl | neverliie_ai_sdk/_client.py:14-15 | the URL is the base URL followed by the endpoint, with no slash doubled from the base |
| HttpClient.Client.FinalHeaders | neverliie_ai_sdk/_client.py:42 | the keys are the union of both maps; per-request headers win on a collision and default headers fill the rest |
| HttpClient.PostStream | neverliie_ai_sdk/_client.py:64-74 | a response that is not ok gives the mapped error before any line is read; otherwise the line loop yields exactly `DataPayloads(lines)` |
| HttpClient.PayloadsComeFromDataLines | neverliie_ai_sdk/_client.py:67-74 | nothing yielded is "[DONE]", and every payload is the rest of some "data: " line of the input |
| HttpClient.PayloadsConcat | neverliie_ai_sdk/_client.py:67-74 | framing is line by line: before any [DONE], the payloads of a concatenation are the concatenation of the payloads |
| HttpClient.DoneEndsStream | neverliie_ai_sdk/_client.py:72-73 | "data: [DONE]" ends the stream: nothing after it is yielded |
| ToolDeclarations.Declare | neverliie_ai_sdk/providers/anthropic.py:72-78 | name and description are copied from `function` (absent when it is absent); the schema is `parameters`, or `{"type":"object","properties":{}}` when absent |
| ToolDeclarations.DeclarationsAppend | neverliie_ai_sdk/providers/anthropic.py:71-78 | each tool is converted on its own, and the order is kept: declaring a + b is declaring a, then b |
| ToolDeclarations.AllFunctionTools | neverliie_ai_sdk/providers/anthropic.py:71-78 | a list made only of function tools is declared one for one, in order |
| ToolDeclarations.DeclarationsFromFunctionTools | neverliie_ai_sdk/providers/anthropic.py:71-78 | there are never more declarations than tools, and every declaration comes from a tool whose type is "function" |
| ToolDeclarations.ConvertTools | neverliie_ai_sdk/providers/anthropic.py:68-79 | the loop returns exactly `Declarations(tools)` |
| ChatCompletions.BuildPayload | neverliie_ai_sdk/providers/openai_compatible.py:96-110 | the payload is `Fields` of the model, the messages and the optional arguments, merged with kwargs; kwargs win |
| ChatCompletions.FieldsKeys | neverliie_ai_sdk/providers/openai_compatible.py:96-110 | before kwargs the payload holds exactly model and messages, "stream" only when streaming, and each optional key only when its argument is not None |
| ChatCompletions.FieldsValues | neverliie_ai_sdk/providers/openai_compatible.py:96-110 | each entry carries its argument as given: the model, the messages unchanged, `true` for "stream", the tools, the choice, the temperature and the token limit |
| ChatCompletions.FirstChoice | neverliie_ai_sdk/providers/openai_compatible.py:118-119 | `choices[0]` fails exactly when `choices` is present and empty; an absent list reads as one empty choice; otherwise the result is `choices[0]` |
| ChatCompletions.OrderedSlotsAreEntries | neverliie_ai_sdk/providers/openai_compatible.py:145 | a buffer that lists a slot is truthy |
| ChatCompletions.WithFragment | neverliie_ai_sdk/providers/openai_compatible.py:130-142 | the fragment's index slot is created on first sight, with the fragment's id and empty name and arguments; truthy name and argument pieces are appended; other slots and the insertion order are unchanged |
| ChatCompletions.WithFragments | neverliie_ai_sdk/providers/openai_compatible.py:129-142 | adding a delta's fragments keeps the buffer well formed: each slot is listed once in insertion order |
| ChatCompletions.SlotsAccumulateIndependently | neverliie_ai_sdk/providers/openai_compatible.py:129-142 | a slot exists exactly when some fragment has its index; the slot holds the first such fragment's id and the concatenated names and arguments of its own fragments only |
| ChatCompletions.SlotStep | neverliie_ai_sdk/providers/openai_compatible.py:130-142 | one more fragment keeps each slot equal to the assembly of that slot's fragments |
| ChatCompletions.AssembledSnoc | neverliie_ai_sdk/providers/openai_compatible.py:139-142 | one more fragment of a slot appends its name and argument pieces and keeps the first id |
| ChatCompletions.WithFragmentsConcat | neverliie_ai_sdk/providers/openai_compatible.py:128-142 | fragments of later chunks add onto the buffer earlier chunks left |
| ChatCompletions.FlushKeys | neverliie_ai_sdk/providers/openai_compatible.py:146-151 | one tool-call event per key, in the order given |
| ChatCompletions.Flush | neverliie_ai_sdk/providers/openai_compatible.py:146-151 | one event per buffered call, in insertion order, with the raw argument text |
| ChatCompletions.ChunkStep | neverliie_ai_sdk/providers/openai_compatible.py:117-151 | a chunk raises exactly when its `choices` list is empty; otherwise the buffer stays well formed |
| ChatCompletions.ChunkEventsOrdered | neverliie_ai_sdk/providers/openai_compatible.py:121-151 | a chunk yields its normalised content first (when the delta has non-empty content), then the flush when it finishes with "tool_calls" |
| ChatCompletions.CallsOfFlush | neverliie_ai_sdk/providers/openai_compatible.py:145-151 | the flushed calls are one per slot, in first-seen order, each with its id, name and raw arguments |
| ChatCompletions.ChunkToolCalls | neverliie_ai_sdk/providers/openai_compatible.py:145-151 | a chunk yields tool calls only when it finishes with "tool_calls", and then it yields every buffered call, including those flushed before, because the buffer is never cleared |
| ChatCompletions.Run | neverliie_ai_sdk/providers/openai_compatible.py:116-151 | the buffer stays well formed over any stream |
| ChatCompletions.FaultEndsStream | neverliie_ai_sdk/providers/openai_compatible.py:118 | a chunk with an empty `choices` list ends the stream with IndexError; later chunks change nothing |
| ChatCompletions.NoFaultWithoutRaise | neverliie_ai_sdk/providers/openai_compatible.py:118-119 | a stream none of whose chunks has an empty `choices` list ends without fault |
| ChatCompletions.BufferHoldsAllFragments | neverliie_ai_sdk/providers/openai_compatible.py:113-142 | after any stream, the buffer holds every fragment seen, accumulated as if delivered at once |
| ChatCompletions.NoToolsNoToolCalls | neverliie_ai_sdk/providers/openai_compatible.py:128 | without tools nothing is buffered and no tool call is yielded |
| ChatCompletions.ContentIsEveryDelta | neverliie_ai_sdk/providers/openai_compatible.py:121-125 | the content events are exactly the non-empty delta contents, normalised and in order, whatever the tool-call state |
| ChatCompletions.Reconstructor.constructor | neverliie_ai_sdk/providers/openai_compatible.py:113-114 | the buffer starts empty |
| ChatCompletions.Reconstructor.Accumulate | neverliie_ai_sdk/providers/openai_compatible.py:130-142 | the in-place update of the buffer dictionary is `WithFragment` |
| ChatCompletions.Reconstructor.AccumulateAll | neverliie_ai_sdk/providers/openai_compatible.py:129-142 | the fragment loop is `WithFragments` |
| ChatCompletions.Reconstructor.FlushAll | neverliie_ai_sdk/providers/openai_compatible.py:146-151 | the flush loop yields `Flush` of the buffer and changes nothing |
| ChatCompletions.Reconstructor.Feed | neverliie_ai_sdk/providers/openai_compatible.py:117-151 | the chunk-loop body makes the step `ChunkStep` describes, or raises |
| ChatCompletions.Reconstruct | neverliie_ai_sdk/providers/openai_compatible.py:116-151 | the generator loop yields exactly `Run(...).events` and ends with `Run(...).fault` |
| ChatCompletions.RunAfterFault | neverliie_ai_sdk/providers/openai_compatible.py:116-119 | when the first raising chunk is at i, the stream yields the events of the first i chunks and ends with IndexError |
| ChatCompletions.RunFaultSticks | neverliie_ai_sdk/providers/openai_compatible.py:116-119 | once a prefix has faulted, later chunks change nothing |
| Types.DecodeAll | neverliie_ai_sdk/providers/openai_compatible.py:116-117 | one decoded payload per data payload, in order (shared with `anthropic.py:216-217` and `google.py:214-215`) |
| ChatCompletions.StreamEvents | neverliie_ai_sdk/providers/openai_compatible.py:116-151 | an error response gives the client's error before anything is yielded; otherwise the events and fault of `Run` over the decoded data payloads |
| OpenAICompatible.ModelFallback | neverliie_ai_sdk/providers/openai_compatible.py:62 | the payload model is the model passed when non-empty, else the constructor's `default_model` when non-empty, else "" |
| OpenAICompatible.DefaultHeaders | neverliie_ai_sdk/providers/openai_compatible.py:39-41 | a bearer Authorization header plus the extra headers, which win on a collision |
| OpenAICompatible.Provider.constructor | neverliie_ai_sdk/providers/openai_compatible.py:21-47 | the configuration, the resolved default model, and a client built from the stripped base URL and the default headers |
| OpenAICompatible.Provider.Chat | neverliie_ai_sdk/providers/openai_compatible.py:49-76 | the payload is the non-streaming `Fields` of the resolved model and the messages unchanged, merged with kwargs; an ok response returns its JSON body unchanged, an ok response whose body is not JSON raises from `response.json()` (BodyNotJson), and any other response gives the client's error |
| OpenAICompatible.Provider.ChatStream | neverliie_ai_sdk/providers/openai_compatible.py:78-151 | the payload is the streaming `Fields` merged with kwargs; the result is the client's error, or the reconstructed events and fault of the decoded stream |
| Mistral.ContentVerbatim | neverliie_ai_sdk/providers/mistral.py:91-96 | content events carry the delta texts exactly as received, in order |
| Mistral.AllTextVerbatim | neverliie_ai_sdk/providers/mistral.py:91-96 | with the identity in place of normalisation, the stream text is the delta contents unchanged |
| Mistral.Provider.constructor | neverliie_ai_sdk/providers/mistral.py:11-17 | the base URL falls back to the Mistral endpoint; the only default header is the bearer token |
| Mistral.Provider.Chat | neverliie_ai_sdk/providers/mistral.py:19-46 | the payload is the non-streaming `Fields` with the model defaulting to "mistral-small-latest" and the messages unchanged, merged with kwargs; an ok response returns its JSON body unchanged, an ok response whose body is not JSON raises from `response.json()` (BodyNotJson), and any other response gives the client's error |
| Mistral.Provider.ChatStream | neverliie_ai_sdk/providers/mistral.py:48-122 | the payload is the streaming `Fields` merged with kwargs; the result is the client's error, or the reconstructed events of the decoded stream with verbatim content |
| Anthropic.AssistantContent | neverliie_ai_sdk/providers/anthropic.py:44-55 | a text block comes first exactly when the content is non-empty, then one tool_use block per call, in order, with id, name and input copied |
| Anthropic.BuildAssistantContent | neverliie_ai_sdk/providers/anthropic.py:46-55 | the block loop builds exactly `AssistantContent` |
| Anthropic.ConvertMessage | neverliie_ai_sdk/providers/anthropic.py:30-64 | a tool message becomes one user message holding a single tool_result block (its tool_call_id and content); a message with calls becomes a block list; any other message keeps its role and content |
| Anthropic.NonSystem | neverliie_ai_sdk/providers/anthropic.py:27-29 | the forwarded messages are never system messages |
| Anthropic.SystemIsLastSystemMessage | neverliie_ai_sdk/providers/anthropic.py:24-29 | the system prompt is the content of the last system message, or None when there is none |
| Anthropic.ForwardedAreTranslated | neverliie_ai_sdk/providers/anthropic.py:27-64 | the returned messages are the non-system messages, translated one for one and in order; none has role "system" |
| Anthropic.ToAnthropicMessages | neverliie_ai_sdk/providers/anthropic.py:23-66 | the translation loop returns exactly `Translate(messages)` |
| Anthropic.MapToolChoice | neverliie_ai_sdk/providers/anthropic.py:144-156 | auto → {type:auto}, none → {type:none}, required → {type:any}, pinned function → {type:tool, name}; any other value, and only such a value, leaves tool_choice out |
| Anthropic.BuildPayload | neverliie_ai_sdk/providers/anthropic.py:176-209 | the payload is `Fields` of the defaulted model and max_tokens, the translated messages and system prompt, the declarations and the mapped choice, merged with kwargs; kwargs win |
| Anthropic.FieldsKeys | neverliie_ai_sdk/providers/anthropic.py:133-158 | keys are model, max_tokens and messages always; stream only when streaming; system only for a non-empty prompt; tools, tool_choice and temperature only when given and mapped |
| Anthropic.FieldsRequired | neverliie_ai_sdk/providers/anthropic.py:133-143 | the required entries carry the model, the token limit, the translated messages and any non-empty system prompt |
| Anthropic.FieldsOptional | neverliie_ai_sdk/providers/anthropic.py:144-158 | the optional entries carry "stream": true, the declarations, the mapped choice and the temperature |
| Anthropic.CallsIffToolUse | neverliie_ai_sdk/providers/anthropic.py:89-104 | there are tool calls exactly when some block is a tool_use block |
| Anthropic.NormalizeResponse | neverliie_ai_sdk/providers/anthropic.py:81-119 | content is the text blocks concatenated in order, or None when empty; tool_calls is present exactly when a tool_use block exists; total = input + output tokens, with 0 for a missing count; id, model and stop reason are copied |
| Anthropic.Finalize | neverliie_ai_sdk/providers/anthropic.py:254-261 | accumulated arguments are parsed when non-empty and parseable; otherwise they stay the string; id and name are kept |
| Anthropic.Step | neverliie_ai_sdk/providers/anthropic.py:218-268 | one event yields at most one event: content exactly for a non-empty text delta, and a tool call exactly for a stop while a call is open |
| Anthropic.TextPassesThrough | neverliie_ai_sdk/providers/anthropic.py:221-229 | every non-empty text delta yields one content event with its text, in order, whatever the tool-call state; nothing else yields content |
| Anthropic.OpenCallAccumulates | neverliie_ai_sdk/providers/anthropic.py:230-235 | while a call is open, the partial_json fragments are appended in order, and nothing else changes the call |
| Anthropic.StartOpensFreshCall | neverliie_ai_sdk/providers/anthropic.py:238-249 | a tool_use start, honoured only with tools, opens a call with its id, its name and "" arguments, discarding any unclosed call; it yields nothing |
| Anthropic.StopEmitsOpenCall | neverliie_ai_sdk/providers/anthropic.py:252-268 | a stop with a call open yields exactly that call, finalised, with finish reason "tool_calls", and closes it; a stop with no call open yields nothing |
| Anthropic.NoStopNoNewCalls | neverliie_ai_sdk/providers/anthropic.py:252-268 | calls are yielded only at a stop; a call still open at the end is dropped |
| Anthropic.NoToolsNoToolCalls | neverliie_ai_sdk/providers/anthropic.py:238 | without tools no call is opened and none is yielded |
| Anthropic.CallFromTwoFragments | neverliie_ai_sdk/providers/anthropic.py:216-268 | a call streamed as a tool_use start, any two argument fragments and a stop yields exactly one tool call, with its id and name and the parsed joined arguments |
| Anthropic.Reconstructor.constructor | neverliie_ai_sdk/providers/anthropic.py:211-214 | no call is open at the start |
| Anthropic.Reconstructor.Feed | neverliie_ai_sdk/providers/anthropic.py:217-268 | the loop body moves `current_tool_call` and `in_tool_call` together, as `Step` says, and yields its events |
| Anthropic.Reconstruct | neverliie_ai_sdk/providers/anthropic.py:216-268 | the event loop yields exactly `Run(...).events` |
| Anthropic.Provider.constructor | neverliie_ai_sdk/providers/anthropic.py:11-21 | the base URL falls back to the Anthropic endpoint; the headers are x-api-key, anthropic-version 2023-06-01 and the content type |
| Anthropic.Provider.ChatStream | neverliie_ai_sdk/providers/anthropic.py:165-268 | the payload is the streaming `Fields` merged with kwargs; the result is the client's error, or the reconstructed events of the decoded stream (the per-event logic as intended, see Findings) |
| Anthropic.AsWrittenStream | neverliie_ai_sdk/providers/anthropic.py:256 | as written, a non-empty stream raises UnboundLocalError, and no other fault, before yielding anything; an empty stream ends normally |
| Anthropic.AsWrittenLosesText | neverliie_ai_sdk/providers/anthropic.py:217 | a single text delta "Hi" is yielded by the intended reconstruction but lost to UnboundLocalError as written |
| Google.RoleOf | neverliie_ai_sdk/providers/google.py:23 | user, system and tool map to "user"; every other role maps to "model" |
| Google.PartsOf | neverliie_ai_sdk/providers/google.py:24-49 | a tool message has exactly one functionResponse part (its name, default "unknown", and content); otherwise a text part comes first exactly for non-empty content, then one functionCall part per call in order; no parts exactly when there is neither |
| Google.BuildParts | neverliie_ai_sdk/providers/google.py:24-49 | the parts loop builds exactly `PartsOf` |
| Google.TurnsAreWellFormed | neverliie_ai_sdk/providers/google.py:20-56 | no more turns than messages; every turn has parts and the role "user" or "model" |
| Google.ContentsAppend | neverliie_ai_sdk/providers/google.py:22-55 | messages are converted independently and their order is kept |
| Google.ContentsOfOne | neverliie_ai_sdk/providers/google.py:43-55 | a tool message gives exactly one user turn with one functionResponse; a message without content or calls is dropped; otherwise exactly one turn |
| Google.ToGoogleContents | neverliie_ai_sdk/providers/google.py:20-56 | the message loop returns exactly `Contents(messages)` |
| Google.ConvertToolsToGoogle | neverliie_ai_sdk/providers/google.py:58-69 | exactly one entry, holding the declarations of the function tools |
| Google.ConvertToolChoice | neverliie_ai_sdk/providers/google.py:71-86 | auto → AUTO, none → NONE, required → ANY, pinned function → mode ANY allowing only that name; None exactly for any other value |
| Google.WrapToolConfig | neverliie_ai_sdk/providers/google.py:116 | a mode name is wrapped as functionCallingConfig{mode}; a whole config is kept with its allowed names |
| Google.ToolConfigOfChoice | neverliie_ai_sdk/providers/google.py:113-116 | the toolConfig each tool choice sends: AUTO, NONE, ANY, or ANY restricted to the pinned function |
| Google.BuildPayload | neverliie_ai_sdk/providers/google.py:186-206 | the payload is `Fields` of the converted contents, the generation settings, the wrapped declarations and the converted choice, merged with kwargs; kwargs win |
| Google.FieldsKeys | neverliie_ai_sdk/providers/google.py:189-204 | keys are contents always; generationConfig only when temperature or max_tokens is given; tools when given; toolConfig only when the choice converts |
| Google.FieldsValues | neverliie_ai_sdk/providers/google.py:189-204 | the entries carry the contents, the settings as given (the token limit as maxOutputTokens), the declarations as one group and the wrapped tool config |
| Google.CandidateParts | neverliie_ai_sdk/providers/google.py:129-132 | the parts are those of `candidates[0]` (none when its content or parts are absent), and there are no parts when the candidate list is absent or empty |
| Google.CallIdsArePositional | neverliie_ai_sdk/providers/google.py:135-145 | one call per functionCall part without text; the i-th call has id "call_i" |
| Google.NormalizeResponse | neverliie_ai_sdk/providers/google.py:125-168 | raises IndexError exactly when the candidate list is present but empty; otherwise content is the concatenated text (None when empty), tool_calls is present exactly when there are calls, the counts are copied with 0 defaults (total from totalTokenCount, not summed), and the model is the requested one |
| Google.PartStep | neverliie_ai_sdk/providers/google.py:222-248 | a text part yields its text, even when empty; a new call name yields one complete call and is recorded; a repeated name or a call without tools yields nothing |
| Google.TextsAreTextParts | neverliie_ai_sdk/providers/google.py:221-227 | every part with a text key yields one content event with that text, in part order, and nothing else yields content |
| Google.CallIdsAreDistinct | neverliie_ai_sdk/providers/google.py:232-236 | the recorded ids are exactly the ids of the yielded calls, and no id is yielded twice |
| Google.NoToolsNoToolCalls | neverliie_ai_sdk/providers/google.py:212 | without tools no call is yielded |
| Google.RepeatedNameSuppressed | neverliie_ai_sdk/providers/google.py:234-248 | a later part with an id already yielded adds nothing; the first part with a new id is yielded at once |
| Google.Streamer.constructor | neverliie_ai_sdk/providers/google.py:211-212 | the set of yielded ids starts empty |
| Google.Streamer.FeedPart | neverliie_ai_sdk/providers/google.py:223-248 | the part body updates `tool_calls_emitted` and yields events as `PartStep` says |
| Google.StreamEvents | neverliie_ai_sdk/providers/google.py:214-248 | the nested chunk and part loops yield exactly `Run` over all the parts read |
| Google.Provider.constructor | neverliie_ai_sdk/providers/google.py:12-18 | the base URL falls back to the Gemini endpoint; the only default header is the content type |
| Google.Provider.ChatStream | neverliie_ai_sdk/providers/google.py:170-248 | the payload is `Fields` merged with kwargs; the result is the client's error, or the events of all the parts of the decoded chunks |

## Left out

- HTTP transport (sessions, `session.post`, timeouts, `iter_lines`, `close`): a response enters as its status, its text, its decoded body and its lines. `response.ok` is taken as false exactly for statuses 400–599.
- JSON decoding: stream payloads, response bodies and tool arguments enter through the parameters `decode` and `parse`. No JSON parser is modelled.
- `temperature` is a float. The model carries it as an opaque JSON value; only its presence matters.
- An absent key and a key holding None are not distinguished. Examples are `model=None` passed explicitly to Mistral or Anthropic, a `None` `candidates` value, and the `KeyError`s raised by `msg["content"]`, `tool_call["id"]` or `tool_call["function"]`.
- Google.StreamId: an explicit null name gives id "call_None" in the source; the model gives "call_unknown".
- The constant `"type": "function"` entry of emitted tool calls, the `object`/`created` fields, and the `index: 0` of a normalised choice carry no behaviour and are not represented.
- Endpoint strings: the paths, and the Google endpoint, which embeds the model and the API key.
- `chat` of Anthropic and Google is not modelled as one method. It posts the payload and normalises the decoded body, which is the composition of `BuildPayload`, `HttpClient.Post` and `NormalizeResponse`.
- Aliasing: the dictionaries a generator yields are still referenced by its buffer. A caller that mutates them would change later events. Events are values here.
- Mistral.Provider.ChatStream, OpenAICompatible.Provider.ChatStream, Anthropic.Provider.ChatStream and Google.Provider.ChatStream return the whole event sequence. Laziness is not modelled: a consumer that stops early does not stop the loop.
- `_normalize_streaming_content` is a parameter, because no file in this model defines it. The model assumes a subclass supplies it. A plain `OpenAICompatible` instance has no such method: its `chat_stream` raises AttributeError at `openai_compatible.py:124` on the first chunk with non-empty content, which the model does not represent.
- `providers/openai.py` (the `OpenAI` class imported by `providers/__init__.py:1`) is not part of this model.
- `_types.py`, `_exceptions.py`, the package `__init__` files and `test.py` are not part of this model. The types appear as datatypes and the exception classes as `HttpClient.ErrorKind`.

## Findings

| source | as written | input that shows it | evidently intended | confidence | as-written member | corrected member |
|---|---|---|---|---|---|---|
| neverliie_ai_sdk/providers/anthropic.py:256 | `import json` inside the generator makes `json` a local name of `chat_stream`, so `json.loads` at line 217 raises UnboundLocalError on the first event | a stream whose single event is a text delta "Hi" | decode each event with the module-level `json` and yield "Hi" | not executed | Anthropic.AsWrittenLosesText | Anthropic.Reconstruct |
