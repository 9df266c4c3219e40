# Tracing proxies for LLM clients

The EPI recorder records an agent's run as a sequence of steps in a
recording session. The `epi_recorder.wrappers` package wraps an OpenAI or
Anthropic SDK client in a proxy. A chat call made through the proxy reaches
the real client: `create` passes the caller's arguments on unchanged, and
`stream` passes them on with `stream=True` added. When a recording session
is active, the proxy also appends steps to that session:

- an `"llm.request"` step before the call;
- an `"llm.response"` step after a call that succeeds;
- an `"llm.error"` step after a call that fails with an `Exception`. The
  exception is then raised again. A `KeyboardInterrupt` or `SystemExit` is
  not caught: it passes through with only the request step logged.

This project models those proxies in Dafny and proves what they append and
what they hand back.

- `values.dfy` (`Values`): the JSON-like payload values, with Python's
  truthiness and `dict.get`.
- `pyobjects.dfy` (`PyObjects`): the Python object model the proxies rely
  on. It covers attributes probed with `hasattr`/`getattr`, objects used as
  truth values, exceptions by type name and `str()`, the outcome of a call
  into the SDK, and `round(x, 3)`.
- `recording.dfy` (`Recording`): the session and its step log, which only
  grows through `LogStep`, and the clock readings a call takes.
- `base.dfy` (`TracedBase`): `TracedClientBase` and its
  `_log_request`/`_log_response`/`_log_error` helpers.
- `openai.dfy` (`OpenAIWrapper`): `TracedCompletions.create` and the chain
  `wrap_openai` → `TracedOpenAI` → `TracedChat` → `TracedCompletions`, which
  passes the provider name along.
- `anthropic.dfy` (`AnthropicWrapper`): `TracedMessages.create`,
  `TracedMessages.stream`, `TracedAnthropic` and `wrap_anthropic`.

## How the model is built

- **Call inputs.** Each traced call is a method. It takes four inputs:
  - the current session (`null` when none is active);
  - the keyword arguments, as a `map<string, Value>`;
  - what the wrapped SDK call does (`Returned(response)` or
    `Raised(exception)`, or, for `stream`, the events it yields and how the
    stream ends);
  - the clock readings.
- **Specification functions.** Each method is proved equal to a function
  of those inputs:
  - `CreateTrace` gives the steps appended and the result returned or
    raised;
  - `StreamTrace` also gives the arguments passed on and the events
    yielded.
  Lemmas then state the promised properties of those functions.
- **Loops.** The loops of the source are loops here:
  - collecting the choices (`CollectChoices`);
  - collecting the content blocks (`CollectTextBlocks`);
  - yielding the events and accumulating the streamed text (`ForwardEvents`).
  Each loop is proved against a recursive function, and lemmas describe
  that function.
- **Responses.** The SDK's response objects are datatypes.
  - An attribute the source reads through `getattr(obj, name, default)` or
    guards with `hasattr` is an `Attr` field (`Absent` or `Present`).
  - An attribute read directly (`response.choices`, `choice.message`,
    `response.content`) is `Attr` too. If it is missing, Python raises an
    `AttributeError`, and the model raises it as well.
- **Exceptions.** A raised value has a type name, its `str()` text and a
  flag `isException`, which holds when its class derives from `Exception`.
  The proxies' `except Exception` blocks handle only raised values with the
  flag; the others (`KeyboardInterrupt`, `SystemExit`) leave the call
  without an `"llm.error"` step.

### Behaviour the source has and the model keeps

- **Extraction inside the `try`.** `create` extracts the response inside
  its `try` block, and only when a session is active. So with a session, a
  response without `choices` (OpenAI) or `content` (Anthropic), or a choice
  without `message`, makes `create` log an `"llm.error"` and raise
  `AttributeError`. Without a session the same response is returned
  unchanged (`CreateMalformedResponseRaisesOnlyWhenRecording`,
  `CreateMissingContentRaisesOnlyWhenRecording`).
- **`stream=True` in `stream`.** `stream` calls the client with
  `**kwargs, stream=True`. So a caller who passes `stream` gets a
  `TypeError`, which is logged as `"llm.error"` (`StreamCallArguments`,
  `StreamFailureLogsRequestThenError`).
- **The base helpers are not used by the proxies.** Neither proxy calls the
  `TracedClientBase` helpers; each builds its payloads inline. The helpers
  are modelled on their own and take the same session parameter.
- **Helper keyword arguments.** The extra keyword arguments of a helper
  cannot repeat the helper's own parameter names, because Python rejects
  such a call before the helper runs. The helpers' `requires` clauses say
  exactly this. Every other key in the extras overrides the fixed field of
  the same name.

## Model

| member | source | states |
|---|---|---|
| `OpenAIWrapper.TracedCompletions.Create` | epi_recorder/wrappers/openai.py:27-102 | Without a session it appends nothing and returns the client's outcome unchanged. With a session it appends exactly the steps `CreateTrace` gives and returns or raises what `CreateTrace` gives; the error step is appended only for an `Exception`. |
| `OpenAIWrapper.CompletionRequestRecord` | epi_recorder/wrappers/openai.py:36-46 | The request payload has exactly provider, model, messages and timestamp. Model defaults to `"unknown"` and messages to `[]` when they are not in kwargs. |
| `OpenAIWrapper.ChoiceRecord` | epi_recorder/wrappers/openai.py:59-66 | A choice record has exactly `message` (with exactly `role` and `content`) and `finish_reason`. A missing role becomes `"assistant"`, missing content `""` and a missing finish_reason `None`; a present one is recorded as is. |
| `OpenAIWrapper.RecordedChoicesOkIffAllHaveMessages` | epi_recorder/wrappers/openai.py:57-66 | The choices are recorded iff every choice has a `message`. |
| `OpenAIWrapper.RecordedChoicesOnePerChoice` | epi_recorder/wrappers/openai.py:57-66 | Recorded choices are one record per choice, in the same order, each the `ChoiceRecord` of that choice's message and finish_reason. |
| `OpenAIWrapper.RecordedChoicesFirstMissingMessage` | epi_recorder/wrappers/openai.py:58-59 | When the choices cannot be recorded, the error is the `AttributeError` of the first choice without a `message`. |
| `OpenAIWrapper.CollectChoices` | epi_recorder/wrappers/openai.py:57-66 | The `for`/`append` loop computes exactly the recorded choices, or stops with the same error. |
| `OpenAIWrapper.UsageRecord` | epi_recorder/wrappers/openai.py:68-75 | Usage is `None` iff `response.usage` is missing or falsy. Otherwise it has exactly the three token counts, each missing one being 0. |
| `OpenAIWrapper.CreateSuccessLogsRequestThenResponse` | epi_recorder/wrappers/openai.py:33-86 | A successful call with a session appends exactly `"llm.request"` then `"llm.response"` and returns the response. The response step has exactly its six keys: the requested model (not the response's), the usage record, the latency, and one choice record per choice, in order. |
| `OpenAIWrapper.CreateFailureLogsRequestThenError` | epi_recorder/wrappers/openai.py:88-102 | A call failing with an `Exception`, with a session, appends exactly `"llm.request"` then `"llm.error"`, never `"llm.response"`. The error step carries `str(e)`, the type name and the requested model, and the same exception is raised. |
| `OpenAIWrapper.CreateInterruptLogsOnlyRequest` | epi_recorder/wrappers/openai.py:88-102 | A call interrupted by a raised value that is not an `Exception` (`KeyboardInterrupt`, `SystemExit`) appends only `"llm.request"` and the value propagates unchanged. |
| `OpenAIWrapper.CreateMalformedResponseRaisesOnlyWhenRecording` | epi_recorder/wrappers/openai.py:50-102 | A response without `choices`, or with a choice without `message`, is returned untouched without a session. With a session the call logs `"llm.error"` with type `AttributeError` and raises it. |
| `OpenAIWrapper.TracedCompletions.constructor` | epi_recorder/wrappers/openai.py:18-20 | Keeps the wrapped `completions` and the provider, which defaults to `"openai"`. |
| `OpenAIWrapper.TracedChat.constructor` | epi_recorder/wrappers/openai.py:108-111 | Its `completions` proxy wraps `chat.completions` with the same provider. |
| `OpenAIWrapper.TracedOpenAI.constructor` | epi_recorder/wrappers/openai.py:134-144 | Keeps the client in the base. The provider reaches `TracedChat` and `TracedCompletions` unchanged, and they wrap the client's `chat` and `chat.completions`. |
| `OpenAIWrapper.WrapOpenAI` | epi_recorder/wrappers/openai.py:156-178 | Returns a new `TracedOpenAI` over the client in which the given provider reached every level. |
| `AnthropicWrapper.TracedMessages.Create` | epi_recorder/wrappers/anthropic.py:27-115 | Without a session it appends nothing and returns the client's outcome unchanged. With a session it appends exactly the steps `CreateTrace` gives, and the result is what `CreateTrace` gives; the error step is appended only for an `Exception`. |
| `AnthropicWrapper.MessagesRequestRecordFixedFields` | epi_recorder/wrappers/anthropic.py:36-51 | The request payload always has provider, timestamp, model (default `"unknown"`), messages (default `[]`) and `max_tokens`, which is `None` when it is not passed. |
| `AnthropicWrapper.MessagesRequestRecordKeepsFixedFields` | epi_recorder/wrappers/anthropic.py:45-59 | The conditional assignments of `temperature`, `top_p` and `system` keep every key of the fixed dict with its value. |
| `AnthropicWrapper.MessagesRequestRecordOptionalFields` | epi_recorder/wrappers/anthropic.py:39-59 | `temperature`, `top_p` and `system` are present iff passed and not `None`, with the passed value. There are no other keys. |
| `AnthropicWrapper.BuildMessagesRequest` | epi_recorder/wrappers/anthropic.py:36-59 | The fixed dict followed by the conditional assignments builds exactly `MessagesRequestRecord`, whose fields the two lemmas above describe. |
| `AnthropicWrapper.ExtractMessagesResponse` | epi_recorder/wrappers/anthropic.py:70-97 | The extraction builds exactly `MessagesResponseRecord`: the `AttributeError` of a missing `content`, or the payload with the text records and the usage record. |
| `AnthropicWrapper.TextBlocksAppend` | epi_recorder/wrappers/anthropic.py:72-78 | Recording blocks `a + b` gives the records of `a` followed by those of `b`: order is kept and each block contributes on its own. |
| `AnthropicWrapper.TextBlocksAreTextRecords` | epi_recorder/wrappers/anthropic.py:72-78 | Every record is `{"type":"text","text":…}` of a block that has `text`. There are no more records than blocks, and none when no block has text. |
| `AnthropicWrapper.CollectTextBlocks` | epi_recorder/wrappers/anthropic.py:72-78 | The loop computes exactly `TextBlocks(blocks)`. |
| `AnthropicWrapper.MessageUsageRecord` | epi_recorder/wrappers/anthropic.py:81-86 | Usage is `None` iff `response.usage` is missing or falsy. Otherwise it has exactly `input_tokens` and `output_tokens`, each defaulting to 0. |
| `AnthropicWrapper.CreateSuccessLogsRequestThenResponse` | epi_recorder/wrappers/anthropic.py:65-99 | A successful call with a session appends exactly `"llm.request"` then `"llm.response"` and returns the response. The response step has exactly its eight keys: the requested model, role (default `"assistant"`), stop_reason (default `None`), the text records and the usage record. |
| `AnthropicWrapper.CreateFailureLogsRequestThenError` | epi_recorder/wrappers/anthropic.py:101-115 | A call failing with an `Exception`, with a session, appends exactly `"llm.request"` then `"llm.error"` carrying `str(e)` and its type name. No response step is appended, and the same exception is raised. |
| `AnthropicWrapper.CreateInterruptLogsOnlyRequest` | epi_recorder/wrappers/anthropic.py:101-115 | A call interrupted by a raised value that is not an `Exception` appends only `"llm.request"` and the value propagates unchanged. |
| `AnthropicWrapper.CreateMissingContentRaisesOnlyWhenRecording` | epi_recorder/wrappers/anthropic.py:65-115 | A response without `content` is returned untouched without a session. With a session it is logged as `"llm.error"` and its `AttributeError` is raised. |
| `AnthropicWrapper.StreamCallArguments` | epi_recorder/wrappers/anthropic.py:144 | The wrapped client gets the caller's keyword arguments unchanged plus `stream=True`, iff the caller did not pass `stream`. Otherwise the call raises a `TypeError`. |
| `AnthropicWrapper.DeltaTextsAppend` | epi_recorder/wrappers/anthropic.py:146-149 | The texts accumulated over `a + b` are those of `a` followed by those of `b`. |
| `AnthropicWrapper.JoinAppend` | epi_recorder/wrappers/anthropic.py:163 | `"".join` of `a + b` is the join of `a` followed by the join of `b`. |
| `AnthropicWrapper.StreamedTextAppend` | epi_recorder/wrappers/anthropic.py:146-163 | The recorded text of `a + b` is the text of `a` followed by the text of `b`. |
| `AnthropicWrapper.StreamedTextSkipsEventsWithoutText` | epi_recorder/wrappers/anthropic.py:148-149 | An event without `delta` or without `delta.text` adds nothing to the recorded text, wherever it occurs. |
| `AnthropicWrapper.StreamedTextOfOneEvent` | epi_recorder/wrappers/anthropic.py:148-163 | An event with `delta.text` contributes exactly that text, at its position. |
| `AnthropicWrapper.ForwardEvents` | epi_recorder/wrappers/anthropic.py:146-151 | The loop yields every event unchanged and in order, and accumulates exactly `DeltaTexts` of the events. |
| `AnthropicWrapper.TracedMessages.Stream` | epi_recorder/wrappers/anthropic.py:117-184 | The stream consumed to the end passes on, yields and raises exactly what `StreamTrace` gives. With a session it appends exactly `StreamTrace`'s steps, with the text accumulated by the loop; the error step is appended only for an `Exception`. |
| `AnthropicWrapper.StreamIsTransparent` | epi_recorder/wrappers/anthropic.py:123-184 | Without a session nothing is appended. Whether a session is active never changes the arguments passed on, the events yielded or the exception raised. |
| `AnthropicWrapper.StreamSuccessLogsRequestThenResponse` | epi_recorder/wrappers/anthropic.py:130-168 | A stream that ends normally yields every event unchanged and in order and passes `stream=True` on. With a session it appends `"llm.request"` then one `"llm.response"`, both with `"stream": True`, whose one text block is the concatenation of the events' texts. |
| `AnthropicWrapper.StreamFailureLogsRequestThenError` | epi_recorder/wrappers/anthropic.py:170-184 | A stream that fails with an `Exception` (including the `TypeError` of a caller-passed `stream`) yields the events before the failure and raises the exception. With a session it appends `"llm.request"` then `"llm.error"`, both with `"stream": True`, carrying that error's text and type. No response step is appended. |
| `AnthropicWrapper.StreamInterruptLogsOnlyRequest` | epi_recorder/wrappers/anthropic.py:170-184 | A stream interrupted by a raised value that is not an `Exception` yields the events before it and lets it propagate; with a session only the `"llm.request"` step is appended. |
| `AnthropicWrapper.TracedMessages.constructor` | epi_recorder/wrappers/anthropic.py:18-20 | Keeps the wrapped `messages`; the provider is always `"anthropic"`. |
| `AnthropicWrapper.TracedAnthropic.constructor` | epi_recorder/wrappers/anthropic.py:208-216 | Keeps the client in the base; its `messages` proxy wraps `client.messages`. |
| `AnthropicWrapper.WrapAnthropic` | epi_recorder/wrappers/anthropic.py:227-252 | Returns a new `TracedAnthropic` over the client. |
| `TracedBase.RequestRecord` | epi_recorder/wrappers/base.py:36-42 | The `_log_request` payload has the four fixed keys plus the extras. Provider, model and messages are the arguments and cannot be replaced; an extra named `timestamp` replaces the timestamp, and every other extra is recorded as given. |
| `TracedBase.ResponseRecord` | epi_recorder/wrappers/base.py:56-66 | The `_log_response` payload holds one assistant choice with the given content. `usage` is present iff truthy and `latency_seconds` iff given, rounded to thousandths. The extras, applied last, replace same-named fields. |
| `TracedBase.ErrorRecord` | epi_recorder/wrappers/base.py:73-79 | The `_log_error` payload carries provider, `str(error)` and the type name. Extras override `error_type`, the timestamp and anything else. |
| `TracedBase.TracedClientBase.constructor` | epi_recorder/wrappers/base.py:18-25 | Keeps the wrapped client. |
| `TracedBase.TracedClientBase.LogRequest` | epi_recorder/wrappers/base.py:32-42 | With a session it appends exactly one `"llm.request"` step with `RequestRecord`; without one it does nothing. |
| `TracedBase.TracedClientBase.LogResponse` | epi_recorder/wrappers/base.py:44-67 | With a session it appends exactly one `"llm.response"` step, built field by field, equal to `ResponseRecord`; without one it does nothing. |
| `TracedBase.TracedClientBase.LogError` | epi_recorder/wrappers/base.py:69-79 | With a session it appends exactly one `"llm.error"` step with `ErrorRecord`; without one it does nothing. |
| `PyObjects.RoundMillis` | epi_recorder/wrappers/base.py:65 | `round(x, 3)` gives a whole number of thousandths within half a thousandth of `x`. |
| `PyObjects.RoundHalfEven` | epi_recorder/wrappers/openai.py:82 | Python's rounding: within one half of the input, with ties going to the even integer. |

## Left out

- Key order of the payload dicts: payloads are maps. The order in which Python inserts the keys is not modelled.
- The clock: `datetime.utcnow().isoformat()` and `time.time()` are inputs (`Clock`), not reads of a clock.
- RoundMillis: computed on the exact real value of the latency. The conversion of the rounded decimal back to a binary float is not modelled.
- StreamCallArguments: the `TypeError` message is a fixed text. Python prefixes it with the qualified name of the SDK's `create`, which is not modelled.
- `__getattr__` forwarding of `TracedOpenAI`/`TracedAnthropic` to the wrapped client: dynamic attribute delegation to foreign code.
- Generator laziness of `stream`: nothing, not even the request step, runs before the first iteration. Closing the generator early is also not modelled. `Stream` is the generator consumed to the end.
- Positional `*args` passed through to the SDK: they are passed on untouched and never recorded.
- The session itself: `get_current_session`, the recording's timestamps, closing and archive writing are not part of this model. `epi_recorder/api.py` is not part of this model. A session that is present is taken to be truthy, and `log_step` is taken not to raise.
- Non-iterable `choices`/`content`: iterating them makes Python raise a `TypeError` inside the `try`. The model gives choices and content their SDK types.
- Non-string `delta.text`: `"".join` at `epi_recorder/wrappers/anthropic.py:163` would raise a `TypeError`, and it runs only with a session, so that failure depends on the session. The model gives delta text its SDK type, a string.
- The wrapped client is taken not to log to the session itself. A proxy whose client is itself a proxy (`wrap_openai(wrap_openai(c))`) would append the inner proxy's steps between the outer ones; the SDK call is an opaque outcome here.
- `messages`, `max_tokens` and the other recorded arguments are recorded as the caller's values. Python records the same objects, so later mutation by the caller would show in the log; aliasing is not modelled.
- The package `__init__.py` re-exports only the OpenAI names and the base class; a re-export is not behaviour.
- Test, demo and stress scripts, signing, verification and key management: they exercise code that is not part of this model.
