/**
 * The OpenAI tracing proxy: `wrap_openai(client)` gives a `TracedOpenAI`
 * whose `chat.completions.create(...)` calls the wrapped client and, when a
 * recording session is active, logs an `"llm.request"` step before the call
 * and an `"llm.response"` or `"llm.error"` step after it.
 *
 * The SDK's response objects are duck-typed in the source and probed with
 * `getattr`/`hasattr`; here they are datatypes whose optional attributes are
 * `Attr` fields. `typeName` is the class name Python puts in the message of
 * the `AttributeError` raised when a required attribute is missing.
 */
module OpenAIWrapper {
  import opened Values
  import opened PyObjects
  import opened Recording
  import opened TracedBase

  const DefaultProvider := "openai"

  /** `choice.message`: its `role` and `content` attributes may be missing. */
  datatype ChatMessage = ChatMessage(role: Attr<Value>, content: Attr<Value>)

  /** One element of `response.choices`; `message` is required, `finish_reason` is optional. */
  datatype Choice = Choice(typeName: string, message: Attr<ChatMessage>, finishReason: Attr<Value>)

  /** `response.usage` when it is truthy; each token count may be missing. */
  datatype CompletionUsage = CompletionUsage(promptTokens: Attr<Value>, completionTokens: Attr<Value>, totalTokens: Attr<Value>)

  /** What the wrapped `completions.create` returns; `choices` is required, `usage` optional. */
  datatype ChatCompletion = ChatCompletion(
    typeName: string, choices: Attr<seq<Choice>>, usage: Attr<ObjectValue<CompletionUsage>>)

  /** The `"llm.request"` payload of `create`. */
  function CompletionRequestRecord(provider: string, kwargs: Dict, at: string): (r: Dict)
    ensures r.Keys == {"provider", "model", "messages", "timestamp"}
    ensures r["provider"] == Str(provider)
    ensures r["model"] == (if "model" in kwargs then kwargs["model"] else Str("unknown"))
    ensures r["messages"] == (if "messages" in kwargs then kwargs["messages"] else List([]))
    ensures r["timestamp"] == Str(at)
  {
    map["provider" := Str(provider), "model" := RequestedModel(kwargs),
        "messages" := RequestedMessages(kwargs), "timestamp" := Str(at)]
  }

  /** The record of one choice, with the defaults `getattr` supplies for missing attributes. */
  function ChoiceRecord(message: ChatMessage, finishReason: Attr<Value>): (r: Value)
    ensures r.Object? && r.fields.Keys == {"message", "finish_reason"}
    ensures r.fields["message"].Object? && r.fields["message"].fields.Keys == {"role", "content"}
    ensures r.fields["message"].fields["role"] == (match message.role case Present(v) => v case Absent => Str("assistant"))
    ensures r.fields["message"].fields["content"] == (match message.content case Present(v) => v case Absent => Str(""))
    ensures r.fields["finish_reason"] == (match finishReason case Present(v) => v case Absent => Null)
  {
    Object(map[
      "message" := Object(map["role" := message.role.Or(Str("assistant")),
                              "content" := message.content.Or(Str(""))]),
      "finish_reason" := finishReason.Or(Null)])
  }

  /** `r` extended with the records in front of it, or the error `r` carries. */
  function Prepend(records: seq<Value>, r: Result<seq<Value>>): Result<seq<Value>> {
    match r
    case Ok(rest) => Ok(records + rest)
    case Err(e) => Err(e)
  }

  lemma PrependTwice(a: seq<Value>, b: seq<Value>, r: Result<seq<Value>>)
    ensures Prepend(a, Prepend(b, r)) == Prepend(a + b, r)
  {
    if r.Ok? {
      assert a + (b + r.value) == (a + b) + r.value;
    }
  }

  /**
   * The records of `response.choices`, in order, or the `AttributeError` of
   * the first choice that has no `message`.
   */
  function RecordedChoices(choices: seq<Choice>): Result<seq<Value>> {
    if choices == [] then Ok([])
    else
      match choices[0].message
      case Absent => Err(MissingAttribute(choices[0].typeName, "message"))
      case Present(m) => Prepend([ChoiceRecord(m, choices[0].finishReason)], RecordedChoices(choices[1..]))
  }

  /** The choices are recorded exactly when every choice has a `message`. */
  lemma {:induction false} RecordedChoicesOkIffAllHaveMessages(choices: seq<Choice>)
    ensures RecordedChoices(choices).Ok? <==> forall i :: 0 <= i < |choices| ==> choices[i].message.Present?
  {
    if choices != [] && choices[0].message.Present? {
      var tail := choices[1..];
      RecordedChoicesOkIffAllHaveMessages(tail);
      assert forall i :: 1 <= i < |choices| ==> choices[i] == tail[i - 1];
    }
  }

  /** Recorded choices are one record per choice, in the same order. */
  lemma {:induction false} RecordedChoicesOnePerChoice(choices: seq<Choice>)
    requires RecordedChoices(choices).Ok?
    ensures |RecordedChoices(choices).value| == |choices|
    ensures forall i :: 0 <= i < |choices| ==>
      (choices[i].message.Present?
       && RecordedChoices(choices).value[i] == ChoiceRecord(choices[i].message.value, choices[i].finishReason))
  {
    if choices != [] {
      var tail := choices[1..];
      RecordedChoicesOnePerChoice(tail);
      assert forall i :: 1 <= i < |choices| ==> choices[i] == tail[i - 1];
    }
  }

  /** When the choices cannot be recorded, the error is that of the first choice without a `message`. */
  lemma {:induction false} RecordedChoicesFirstMissingMessage(choices: seq<Choice>)
    requires RecordedChoices(choices).Err?
    ensures exists k ::
      (0 <= k < |choices| && choices[k].message.Absent?
       && (forall j :: 0 <= j < k ==> choices[j].message.Present?)
       && RecordedChoices(choices).error == MissingAttribute(choices[k].typeName, "message"))
  {
    if choices[0].message.Present? {
      var tail := choices[1..];
      RecordedChoicesFirstMissingMessage(tail);
      var k :| 0 <= k < |tail| && tail[k].message.Absent?
        && (forall j :: 0 <= j < k ==> tail[j].message.Present?)
        && RecordedChoices(tail).error == MissingAttribute(tail[k].typeName, "message");
      assert forall j :: 1 <= j <= k ==> choices[j] == tail[j - 1];
      assert choices[k + 1] == tail[k];
    } else {
      assert choices[0].message.Absent?;
    }
  }

  /** The recorded usage: `None` unless `response.usage` is present and truthy. */
  function UsageRecord(usage: Attr<ObjectValue<CompletionUsage>>): (r: Value)
    ensures r == Null <==> !PresentAndTruthy(usage)
    ensures PresentAndTruthy(usage) ==>
      r.Object? && r.fields.Keys == {"prompt_tokens", "completion_tokens", "total_tokens"}
    ensures PresentAndTruthy(usage) ==>
      && r.fields["prompt_tokens"] == (match usage.value.obj.promptTokens case Present(n) => n case Absent => Int(0))
      && r.fields["completion_tokens"] == (match usage.value.obj.completionTokens case Present(n) => n case Absent => Int(0))
      && r.fields["total_tokens"] == (match usage.value.obj.totalTokens case Present(n) => n case Absent => Int(0))
  {
    if PresentAndTruthy(usage) then
      var u := usage.value.obj;
      Object(map["prompt_tokens" := u.promptTokens.Or(Int(0)),
                 "completion_tokens" := u.completionTokens.Or(Int(0)),
                 "total_tokens" := u.totalTokens.Or(Int(0))])
    else Null
  }

  /** The `"llm.response"` payload, or the exception raised while extracting it. */
  function CompletionResponseRecord(provider: string, model: Value, response: ChatCompletion, clock: Clock): Result<Dict> {
    match response.choices
    case Absent => Err(MissingAttribute(response.typeName, "choices"))
    case Present(cs) =>
      match RecordedChoices(cs)
      case Err(e) => Err(e)
      case Ok(records) =>
        Ok(map["provider" := Str(provider), "model" := model, "choices" := List(records),
               "usage" := UsageRecord(response.usage), "latency_seconds" := Latency(clock),
               "timestamp" := Str(clock.completedAt)])
  }

  /** The `"llm.error"` payload of `create`. */
  function CompletionErrorRecord(provider: string, model: Value, error: Exception, clock: Clock): Dict {
    map["provider" := Str(provider), "model" := model, "error" := Str(error.message),
        "error_type" := Str(error.typeName), "latency_seconds" := Latency(clock),
        "timestamp" := Str(clock.completedAt)]
  }

  /**
   * The `"llm.error"` step `create` appends for `e`: one when `except
   * Exception` catches `e`, none for a `BaseException` such as
   * `KeyboardInterrupt`, which passes through the handler unlogged.
   */
  function CompletionFailureSteps(provider: string, model: Value, e: Exception, clock: Clock): seq<Step> {
    if e.isException then [Step("llm.error", CompletionErrorRecord(provider, model, e, clock))] else []
  }

  /**
   * What `create` does, as a function of whether a session is active, the
   * keyword arguments and the wrapped client's outcome: the steps it appends
   * and what it returns or raises. The response is extracted inside the
   * `try`, so an exception raised by the extraction is logged and raised like
   * a failure of the client; that extraction happens only with a session.
   */
  function CreateTrace(active: bool, provider: string, kwargs: Dict, outcome: Outcome<ChatCompletion>, clock: Clock)
    : Trace<ChatCompletion>
  {
    if !active then Trace([], outcome)
    else
      var model := RequestedModel(kwargs);
      var request := Step("llm.request", CompletionRequestRecord(provider, kwargs, clock.requestedAt));
      match outcome
      case Raised(e) => Trace([request] + CompletionFailureSteps(provider, model, e, clock), outcome)
      case Returned(response) =>
        match CompletionResponseRecord(provider, model, response, clock)
        case Ok(record) => Trace([request, Step("llm.response", record)], outcome)
        case Err(e) => Trace([request] + CompletionFailureSteps(provider, model, e, clock), Raised(e))
  }

  /**
   * The loop of `create` that builds the recorded choices, stopping at the
   * first choice without a `message` (where Python raises).
   */
  method CollectChoices(cs: seq<Choice>) returns (r: Result<seq<Value>>)
    ensures r == RecordedChoices(cs)
  {
    var choices: seq<Value> := [];
    var i := 0;
    assert cs[i..] == cs;
    assert Prepend(choices, RecordedChoices(cs)) == RecordedChoices(cs) by {
      if RecordedChoices(cs).Ok? {
        assert choices + RecordedChoices(cs).value == RecordedChoices(cs).value;
      }
    }
    while i < |cs|
      invariant 0 <= i <= |cs|
      invariant RecordedChoices(cs) == Prepend(choices, RecordedChoices(cs[i..]))
    {
      assert cs[i..][0] == cs[i] && cs[i..][1..] == cs[i + 1..];
      if cs[i].message.Absent? {
        return Err(MissingAttribute(cs[i].typeName, "message"));
      }
      var msg := cs[i].message.value;
      PrependTwice(choices, [ChoiceRecord(msg, cs[i].finishReason)], RecordedChoices(cs[i + 1..]));
      choices := choices + [ChoiceRecord(msg, cs[i].finishReason)];
      i := i + 1;
    }
    assert cs[i..] == [] && choices + [] == choices;
    r := Ok(choices);
  }

  /**
   * A successful call with an active session appends `"llm.request"` then
   * `"llm.response"` and returns the client's response. The response step
   * has one record per choice, in order, the requested model (whatever the
   * response says) and the usage record.
   */
  lemma CreateSuccessLogsRequestThenResponse(provider: string, kwargs: Dict, response: ChatCompletion, clock: Clock)
    requires response.choices.Present?
    requires forall i :: 0 <= i < |response.choices.value| ==> response.choices.value[i].message.Present?
    ensures var t := CreateTrace(true, provider, kwargs, Returned(response), clock);
      && t.result == Returned(response)
      && |t.steps| == 2
      && t.steps[0] == Step("llm.request", CompletionRequestRecord(provider, kwargs, clock.requestedAt))
      && t.steps[1].kind == "llm.response"
      && t.steps[1].content.Keys == {"provider", "model", "choices", "usage", "latency_seconds", "timestamp"}
      && t.steps[1].content["provider"] == Str(provider)
      && t.steps[1].content["model"] == RequestedModel(kwargs)
      && t.steps[1].content["usage"] == UsageRecord(response.usage)
      && t.steps[1].content["latency_seconds"] == Latency(clock)
      && t.steps[1].content["choices"].List?
      && |t.steps[1].content["choices"].items| == |response.choices.value|
      && forall i :: 0 <= i < |response.choices.value| ==>
           t.steps[1].content["choices"].items[i]
             == ChoiceRecord(response.choices.value[i].message.value, response.choices.value[i].finishReason)
  {
    var cs := response.choices.value;
    RecordedChoicesOkIffAllHaveMessages(cs);
    RecordedChoicesOnePerChoice(cs);
    var records := RecordedChoices(cs).value;
    assert CompletionResponseRecord(provider, RequestedModel(kwargs), response, clock)
      == Ok(map["provider" := Str(provider), "model" := RequestedModel(kwargs), "choices" := List(records),
                "usage" := UsageRecord(response.usage), "latency_seconds" := Latency(clock),
                "timestamp" := Str(clock.completedAt)]);
  }

  /**
   * A call failing with an `Exception` while a session is active appends
   * `"llm.request"` then `"llm.error"` carrying the error text and type
   * name, never an `"llm.response"`, and raises the same exception.
   */
  lemma CreateFailureLogsRequestThenError(provider: string, kwargs: Dict, e: Exception, clock: Clock)
    requires e.isException
    ensures var t := CreateTrace(true, provider, kwargs, Raised(e), clock);
      && t.result == Raised(e)
      && |t.steps| == 2
      && t.steps[0] == Step("llm.request", CompletionRequestRecord(provider, kwargs, clock.requestedAt))
      && t.steps[1].kind == "llm.error"
      && t.steps[1].content["error"] == Str(e.message)
      && t.steps[1].content["error_type"] == Str(e.typeName)
      && t.steps[1].content["model"] == RequestedModel(kwargs)
      && forall s :: s in t.steps ==> s.kind != "llm.response"
  {
  }

  /**
   * A call interrupted by a `BaseException` that is not an `Exception`
   * (`KeyboardInterrupt`, `SystemExit`) leaves only the `"llm.request"` step
   * and passes the interruption on.
   */
  lemma CreateInterruptLogsOnlyRequest(provider: string, kwargs: Dict, e: Exception, clock: Clock)
    requires !e.isException
    ensures CreateTrace(true, provider, kwargs, Raised(e), clock)
      == Trace([Step("llm.request", CompletionRequestRecord(provider, kwargs, clock.requestedAt))], Raised(e))
  {
  }

  /**
   * A response without `choices`, or with a choice without `message`, is
   * handed back unchanged when no session is active; with a session the
   * extraction raises `AttributeError`, which is logged as `"llm.error"` and
   * raised instead of returning the response.
   */
  lemma CreateMalformedResponseRaisesOnlyWhenRecording(provider: string, kwargs: Dict, response: ChatCompletion, clock: Clock)
    requires response.choices.Absent?
      || exists i :: 0 <= i < |response.choices.value| && response.choices.value[i].message.Absent?
    ensures CreateTrace(false, provider, kwargs, Returned(response), clock) == Trace([], Returned(response))
    ensures var t := CreateTrace(true, provider, kwargs, Returned(response), clock);
      && t.result.Raised? && t.result.exception.typeName == "AttributeError"
      && |t.steps| == 2 && t.steps[0].kind == "llm.request" && t.steps[1].kind == "llm.error"
      && t.steps[1].content["error_type"] == Str("AttributeError")
  {
    if response.choices.Present? {
      RecordedChoicesOkIffAllHaveMessages(response.choices.value);
      RecordedChoicesFirstMissingMessage(response.choices.value);
    }
  }

  /** The wrapped SDK object `client.chat.completions`. */
  class CompletionsEndpoint {
    constructor () { }
  }

  /** The wrapped SDK object `client.chat`. */
  class ChatEndpoint {
    const completions: CompletionsEndpoint

    constructor (completions: CompletionsEndpoint)
      ensures this.completions == completions
    {
      this.completions := completions;
    }
  }

  /** The wrapped SDK client. */
  class OpenAIClient {
    const chat: ChatEndpoint

    constructor (chat: ChatEndpoint)
      ensures this.chat == chat
    {
      this.chat := chat;
    }
  }

  /** Proxy for `client.chat.completions`. */
  class TracedCompletions {
    const completions: CompletionsEndpoint
    const provider: string

    constructor (completions: CompletionsEndpoint, provider: string := DefaultProvider)
      ensures this.completions == completions && this.provider == provider
    {
      this.completions := completions;
      this.provider := provider;
    }

    /**
     * `create(**kwargs)`: `current` is the session `get_current_session()`
     * returns, `outcome` what the wrapped `completions.create` does with the
     * same arguments, `clock` the clock readings.
     */
    method Create(current: Session?, kwargs: Dict, outcome: Outcome<ChatCompletion>, clock: Clock)
      returns (result: Outcome<ChatCompletion>)
      modifies current
      ensures current == null ==> result == outcome
      ensures result == CreateTrace(current != null, provider, kwargs, outcome, clock).result
      ensures current != null ==>
        current.steps == old(current.steps) + CreateTrace(true, provider, kwargs, outcome, clock).steps
    {
      var session := current;
      var model := RequestedModel(kwargs);
      var messages := RequestedMessages(kwargs);
      if session != null {
        session.LogStep("llm.request", map["provider" := Str(provider), "model" := model,
                                           "messages" := messages, "timestamp" := Str(clock.requestedAt)]);
      }
      var failure: Option<Exception> := None;
      match outcome {
        case Raised(e) =>
          failure := Some(e);
        case Returned(response) =>
          if session != null {
            if response.choices.Absent? {
              failure := Some(MissingAttribute(response.typeName, "choices"));
            } else {
              var collected := CollectChoices(response.choices.value);
              if collected.Err? {
                failure := Some(collected.error);
              } else {
                var usage := Null;
                if PresentAndTruthy(response.usage) {
                  var u := response.usage.value.obj;
                  usage := Object(map["prompt_tokens" := u.promptTokens.Or(Int(0)),
                                      "completion_tokens" := u.completionTokens.Or(Int(0)),
                                      "total_tokens" := u.totalTokens.Or(Int(0))]);
                }
                session.LogStep("llm.response", map[
                  "provider" := Str(provider), "model" := model, "choices" := List(collected.value),
                  "usage" := usage, "latency_seconds" := Latency(clock),
                  "timestamp" := Str(clock.completedAt)]);
              }
            }
          }
      }
      if failure.Some? {
        if session != null && failure.value.isException {
          session.LogStep("llm.error", CompletionErrorRecord(provider, model, failure.value, clock));
        }
        result := Raised(failure.value);
      } else {
        result := outcome;
      }
    }
  }

  /** Proxy for `client.chat`. */
  class TracedChat {
    const chat: ChatEndpoint
    const provider: string
    const completions: TracedCompletions

    constructor (chat: ChatEndpoint, provider: string := DefaultProvider)
      ensures this.chat == chat && this.provider == provider
      ensures completions.completions == chat.completions && completions.provider == provider
    {
      this.chat := chat;
      this.provider := provider;
      this.completions := new TracedCompletions(chat.completions, provider);
    }
  }

  /** The traced client: its `chat` is traced, and its `base` keeps the wrapped client. */
  class TracedOpenAI {
    const base: TracedClientBase<OpenAIClient>
    const provider: string
    const chat: TracedChat

    constructor (client: OpenAIClient, provider: string := DefaultProvider)
      ensures base.client == client && this.provider == provider
      ensures chat.chat == client.chat && chat.provider == provider
      ensures chat.completions.completions == client.chat.completions && chat.completions.provider == provider
    {
      this.base := new TracedClientBase(client);
      this.provider := provider;
      this.chat := new TracedChat(client.chat, provider);
    }
  }

  /** `wrap_openai(client, provider)`. */
  method WrapOpenAI(client: OpenAIClient, provider: string := DefaultProvider) returns (traced: TracedOpenAI)
    ensures fresh(traced)
    ensures traced.base.client == client && traced.provider == provider
    ensures traced.chat.provider == provider && traced.chat.completions.provider == provider
    ensures traced.chat.completions.completions == client.chat.completions
  {
    traced := new TracedOpenAI(client, provider);
  }
}
