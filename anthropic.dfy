/**
 * The Anthropic tracing proxy: `wrap_anthropic(client)` gives a
 * `TracedAnthropic` whose `messages.create(...)` and `messages.stream(...)`
 * call the wrapped client and, when a recording session is active, log an
 * `"llm.request"` step before the call and an `"llm.response"` or
 * `"llm.error"` step after it. The provider is always `"anthropic"`.
 */
module AnthropicWrapper {
  import opened Values
  import opened PyObjects
  import opened Recording
  import opened TracedBase

  const Provider := "anthropic"

  /** One element of `response.content`; only blocks with a `text` attribute are recorded. */
  datatype ContentBlock = ContentBlock(text: Attr<Value>)

  /** `response.usage` when it is truthy; each token count may be missing. */
  datatype MessageUsage = MessageUsage(inputTokens: Attr<Value>, outputTokens: Attr<Value>)

  /** What the wrapped `messages.create` returns; `content` is required, the rest optional. */
  datatype Message = Message(
    typeName: string, content: Attr<seq<ContentBlock>>, role: Attr<Value>,
    stopReason: Attr<Value>, usage: Attr<ObjectValue<MessageUsage>>)

  /** `chunk.delta` of a streamed event; its `text` may be missing. */
  datatype Delta = Delta(text: Attr<string>)

  /** One streamed event (chunk); its `delta` may be missing. */
  datatype StreamEvent = StreamEvent(delta: Attr<Delta>)

  /**
   * What the wrapped `messages.create(..., stream=True)` gives: the events it
   * yields, then either the end of the stream or the exception it raises
   * (an exception of the call itself is a failure after no events).
   */
  datatype EventStream = EventStream(events: seq<StreamEvent>, failure: Option<Exception>)

  /** `d[key] = v` when `v is not None`. */
  function WithOptional(d: Dict, key: string, v: Value): (r: Dict)
    ensures d.Keys <= r.Keys <= d.Keys + {key}
    ensures key in r <==> key in d || v != Null
    ensures v != Null ==> r[key] == v
    ensures forall k :: k in d && k != key ==> r[k] == d[k]
  {
    if v != Null then d[key := v] else d
  }

  /** `key` is in the request payload `r` exactly when the caller passed it with a value other than `None`, and then with that value. */
  predicate RecordedIfNotNone(r: Dict, kwargs: Dict, key: string) {
    (key in r <==> key in kwargs && kwargs[key] != Null) && (key in r ==> r[key] == kwargs[key])
  }

  /** The dict literal `create` starts its request payload from. */
  function MessagesRequestFixedFields(kwargs: Dict, at: string): Dict {
    map["provider" := Str(Provider), "model" := RequestedModel(kwargs),
        "messages" := RequestedMessages(kwargs),
        "max_tokens" := Get(kwargs, "max_tokens", Null), "timestamp" := Str(at)]
  }

  /**
   * The `"llm.request"` payload of `create`: the fixed fields, then
   * `temperature`, `top_p` and `system` each added when it is not `None`.
   */
  function MessagesRequestRecord(kwargs: Dict, at: string): Dict {
    var requestData := MessagesRequestFixedFields(kwargs, at);
    var withTemperature := WithOptional(requestData, "temperature", Get(kwargs, "temperature", Null));
    var withTopP := WithOptional(withTemperature, "top_p", Get(kwargs, "top_p", Null));
    WithOptional(withTopP, "system", Get(kwargs, "system", Null))
  }

  /**
   * The request payload always holds the provider, the model (default
   * `"unknown"`), the messages (default `[]`), `max_tokens` (default `None`)
   * and the timestamp.
   */
  lemma MessagesRequestRecordFixedFields(kwargs: Dict, at: string)
    ensures var r := MessagesRequestRecord(kwargs, at);
      && {"provider", "model", "messages", "max_tokens", "timestamp"} <= r.Keys
      && r["provider"] == Str(Provider) && r["timestamp"] == Str(at)
      && r["model"] == (if "model" in kwargs then kwargs["model"] else Str("unknown"))
      && r["messages"] == (if "messages" in kwargs then kwargs["messages"] else List([]))
      && r["max_tokens"] == (if "max_tokens" in kwargs then kwargs["max_tokens"] else Null)
  {
    var fixed, r := MessagesRequestFixedFields(kwargs, at), MessagesRequestRecord(kwargs, at);
    assert fixed.Keys <= r.Keys && r["provider"] == fixed["provider"] && r["timestamp"] == fixed["timestamp"]
      && r["model"] == fixed["model"] && r["messages"] == fixed["messages"] && r["max_tokens"] == fixed["max_tokens"] by {
      MessagesRequestRecordKeepsFixedFields(kwargs, at);
    }
  }

  /** No optional argument replaces a field of the fixed dict literal. */
  lemma MessagesRequestRecordKeepsFixedFields(kwargs: Dict, at: string)
    ensures var fixed, r := MessagesRequestFixedFields(kwargs, at), MessagesRequestRecord(kwargs, at);
      forall k :: k in fixed ==> k in r && r[k] == fixed[k]
  {
    var fixed := MessagesRequestFixedFields(kwargs, at);
    forall k | k in fixed
      ensures k in MessagesRequestRecord(kwargs, at) && MessagesRequestRecord(kwargs, at)[k] == fixed[k]
    {
      assert k != "temperature" && k != "top_p" && k != "system";
    }
  }

  /**
   * `temperature`, `top_p` and `system` are in the request payload exactly
   * when the caller passed them with a value other than `None`, and then
   * with that value; the payload has no other keys.
   */
  lemma MessagesRequestRecordOptionalFields(kwargs: Dict, at: string)
    ensures var r := MessagesRequestRecord(kwargs, at);
      && r.Keys <= {"provider", "model", "messages", "max_tokens", "timestamp", "temperature", "top_p", "system"}
      && RecordedIfNotNone(r, kwargs, "temperature")
      && RecordedIfNotNone(r, kwargs, "top_p")
      && RecordedIfNotNone(r, kwargs, "system")
  {
  }

  /** The recorded content: one text record per block that has `text`, in order. */
  function TextBlocks(blocks: seq<ContentBlock>): seq<Value> {
    if blocks == [] then []
    else
      (if blocks[0].text.Present? then [TextBlock(blocks[0].text.value)] else [])
        + TextBlocks(blocks[1..])
  }

  /**
   * Recording the content of two runs of blocks one after the other gives the
   * two recordings one after the other: blocks are kept in order and each
   * contributes on its own.
   */
  lemma {:induction false} TextBlocksAppend(a: seq<ContentBlock>, b: seq<ContentBlock>)
    ensures TextBlocks(a + b) == TextBlocks(a) + TextBlocks(b)
  {
    if a == [] {
      assert a + b == b;
    } else {
      assert (a + b)[1..] == a[1..] + b;
      TextBlocksAppend(a[1..], b);
    }
  }

  /** The recorded content keeps exactly the blocks with text: no more records than blocks, all of them text records. */
  lemma {:induction false} TextBlocksAreTextRecords(blocks: seq<ContentBlock>)
    ensures |TextBlocks(blocks)| <= |blocks|
    ensures (forall b :: b in blocks ==> b.text.Absent?) ==> TextBlocks(blocks) == []
    ensures forall v :: v in TextBlocks(blocks) ==>
      exists b :: b in blocks && b.text.Present? && v == TextBlock(b.text.value)
  {
    if blocks != [] {
      TextBlocksAreTextRecords(blocks[1..]);
      assert forall b :: b in blocks[1..] ==> b in blocks;
    }
  }

  /** The loop of `create` that builds the recorded content. */
  method CollectTextBlocks(blocks: seq<ContentBlock>) returns (content: seq<Value>)
    ensures content == TextBlocks(blocks)
  {
    content := [];
    var i := 0;
    while i < |blocks|
      invariant 0 <= i <= |blocks|
      invariant content == TextBlocks(blocks[..i])
    {
      var block := blocks[i];
      assert blocks[..i + 1] == blocks[..i] + [block];
      TextBlocksAppend(blocks[..i], [block]);
      if block.text.Present? {
        content := content + [TextBlock(block.text.value)];
      }
      i := i + 1;
    }
    assert blocks[..i] == blocks;
  }

  /** The recorded usage: `None` unless `response.usage` is present and truthy. */
  function MessageUsageRecord(usage: Attr<ObjectValue<MessageUsage>>): (r: Value)
    ensures r == Null <==> !PresentAndTruthy(usage)
    ensures PresentAndTruthy(usage) ==> r.Object? && r.fields.Keys == {"input_tokens", "output_tokens"}
    ensures PresentAndTruthy(usage) ==>
      r.fields["input_tokens"] == (match usage.value.obj.inputTokens case Present(n) => n case Absent => Int(0))
      && r.fields["output_tokens"] == (match usage.value.obj.outputTokens case Present(n) => n case Absent => Int(0))
  {
    if PresentAndTruthy(usage) then
      var u := usage.value.obj;
      Object(map["input_tokens" := u.inputTokens.Or(Int(0)), "output_tokens" := u.outputTokens.Or(Int(0))])
    else Null
  }

  /** The `"llm.response"` payload of `create`, or the exception raised while extracting it. */
  function MessagesResponseRecord(model: Value, response: Message, clock: Clock): Result<Dict> {
    match response.content
    case Absent => Err(MissingAttribute(response.typeName, "content"))
    case Present(blocks) =>
      Ok(map["provider" := Str(Provider), "model" := model, "role" := response.role.Or(Str("assistant")),
             "content" := List(TextBlocks(blocks)), "usage" := MessageUsageRecord(response.usage),
             "stop_reason" := response.stopReason.Or(Null), "latency_seconds" := Latency(clock),
             "timestamp" := Str(clock.completedAt)])
  }

  /** The `"llm.error"` payload of `create`. */
  function MessagesErrorRecord(model: Value, error: Exception, clock: Clock): Dict {
    map["provider" := Str(Provider), "model" := model, "error" := Str(error.message),
        "error_type" := Str(error.typeName), "latency_seconds" := Latency(clock),
        "timestamp" := Str(clock.completedAt)]
  }

  /**
   * The `"llm.error"` step `create` appends for `e`: one when `except
   * Exception` catches `e`, none for a `BaseException` such as
   * `KeyboardInterrupt`, which passes through the handler unlogged.
   */
  function MessagesFailureSteps(model: Value, e: Exception, clock: Clock): seq<Step> {
    if e.isException then [Step("llm.error", MessagesErrorRecord(model, e, clock))] else []
  }

  /**
   * What `create` does: the steps it appends when a session is active and
   * what it returns or raises. As in the OpenAI proxy, an exception raised
   * while extracting the response is logged and raised.
   */
  function CreateTrace(active: bool, kwargs: Dict, outcome: Outcome<Message>, clock: Clock): Trace<Message> {
    if !active then Trace([], outcome)
    else
      var model := RequestedModel(kwargs);
      var request := Step("llm.request", MessagesRequestRecord(kwargs, clock.requestedAt));
      match outcome
      case Raised(e) => Trace([request] + MessagesFailureSteps(model, e, clock), outcome)
      case Returned(response) =>
        match MessagesResponseRecord(model, response, clock)
        case Ok(record) => Trace([request, Step("llm.response", record)], outcome)
        case Err(e) => Trace([request] + MessagesFailureSteps(model, e, clock), Raised(e))
  }

  /**
   * A successful call with an active session appends `"llm.request"` then
   * `"llm.response"` and returns the client's response. The response step
   * records the requested model, the role (default `"assistant"`), the text
   * blocks, the usage record and the stop reason (default `None`).
   */
  lemma CreateSuccessLogsRequestThenResponse(kwargs: Dict, response: Message, clock: Clock)
    requires response.content.Present?
    ensures var t := CreateTrace(true, kwargs, Returned(response), clock);
      && t.result == Returned(response)
      && |t.steps| == 2
      && t.steps[0] == Step("llm.request", MessagesRequestRecord(kwargs, clock.requestedAt))
      && t.steps[1].kind == "llm.response"
      && t.steps[1].content.Keys
           == {"provider", "model", "role", "content", "usage", "stop_reason", "latency_seconds", "timestamp"}
      && t.steps[1].content["model"] == RequestedModel(kwargs)
      && t.steps[1].content["role"] == (match response.role case Present(v) => v case Absent => Str("assistant"))
      && t.steps[1].content["stop_reason"] == (match response.stopReason case Present(v) => v case Absent => Null)
      && t.steps[1].content["content"] == List(TextBlocks(response.content.value))
      && t.steps[1].content["usage"] == MessageUsageRecord(response.usage)
  {
    var model := RequestedModel(kwargs);
    var record := MessagesResponseRecord(model, response, clock).value;
    assert CreateTrace(true, kwargs, Returned(response), clock)
      == Trace([Step("llm.request", MessagesRequestRecord(kwargs, clock.requestedAt)), Step("llm.response", record)],
               Returned(response));
  }

  /**
   * A call failing with an `Exception` while a session is active appends
   * `"llm.request"` then `"llm.error"` with the error text and type name,
   * and raises the same exception.
   */
  lemma CreateFailureLogsRequestThenError(kwargs: Dict, e: Exception, clock: Clock)
    requires e.isException
    ensures var t := CreateTrace(true, kwargs, Raised(e), clock);
      && t.result == Raised(e)
      && |t.steps| == 2
      && t.steps[0].kind == "llm.request" && t.steps[1].kind == "llm.error"
      && t.steps[1].content["error"] == Str(e.message)
      && t.steps[1].content["error_type"] == Str(e.typeName)
      && forall s :: s in t.steps ==> s.kind != "llm.response"
  {
  }

  /**
   * A call interrupted by a `BaseException` that is not an `Exception`
   * leaves only the `"llm.request"` step and passes the interruption on.
   */
  lemma CreateInterruptLogsOnlyRequest(kwargs: Dict, e: Exception, clock: Clock)
    requires !e.isException
    ensures CreateTrace(true, kwargs, Raised(e), clock)
      == Trace([Step("llm.request", MessagesRequestRecord(kwargs, clock.requestedAt))], Raised(e))
  {
  }

  /**
   * A response without `content` is handed back unchanged without a session;
   * with one, `create` logs and raises the `AttributeError`.
   */
  lemma CreateMissingContentRaisesOnlyWhenRecording(kwargs: Dict, response: Message, clock: Clock)
    requires response.content.Absent?
    ensures CreateTrace(false, kwargs, Returned(response), clock) == Trace([], Returned(response))
    ensures var t := CreateTrace(true, kwargs, Returned(response), clock);
      && t.result == Raised(MissingAttribute(response.typeName, "content"))
      && |t.steps| == 2 && t.steps[1].kind == "llm.error"
  {
  }

  /** The texts `stream` accumulates: `chunk.delta.text` of each event that has one, in order. */
  function DeltaTexts(events: seq<StreamEvent>): seq<string> {
    if events == [] then []
    else
      (if events[0].delta.Present? && events[0].delta.value.text.Present?
       then [events[0].delta.value.text.value] else [])
        + DeltaTexts(events[1..])
  }

  lemma {:induction false} DeltaTextsAppend(a: seq<StreamEvent>, b: seq<StreamEvent>)
    ensures DeltaTexts(a + b) == DeltaTexts(a) + DeltaTexts(b)
  {
    if a == [] {
      assert a + b == b;
    } else {
      assert (a + b)[1..] == a[1..] + b;
      DeltaTextsAppend(a[1..], b);
    }
  }

  /** `"".join(pieces)`. */
  function Join(pieces: seq<string>): string {
    if pieces == [] then "" else pieces[0] + Join(pieces[1..])
  }

  lemma {:induction false} JoinAppend(a: seq<string>, b: seq<string>)
    ensures Join(a + b) == Join(a) + Join(b)
  {
    if a == [] {
      assert a + b == b;
    } else {
      assert (a + b)[1..] == a[1..] + b;
      JoinAppend(a[1..], b);
    }
  }

  /** The text `stream` records for the events it yielded. */
  function StreamedText(events: seq<StreamEvent>): string {
    Join(DeltaTexts(events))
  }

  /**
   * The recorded text is the in-order concatenation of the events' texts:
   * the text of two runs of events is the text of the first followed by the
   * text of the second, and an event without `delta.text` adds nothing.
   */
  lemma StreamedTextAppend(a: seq<StreamEvent>, b: seq<StreamEvent>)
    ensures StreamedText(a + b) == StreamedText(a) + StreamedText(b)
  {
    DeltaTextsAppend(a, b);
    JoinAppend(DeltaTexts(a), DeltaTexts(b));
  }

  lemma StreamedTextSkipsEventsWithoutText(a: seq<StreamEvent>, e: StreamEvent, b: seq<StreamEvent>)
    requires e.delta.Absent? || e.delta.value.text.Absent?
    ensures StreamedText(a + [e] + b) == StreamedText(a + b)
  {
    StreamedTextAppend(a + [e], b);
    StreamedTextAppend(a, [e]);
    StreamedTextAppend(a, b);
    assert DeltaTexts([e]) == [] by {
      assert [e][1..] == [];
    }
  }

  lemma StreamedTextOfOneEvent(a: seq<StreamEvent>, text: string, b: seq<StreamEvent>)
    ensures StreamedText(a + [StreamEvent(Present(Delta(Present(text))))] + b)
         == StreamedText(a) + text + StreamedText(b)
  {
    var e := StreamEvent(Present(Delta(Present(text))));
    StreamedTextAppend(a + [e], b);
    StreamedTextAppend(a, [e]);
    assert DeltaTexts([e]) == [text] by {
      assert [e][1..] == [];
    }
    assert Join([text]) == text by {
      assert [text][1..] == [];
    }
  }

  /**
   * The keyword arguments `stream` passes on: the caller's with `stream=True`
   * added, or the `TypeError` Python raises when the caller already passed
   * `stream`.
   */
  function StreamCallArguments(kwargs: Dict): (r: Result<Dict>)
    ensures r.Ok? <==> "stream" !in kwargs
    ensures r.Ok? ==> r.value.Keys == kwargs.Keys + {"stream"} && r.value["stream"] == Bool(true)
    ensures r.Ok? ==> forall k :: k in kwargs ==> r.value[k] == kwargs[k]
    ensures r.Err? ==> r.error.typeName == "TypeError" && r.error.isException
  {
    if "stream" in kwargs then
      Err(Exception("TypeError", "create() got multiple values for keyword argument 'stream'", true))
    else
      Ok(kwargs["stream" := Bool(true)])
  }

  /** The `"llm.request"` payload of `stream`. */
  function StreamRequestRecord(kwargs: Dict, at: string): Dict {
    map["provider" := Str(Provider), "model" := RequestedModel(kwargs),
        "messages" := RequestedMessages(kwargs), "stream" := Bool(true), "timestamp" := Str(at)]
  }

  /** The `"llm.response"` payload of `stream`: one text block holding the whole streamed text. */
  function StreamResponseRecord(model: Value, text: string, clock: Clock): Dict {
    map["provider" := Str(Provider), "model" := model, "role" := Str("assistant"),
        "content" := List([TextBlock(Str(text))]), "stream" := Bool(true),
        "latency_seconds" := Latency(clock), "timestamp" := Str(clock.completedAt)]
  }

  /** The `"llm.error"` payload of `stream`. */
  function StreamErrorRecord(model: Value, error: Exception, clock: Clock): Dict {
    map["provider" := Str(Provider), "model" := model, "error" := Str(error.message),
        "error_type" := Str(error.typeName), "stream" := Bool(true),
        "latency_seconds" := Latency(clock), "timestamp" := Str(clock.completedAt)]
  }

  /**
   * One run of `stream`: the steps appended, the arguments passed to the
   * wrapped `create` (`None` when it is not called), the events yielded to
   * the caller and the exception raised at the end, if any.
   */
  datatype StreamRun = StreamRun(
    steps: seq<Step>, forwarded: Option<Dict>, yielded: seq<StreamEvent>, raised: Option<Exception>)

  /** The `"llm.error"` step `stream` appends for `e`, when `except Exception` catches it. */
  function StreamFailureSteps(model: Value, e: Exception, clock: Clock): seq<Step> {
    if e.isException then [Step("llm.error", StreamErrorRecord(model, e, clock))] else []
  }

  /** What `stream` does, run to exhaustion, given what the wrapped client streams. */
  function StreamTrace(active: bool, kwargs: Dict, upstream: EventStream, clock: Clock): StreamRun {
    var model := RequestedModel(kwargs);
    var request := if active then [Step("llm.request", StreamRequestRecord(kwargs, clock.requestedAt))] else [];
    match StreamCallArguments(kwargs)
    case Err(e) =>
      StreamRun(request + (if active then StreamFailureSteps(model, e, clock) else []), None, [], Some(e))
    case Ok(arguments) =>
      match upstream.failure
      case Some(e) =>
        StreamRun(request + (if active then StreamFailureSteps(model, e, clock) else []),
                  Some(arguments), upstream.events, Some(e))
      case None =>
        var logged := Step("llm.response", StreamResponseRecord(model, StreamedText(upstream.events), clock));
        StreamRun(request + (if active then [logged] else []), Some(arguments), upstream.events, None)
  }

  /**
   * Whether a session is active changes only the steps: the arguments passed
   * on, the events yielded and the exception raised are the same, and with
   * no session nothing is appended.
   */
  lemma StreamIsTransparent(kwargs: Dict, upstream: EventStream, clock: Clock)
    ensures StreamTrace(false, kwargs, upstream, clock).steps == []
    ensures var quiet, recorded := StreamTrace(false, kwargs, upstream, clock), StreamTrace(true, kwargs, upstream, clock);
      quiet.forwarded == recorded.forwarded && quiet.yielded == recorded.yielded && quiet.raised == recorded.raised
  {
  }

  /**
   * A stream that ends normally yields every event unchanged and in order,
   * passes `stream=True` on, and with a session appends `"llm.request"` then
   * one `"llm.response"` whose one text block holds the in-order
   * concatenation of the events' texts; both steps carry `"stream": True`.
   */
  lemma StreamSuccessLogsRequestThenResponse(kwargs: Dict, upstream: EventStream, clock: Clock)
    requires "stream" !in kwargs && upstream.failure.None?
    ensures var run := StreamTrace(true, kwargs, upstream, clock);
      && run.yielded == upstream.events
      && run.raised == None
      && run.forwarded.Some? && run.forwarded.value["stream"] == Bool(true)
      && |run.steps| == 2
      && run.steps[0].kind == "llm.request" && run.steps[1].kind == "llm.response"
      && run.steps[0].content["stream"] == Bool(true) && run.steps[1].content["stream"] == Bool(true)
      && run.steps[0].content["model"] == RequestedModel(kwargs)
      && run.steps[1].content["model"] == RequestedModel(kwargs)
      && run.steps[1].content["content"] == List([TextBlock(Str(StreamedText(upstream.events)))])
  {
  }

  /**
   * A stream that fails with an `Exception` (from the call, from the
   * iteration, or for a caller-supplied `stream` keyword) yields what came
   * before the failure, raises the exception, and with a session appends
   * `"llm.request"` then `"llm.error"`, both carrying `"stream": True`; no
   * `"llm.response"` is appended.
   */
  lemma StreamFailureLogsRequestThenError(kwargs: Dict, upstream: EventStream, clock: Clock)
    requires "stream" in kwargs || (upstream.failure.Some? && upstream.failure.value.isException)
    ensures var run := StreamTrace(true, kwargs, upstream, clock);
      && run.raised.Some?
      && run.raised == (if "stream" in kwargs then Some(StreamCallArguments(kwargs).error) else upstream.failure)
      && run.yielded == (if "stream" in kwargs then [] else upstream.events)
      && |run.steps| == 2
      && run.steps[0].kind == "llm.request" && run.steps[1].kind == "llm.error"
      && run.steps[0].content["stream"] == Bool(true) && run.steps[1].content["stream"] == Bool(true)
      && run.steps[1].content["error"] == Str(run.raised.value.message)
      && run.steps[1].content["error_type"] == Str(run.raised.value.typeName)
      && forall s :: s in run.steps ==> s.kind != "llm.response"
  {
  }

  /**
   * A stream interrupted by a `BaseException` that is not an `Exception`
   * (`KeyboardInterrupt` while iterating) yields the events before the
   * interruption and passes it on; only the `"llm.request"` step is appended.
   */
  lemma StreamInterruptLogsOnlyRequest(kwargs: Dict, upstream: EventStream, clock: Clock)
    requires "stream" !in kwargs && upstream.failure.Some? && !upstream.failure.value.isException
    ensures var run := StreamTrace(true, kwargs, upstream, clock);
      && run.steps == [Step("llm.request", StreamRequestRecord(kwargs, clock.requestedAt))]
      && run.yielded == upstream.events
      && run.raised == upstream.failure
  {
  }

  /**
   * The request-building part of `create`: the fixed fields, then each
   * optional argument assigned only when it is not `None`.
   */
  method BuildMessagesRequest(kwargs: Dict, at: string) returns (requestData: Dict)
    ensures requestData == MessagesRequestRecord(kwargs, at)
  {
    var model := RequestedModel(kwargs);
    var messages := RequestedMessages(kwargs);
    var maxTokens := Get(kwargs, "max_tokens", Null);
    var temperature := Get(kwargs, "temperature", Null);
    var topP := Get(kwargs, "top_p", Null);
    var system := Get(kwargs, "system", Null);
    requestData := map["provider" := Str(Provider), "model" := model, "messages" := messages,
                       "max_tokens" := maxTokens, "timestamp" := Str(at)];
    ghost var fixed := requestData;
    if temperature != Null {
      requestData := requestData["temperature" := temperature];
    }
    assert requestData == WithOptional(fixed, "temperature", temperature);
    ghost var withTemperature := requestData;
    if topP != Null {
      requestData := requestData["top_p" := topP];
    }
    assert requestData == WithOptional(withTemperature, "top_p", topP);
    ghost var withTopP := requestData;
    if system != Null {
      requestData := requestData["system" := system];
    }
    assert requestData == WithOptional(withTopP, "system", system);
  }

  /**
   * The extraction part of `create`'s `try` block: the `"llm.response"`
   * payload, or the `AttributeError` of a response without `content`.
   */
  method ExtractMessagesResponse(model: Value, response: Message, clock: Clock) returns (r: Result<Dict>)
    ensures r == MessagesResponseRecord(model, response, clock)
  {
    if response.content.Absent? {
      return Err(MissingAttribute(response.typeName, "content"));
    }
    var content := CollectTextBlocks(response.content.value);
    var usage := Null;
    if PresentAndTruthy(response.usage) {
      var u := response.usage.value.obj;
      usage := Object(map["input_tokens" := u.inputTokens.Or(Int(0)),
                          "output_tokens" := u.outputTokens.Or(Int(0))]);
    }
    r := Ok(map[
      "provider" := Str(Provider), "model" := model, "role" := response.role.Or(Str("assistant")),
      "content" := List(content), "usage" := usage, "stop_reason" := response.stopReason.Or(Null),
      "latency_seconds" := Latency(clock), "timestamp" := Str(clock.completedAt)]);
  }

  /**
   * The loop of `stream`: every event is yielded, unchanged and in order,
   * and the text of each event that has `delta.text` is accumulated.
   */
  method ForwardEvents(events: seq<StreamEvent>) returns (yielded: seq<StreamEvent>, accumulatedText: seq<string>)
    ensures yielded == events
    ensures accumulatedText == DeltaTexts(events)
  {
    yielded := [];
    accumulatedText := [];
    var i := 0;
    while i < |events|
      invariant 0 <= i <= |events|
      invariant yielded == events[..i]
      invariant accumulatedText == DeltaTexts(events[..i])
    {
      var chunk := events[i];
      assert events[..i + 1] == events[..i] + [chunk];
      DeltaTextsAppend(events[..i], [chunk]);
      assert [chunk][1..] == [];
      if chunk.delta.Present? && chunk.delta.value.text.Present? {
        accumulatedText := accumulatedText + [chunk.delta.value.text.value];
      }
      yielded := yielded + [chunk];
      i := i + 1;
    }
    assert events[..i] == events;
  }

  /** The wrapped SDK object `client.messages`. */
  class MessagesEndpoint {
    constructor () { }
  }

  /** The wrapped SDK client. */
  class AnthropicClient {
    const messages: MessagesEndpoint

    constructor (messages: MessagesEndpoint)
      ensures this.messages == messages
    {
      this.messages := messages;
    }
  }

  /** Proxy for `client.messages`. */
  class TracedMessages {
    const messages: MessagesEndpoint
    const provider: string := Provider

    constructor (messages: MessagesEndpoint)
      ensures this.messages == messages
    {
      this.messages := messages;
    }

    /**
     * `create(**kwargs)`: `current` is the session `get_current_session()`
     * returns, `outcome` what the wrapped `messages.create` does with the
     * same arguments, `clock` the clock readings.
     */
    method Create(current: Session?, kwargs: Dict, outcome: Outcome<Message>, clock: Clock)
      returns (result: Outcome<Message>)
      modifies current
      ensures current == null ==> result == outcome
      ensures result == CreateTrace(current != null, kwargs, outcome, clock).result
      ensures current != null ==>
        current.steps == old(current.steps) + CreateTrace(true, kwargs, outcome, clock).steps
    {
      var session := current;
      var model := RequestedModel(kwargs);
      if session != null {
        var requestData := BuildMessagesRequest(kwargs, clock.requestedAt);
        session.LogStep("llm.request", requestData);
      }
      var failure: Option<Exception> := None;
      match outcome {
        case Raised(e) =>
          failure := Some(e);
        case Returned(response) =>
          if session != null {
            var extracted := ExtractMessagesResponse(model, response, clock);
            if extracted.Err? {
              failure := Some(extracted.error);
            } else {
              session.LogStep("llm.response", extracted.value);
            }
          }
      }
      if failure.Some? {
        if session != null && failure.value.isException {
          session.LogStep("llm.error", MessagesErrorRecord(model, failure.value, clock));
        }
        result := Raised(failure.value);
      } else {
        result := outcome;
      }
    }

    /**
     * `stream(**kwargs)`, consumed to the end: `upstream` is what the wrapped
     * `messages.create(..., stream=True)` streams. Returns the arguments it
     * passes on, the events it yields and the exception it raises, if any.
     */
    method Stream(current: Session?, kwargs: Dict, upstream: EventStream, clock: Clock)
      returns (forwarded: Option<Dict>, yielded: seq<StreamEvent>, raised: Option<Exception>)
      modifies current
      ensures var run := StreamTrace(current != null, kwargs, upstream, clock);
        forwarded == run.forwarded && yielded == run.yielded && raised == run.raised
      ensures current != null ==>
        current.steps == old(current.steps) + StreamTrace(true, kwargs, upstream, clock).steps
    {
      var session := current;
      var model := RequestedModel(kwargs);
      var messages := RequestedMessages(kwargs);
      if session != null {
        var requestData := map["provider" := Str(provider), "model" := model, "messages" := messages,
                               "stream" := Bool(true), "timestamp" := Str(clock.requestedAt)];
        assert requestData == StreamRequestRecord(kwargs, clock.requestedAt);
        session.LogStep("llm.request", requestData);
      }
      var accumulatedText: seq<string> := [];
      yielded := [];
      forwarded := None;
      var arguments := StreamCallArguments(kwargs);
      if arguments.Err? {
        raised := Some(arguments.error);
      } else {
        forwarded := Some(arguments.value);
        yielded, accumulatedText := ForwardEvents(upstream.events);
        assert Join(accumulatedText) == StreamedText(upstream.events);
        raised := upstream.failure;
        if raised.None? && session != null {
          var responseData := map[
            "provider" := Str(provider), "model" := model, "role" := Str("assistant"),
            "content" := List([TextBlock(Str(Join(accumulatedText)))]), "stream" := Bool(true),
            "latency_seconds" := Latency(clock), "timestamp" := Str(clock.completedAt)];
          assert responseData == StreamResponseRecord(model, StreamedText(upstream.events), clock);
          session.LogStep("llm.response", responseData);
        }
      }
      if raised.Some? && session != null && raised.value.isException {
        session.LogStep("llm.error", StreamErrorRecord(model, raised.value, clock));
      }
    }
  }

  /** The traced client: its `messages` are traced, and its `base` keeps the wrapped client. */
  class TracedAnthropic {
    const base: TracedClientBase<AnthropicClient>
    const messages: TracedMessages

    constructor (client: AnthropicClient)
      ensures base.client == client
      ensures messages.messages == client.messages && messages.provider == Provider
    {
      this.base := new TracedClientBase(client);
      this.messages := new TracedMessages(client.messages);
    }
  }

  /** `wrap_anthropic(client)`. */
  method WrapAnthropic(client: AnthropicClient) returns (traced: TracedAnthropic)
    ensures fresh(traced)
    ensures traced.base.client == client
    ensures traced.messages.messages == client.messages && traced.messages.provider == Provider
  {
    traced := new TracedAnthropic(client);
  }
}
