/**
 * `TracedClientBase`: the wrapped client and the three helpers that turn an
 * LLM request, response or error into one step of the active session.
 *
 * Each helper resolves the current session on its own (`current`, `null`
 * when no session is active) and does nothing without one. The extra keyword
 * arguments of a helper cannot repeat the names of its own parameters
 * (Python rejects such a call before the helper runs), so they can replace
 * only the fields that are not parameters.
 */
module TracedBase {
  import opened Values
  import opened PyObjects
  import opened Recording

  /** `kwargs.get("model", "unknown")`: the model both proxies record. */
  function RequestedModel(kwargs: Dict): Value {
    Get(kwargs, "model", Str("unknown"))
  }

  /** `kwargs.get("messages", [])`: the messages both proxies record. */
  function RequestedMessages(kwargs: Dict): Value {
    Get(kwargs, "messages", List([]))
  }

  /** The payload of `_log_request`: the fixed fields, then the extra keyword arguments. */
  function RequestRecord(provider: string, model: string, messages: seq<Value>, extra: Dict, at: string): (r: Dict)
    requires "self" !in extra && "provider" !in extra && "model" !in extra && "messages" !in extra
    ensures r.Keys == {"provider", "model", "messages", "timestamp"} + extra.Keys
    ensures r["provider"] == Str(provider) && r["model"] == Str(model) && r["messages"] == List(messages)
    ensures r["timestamp"] == (if "timestamp" in extra then extra["timestamp"] else Str(at))
    ensures forall k :: k in extra ==> r[k] == extra[k]
  {
    map["provider" := Str(provider), "model" := Str(model), "messages" := List(messages), "timestamp" := Str(at)]
      + extra
  }

  /** The one choice `_log_response` records: an assistant message with the given content. */
  function AssistantChoice(content: string): Value {
    Object(map["message" := Object(map["role" := Str("assistant"), "content" := Str(content)])])
  }

  /** The payload of `_log_response`, built field by field as the helper builds it. */
  function ResponseRecord(
    provider: string, model: string, content: string, usage: Value,
    latencySeconds: Option<real>, extra: Dict, at: string): (r: Dict)
    requires "self" !in extra && "provider" !in extra && "model" !in extra && "content" !in extra
    requires "usage" !in extra && "latency_seconds" !in extra
    ensures r.Keys == {"provider", "model", "choices", "timestamp"} + extra.Keys
                      + (if Truthy(usage) then {"usage"} else {})
                      + (if latencySeconds.Some? then {"latency_seconds"} else {})
    ensures r["provider"] == Str(provider) && r["model"] == Str(model)
    ensures "choices" !in extra ==> r["choices"] == List([AssistantChoice(content)])
    ensures "timestamp" !in extra ==> r["timestamp"] == Str(at)
    ensures "usage" in r <==> Truthy(usage)
    ensures "usage" in r ==> r["usage"] == usage
    ensures "latency_seconds" in r <==> latencySeconds.Some?
    ensures latencySeconds.Some? ==> r["latency_seconds"] == Float(RoundMillis(latencySeconds.value))
    ensures forall k :: k in extra ==> r[k] == extra[k]
  {
    var fixed := map["provider" := Str(provider), "model" := Str(model),
                     "choices" := List([AssistantChoice(content)]), "timestamp" := Str(at)];
    var withUsage := if Truthy(usage) then fixed["usage" := usage] else fixed;
    var withLatency :=
      if latencySeconds.Some? then withUsage["latency_seconds" := Float(RoundMillis(latencySeconds.value))]
      else withUsage;
    withLatency + extra
  }

  /** The payload of `_log_error`: provider, `str(error)`, the error's type name, then the extras. */
  function ErrorRecord(provider: string, error: Exception, extra: Dict, at: string): (r: Dict)
    requires "self" !in extra && "provider" !in extra && "error" !in extra
    ensures r.Keys == {"provider", "error", "error_type", "timestamp"} + extra.Keys
    ensures r["provider"] == Str(provider) && r["error"] == Str(error.message)
    ensures "error_type" !in extra ==> r["error_type"] == Str(error.typeName)
    ensures "timestamp" !in extra ==> r["timestamp"] == Str(at)
    ensures forall k :: k in extra ==> r[k] == extra[k]
  {
    map["provider" := Str(provider), "error" := Str(error.message),
        "error_type" := Str(error.typeName), "timestamp" := Str(at)]
      + extra
  }

  /**
   * The base of the traced clients: it keeps the wrapped client. `C` is the
   * type of that foreign client.
   */
  class TracedClientBase<C> {
    const client: C

    constructor (client: C)
      ensures this.client == client
    {
      this.client := client;
    }

    /** `_log_request`: one `"llm.request"` step when a session is active. */
    method LogRequest(current: Session?, provider: string, model: string, messages: seq<Value>, extra: Dict, at: string)
      requires "self" !in extra && "provider" !in extra && "model" !in extra && "messages" !in extra
      modifies current
      ensures current != null ==>
        current.steps == old(current.steps) + [Step("llm.request", RequestRecord(provider, model, messages, extra, at))]
    {
      var session := current;
      if session != null {
        session.LogStep("llm.request",
          map["provider" := Str(provider), "model" := Str(model), "messages" := List(messages), "timestamp" := Str(at)]
            + extra);
      }
    }

    /** `_log_response`: one `"llm.response"` step when a session is active. */
    method LogResponse(
      current: Session?, provider: string, model: string, content: string, usage: Value,
      latencySeconds: Option<real>, extra: Dict, at: string)
      requires "self" !in extra && "provider" !in extra && "model" !in extra && "content" !in extra
      requires "usage" !in extra && "latency_seconds" !in extra
      modifies current
      ensures current != null ==>
        current.steps == old(current.steps)
          + [Step("llm.response", ResponseRecord(provider, model, content, usage, latencySeconds, extra, at))]
    {
      var session := current;
      if session != null {
        var responseData := map["provider" := Str(provider), "model" := Str(model),
                                "choices" := List([AssistantChoice(content)]), "timestamp" := Str(at)];
        if Truthy(usage) {
          responseData := responseData["usage" := usage];
        }
        if latencySeconds.Some? {
          responseData := responseData["latency_seconds" := Float(RoundMillis(latencySeconds.value))];
        }
        responseData := responseData + extra;
        session.LogStep("llm.response", responseData);
      }
    }

    /** `_log_error`: one `"llm.error"` step when a session is active. */
    method LogError(current: Session?, provider: string, error: Exception, extra: Dict, at: string)
      requires "self" !in extra && "provider" !in extra && "error" !in extra
      modifies current
      ensures current != null ==>
        current.steps == old(current.steps) + [Step("llm.error", ErrorRecord(provider, error, extra, at))]
    {
      var session := current;
      if session != null {
        session.LogStep("llm.error",
          map["provider" := Str(provider), "error" := Str(error.message),
              "error_type" := Str(error.typeName), "timestamp" := Str(at)]
            + extra);
      }
    }
  }
}
