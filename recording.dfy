/**
 * The collaborators the tracing proxies write to: the recording session and
 * its step log, and the clock readings a traced call takes.
 */
module Recording {
  import opened Values
  import opened PyObjects

  /** One step record as the proxies hand it over: its kind and its payload. */
  datatype Step = Step(kind: string, content: Dict)

  /**
   * The active recording session as the proxies see it: a log of steps that
   * only grows, one `LogStep` at a time. The session itself (its timestamps,
   * its closed state, writing the archive) is not part of this model.
   */
  class Session {
    var steps: seq<Step>

    constructor ()
      ensures steps == []
    {
      steps := [];
    }

    /** `session.log_step(kind, content)`. */
    method LogStep(kind: string, content: Dict)
      modifies this
      ensures steps == old(steps) + [Step(kind, content)]
    {
      steps := steps + [Step(kind, content)];
    }
  }

  /**
   * The clock readings one traced call makes: `datetime.utcnow().isoformat()`
   * when its request is logged and when its response or error is logged, and
   * the `time.time()` difference measured around the client call.
   */
  datatype Clock = Clock(requestedAt: string, completedAt: string, elapsed: real)

  /** The steps a traced call appends (when a session is active) and what it hands back. */
  datatype Trace<R> = Trace(steps: seq<Step>, result: Outcome<R>)

  /** The latency field as the proxies record it: `round(latency, 3)`. */
  function Latency(clock: Clock): Value {
    Float(RoundMillis(clock.elapsed))
  }
}
