/** Span emission of the runtime (`bv/runtime/tracing.py`): `record_span`
    decides whether to send, fills in the start time and the duration, builds
    the payload and posts it through the orchestrator client, whose failures
    are swallowed; `trace_span` times a block and records it on exit.

    The clock (UTC microseconds), the fresh identifier `uuid4` would produce
    and the client's behaviour are inputs. */
module Tracing {
  import opened Common
  import opened PyData
  import Auth
  import Guard

  const ExecutionIdVar: string := "BV_JOB_EXECUTION_ID"

  /** How the orchestrator client behaves on this call: whether `OrchestratorClient()`
      can be constructed and whether its `request` then returns normally. */
  datatype Client = Client(constructs: bool, accepts: bool)

  /** The arguments of `record_span` (`None` is `Option.None`, or `JNull` for
      the free-form `input` and `output`). */
  datatype SpanArgs = SpanArgs(
    name: string,
    status: string,
    parentSpanId: Option<string>,
    startTime: Option<DateTime>,
    endTime: Option<DateTime>,
    durationMs: Option<int>,
    input: Json,
    output: Json,
    metadata: Option<map<string, Json>>,
    tags: Option<seq<string>>)

  /** One span of the payload. Times stay datetimes; their ISO 8601 rendering
      is not modelled. */
  datatype Span = Span(
    spanId: string,
    parentSpanId: Option<string>,
    name: string,
    status: string,
    startTime: DateTime,
    endTime: Option<DateTime>,
    durationMs: Option<int>,
    input: Json,
    output: Json,
    metadata: Option<map<string, Json>>,
    tags: Option<seq<string>>)

  datatype Payload = Payload(traceId: string, spans: seq<Span>)

  datatype Request = Request(verb: string, path: string, body: Payload)

  /** What a call of `record_span` that returns normally did: nothing, or it
      built a request and handed it to the client (`delivered` is false when
      the client raised and the exception was swallowed). */
  datatype Emission = Skipped | Emitted(request: Request, delivered: bool)

  /** What `record_span` raises: the guard's error, or the `TypeError` of
      subtracting a naive from an aware datetime. */
  datatype SpanError = GuardRefused | NaiveAwareSubtraction

  /** `_execution_id`: the variable's value when it is set and non-empty. */
  function ExecutionId(env: Environ): (r: Option<string>)
    ensures r.Some? <==> ExecutionIdVar in env && env[ExecutionIdVar] != ""
    ensures r.Some? ==> r.value == env[ExecutionIdVar]
  {
    match EnvGet(env, ExecutionIdVar)
    case Some(raw) => if raw != "" then Some(raw) else None
    case None => None
  }

  function SpansPath(executionId: string): string {
    "/api/agent-traces/" + executionId + "/spans"
  }

  /** `end - start` in microseconds; `None` where Python raises because one
      operand is naive and the other aware. */
  function Elapsed(start: DateTime, end: DateTime): (r: Option<int>)
    ensures r.None? <==> start.offset.Some? != end.offset.Some?
    ensures r.Some? && start.offset.Some? ==> r.value == Instant(end) - Instant(start)
    ensures r.Some? && start.offset.None? ==> r.value == end.wall - start.wall
  {
    match (start.offset, end.offset)
    case (Some(a), Some(b)) => Some((end.wall - b) - (start.wall - a))
    case (None, None) => Some(end.wall - start.wall)
    case _ => None
  }

  /** `int(micros / 1000)`: whole milliseconds, truncated toward zero. */
  function WholeMillis(micros: int): (r: int)
    ensures micros >= 0 ==> 0 <= r * 1000 <= micros < r * 1000 + 1000
    ensures micros < 0 ==> r * 1000 - 1000 < micros <= r * 1000 <= 0
  {
    if micros >= 0 then micros / 1000 else -((-micros) / 1000)
  }

  /** The `durationMs` sent: derived from `end - start` when no duration, or a
      zero one, is given together with an end time; the given value otherwise. */
  function SpanDuration(args: SpanArgs, start: DateTime): (r: Result<Option<int>, SpanError>)
    ensures r.Err? <==>
      (args.durationMs.None? || args.durationMs == Some(0)) && args.endTime.Some?
      && Elapsed(start, args.endTime.value).None?
    ensures r.Err? ==> r.error == NaiveAwareSubtraction
    ensures args.durationMs.Some? && args.durationMs != Some(0) ==> r == Ok(args.durationMs)
    ensures args.endTime.None? ==> r == Ok(args.durationMs)
    ensures ((args.durationMs.None? || args.durationMs == Some(0)) && args.endTime.Some?
             && Elapsed(start, args.endTime.value).Some?) ==>
      r == Ok(Some(WholeMillis(Elapsed(start, args.endTime.value).value)))
  {
    if (args.durationMs.None? || args.durationMs == Some(0)) && args.endTime.Some? then
      match Elapsed(start, args.endTime.value)
      case None => Err(NaiveAwareSubtraction)
      case Some(micros) => Ok(Some(WholeMillis(micros)))
    else
      Ok(args.durationMs)
  }

  /** `record_span`: the guard first (its error propagates), then a silent
      return without an execution id, then the span, the payload and one POST
      whose failure is swallowed. */
  function RecordSpan(args: SpanArgs, env: Environ, db: Auth.RunnerDb, pid: int, now: int, freshId: string, client: Client)
    : (r: Result<Emission, SpanError>)
    ensures r == Err(GuardRefused) <==> Guard.RequireBvRun(env, db, pid).Fail?
    ensures Guard.RequireBvRun(env, db, pid).Pass? && ExecutionId(env).None? ==> r == Ok(Skipped)
    ensures r == Ok(Skipped) ==> ExecutionId(env).None?
    ensures r.Ok? && r.value.Emitted? ==>
      && ExecutionId(env).Some?
      && var id := ExecutionId(env).value;
      && r.value.request.verb == "POST"
      && r.value.request.path == SpansPath(id)
      && r.value.request.body.traceId == id
      && |r.value.request.body.spans| == 1
      && r.value.delivered == (client.constructs && client.accepts)
    ensures Guard.RequireBvRun(env, db, pid).Pass? && ExecutionId(env).Some? ==>
      var start := if args.startTime.Some? then args.startTime.value else UtcNow(now);
      && (r.Err? <==> SpanDuration(args, start).Err?)
      && (r.Err? ==> r.error == NaiveAwareSubtraction)
      && (SpanDuration(args, start).Ok? ==> r.Ok? && r.value.Emitted?)
  {
    if Guard.RequireBvRun(env, db, pid).Fail? then
      Err(GuardRefused)
    else
      match ExecutionId(env)
      case None => Ok(Skipped)
      case Some(id) =>
        var start := if args.startTime.Some? then args.startTime.value else UtcNow(now);
        var duration :- SpanDuration(args, start);
        var span := Span(
          freshId, args.parentSpanId, args.name, args.status,
          start, args.endTime, duration,
          args.input, args.output, args.metadata, args.tags);
        Ok(Emitted(Request("POST", SpansPath(id), Payload(id, [span])), client.constructs && client.accepts))
  }

  /** The one span of an emitted payload. */
  function SentSpan(r: Result<Emission, SpanError>): Span
    requires r.Ok? && r.value.Emitted? && |r.value.request.body.spans| == 1
  {
    r.value.request.body.spans[0]
  }

  /** The span carries the caller's fields unchanged, a fresh `spanId`, and the
      given start time or else `now`. */
  lemma {:induction false} SpanFieldsPassThrough(args: SpanArgs, env: Environ, db: Auth.RunnerDb, pid: int, now: int, freshId: string, client: Client)
    requires RecordSpan(args, env, db, pid, now, freshId, client).Ok?
    requires RecordSpan(args, env, db, pid, now, freshId, client).value.Emitted?
    ensures var s := SentSpan(RecordSpan(args, env, db, pid, now, freshId, client));
      && s.spanId == freshId
      && s.name == args.name && s.status == args.status && s.parentSpanId == args.parentSpanId
      && s.input == args.input && s.output == args.output
      && s.metadata == args.metadata && s.tags == args.tags
      && s.endTime == args.endTime
      && s.startTime == (if args.startTime.Some? then args.startTime.value else UtcNow(now))
      && Ok(s.durationMs) == SpanDuration(args, s.startTime)
  {
  }

  /** A failing client changes nothing but the `delivered` flag: the call still
      returns normally with the same request. */
  lemma {:induction false} ClientFailureSwallowed(args: SpanArgs, env: Environ, db: Auth.RunnerDb, pid: int, now: int, freshId: string, client: Client)
    requires RecordSpan(args, env, db, pid, now, freshId, Client(true, true)).Ok?
    ensures RecordSpan(args, env, db, pid, now, freshId, client).Ok?
    ensures var sent := RecordSpan(args, env, db, pid, now, freshId, Client(true, true)).value;
      var got := RecordSpan(args, env, db, pid, now, freshId, client).value;
      && sent.Emitted? == got.Emitted?
      && (sent.Emitted? ==> got.request == sent.request && got.delivered == (client.constructs && client.accepts))
  {
  }

  /** Without a given duration (or with zero) and with an end time, `durationMs`
      is the whole number of milliseconds between start and end. */
  lemma DurationDerived(args: SpanArgs, env: Environ, db: Auth.RunnerDb, pid: int, now: int, freshId: string, client: Client)
    requires args.durationMs.None? || args.durationMs == Some(0)
    requires args.endTime.Some? && args.startTime.Some?
    requires args.startTime.value.offset.Some? && args.endTime.value.offset.Some?
    requires Guard.RequireBvRun(env, db, pid).Pass? && ExecutionId(env).Some?
    ensures var r := RecordSpan(args, env, db, pid, now, freshId, client);
      && r.Ok? && r.value.Emitted?
      && SentSpan(r).durationMs == Some(WholeMillis(Instant(args.endTime.value) - Instant(args.startTime.value)))
  {
  }

  /** An explicit non-zero duration is sent as given, and without an end time
      the duration is sent as passed with a null `endTime`. */
  lemma DurationKept(args: SpanArgs, env: Environ, db: Auth.RunnerDb, pid: int, now: int, freshId: string, client: Client)
    requires (args.durationMs.Some? && args.durationMs != Some(0)) || args.endTime.None?
    requires Guard.RequireBvRun(env, db, pid).Pass? && ExecutionId(env).Some?
    ensures var r := RecordSpan(args, env, db, pid, now, freshId, client);
      && r.Ok? && r.value.Emitted?
      && SentSpan(r).durationMs == args.durationMs
      && (args.endTime.None? ==> SentSpan(r).endTime.None?)
  {
  }

  /** `trace_span`: a context manager that captures its start time when it is
      constructed and records one span when the block exits. */
  class TraceSpan {
    var name: string
    var parentSpanId: Option<string>
    var tags: Option<seq<string>>
    var metadata: map<string, Json>
    var start: DateTime
    var spanId: string

    /** The start time is a reading of the UTC clock, hence aware. */
    predicate Valid()
      reads this
    {
      start.offset.Some?
    }

    /** `__init__`: `metadata` defaults to an empty dict, the start time is the
        clock reading `now`, and a span id is drawn (and never sent). */
    constructor (name: string, parentSpanId: Option<string>, tags: Option<seq<string>>,
                 metadata: Option<map<string, Json>>, now: int, freshId: string)
      ensures this.name == name && this.parentSpanId == parentSpanId && this.tags == tags
      ensures this.metadata == (if metadata.Some? then metadata.value else map[])
      ensures this.start == UtcNow(now) && this.spanId == freshId
      ensures Valid()
    {
      this.name := name;
      this.parentSpanId := parentSpanId;
      this.tags := tags;
      this.metadata := if metadata.Some? then metadata.value else map[];
      this.start := UtcNow(now);
      this.spanId := freshId;
    }

    /** `__exit__` with `exc` the text of the block's exception, if any. Records
        the span with status "error" and the error text added to a copy of the
        metadata, or "ok" and the metadata unchanged; the start time is the one
        captured at construction and the end time is `now`. Never suppresses
        the block's exception; only the guard's refusal escapes. The object
        itself, its metadata included, is not modified. */
    method Exit(exc: Option<string>, env: Environ, db: Auth.RunnerDb, pid: int, now: int, freshId: string, client: Client)
      returns (suppress: bool, outcome: Result<Emission, SpanError>)
      requires Valid()
      ensures !suppress
      ensures outcome.Err? <==> Guard.RequireBvRun(env, db, pid).Fail?
      ensures outcome.Err? ==> outcome.error == GuardRefused
      ensures outcome.Ok? && outcome.value.Emitted? ==>
        && |outcome.value.request.body.spans| == 1
        && var s := outcome.value.request.body.spans[0];
        && s.name == name && s.parentSpanId == parentSpanId && s.tags == tags
        && s.status == (if exc.Some? then "error" else "ok")
        && s.metadata == Some(if exc.Some? then metadata["error" := JString(exc.value)] else metadata)
        && s.startTime == start
        && s.endTime == Some(UtcNow(now))
        && s.spanId == freshId
      ensures outcome == RecordSpan(
        SpanArgs(name, if exc.Some? then "error" else "ok", parentSpanId, Some(start), Some(UtcNow(now)), None,
                 JNull, JNull, Some(if exc.Some? then metadata["error" := JString(exc.value)] else metadata), tags),
        env, db, pid, now, freshId, client)
    {
      var status := "ok";
      var meta := metadata;
      if exc.Some? {
        status := "error";
        meta := meta["error" := JString(exc.value)];
      }
      var args := SpanArgs(name, status, parentSpanId, Some(start), Some(UtcNow(now)), None, JNull, JNull, Some(meta), tags);
      outcome := RecordSpan(args, env, db, pid, now, freshId, client);
      suppress := false;
    }
  }
}
