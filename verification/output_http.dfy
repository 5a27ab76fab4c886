/**
 * The HTTP output (output/output_http.go): a queue of messages, a pool of
 * workers that grows on write and is rolled back to its minimum when the
 * queue runs dry, and the decisions made for each request it replays.
 *
 * Goroutines, channels and timers become a sequential state machine: the
 * queue and the responses are sequences, the pool is its counter, and a Go
 * `select` with several ready cases takes its choice as a parameter.
 * net/http itself is not part of this model: the outcome of a send, the
 * clock readings around it and the redirect count are parameters.
 */
module HttpOutput {
  import opened Bytes
  import opened Proto
  import opened Capability

  /** Durations in nanoseconds: 100ms, 1s and 2s. */
  const MinTimeout: int := 100_000_000
  const Second: int := 1_000_000_000
  const DefaultWorkerTimeout: int := 2_000_000_000
  const MaxInt32: int := 0x7fff_ffff

  /** The configuration fields the output reads; durations in nanoseconds. */
  datatype HTTPConfig = HTTPConfig(
    trackResponses: bool,
    originalHost: bool,
    redirectLimit: int,
    workersMin: int,
    workersMax: int,
    queueLen: int,
    timeout: int,
    workerTimeout: int)

  /** A configuration every field of which is in the range the output works with. */
  predicate Normalized(c: HTTPConfig)
  {
    c.timeout >= MinTimeout
    && 1 <= c.workersMin <= 1000 && c.workersMin <= c.workersMax
    && c.queueLen > 0 && c.redirectLimit >= 0 && c.workerTimeout > 0
  }

  /**
   * The defaulting NewHTTPOutput applies: a timeout under 100ms becomes 1s,
   * WorkersMin is clamped to 1 .. 1000, a non-positive WorkersMax means
   * MaxInt32 and one below WorkersMin is raised to it, QueueLen defaults to
   * 1000, a negative RedirectLimit to 0 and WorkerTimeout to 2s.
   */
  function Defaults(c: HTTPConfig): (d: HTTPConfig)
    ensures Normalized(d)
    ensures d.trackResponses == c.trackResponses && d.originalHost == c.originalHost
    ensures c.timeout < MinTimeout ==> d.timeout == Second
    ensures c.timeout >= MinTimeout ==> d.timeout == c.timeout
    ensures d.workersMin == if c.workersMin <= 0 then 1 else if c.workersMin > 1000 then 1000 else c.workersMin
    ensures d.redirectLimit == if c.redirectLimit < 0 then 0 else c.redirectLimit
    ensures c.queueLen <= 0 ==> d.queueLen == 1000
    ensures c.queueLen > 0 ==> d.queueLen == c.queueLen
    ensures c.workerTimeout <= 0 ==> d.workerTimeout == DefaultWorkerTimeout
    ensures c.workerTimeout > 0 ==> d.workerTimeout == c.workerTimeout
    ensures d.workersMax == if c.workersMax <= 0 then MaxInt32 else Max(c.workersMax, d.workersMin)
  {
    var wmin := ClampWorkersMin(c.workersMin);
    HTTPConfig(c.trackResponses, c.originalHost,
      AtLeast(c.redirectLimit, 0, 0),
      wmin,
      WorkersMaxFor(c.workersMax, wmin),
      AtLeast(c.queueLen, 1, 1000),
      AtLeast(c.timeout, MinTimeout, Second),
      AtLeast(c.workerTimeout, 1, DefaultWorkerTimeout))
  }

  /** A setting below `bound` is replaced by `fallback`. */
  function AtLeast(x: int, bound: int, fallback: int): (r: int)
    ensures x >= bound ==> r == x
    ensures x < bound ==> r == fallback
  {
    if x < bound then fallback else x
  }

  /** WorkersMin: at least 1 and at most 1000. */
  function ClampWorkersMin(x: int): (r: int)
    ensures 1 <= r <= 1000
    ensures r == if x <= 0 then 1 else if x > 1000 then 1000 else x
  {
    if x <= 0 then 1 else if x > 1000 then 1000 else x
  }

  /** WorkersMax: unlimited (MaxInt32) when not positive, and never below WorkersMin. */
  function WorkersMaxFor(x: int, workersMin: int): (r: int)
    requires workersMin <= 1000
    ensures workersMin <= r
    ensures r == if x <= 0 then MaxInt32 else Max(x, workersMin)
  {
    var wmax := if x <= 0 then MaxInt32 else x;
    if wmax < workersMin then workersMin else wmax
  }

  function Max(a: int, b: int): int { if a < b then b else a }

  /** Defaulting twice is defaulting once. */
  lemma DefaultsIdempotent(c: HTTPConfig)
    ensures Defaults(Defaults(c)) == Defaults(c)
  {
  }

  /** A configuration is left alone exactly when it is already normalized. */
  lemma DefaultsFixedPoints(c: HTTPConfig)
    ensures Defaults(c) == c <==> Normalized(c)
  {
  }

  /** The configuration struct NewHTTPOutput receives by reference and rewrites in place. */
  class HTTPOutputConfig {
    var trackResponses: bool
    var originalHost: bool
    var redirectLimit: int
    var workersMin: int
    var workersMax: int
    var queueLen: int
    var timeout: int
    var workerTimeout: int

    function Value(): HTTPConfig
      reads this
    {
      HTTPConfig(trackResponses, originalHost, redirectLimit, workersMin, workersMax, queueLen, timeout, workerTimeout)
    }

    constructor(c: HTTPConfig)
      ensures Value() == c
    {
      trackResponses, originalHost, redirectLimit := c.trackResponses, c.originalHost, c.redirectLimit;
      workersMin, workersMax, queueLen := c.workersMin, c.workersMax, c.queueLen;
      timeout, workerTimeout := c.timeout, c.workerTimeout;
    }

    /**
     * The defaulting statements of NewHTTPOutput, one field at a time, worked
     * on local copies that are written back together.
     */
    method ApplyDefaults()
      modifies this
      ensures Value() == Defaults(old(Value()))
    {
      var timeout, workersMin, workersMax := this.timeout, this.workersMin, this.workersMax;
      var queueLen, redirectLimit, workerTimeout := this.queueLen, this.redirectLimit, this.workerTimeout;
      if timeout < MinTimeout {
        timeout := Second;
      }
      if workersMin <= 0 {
        workersMin := 1;
      }
      if workersMin > 1000 {
        workersMin := 1000;
      }
      if workersMax <= 0 {
        workersMax := MaxInt32;
      }
      if workersMax < workersMin {
        workersMax := workersMin;
      }
      if queueLen <= 0 {
        queueLen := 1000;
      }
      if redirectLimit < 0 {
        redirectLimit := 0;
      }
      if workerTimeout <= 0 {
        workerTimeout := DefaultWorkerTimeout;
      }
      this.timeout, this.workersMin, this.workersMax := timeout, workersMin, workersMax;
      this.queueLen, this.redirectLimit, this.workerTimeout := queueLen, redirectLimit, workerTimeout;
    }
  }

  /**
   * The most workers PluginWrite grows the pool to: it compares against
   * int32(WorkersMax), which keeps only the low 32 bits.
   */
  function Ceiling(c: HTTPConfig): int
  {
    Max(c.workersMin, Int32(c.workersMax))
  }

  /** A WorkersMax of 2^31 truncates to a negative int32, so writes never add a worker. */
  lemma TruncatedWorkersMax(c: HTTPConfig)
    requires Normalized(c) && c.workersMax == 0x8000_0000
    ensures Int32(c.workersMax) < 0 && Ceiling(c) == c.workersMin
  {
  }

  /** What the HTTP client's Send did: failed, or returned a body (nil when responses are not tracked). */
  datatype SendOutcome = SendFailed | SendOk(body: Option<seq<byte>>)

  /** The messages sendRequest can take apart: a request's header must hold an id field. */
  predicate Sendable(msg: Message)
  {
    |msg.meta| > 0 && (IsRequestPayload(msg.meta) ==> |PayloadMeta(msg.meta)| >= 2)
  }

  /**
   * sendRequest: non-requests are dropped unsent; a failed send or a nil body
   * adds nothing. Otherwise, when responses are tracked, the Response literal
   * is filled positionally, so the start time lands in RoundTripTime and the
   * elapsed time in StartedAt.
   */
  function SendRequest(msg: Message, outcome: SendOutcome, start: int64, stop: int64, track: bool): (r: Option<Response>)
    requires Sendable(msg)
    ensures r.Some? <==> IsRequestPayload(msg.meta) && outcome.SendOk? && outcome.body.Some? && track
    ensures r.Some? ==> r.value.payload == outcome.body.value && r.value.uuid == PayloadMeta(msg.meta)[1]
    ensures r.Some? ==> r.value.roundTripTime == start
    ensures r.Some? ==> r.value.startedAt == WrapInt64(stop - start)
  {
    if !IsRequestPayload(msg.meta) then None
    else
      var fields := PayloadMeta(msg.meta);
      if outcome.SendFailed? || outcome.body.None? || !track then None
      else
        var elapsed := WrapInt64(stop - start);
        Some(Response(outcome.body.value, fields[1], start, elapsed))
  }

  /** The headers Send decides: X-Real-IP from a four-field header, and the Host override. */
  datatype RequestHeaders = RequestHeaders(xRealIp: Option<seq<byte>>, host: Option<seq<byte>>)

  function SendHeaders(meta: seq<byte>, originalHost: bool, urlHost: seq<byte>): (h: RequestHeaders)
    ensures h.xRealIp.Some? <==> |PayloadMeta(meta)| == 4
    ensures h.xRealIp.Some? ==> h.xRealIp.value == PayloadMeta(meta)[3]
    ensures h.host.Some? <==> !originalHost
    ensures h.host.Some? ==> h.host.value == urlHost
  {
    var ms := PayloadMeta(meta);
    RequestHeaders(if |ms| == 4 then Some(ms[3]) else None, if originalHost then None else Some(urlHost))
  }

  /**
   * CheckRedirect: `via` holds the requests already made (net/http passes at
   * least the original one); the redirect is followed while there are fewer
   * than RedirectLimit of them.
   */
  function CheckRedirect(via: nat, redirectLimit: int): (follow: bool)
    requires via >= 1
    ensures follow <==> via < redirectLimit
    ensures redirectLimit <= 1 ==> !follow
  {
    via < redirectLimit
  }

  /** How many of `redirects` successive redirects are followed, the first seeing via = n. */
  function Followed(n: nat, redirects: nat, redirectLimit: int): nat
    requires n >= 1
    decreases redirects
  {
    if redirects == 0 || !CheckRedirect(n, redirectLimit) then 0
    else 1 + Followed(n + 1, redirects - 1, redirectLimit)
  }

  lemma {:induction false} FollowedFrom(n: nat, redirects: nat, redirectLimit: int)
    requires n >= 1
    ensures Followed(n, redirects, redirectLimit) == Max(0, Min(redirects, redirectLimit - n))
    decreases redirects
  {
    if redirects > 0 && CheckRedirect(n, redirectLimit) {
      FollowedFrom(n + 1, redirects - 1, redirectLimit);
    }
  }

  function Min(a: int, b: int): int { if a < b then a else b }

  /** A chain of R redirects is followed for min(R, RedirectLimit - 1) hops: a limit of 1 follows none. */
  lemma RedirectsFollowed(redirects: nat, redirectLimit: int)
    requires redirectLimit >= 1
    ensures Followed(1, redirects, redirectLimit) == Min(redirects, redirectLimit - 1)
  {
    FollowedFrom(1, redirects, redirectLimit);
  }

  /** The output: its queue, its tracked responses, its worker count and its stop flag. */
  class HTTPOutput {
    const cfg: HTTPConfig
    var activeWorkers: int
    var queue: seq<Message>
    var responses: seq<Response>
    var stopped: bool

    ghost predicate Valid()
      reads this
    {
      Normalized(cfg)
      && |queue| <= cfg.queueLen
      && cfg.workersMin <= activeWorkers <= Ceiling(cfg)
      && (!cfg.trackResponses ==> responses == [])
    }

    /** NewHTTPOutput: defaults the shared configuration and starts WorkersMin workers. */
    constructor(config: HTTPOutputConfig)
      modifies config
      ensures config.Value() == Defaults(old(config.Value()))
      ensures cfg == config.Value()
      ensures activeWorkers == cfg.workersMin
      ensures queue == [] && responses == [] && !stopped
      ensures Valid()
    {
      config.ApplyDefaults();
      cfg := config.Value();
      activeWorkers := config.workersMin;
      queue, responses, stopped := [], [], false;
    }

    /**
     * One wake-up of workerMaster: unless stopped, close workers one at a
     * time while there are more than WorkersMin and the queue is empty.
     */
    method Rollback()
      requires Valid()
      modifies this
      ensures Valid()
      ensures queue == old(queue) && responses == old(responses) && stopped == old(stopped)
      ensures stopped || |queue| > 0 ==> activeWorkers == old(activeWorkers)
      ensures !stopped && |queue| == 0 ==> activeWorkers == cfg.workersMin
    {
      if stopped {
        return;
      }
      while activeWorkers > Int32(cfg.workersMin) && |queue| < 1
        invariant Valid()
        invariant queue == old(queue) && responses == old(responses) && stopped == old(stopped)
        invariant |queue| > 0 ==> activeWorkers == old(activeWorkers)
        decreases activeWorkers
      {
        activeWorkers := activeWorkers - 1;
      }
    }

    /**
     * PluginWrite: a select between the stop channel and room in the queue
     * (`pickStop` is Go's choice when both are ready; a full queue and no stop
     * blocks). An accepted message is queued, whatever its type, and a worker
     * is added while the count is below int32(WorkersMax).
     */
    method PluginWrite(msg: Message, pickStop: bool) returns (r: WriteResult)
      requires Valid()
      modifies this
      ensures Valid()
      ensures responses == old(responses) && stopped == old(stopped)
      ensures old(stopped) && (|old(queue)| == cfg.queueLen || pickStop) ==>
        r == Written(0, Some(OutputStopped)) && queue == old(queue) && activeWorkers == old(activeWorkers)
      ensures !old(stopped) && |old(queue)| == cfg.queueLen ==>
        r == Blocked && queue == old(queue) && activeWorkers == old(activeWorkers)
      ensures |old(queue)| < cfg.queueLen && (!old(stopped) || !pickStop) ==>
        r == Written(|msg.data| + |msg.meta|, None)
        && queue == old(queue) + [msg]
        && activeWorkers == old(activeWorkers) + (if old(activeWorkers) < Int32(cfg.workersMax) then 1 else 0)
    {
      var room := |queue| < cfg.queueLen;
      if stopped && (!room || pickStop) {
        return Written(0, Some(OutputStopped));
      }
      if !room {
        return Blocked;
      }
      queue := queue + [msg];
      if |queue| > 0 {
        if activeWorkers < Int32(cfg.workersMax) {
          activeWorkers := activeWorkers + 1;
        }
      }
      r := Written(|msg.data| + |msg.meta|, None);
    }

    /**
     * One iteration of startWorker: take the oldest queued message and run
     * sendRequest on it with the given send outcome and clock readings.
     */
    method WorkerSend(outcome: SendOutcome, start: int64, stop: int64) returns (sent: bool)
      requires Valid() && |queue| > 0 && Sendable(queue[0])
      modifies this
      ensures Valid()
      ensures queue == old(queue[1..]) && activeWorkers == old(activeWorkers) && stopped == old(stopped)
      ensures sent <==> IsRequestPayload(old(queue[0]).meta)
      ensures var resp := SendRequest(old(queue[0]), outcome, start, stop, cfg.trackResponses);
        responses == old(responses) + (if resp.Some? then [resp.value] else [])
    {
      var msg := queue[0];
      sent := IsRequestPayload(msg.meta);
      var resp := SendRequest(msg, outcome, start, stop, cfg.trackResponses);
      var recorded := if resp.Some? then [resp.value] else [];
      queue, responses := queue[1..], responses + recorded;
    }

    /**
     * PluginRead: without response tracking it reports ErrorStopped at once.
     * Otherwise a select between the stop channel and the responses (`pickStop`
     * when both are ready; None when neither is and the call blocks); a
     * response comes back under a '3' header carrying its id and its
     * StartedAt value.
     */
    method PluginRead(pickStop: bool) returns (r: Option<ReadResult>)
      requires Valid()
      modifies this
      ensures Valid()
      ensures queue == old(queue) && activeWorkers == old(activeWorkers) && stopped == old(stopped)
      ensures !cfg.trackResponses ==> r == Some(Failed(OutputStopped)) && responses == old(responses)
      ensures cfg.trackResponses && stopped && (old(responses) == [] || pickStop) ==>
        r == Some(Failed(OutputStopped)) && responses == old(responses)
      ensures cfg.trackResponses && !stopped && old(responses) == [] ==> r.None? && responses == old(responses)
      ensures cfg.trackResponses && old(responses) != [] && (!stopped || !pickStop) ==>
        r == Some(Got(ReplayedMessage(old(responses[0]).uuid, old(responses[0]).startedAt, old(responses[0]).payload))) && responses == old(responses[1..])
    {
      if !cfg.trackResponses {
        return Some(Failed(OutputStopped));
      }
      if stopped && (responses == [] || pickStop) {
        return Some(Failed(OutputStopped));
      }
      if responses == [] {
        return None;
      }
      var resp := responses[0];
      responses := responses[1..];
      var meta := PayloadHeader(ReplayedResponsePayload, resp.uuid, resp.startedAt, [], NoIpText);
      r := Some(Got(Message(meta, resp.payload)));
    }

    /** Close: closes the stop channel (a second Close would panic). */
    method Close()
      requires Valid() && !stopped
      modifies this
      ensures Valid() && stopped
      ensures queue == old(queue) && responses == old(responses) && activeWorkers == old(activeWorkers)
    {
      stopped := true;
    }
  }
}
