/**
 * The UDP output (output/output_udp.go): a queue of requests, a worker master
 * that starts the workers asked for on the need-worker channel, and workers
 * that each count their idle ticks and, when scaling is dynamic, exit after
 * more than twenty of them in a row unless they are the last one.
 *
 * Goroutines and channels become a sequential state machine: each worker is
 * its death count in `deathCounts`, the channels are sequences, and each
 * goroutine's step is a method. The UDP client is not part of this model: a
 * worker's send is the payload it hands to the client.
 */
module UdpOutput {
  import opened Bytes
  import opened Proto
  import opened Capability

  const QueueCapacity: nat := 10000
  const InitialDynamicWorkers: int := 10
  /** A worker exits on the idle tick that takes its count past this. */
  const DeathThreshold: nat := 20

  /** sendRequest: only requests are sent, and only their body goes out, not the header. */
  function SendRequest(msg: Message): (sent: Option<seq<byte>>)
    requires |msg.meta| > 0
    ensures sent.Some? <==> IsRequestPayload(msg.meta)
    ensures sent.Some? ==> sent.value == msg.data
  {
    if !IsRequestPayload(msg.meta) then None else Some(msg.data)
  }

  /** n fresh death counts. */
  function Zeros(n: nat): (s: seq<nat>)
    ensures |s| == n && forall k :: 0 <= k < n ==> s[k] == 0
  {
    seq(n, _ => 0)
  }

  /** A worker's death count after one event: a received message resets it, an idle tick adds one. */
  function Tick(count: nat, received: bool): nat
  {
    if received then 0 else count + 1
  }

  /** The death count of a worker that started at 0 and has seen `events` (true: a message). */
  function CountAfter(events: seq<bool>): nat
  {
    if events == [] then 0 else Tick(CountAfter(events[..|events| - 1]), events[|events| - 1])
  }

  /** The death count is the length of the run of idle ticks that ends the history. */
  lemma {:induction false} CountIsIdleRun(events: seq<bool>)
    ensures CountAfter(events) <= |events|
    ensures forall j :: |events| - CountAfter(events) <= j < |events| ==> !events[j]
    ensures CountAfter(events) < |events| ==> events[|events| - 1 - CountAfter(events)]
  {
    if events != [] {
      var prefix := events[..|events| - 1];
      CountIsIdleRun(prefix);
      assert forall j :: 0 <= j < |prefix| ==> prefix[j] == events[j];
    }
  }

  /**
   * With dynamic scaling a worker leaves on an idle tick exactly when the
   * twenty ticks before it were idle too: twenty-one in a row, 2.1 seconds
   * at 100ms a tick, and only while it is not the last worker.
   */
  lemma ExitAfterTwentyOneIdleTicks(events: seq<bool>)
    requires |events| >= DeathThreshold
    ensures Tick(CountAfter(events), false) > DeathThreshold <==>
      forall j :: |events| - DeathThreshold <= j < |events| ==> !events[j]
  {
    CountIsIdleRun(events);
  }

  class UDPOutput {
    /** UDPOutputConfig.Workers: 0 means dynamic scaling. */
    const workers: int
    const ignoreResponse: bool
    var activeWorkers: int
    /** The consecutive idle ticks of each live worker. */
    var deathCounts: seq<nat>
    var needWorker: seq<int>
    var masterRunning: bool
    var queue: seq<Message>
    var responses: seq<Response>

    ghost predicate Valid()
      reads this
    {
      activeWorkers == |deathCounts|
      && |queue| <= QueueCapacity
      && (forall k :: 0 <= k < |queue| ==> |queue[k].meta| > 0 && IsRequestPayload(queue[k].meta))
      && (workers != 0 ==> forall k :: 0 <= k < |deathCounts| ==> deathCounts[k] == 0)
      && (workers == 0 ==> masterRunning)
    }

    /** NewUDPOutput: empty queue, and a first request for 10 workers (dynamic) or Workers. */
    constructor(workers: int, ignoreResponse: bool)
      ensures Valid()
      ensures this.workers == workers && this.ignoreResponse == ignoreResponse
      ensures needWorker == [if workers == 0 then InitialDynamicWorkers else workers]
      ensures activeWorkers == 0 && queue == [] && responses == [] && masterRunning
    {
      this.workers := workers;
      this.ignoreResponse := ignoreResponse;
      activeWorkers := 0;
      deathCounts := [];
      queue := [];
      responses := [];
      masterRunning := true;
      if workers == 0 {
        needWorker := [InitialDynamicWorkers];
      } else {
        needWorker := [workers];
      }
    }

    /**
     * One iteration of workerMaster: take the next request for workers and
     * start that many (none for a negative count); with a fixed pool the
     * master then returns. A master that has returned, or has no request
     * waiting, does nothing.
     */
    method MasterStep() returns (started: nat)
      requires Valid()
      modifies this
      ensures Valid()
      ensures queue == old(queue) && responses == old(responses)
      ensures !old(masterRunning) || old(needWorker) == [] ==>
        started == 0 && needWorker == old(needWorker) && deathCounts == old(deathCounts)
        && masterRunning == old(masterRunning) && activeWorkers == old(activeWorkers)
      ensures old(masterRunning) && old(needWorker) != [] ==>
        (started == if old(needWorker[0]) < 0 then 0 else old(needWorker[0]))
        && needWorker == old(needWorker[1..])
        && deathCounts == old(deathCounts) + Zeros(started)
        && activeWorkers == old(activeWorkers) + started
        && masterRunning == (workers == 0)
    {
      started := 0;
      if !masterRunning || needWorker == [] {
        return;
      }
      var newWorkers := needWorker[0];
      needWorker := needWorker[1..];
      var i := 0;
      while i < newWorkers
        invariant 0 <= i && (newWorkers >= 0 ==> i <= newWorkers) && (newWorkers < 0 ==> i == 0)
        invariant started == i
        invariant deathCounts == old(deathCounts) + Zeros(i)
        invariant activeWorkers == old(activeWorkers) + i
        invariant queue == old(queue) && responses == old(responses) && masterRunning
        invariant needWorker == old(needWorker[1..])
      {
        deathCounts := deathCounts + [0];
        activeWorkers := activeWorkers + 1;
        i := i + 1;
        started := i;
      }
      if workers != 0 {
        masterRunning := false;
      }
    }

    /**
     * A worker's 100ms timer fires with nothing in the queue. A fixed pool
     * just waits again; otherwise the worker counts the tick and exits when
     * the count passes 20, unless it is the only worker left.
     */
    method WorkerIdle(w: nat) returns (exited: bool)
      requires Valid() && w < |deathCounts|
      modifies this
      ensures Valid()
      ensures queue == old(queue) && responses == old(responses) && needWorker == old(needWorker)
      ensures masterRunning == old(masterRunning)
      ensures exited <==> workers == 0 && old(deathCounts[w]) >= DeathThreshold && old(activeWorkers) != 1
      ensures exited ==>
        deathCounts == old(deathCounts[..w] + deathCounts[w + 1..]) && activeWorkers == old(activeWorkers) - 1
      ensures !exited && workers == 0 ==> deathCounts == old(deathCounts[w := Tick(deathCounts[w], false)])
      ensures workers != 0 ==> deathCounts == old(deathCounts)
      ensures old(activeWorkers) >= 1 ==> activeWorkers >= 1
    {
      exited := false;
      if workers != 0 {
        return;
      }
      var deathCount := deathCounts[w] + 1;
      if deathCount > DeathThreshold && activeWorkers != 1 {
        deathCounts := deathCounts[..w] + deathCounts[w + 1..];
        activeWorkers := activeWorkers - 1;
        exited := true;
        return;
      }
      deathCounts := deathCounts[w := deathCount];
    }

    /**
     * A worker takes the oldest queued message, sends it and resets its
     * death count. With an empty queue it has nothing to receive.
     */
    method WorkerReceive(w: nat) returns (sent: Option<seq<byte>>)
      requires Valid() && w < |deathCounts|
      modifies this
      ensures Valid()
      ensures responses == old(responses) && needWorker == old(needWorker) && masterRunning == old(masterRunning)
      ensures activeWorkers == old(activeWorkers)
      ensures old(queue) == [] ==> sent.None? && queue == old(queue) && deathCounts == old(deathCounts)
      ensures old(queue) != [] ==>
        sent == Some(old(queue[0]).data) && queue == old(queue[1..]) && deathCounts == old(deathCounts[w := Tick(deathCounts[w], true)])
    {
      if queue == [] {
        return None;
      }
      var msg := queue[0];
      queue := queue[1..];
      sent := SendRequest(msg);
      deathCounts := deathCounts[w := 0];
    }

    /**
     * PluginWrite: anything but a request is acknowledged with its body length
     * and dropped. A request is queued (a full queue blocks), and with dynamic
     * scaling a queue longer than the worker count asks the master for as
     * many workers as there are queued messages.
     */
    method PluginWrite(msg: Message) returns (r: WriteResult)
      requires Valid() && |msg.meta| > 0
      modifies this
      ensures Valid()
      ensures responses == old(responses) && deathCounts == old(deathCounts)
      ensures activeWorkers == old(activeWorkers) && masterRunning == old(masterRunning)
      ensures !IsRequestPayload(msg.meta) ==>
        r == Written(|msg.data|, None) && queue == old(queue) && needWorker == old(needWorker)
      ensures IsRequestPayload(msg.meta) && |old(queue)| == QueueCapacity ==>
        r == Blocked && queue == old(queue) && needWorker == old(needWorker)
      ensures IsRequestPayload(msg.meta) && |old(queue)| < QueueCapacity ==>
        r == Written(|msg.data| + |msg.meta|, None)
        && queue == old(queue) + [msg]
        && needWorker == old(needWorker) + (if workers == 0 && |queue| > activeWorkers then [|queue|] else [])
    {
      if !IsRequestPayload(msg.meta) {
        return Written(|msg.data|, None);
      }
      if |queue| == QueueCapacity {
        return Blocked;
      }
      queue := queue + [msg];
      if workers == 0 {
        var workersCount := activeWorkers;
        if |queue| > workersCount {
          needWorker := needWorker + [|queue|];
        }
      }
      r := Written(|msg.data| + |msg.meta|, None);
    }

    /**
     * PluginRead: with IgnoreResponse it reports ErrorStopped; otherwise it
     * waits for a response (None while there is none) and returns it under a
     * '3' header carrying its id and its RoundTripTime value.
     */
    method PluginRead() returns (r: Option<ReadResult>)
      requires Valid()
      modifies this
      ensures Valid()
      ensures queue == old(queue) && deathCounts == old(deathCounts) && needWorker == old(needWorker)
      ensures activeWorkers == old(activeWorkers) && masterRunning == old(masterRunning)
      ensures ignoreResponse ==> r == Some(Failed(OutputStopped)) && responses == old(responses)
      ensures !ignoreResponse && old(responses) == [] ==> r.None? && responses == old(responses)
      ensures !ignoreResponse && old(responses) != [] ==>
        r == Some(Got(ReplayedMessage(old(responses[0]).uuid, old(responses[0]).roundTripTime, old(responses[0]).payload)))
        && responses == old(responses[1..])
    {
      if ignoreResponse {
        return Some(Failed(OutputStopped));
      }
      if responses == [] {
        return None;
      }
      var resp := responses[0];
      responses := responses[1..];
      var meta := PayloadHeader(ReplayedResponsePayload, resp.uuid, resp.roundTripTime, [], NoIpText);
      r := Some(Got(Message(meta, resp.payload)));
    }
  }
}
