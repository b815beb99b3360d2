/**
 * The TCP transport of V2/socket_client.py.  A caller thread queues frames
 * (only the latest one is kept); a worker thread connects with up to five
 * attempts, takes the pending frame, rate-limits and sends it as one JSON line,
 * and on failure reconnects with the shared backoff schedule.
 *
 * The two threads are sequentialised: each method below is one step of one of
 * them.  The clock, the socket and the server are parameters: `now` is the time
 * read before a send, `duration` how long the send took, and connect and send
 * outcomes come from a script.
 */
module SocketClient {
  import opened Options
  import opened Json
  import opened LedFrame
  import opened Wire
  import opened Backoff

  const DEFAULT_MIN_DELAY: real := 0.2
  const CONNECTION_RETRY_COUNT: nat := 5

  /** What one `connect()` call does. */
  datatype ConnectOutcome =
    | Connected
    | TimedOut     // socket.timeout: retried
    | Refused      // ConnectionRefusedError: retried
    | OtherError   // any other exception: gives up at once

  predicate Retryable(o: ConnectOutcome)
  {
    o == TimedOut || o == Refused
  }

  /** The outcome of attempt `k`; an attempt beyond the script's end times out. */
  function AttemptOutcome(outcomes: seq<ConnectOutcome>, k: nat): ConnectOutcome
  {
    if k < |outcomes| then outcomes[k] else TimedOut
  }

  /**
   * Whether `_connect_to_server` ends connected when attempt `k` is next: that
   * attempt connects, or it is retried (a timeout or refusal with attempts
   * left) and a later one connects.
   */
  predicate ConnectsFrom(outcomes: seq<ConnectOutcome>, k: nat)
    requires k < CONNECTION_RETRY_COUNT
    decreases CONNECTION_RETRY_COUNT - k
  {
    var o := AttemptOutcome(outcomes, k);
    o == Connected || (Retryable(o) && k + 1 < CONNECTION_RETRY_COUNT && ConnectsFrom(outcomes, k + 1))
  }

  /** Connecting from attempt `m` on means some attempt up to the fifth connects and every one before it was retried. */
  lemma {:induction false} ConnectsFromIff(outcomes: seq<ConnectOutcome>, m: nat)
    requires m < CONNECTION_RETRY_COUNT
    ensures ConnectsFrom(outcomes, m) <==>
              exists k :: m <= k < CONNECTION_RETRY_COUNT && AttemptOutcome(outcomes, k) == Connected &&
                forall j :: m <= j < k ==> Retryable(AttemptOutcome(outcomes, j))
    decreases CONNECTION_RETRY_COUNT - m
  {
    var o := AttemptOutcome(outcomes, m);
    if Retryable(o) && m + 1 < CONNECTION_RETRY_COUNT {
      ConnectsFromIff(outcomes, m + 1);
      if ConnectsFrom(outcomes, m) {
        var k :| m + 1 <= k < CONNECTION_RETRY_COUNT && AttemptOutcome(outcomes, k) == Connected &&
                 forall j :: m + 1 <= j < k ==> Retryable(AttemptOutcome(outcomes, j));
        assert forall j :: m <= j < k ==> Retryable(AttemptOutcome(outcomes, j));
      }
    }
  }

  datatype SendOutcome =
    | NotConnected   // no connected socket: the frame is dropped
    | Sent
    | SendFailed     // sendall raised: the exception reaches the worker loop

  /**
   * The pending slot after the caller offers `submitted` in order to a running
   * client: each valid frame replaces what is pending, invalid ones are refused.
   */
  function Queued(pending: Option<Json>, submitted: seq<Json>): Option<Json>
  {
    if submitted == [] then pending
    else if IsFrame(submitted[|submitted| - 1]) then Some(submitted[|submitted| - 1])
    else Queued(pending, submitted[..|submitted| - 1])
  }

  /** Latest wins: the slot holds the last valid submitted frame, or the old value when none was valid. */
  lemma {:induction false} QueuedIsLatest(pending: Option<Json>, submitted: seq<Json>)
    ensures var q := Queued(pending, submitted);
            (exists k :: 0 <= k < |submitted| && IsFrame(submitted[k])) ==>
              (exists k :: 0 <= k < |submitted| && IsFrame(submitted[k]) && q == Some(submitted[k]) &&
                 forall j :: k < j < |submitted| ==> !IsFrame(submitted[j]))
    ensures (forall k :: 0 <= k < |submitted| ==> !IsFrame(submitted[k])) ==> Queued(pending, submitted) == pending
  {
    if k :| 0 <= k < |submitted| && IsFrame(submitted[k]) {
      QueuedFrom(pending, submitted, k);
    } else {
      QueuedNoFrame(pending, submitted);
    }
  }

  /** With no valid frame offered, the slot keeps its old value. */
  lemma {:induction false} QueuedNoFrame(pending: Option<Json>, submitted: seq<Json>)
    requires forall k :: 0 <= k < |submitted| ==> !IsFrame(submitted[k])
    ensures Queued(pending, submitted) == pending
  {
    if submitted != [] {
      var init := submitted[..|submitted| - 1];
      assert forall k :: 0 <= k < |init| ==> init[k] == submitted[k];
      QueuedNoFrame(pending, init);
    }
  }

  /** Once frame `k` was offered, the slot holds a frame offered at `k` or later, with none valid after it. */
  lemma {:induction false} QueuedFrom(pending: Option<Json>, submitted: seq<Json>, k: int)
    requires 0 <= k < |submitted| && IsFrame(submitted[k])
    ensures exists j :: k <= j < |submitted| && IsFrame(submitted[j]) && Queued(pending, submitted) == Some(submitted[j]) &&
              forall i :: j < i < |submitted| ==> !IsFrame(submitted[i])
  {
    var n := |submitted| - 1;
    if IsFrame(submitted[n]) {
      assert Queued(pending, submitted) == Some(submitted[n]);
    } else {
      var init := submitted[..n];
      assert init[k] == submitted[k];
      QueuedFrom(pending, init, k);
      var j :| k <= j < |init| && IsFrame(init[j]) && Queued(pending, init) == Some(init[j]) &&
               forall i :: j < i < |init| ==> !IsFrame(init[i]);
      assert submitted[j] == init[j];
      assert forall i :: j < i < n ==> submitted[i] == init[i];
    }
  }

  /** Offering one more frame: a valid one takes the slot, an invalid one leaves it. */
  lemma QueuedStep(pending: Option<Json>, submitted: seq<Json>, i: nat)
    requires i < |submitted|
    ensures Queued(pending, submitted[..i + 1]) ==
              if IsFrame(submitted[i]) then Some(submitted[i]) else Queued(pending, submitted[..i])
  {
    assert submitted[..i + 1][..i] == submitted[..i];
  }

  /** One pass of the worker's inner loop, or the caller thread asking to stop. */
  datatype Step =
    | Poll(submitted: seq<Json>, now: real, duration: real, sendOk: bool)
    | StopRequest

  /**
   * One pass of the worker's outer loop: the connect attempts, the inner-loop
   * steps while connected, and whether a stop arrives during the reconnect wait.
   */
  datatype Session = Session(connect: seq<ConnectOutcome>, steps: seq<Step>, stopDuringWait: bool)

  /** No pass of the script is the caller thread asking to stop. */
  predicate NoStopRequest(steps: seq<Step>)
  {
    forall i :: 0 <= i < |steps| ==> !steps[i].StopRequest?
  }

  class SocketClient {
    var minDelay: real
    var lastSendTime: real
    /** `self.connection is not None`: a socket object is held. */
    var connection: bool
    var isConnected: bool
    /** The worker thread exists and is alive. */
    var running: bool
    /** `stop_event` is set. */
    var stopRequested: bool
    var pending: Option<Json>
    /** Everything the server has received on the TCP stream. */
    var stream: string
    ghost var sent: seq<Json>

    ghost predicate Valid()
      reads this
    {
      (pending.Some? ==> IsFrame(pending.value)) && StreamValid()
    }

    /** The server's stream is the frames sent, one line each. */
    ghost predicate StreamValid()
      reads this`stream, this`sent
    {
      AllFrames(sent) && stream == Stream(sent)
    }

    constructor(minDelay: real)
      ensures Valid()
      ensures this.minDelay == minDelay && lastSendTime == 0.0
      ensures !connection && !isConnected && !running && !stopRequested
      ensures pending == None && stream == [] && sent == []
    {
      this.minDelay := minDelay;
      lastSendTime := 0.0;
      connection := false;
      isConnected := false;
      running := false;
      stopRequested := false;
      pending := None;
      stream := [];
      sent := [];
    }

    /** `start`: a second start while the worker runs does nothing. */
    method Start()
      modifies this
      ensures old(running) ==> unchanged(this)
      ensures !old(running) ==> running && !stopRequested
      ensures minDelay == old(minDelay) && lastSendTime == old(lastSendTime) && pending == old(pending)
      ensures connection == old(connection) && isConnected == old(isConnected)
      ensures stream == old(stream) && sent == old(sent)
    {
      if running {
        return;
      }
      stopRequested := false;
      running := true;
    }

    /** `_close_connection`. */
    method CloseConnection()
      modifies this
      ensures !isConnected && !connection
      ensures minDelay == old(minDelay) && lastSendTime == old(lastSendTime) && pending == old(pending)
      ensures running == old(running) && stopRequested == old(stopRequested)
      ensures stream == old(stream) && sent == old(sent)
    {
      isConnected := false;
      connection := false;
    }

    /** The part of `stop` that runs before the join: set the event and close the socket. */
    method RequestStop()
      modifies this
      ensures stopRequested && !isConnected && !connection
      ensures minDelay == old(minDelay) && lastSendTime == old(lastSendTime) && pending == old(pending)
      ensures running == old(running)
      ensures stream == old(stream) && sent == old(sent)
    {
      stopRequested := true;
      CloseConnection();
    }

    /**
     * `stop`: nothing when the worker is not running; otherwise request the
     * stop and join, where `joined` says whether the worker ended within the
     * five-second timeout.
     */
    method Stop(joined: bool)
      modifies this
      ensures !old(running) ==> unchanged(this)
      ensures old(running) ==> stopRequested && !isConnected && !connection && running == !joined
      ensures minDelay == old(minDelay) && lastSendTime == old(lastSendTime) && pending == old(pending)
      ensures stream == old(stream) && sent == old(sent)
    {
      if !running {
        return;
      }
      RequestStop();
      running := !joined;
    }

    /**
     * `send_led_data`: queue a frame when the worker runs and the frame is
     * valid, replacing any frame still pending.
     */
    method SendLedData(ledData: Json) returns (queued: bool)
      requires Valid()
      modifies this
      ensures Valid()
      ensures queued <==> running && IsFrame(ledData)
      ensures pending == (if queued then Some(ledData) else old(pending))
      ensures minDelay == old(minDelay) && lastSendTime == old(lastSendTime)
      ensures connection == old(connection) && isConnected == old(isConnected)
      ensures running == old(running) && stopRequested == old(stopRequested)
      ensures stream == old(stream) && sent == old(sent)
    {
      if !running {
        return false;
      }
      queued := ValidateLedData(ledData);
      if !queued {
        return;
      }
      pending := Some(ledData);
    }

    /** The worker's take under the lock: the latest queued frame, leaving nothing pending. */
    method TakePending() returns (data: Option<Json>)
      requires Valid()
      modifies this
      ensures Valid()
      ensures data == old(pending) && pending == None
      ensures data.Some? ==> IsFrame(data.value)
      ensures minDelay == old(minDelay) && lastSendTime == old(lastSendTime)
      ensures connection == old(connection) && isConnected == old(isConnected)
      ensures running == old(running) && stopRequested == old(stopRequested)
      ensures stream == old(stream) && sent == old(sent)
    {
      data := pending;
      pending := None;
    }

    /**
     * `_connect_to_server`: open a fresh socket and try to connect at most
     * CONNECTION_RETRY_COUNT times.  Timeouts and refusals are retried (after a
     * one-second sleep) until the last attempt; any other error gives up at
     * once.  On failure the socket is closed.
     */
    method ConnectToServer(outcomes: seq<ConnectOutcome>) returns (ok: bool, attempts: nat)
      requires Valid()
      modifies this
      ensures Valid()
      ensures 1 <= attempts <= CONNECTION_RETRY_COUNT
      ensures forall k :: 0 <= k < attempts - 1 ==> Retryable(AttemptOutcome(outcomes, k))
      ensures ok <==> AttemptOutcome(outcomes, attempts - 1) == Connected
      ensures ok == ConnectsFrom(outcomes, 0)
      ensures !ok && Retryable(AttemptOutcome(outcomes, attempts - 1)) ==> attempts == CONNECTION_RETRY_COUNT
      ensures ok ==> isConnected && connection
      ensures !ok ==> !isConnected && !connection
      ensures minDelay == old(minDelay) && lastSendTime == old(lastSendTime) && pending == old(pending)
      ensures running == old(running) && stopRequested == old(stopRequested)
      ensures stream == old(stream) && sent == old(sent)
    {
      connection := true;
      // attempt `attempts - 1` has been made; a timeout or refusal with attempts left sleeps and tries again
      attempts := 1;
      while attempts < CONNECTION_RETRY_COUNT && Retryable(AttemptOutcome(outcomes, attempts - 1))
        invariant 1 <= attempts <= CONNECTION_RETRY_COUNT
        invariant forall k :: 0 <= k < attempts - 1 ==> Retryable(AttemptOutcome(outcomes, k))
        invariant ConnectsFrom(outcomes, 0) == ConnectsFrom(outcomes, attempts - 1)
        decreases CONNECTION_RETRY_COUNT - attempts
      {
        attempts := attempts + 1;
      }
      ok := AttemptOutcome(outcomes, attempts - 1) == Connected;
      if ok {
        isConnected := true;
      } else {
        // the last attempt failed, or an unexpected error ended the retries
        CloseConnection();
      }
    }

    /**
     * `_send_data`: without a connected socket the frame is dropped.  Otherwise
     * wait until at least `minDelay` has passed since the last send, write the
     * frame as one JSON line, and record the time after the write; a failed
     * write marks the client disconnected.
     */
    method SendData(ledData: Json, now: real, duration: real, sendOk: bool) returns (outcome: SendOutcome, wait: real)
      requires Valid() && IsFrame(ledData)
      modifies this
      ensures Valid()
      ensures !(old(isConnected) && old(connection)) ==> outcome == NotConnected && wait == 0.0 && unchanged(this)
      ensures old(isConnected) && old(connection) ==>
                wait >= 0.0 && now + wait - old(lastSendTime) >= minDelay &&
                (wait > 0.0 ==> now + wait - old(lastSendTime) == minDelay)
      ensures outcome == Sent <==> old(isConnected) && old(connection) && sendOk
      ensures outcome == Sent ==>
                sent == old(sent) + [ledData] && stream == old(stream) + SocketLine(ledData) &&
                lastSendTime == now + wait + duration && isConnected
      ensures outcome != Sent ==> sent == old(sent) && stream == old(stream) && lastSendTime == old(lastSendTime)
      ensures outcome == SendFailed ==> !isConnected
      ensures outcome != SendFailed ==> isConnected == old(isConnected)
      ensures connection == old(connection) && minDelay == old(minDelay) && pending == old(pending)
      ensures running == old(running) && stopRequested == old(stopRequested)
    {
      if !isConnected || !connection {
        return NotConnected, 0.0;
      }
      var sinceLast := now - lastSendTime;
      wait := if sinceLast < minDelay then minDelay - sinceLast else 0.0;
      if sendOk {
        RecordSent(ledData, now + wait + duration);
        outcome := Sent;
      } else {
        isConnected := false;
        outcome := SendFailed;
      }
    }

    /** A completed `sendall`: the server's stream gains the frame's line and the send time is recorded. */
    method RecordSent(d: Json, t: real)
      requires Valid() && IsFrame(d)
      modifies this
      ensures Valid()
      ensures sent == old(sent) + [d] && stream == old(stream) + SocketLine(d) && lastSendTime == t
      ensures connection == old(connection) && isConnected == old(isConnected)
      ensures minDelay == old(minDelay) && pending == old(pending)
      ensures running == old(running) && stopRequested == old(stopRequested)
    {
      StreamAppend(sent, d);
      stream := stream + SocketLine(d);
      sent := sent + [d];
      lastSendTime := t;
    }

    /** The caller's `send_led_data` calls since the worker's last pass, in order. */
    method OfferAll(submitted: seq<Json>)
      requires Valid()
      modifies this
      ensures Valid()
      ensures pending == if running then Queued(old(pending), submitted) else old(pending)
      ensures stream == old(stream) && sent == old(sent)
      ensures minDelay == old(minDelay) && lastSendTime == old(lastSendTime)
      ensures connection == old(connection) && isConnected == old(isConnected)
      ensures running == old(running) && stopRequested == old(stopRequested)
    {
      if !running {
        // every call returns False and queues nothing
        return;
      }
      var i := 0;
      while i < |submitted|
        invariant 0 <= i <= |submitted|
        invariant Valid() && stream == old(stream) && sent == old(sent)
        invariant pending == Queued(old(pending), submitted[..i])
        invariant minDelay == old(minDelay) && lastSendTime == old(lastSendTime)
        invariant connection == old(connection) && isConnected == old(isConnected)
        invariant running && stopRequested == old(stopRequested)
      {
        QueuedStep(old(pending), submitted, i);
        var _ := SendLedData(submitted[i]);
        i := i + 1;
      }
      assert submitted[..|submitted|] == submitted;
    }

    /**
     * One pass of the worker's inner loop: frames the caller queued since the
     * last pass, then take the latest one and send it if there is one.
     */
    method PollOnce(submitted: seq<Json>, now: real, duration: real, sendOk: bool) returns (outcome: Option<SendOutcome>)
      requires Valid()
      modifies this
      ensures Valid()
      ensures pending == None
      ensures var taken := if running then Queued(old(pending), submitted) else old(pending);
              (outcome.None? <==> taken.None?) &&
              (taken.Some? ==> (outcome == Some(Sent) <==> old(isConnected) && old(connection) && sendOk)) &&
              (outcome == Some(Sent) ==> sent == old(sent) + [taken.value] && stream == old(stream) + SocketLine(taken.value)) &&
              (outcome != Some(Sent) ==> sent == old(sent) && stream == old(stream))
      ensures old(stream) <= stream
      ensures outcome == Some(SendFailed) ==> !isConnected
      ensures outcome != Some(SendFailed) ==> isConnected == old(isConnected)
      ensures minDelay == old(minDelay) && running == old(running) && stopRequested == old(stopRequested)
      ensures connection == old(connection)
    {
      OfferAll(submitted);
      var data := TakePending();
      if data.None? {
        return None;
      }
      var result, _ := SendData(data.value, now, duration, sendOk);
      outcome := Some(result);
    }

    /**
     * The inner loop of `_connection_loop`: while connected and not stopping,
     * run the scripted passes.  A failed send leaves the client disconnected,
     * which ends the loop.
     */
    method Serve(steps: seq<Step>)
      requires Valid()
      modifies this
      ensures Valid()
      ensures old(stream) <= stream
      ensures minDelay == old(minDelay) && running == old(running)
      ensures old(stopRequested) ==> stopRequested
      ensures NoStopRequest(steps) ==> stopRequested == old(stopRequested)
    {
      var i := 0;
      while !stopRequested && isConnected && i < |steps|
        invariant 0 <= i <= |steps|
        invariant Valid()
        invariant old(stream) <= stream
        invariant minDelay == old(minDelay) && running == old(running)
        invariant old(stopRequested) ==> stopRequested
        invariant NoStopRequest(steps) ==> stopRequested == old(stopRequested)
      {
        match steps[i] {
          case Poll(submitted, now, duration, sendOk) =>
            var _ := PollOnce(submitted, now, duration, sendOk);
          case StopRequest =>
            RequestStop();
        }
        i := i + 1;
      }
    }

    /**
     * One pass of the outer loop of `_connection_loop`: connect; when
     * connected, reset the interval to 2 s and serve; unless stopping, wait
     * `retry` seconds (cut short by a stop) and grow the interval; close.
     * The inner loop only ends on a stop or a lost connection; when the steps
     * run out before either, the worker is still inside it (`exhausted`).
     */
    method RunSession(session: Session, retry: real, ghost growths: nat)
      returns (retry': real, ghost growths': nat, connected: bool, waited: bool, exhausted: bool)
      requires Valid() && retry == Schedule(growths)
      modifies this
      ensures Valid()
      ensures connected == ConnectsFrom(session.connect, 0)
      ensures exhausted ==> connected && isConnected && !stopRequested && !waited
      ensures var start := if connected then RECONNECT_DELAY_INITIAL else retry;
              retry' == (if waited then Grow(start) else start)
      ensures growths' == (if connected then 0 else growths) + (if waited then 1 else 0)
      ensures retry' == Schedule(growths')
      ensures old(stopRequested) ==> !waited && !exhausted
      ensures !old(stopRequested) && (!connected || NoStopRequest(session.steps)) ==> waited || exhausted
      ensures !connected ==> !exhausted
      ensures waited ==> stopRequested == session.stopDuringWait
      ensures !waited && !exhausted ==> stopRequested
      ensures !exhausted ==> !isConnected && !connection
      ensures old(stream) <= stream
      ensures minDelay == old(minDelay) && running == old(running)
    {
      retry', growths' := retry, growths;
      var attempts;
      connected, attempts := ConnectToServer(session.connect);
      if connected {
        // a successful connection resets the interval
        retry', growths' := RECONNECT_DELAY_INITIAL, 0;
        Serve(session.steps);
        if isConnected && !stopRequested {
          // the steps ran out inside the inner loop, which the source never leaves in this state
          return retry', growths', connected, false, true;
        }
      }
      exhausted := false;
      waited := !stopRequested;
      if waited {
        if session.stopDuringWait {
          // the wait loop sees the event and ends early; the interval still grows
          RequestStop();
        }
        GrowSchedule(growths');
        retry', growths' := Grow(retry'), growths' + 1;
      }
      CloseConnection();
    }

    /**
     * `_connection_loop`, run by the worker until a stop is requested, the
     * script of sessions ends, or a session's steps run out while the worker
     * is still connected (`exhausted`).  The interval is always the schedule value
     * after the waits since the last successful connection, so it stays in
     * [2, 30].
     */
    method ConnectionLoop(sessions: seq<Session>) returns (retry: real, ghost growths: nat, exhausted: bool)
      requires Valid() && running
      modifies this
      ensures Valid()
      ensures retry == Schedule(growths) && InRange(retry)
      ensures old(stream) <= stream
      ensures minDelay == old(minDelay)
      ensures exhausted ==> isConnected && !stopRequested && retry == RECONNECT_DELAY_INITIAL
      ensures old(stopRequested) || sessions == [] || exhausted || (!isConnected && !connection)
      ensures stopRequested <==> !running
    {
      retry, growths, exhausted := RECONNECT_DELAY_INITIAL, 0, false;
      var k := 0;
      while !stopRequested && !exhausted && k < |sessions|
        invariant 0 <= k <= |sessions|
        invariant Valid() && running
        invariant retry == Schedule(growths)
        invariant old(stream) <= stream
        invariant minDelay == old(minDelay)
        invariant k == 0 ==> stopRequested == old(stopRequested) && !exhausted
        invariant exhausted ==> isConnected && !stopRequested && retry == RECONNECT_DELAY_INITIAL
        invariant k > 0 && !exhausted ==> !isConnected && !connection
      {
        var connected, waited;
        retry, growths, connected, waited, exhausted := RunSession(sessions[k], retry, growths);
        k := k + 1;
      }
      ScheduleInRange(growths);
      if stopRequested {
        running := false;
      }
    }
  }

  /**
   * Two frames queued before the worker takes one: only the later is sent,
   * and the server reads exactly that frame back.
   */
  method LatestFrameWins(first: Json, second: Json, now: real) returns (received: seq<Json>)
    requires IsFrame(first) && IsFrame(second)
    ensures |received| == 1 && received[0] == second
  {
    var client := new SocketClient(DEFAULT_MIN_DELAY);
    client.Start();
    var ok, attempts := client.ConnectToServer([Connected]);
    assert AttemptOutcome([Connected], 0) == Connected;
    assert [first, second][..1] == [first];
    var outcome := client.PollOnce([first, second], now, 0.0, true);
    assert client.sent == [second];
    StreamLines(client.sent);
    var lines := CompleteLines(client.stream);
    received := [ParseFrameText(lines[0]).value];
  }

  /** Two refusals and then an accepted connection: the third attempt connects. */
  method ConnectAfterRefusals() returns (ok: bool, attempts: nat)
    ensures ok && attempts == 3
  {
    var client := new SocketClient(DEFAULT_MIN_DELAY);
    var script := [Refused, Refused, Connected];
    ok, attempts := client.ConnectToServer(script);
    assert AttemptOutcome(script, 0) == Refused && AttemptOutcome(script, 1) == Refused;
    assert AttemptOutcome(script, 2) == Connected;
  }

  /** A server that never answers: five attempts, then the client gives up disconnected. */
  method GiveUpAfterFiveTimeouts() returns (ok: bool, attempts: nat, connected: bool)
    ensures !ok && attempts == CONNECTION_RETRY_COUNT && !connected
  {
    var client := new SocketClient(DEFAULT_MIN_DELAY);
    ok, attempts := client.ConnectToServer([]);
    connected := client.isConnected;
  }

  /** A frame queued before `start` is refused and never reaches the stream. */
  method RefusedBeforeStart(ledData: Json) returns (queued: bool, streamed: string)
    ensures !queued && streamed == []
  {
    var client := new SocketClient(DEFAULT_MIN_DELAY);
    queued := client.SendLedData(ledData);
    streamed := client.stream;
  }
}
