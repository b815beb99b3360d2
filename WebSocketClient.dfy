/**
 * The WebSocket transport of V2/websocket_client.py.  It shares the queueing,
 * validation and backoff of the socket client, with these differences: one
 * connect attempt per session, each frame is one WebSocket message holding the
 * bare JSON text, the send does not check the connection first (sending on no
 * connection raises), and the reconnect wait is counted in 0.01 s slices.
 */
module WebSocketClient {
  import opened Options
  import opened Json
  import opened LedFrame
  import opened Wire
  import opened Backoff
  import SC = SocketClient

  const DEFAULT_MIN_DELAY: real := 0.2

  /**
   * One pass of the outer loop: whether the connect succeeds, the inner-loop
   * steps while connected, and the wait slice at which a stop arrives, if any.
   */
  datatype Session = Session(connectOk: bool, steps: seq<SC.Step>, stopDuringWait: Option<nat>)

  /**
   * The reconnect wait: `for _ in range(int(retry * 100))`, leaving at the
   * first slice where the stop event is set.  Returns the slices slept.
   */
  method ReconnectWait(retry: real, stopAt: Option<nat>) returns (slept: nat)
    ensures var total := WaitSlices(retry);
            slept == (if stopAt.Some? && stopAt.value < total then stopAt.value
                      else if total < 0 then 0 else total)
    ensures retry >= 0.0 ==> slept as real * 0.01 <= retry
  {
    var total := WaitSlices(retry);
    slept := 0;
    var n: nat := 0;
    while n < total
      invariant if total >= 0 then n <= total else n == 0
      invariant slept == n
      invariant stopAt.Some? ==> n <= stopAt.value
    {
      if stopAt.Some? && stopAt.value == n {
        break;
      }
      slept := slept + 1;
      n := n + 1;
    }
    if retry >= 0.0 {
      assert total as real <= retry * 100.0;
      assert slept <= total;
      assert slept as real * 0.01 <= total as real * 0.01;
    }
  }

  class WebSocketClient {
    var minDelay: real
    var lastSendTime: real
    /** `self.connection is not None`: a WebSocket is held. */
    var connection: bool
    var isConnected: bool
    /** The worker thread exists and is alive. */
    var running: bool
    /** `self.event_loop is not None`: the worker's event loop exists. */
    var eventLoop: bool
    /** `stop_event` is set. */
    var stopRequested: bool
    var pending: Option<Json>
    /** The messages the server has received, in order. */
    var messages: seq<string>
    ghost var sent: seq<Json>

    ghost predicate Valid()
      reads this
    {
      (pending.Some? ==> IsFrame(pending.value)) &&
      AllFrames(sent) &&
      messages == Texts(sent)
    }

    constructor(minDelay: real)
      ensures Valid()
      ensures this.minDelay == minDelay && lastSendTime == 0.0
      ensures !connection && !isConnected && !running && !eventLoop && !stopRequested
      ensures pending == None && messages == [] && sent == []
    {
      this.minDelay := minDelay;
      lastSendTime := 0.0;
      connection := false;
      isConnected := false;
      running := false;
      eventLoop := false;
      stopRequested := false;
      pending := None;
      messages := [];
      sent := [];
    }

    /** `start`; the new thread creates its event loop at once. */
    method Start()
      modifies this
      ensures old(running) ==> unchanged(this)
      ensures !old(running) ==> running && eventLoop && !stopRequested
      ensures minDelay == old(minDelay) && lastSendTime == old(lastSendTime) && pending == old(pending)
      ensures connection == old(connection) && isConnected == old(isConnected)
      ensures messages == old(messages) && sent == old(sent)
    {
      if running {
        return;
      }
      stopRequested := false;
      running := true;
      eventLoop := true;
    }

    /**
     * The part of `stop` before the join: set the event, and when an event
     * loop and a connection exist, run `_close_connection` on that loop.
     */
    method RequestStop()
      modifies this
      ensures stopRequested
      ensures old(eventLoop) && old(connection) ==> !isConnected && !connection
      ensures !(old(eventLoop) && old(connection)) ==> isConnected == old(isConnected) && connection == old(connection)
      ensures minDelay == old(minDelay) && lastSendTime == old(lastSendTime) && pending == old(pending)
      ensures running == old(running) && eventLoop == old(eventLoop)
      ensures messages == old(messages) && sent == old(sent)
    {
      stopRequested := true;
      if eventLoop && connection {
        isConnected := false;
        connection := false;
      }
    }

    /** `stop`: nothing when not running; `joined` says whether the worker ended within the timeout. */
    method Stop(joined: bool)
      modifies this
      ensures !old(running) ==> unchanged(this)
      ensures old(running) ==> stopRequested && running == !joined
      ensures old(running) && old(eventLoop) && old(connection) ==> !isConnected && !connection
      ensures minDelay == old(minDelay) && lastSendTime == old(lastSendTime) && pending == old(pending)
      ensures messages == old(messages) && sent == old(sent)
    {
      if !running {
        return;
      }
      RequestStop();
      running := !joined;
    }

    /** `send_led_data`: queue a valid frame while running, replacing any pending one. */
    method SendLedData(ledData: Json) returns (queued: bool)
      requires Valid()
      modifies this
      ensures Valid()
      ensures queued <==> running && IsFrame(ledData)
      ensures pending == (if queued then Some(ledData) else old(pending))
      ensures minDelay == old(minDelay) && lastSendTime == old(lastSendTime)
      ensures connection == old(connection) && isConnected == old(isConnected)
      ensures running == old(running) && eventLoop == old(eventLoop) && stopRequested == old(stopRequested)
      ensures messages == old(messages) && sent == old(sent)
    {
      if !running {
        return false;
      }
      queued := ValidateLedData(ledData);
      if !queued {
        return;
      }
      pending := Some(ledData);
    }

    /**
     * `_send_data`: wait until `minDelay` has passed since the last send, then
     * send the JSON text as one message and record the time after it.  The
     * send raises (returns false) when the server fails it or when there is no
     * connection; nothing changes then.
     */
    method SendData(ledData: Json, now: real, duration: real, sendOk: bool) returns (delivered: bool, wait: real)
      requires Valid() && IsFrame(ledData)
      modifies this
      ensures Valid()
      ensures wait >= 0.0 && now + wait - old(lastSendTime) >= minDelay
      ensures wait > 0.0 ==> now + wait - old(lastSendTime) == minDelay
      ensures delivered <==> old(connection) && sendOk
      ensures delivered ==>
                sent == old(sent) + [ledData] && messages == old(messages) + [Dumps(ledData)] &&
                lastSendTime == now + wait + duration
      ensures !delivered ==> unchanged(this)
      ensures connection == old(connection) && isConnected == old(isConnected)
      ensures minDelay == old(minDelay) && pending == old(pending)
      ensures running == old(running) && eventLoop == old(eventLoop) && stopRequested == old(stopRequested)
    {
      var sinceLast := now - lastSendTime;
      wait := if sinceLast < minDelay then minDelay - sinceLast else 0.0;
      if !connection || !sendOk {
        return false, wait;
      }
      assert Texts(sent + [ledData]) == Texts(sent) + [Dumps(ledData)];
      messages := messages + [Dumps(ledData)];
      sent := sent + [ledData];
      lastSendTime := now + wait + duration;
      delivered := true;
    }

    /**
     * One pass of the inner loop: the caller's submissions, then take the
     * latest pending frame and send it.  `failed` reports an exception from
     * the send, which ends the inner loop.
     */
    method PollOnce(submitted: seq<Json>, now: real, duration: real, sendOk: bool) returns (taken: Option<Json>, failed: bool)
      requires Valid()
      modifies this
      ensures Valid()
      ensures pending == None
      ensures taken == (if running then SC.Queued(old(pending), submitted) else old(pending))
      ensures failed ==> taken.Some?
      ensures taken.Some? ==> IsFrame(taken.value)
      ensures taken.Some? ==> (failed <==> !(old(connection) && sendOk))
      ensures taken.Some? && !failed ==> sent == old(sent) + [taken.value] && messages == old(messages) + [Dumps(taken.value)]
      ensures taken.None? || failed ==> sent == old(sent) && messages == old(messages)
      ensures old(messages) <= messages
      ensures minDelay == old(minDelay) && running == old(running) && eventLoop == old(eventLoop)
      ensures stopRequested == old(stopRequested)
      ensures connection == old(connection) && isConnected == old(isConnected)
    {
      OfferAll(submitted);
      taken := pending;
      pending := None;
      if taken.None? {
        return taken, false;
      }
      var delivered, _ := SendData(taken.value, now, duration, sendOk);
      failed := !delivered;
    }

    /** The caller's `send_led_data` calls since the worker's last pass, in order. */
    method OfferAll(submitted: seq<Json>)
      requires Valid()
      modifies this
      ensures Valid()
      ensures pending == if running then SC.Queued(old(pending), submitted) else old(pending)
      ensures messages == old(messages) && sent == old(sent)
      ensures minDelay == old(minDelay) && lastSendTime == old(lastSendTime)
      ensures connection == old(connection) && isConnected == old(isConnected)
      ensures running == old(running) && eventLoop == old(eventLoop) && stopRequested == old(stopRequested)
    {
      if !running {
        // every call returns False and queues nothing
        return;
      }
      var i := 0;
      while i < |submitted|
        invariant 0 <= i <= |submitted|
        invariant Valid() && messages == old(messages) && sent == old(sent)
        invariant pending == SC.Queued(old(pending), submitted[..i])
        invariant minDelay == old(minDelay) && lastSendTime == old(lastSendTime)
        invariant connection == old(connection) && isConnected == old(isConnected)
        invariant running && eventLoop == old(eventLoop) && stopRequested == old(stopRequested)
      {
        SC.QueuedStep(old(pending), submitted, i);
        var _ := SendLedData(submitted[i]);
        i := i + 1;
      }
      assert submitted[..|submitted|] == submitted;
    }

    /**
     * The inner loop `while not stop_event.is_set()`, left early by a failed
     * send (`broke`).  Ending neither way means the steps ran out.
     */
    method Serve(steps: seq<SC.Step>) returns (broke: bool)
      requires Valid()
      modifies this
      ensures Valid()
      ensures old(stopRequested) ==> !broke
      ensures old(messages) <= messages
      ensures minDelay == old(minDelay) && running == old(running) && eventLoop == old(eventLoop)
      ensures old(stopRequested) ==> stopRequested
      ensures SC.NoStopRequest(steps) ==> stopRequested == old(stopRequested)
      ensures !stopRequested ==> connection == old(connection) && isConnected == old(isConnected)
    {
      broke := false;
      var i := 0;
      while !stopRequested && i < |steps|
        invariant 0 <= i <= |steps|
        invariant Valid() && !broke
        invariant old(messages) <= messages
        invariant minDelay == old(minDelay) && running == old(running) && eventLoop == old(eventLoop)
        invariant old(stopRequested) ==> stopRequested
        invariant SC.NoStopRequest(steps) ==> stopRequested == old(stopRequested)
        invariant !stopRequested ==> connection == old(connection) && isConnected == old(isConnected)
      {
        match steps[i] {
          case Poll(submitted, now, duration, sendOk) =>
            var _, failed := PollOnce(submitted, now, duration, sendOk);
            if failed {
              broke := true;
              break;
            }
          case StopRequest =>
            RequestStop();
        }
        i := i + 1;
      }
    }

    /**
     * One pass of the outer loop: connect (a success resets the interval to
     * 2 s), serve, then unless stopping wait in slices and grow the interval,
     * and finally forget the connection.  When the steps run out before a
     * stop or a failed send, the worker is still inside the inner loop
     * (`exhausted`).
     */
    method RunSession(session: Session, retry: real, ghost growths: nat)
      returns (retry': real, ghost growths': nat, waited: bool, exhausted: bool)
      requires Valid() && retry == Schedule(growths)
      modifies this
      ensures Valid()
      ensures exhausted ==> session.connectOk && isConnected && connection && !stopRequested && !waited
      ensures var start := if session.connectOk then RECONNECT_DELAY_INITIAL else retry;
              retry' == (if waited then Grow(start) else start)
      ensures growths' == (if session.connectOk then 0 else growths) + (if waited then 1 else 0)
      ensures retry' == Schedule(growths')
      ensures old(stopRequested) ==> !waited && !exhausted
      ensures !old(stopRequested) && !session.connectOk ==> waited
      ensures !old(stopRequested) && SC.NoStopRequest(session.steps) ==> waited || exhausted
      ensures waited ==> (stopRequested <==> session.stopDuringWait.Some?)
      ensures !waited && !exhausted ==> stopRequested
      ensures !exhausted ==> !isConnected && !connection
      ensures old(messages) <= messages
      ensures minDelay == old(minDelay) && running == old(running) && eventLoop == old(eventLoop)
    {
      retry', growths' := retry, growths;
      if session.connectOk {
        connection := true;
        isConnected := true;
        // a successful connection resets the interval
        retry', growths' := RECONNECT_DELAY_INITIAL, 0;
        var broke := Serve(session.steps);
        if !broke && !stopRequested {
          // the steps ran out inside the inner loop, which the source only leaves on a stop or a failed send
          return retry', growths', false, true;
        }
      }
      exhausted := false;
      waited := !stopRequested;
      if waited {
        if session.stopDuringWait.Some? {
          RequestStop();
        }
        ScheduleInRange(growths');
        var _ := ReconnectWait(retry', session.stopDuringWait);
        GrowSchedule(growths');
        retry', growths' := Grow(retry'), growths' + 1;
      }
      isConnected := false;
      connection := false;
    }

    /**
     * `_connection_loop` as run by `_run_event_loop`: sessions until a stop is
     * requested, the script ends, or a session's steps run out while the
     * worker is still connected (`exhausted`); when the loop ends on a stop
     * the event loop is closed and the thread finishes.
     */
    method ConnectionLoop(sessions: seq<Session>) returns (retry: real, ghost growths: nat, exhausted: bool)
      requires Valid() && running
      modifies this
      ensures Valid()
      ensures retry == Schedule(growths) && InRange(retry)
      ensures old(messages) <= messages
      ensures minDelay == old(minDelay)
      ensures exhausted ==> isConnected && connection && !stopRequested && retry == RECONNECT_DELAY_INITIAL
      ensures old(stopRequested) || sessions == [] || exhausted || (!isConnected && !connection)
      ensures stopRequested <==> !running
      ensures stopRequested ==> !eventLoop
    {
      retry, growths, exhausted := RECONNECT_DELAY_INITIAL, 0, false;
      var k := 0;
      while !stopRequested && !exhausted && k < |sessions|
        invariant 0 <= k <= |sessions|
        invariant Valid() && running
        invariant retry == Schedule(growths)
        invariant old(messages) <= messages
        invariant minDelay == old(minDelay)
        invariant k == 0 ==> stopRequested == old(stopRequested) && !exhausted
        invariant exhausted ==> isConnected && connection && !stopRequested && retry == RECONNECT_DELAY_INITIAL
        invariant k > 0 && !exhausted ==> !isConnected && !connection
      {
        var waited;
        retry, growths, waited, exhausted := RunSession(sessions[k], retry, growths);
        k := k + 1;
      }
      ScheduleInRange(growths);
      if stopRequested {
        eventLoop := false;
        running := false;
      }
    }
  }

  /** Two frames queued before the worker takes one: only the later one becomes a message, and it reads back. */
  method LatestFrameWins(first: Json, second: Json, now: real) returns (received: seq<Json>)
    requires IsFrame(first) && IsFrame(second)
    ensures received == [second]
  {
    var client := new WebSocketClient(DEFAULT_MIN_DELAY);
    client.Start();
    client.connection := true;
    client.isConnected := true;
    assert [first, second][..1] == [first];
    var taken, failed := client.PollOnce([first, second], now, 0.0, true);
    assert client.messages == [Dumps(second)];
    DumpsRoundTrip(second);
    received := [ParseFrameText(client.messages[0]).value];
  }

  /**
   * Unlike the socket client, a send without a connection is not silently
   * dropped: it raises, and the frame already taken from the queue is lost.
   */
  method SendWithoutConnection(ledData: Json, now: real) returns (failed: bool, stillPending: bool, delivered: nat)
    requires IsFrame(ledData)
    ensures failed && !stillPending && delivered == 0
  {
    var client := new WebSocketClient(DEFAULT_MIN_DELAY);
    client.Start();
    var taken;
    taken, failed := client.PollOnce([ledData], now, 0.0, true);
    assert [ledData][..0] == [];
    stillPending := client.pending.Some?;
    delivered := |client.messages|;
  }
}
