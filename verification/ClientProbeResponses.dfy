/** What must happen to the probes and the failure count, event by event
    (packages/client/src/daemon-client.ts:2127-2233, 7094-7194, 7485-7498). */
module ClientProbeResponses {
  import opened Sequences
  import opened ClientState
  import opened ClientConnection

  /** Whether this event pings, and then whether for the heartbeat. */
  ghost function PingsFor(s: Client, e: Event): Option<bool> {
    if e.Timer? && e.timer.HeartbeatFire? && s.live.heartbeatTimer then Some(true)
    else if e.Api? && e.call.MeasureLatency? then Some(false)
    else None
  }

  /** Can that ping be put on the wire? */
  ghost predicate Sendable(e: Event) {
    if e.Timer? && e.timer.HeartbeatFire? then e.timer.sendOk else e.Api? && e.call.MeasureLatency? && e.call.sendOk
  }

  /** Valid inbound traffic. */
  ghost predicate Hears(e: Event) {
    e.Transport? && e.event.Received? && !e.event.frame.Invalid?
  }

  ghost predicate Starts(s: Client, e: Event) {
    PingsFor(s, e).Some? && s.conn.status == Connected && s.conn.transport.Some? && s.live.probe.None?
  }

  /** `r`'s log extends `l`'s by neither a start nor inbound traffic. */
  ghost predicate Dull(l: Liveness, r: Liveness) {
    && l.log <= r.log && r.started == l.started
    && forall k :: |l.log| <= k < |r.log| ==> !r.log[k].Started? && !r.log[k].Inbound?
  }

  /** `r`'s log extends `l`'s by one inbound mark and then by neither. */
  ghost predicate Heard(l: Liveness, r: Liveness) {
    Dull(HearInbound(l), r) && r.failures == 0
  }

  lemma EndIsDull(l: Liveness)
    ensures Dull(l, EndProbe(l))
  {
  }

  lemma TransportHears(s: Client, event: TransportEvent)
    ensures var r := StepTransport(s, event).live;
            if Hears(Transport(event)) then Heard(s.live, r) else Dull(s.live, r)
  {
    hide RejectQueue, ClearWaiters, LoseConnection, RejectWaitersFor, HandleSession;
    match event
    case Received(Session(m)) => SessionIsDull(s.(live := HearInbound(s.live)), m);
    case Received(FileFrame(Some(m))) => SessionIsDull(s.(live := HearInbound(s.live)), m);
    case _ =>
  }

  lemma SessionIsDull(s: Client, m: SessionMessage)
    ensures Dull(s.live, HandleSession(s, m).live) && HandleSession(s, m).live.failures == s.live.failures
  {
    hide RejectQueue, ClearWaiters, LoseConnection, ResolveWaiters, Handshake;
  }

  lemma FailureIsDull(s: Client)
    ensures Dull(s.live, FailProbe(s).live)
  {
    hide RejectQueue, ClearWaiters, LoseConnection;
  }

  lemma PingStarts(s: Client, heartbeat: bool, sendOk: bool)
    ensures var r := SendPing(s, heartbeat, sendOk);
            if s.conn.status == Connected && s.conn.transport.Some? && s.live.probe.None?
            then Begun(s, r, heartbeat, sendOk)
            else r == s
  {
    hide FailProbe;
    if sendOk {
    } else {
      FailureIsDull(s.(live := StartProbe(s.live, heartbeat)));
      StartedFails(s, heartbeat);
    }
  }

  /** A probe was begun: logged with its purpose, and outstanding with a ping on the wire, or, where the ping
      could not be sent, failed at once. */
  ghost predicate Begun(s: Client, r: Client, heartbeat: bool, sendOk: bool) {
    var l, id := s.live, s.live.started;
    && r.live.started == id + 1 && |r.live.log| > |l.log| && r.live.log[..|l.log|] == l.log
    && r.live.log[|l.log|] == Started(id, heartbeat)
    && (forall k :: |l.log| < k < |r.live.log| ==> !r.live.log[k].Started? && !r.live.log[k].Inbound?)
    && (sendOk ==>
          && r.live.probe == Some(Probe(id, heartbeat)) && |r.live.log| == |l.log| + 1
          && s.conn.transport.Some? && r.wire == s.wire + [Sending(s.conn.transport.value, Ping)])
    && (!sendOk ==>
          r.live.probe.None? && |r.live.log| > |l.log| + 1 && r.live.log[|l.log| + 1] == Failed(id, heartbeat))
  }

  lemma StartedFails(s: Client, heartbeat: bool)
    ensures var begun := s.(live := StartProbe(s.live, heartbeat));
            var r := FailProbe(begun);
            && |r.live.log| > |s.live.log| + 1
            && r.live.log[..|s.live.log|] == s.live.log
            && r.live.log[|s.live.log|] == Started(s.live.started, heartbeat)
            && r.live.log[|s.live.log| + 1] == Failed(s.live.started, heartbeat)
            && r.live.probe.None?
  {
    hide RejectQueue, ClearWaiters, LoseConnection;
  }

  lemma ApiIsDull(s: Client, call: ApiCall)
    requires !call.MeasureLatency?
    ensures Dull(s.live, StepApi(s, call).live)
  {
    hide SendMessage, MakeCall, ChangeSubscription, AddWaiter, CancelWait, Enlist, Delist, RejectQueue, ClearWaiters, LoseConnection,
         Settle, Drop, Make, Remember;
  }

  lemma TimerIsDull(s: Client, timer: TimerEvent)
    requires !timer.HeartbeatFire?
    ensures Dull(s.live, StepTimer(s, timer).live)
  {
    hide RejectQueue, ClearWaiters, LoseConnection, FailProbe, FireSendTimer, FireWaiterTimer, Settle;
    FailureIsDull(s);
  }

  /** A probe starts exactly when the heartbeat fires or a latency is measured, on a connected client with
      no probe outstanding, and it is the heartbeat's exactly in the first case; inbound traffic is
      marked, and the failure count cleared, exactly by a valid frame. */
  lemma ProbesStartExactly(s: Client, e: Event)
    ensures var r := Step(s, e);
            && (Starts(s, e) ==> Begun(s, r, PingsFor(s, e).value, Sendable(e)))
            && (!Starts(s, e) && !Hears(e) ==> Dull(s.live, r.live))
            && (Hears(e) ==> Heard(s.live, r.live))
  {
    hide StepTransport, SendPing, Begun;
    match e
    case Api(MeasureLatency(sendOk)) => PingStarts(s, false, sendOk);
    case Api(call) => ApiIsDull(s, call);
    case Transport(event) => TransportHears(s, event);
    case Timer(HeartbeatFire(sendOk)) =>
      if s.live.heartbeatTimer {
        var fired := s.(live := s.live.(heartbeatTimer := false));
        PingStarts(fired, true, sendOk);
        BegunAnyway(s, SendPing(fired, true, sendOk), sendOk);
      }
    case Timer(timer) => TimerIsDull(s, timer);
  }

  lemma BegunAnyway(s: Client, r: Client, sendOk: bool)
    ensures Begun(s.(live := s.live.(heartbeatTimer := false)), r, true, sendOk) <==> Begun(s, r, true, sendOk)
  {
  }

  /** The outstanding probe's own timeout fails it, counted exactly if it was the heartbeat's; the second
      counted failure disconnects, a first one does not. Any other probe timeout does nothing. */
  lemma ProbeTimeoutFails(s: Client, id: nat)
    requires ConnectionInv(s)
    ensures var r := Step(s, Timer(ProbeTimeout(id)));
            if s.live.probe.Some? && s.live.probe.value.id == id then
              && r.live.probe.None? && |r.live.log| > |s.live.log|
              && r.live.log[|s.live.log|] == Failed(id, s.live.probe.value.drives)
              && (s.live.probe.value.drives && s.live.failures == 0 ==> r.live.failures == 1 && r.conn == s.conn)
              && (s.live.probe.value.drives && s.live.failures == 1 ==>
                    r.live.failures == 0 && r.conn.transport.None? && (r.conn.status == Disconnected || r.conn.status == Disposed))
              && (!s.live.probe.value.drives ==> r.live.failures == s.live.failures && r.conn == s.conn)
            else r == s
  {
    hide RejectQueue, ClearWaiters, LoseConnection;
  }

  /** A pong ends the outstanding probe without failing it. */
  lemma PongEndsTheProbe(s: Client)
    ensures var r := Step(s, Transport(Received(Pong))).live;
            r.probe.None? && r.log == s.live.log + [Inbound] && r.failures == 0
  {
  }

  /** A heartbeat that has run its course arms the next one while connected. */
  lemma HeartbeatGoesOn(s: Client)
    ensures var r := Step(s, Timer(HeartbeatSettled)).live;
            r.heartbeatTimer == (s.live.heartbeatTimer || s.conn.status == Connected)
  {
  }
}
