/** What must happen to the connection, the subscriptions and the probes, event by event
    (packages/client/src/daemon-client.ts:1340-1575, 2151-2233, 6690-6717, 7321-7388, 7452-7520). */
module ClientResponses {
  import opened Sequences
  import opened ClientState
  import opened ClientConnection
  import opened ClientReconnect
  import opened ClientSubscriptions
  import opened ClientLimits
  import opened ClientWaitResponses

  // ---------------------------------------------------------------- refusal

  /** Was the pairing report made and nobody has asked to connect since? */
  ghost predicate Latched(c: Connection) {
    !c.shouldReconnect && c.errorInfo == PairingRequired
  }

  /** The transport refuses the credentials, by its close code or in its handshake. */
  ghost predicate Refuses(s: Client, e: Event) {
    s.conn.transport.Some? &&
    ((e == Transport(Closed(AuthRefused)) && !Latched(s.conn)) || e == Transport(Errored(Unauthorized)))
  }

  /** The log grows by no refusal. */
  ghost predicate NoRefusal(c: Connection, r: Connection) {
    c.log <= r.log && AuthRejected !in r.log[|c.log|..]
  }

  ghost predicate RefusedNow(c: Connection, r: Connection) {
    && r.status == Disconnected && r.errorInfo == PairingRequired && !r.shouldReconnect
    && r.reconnectTimer.None? && r.log == c.log + [AuthRejected]
  }

  /** What losing the connection does to what the laws here speak of. */
  lemma Loses(settings: Settings, c: Connection)
    ensures var r := LoseConnection(settings, c);
            && r.shouldReconnect == c.shouldReconnect && r.reconnectEnabled == c.reconnectEnabled && r.errorInfo == c.errorInfo
            && (r.reconnectTimer.Some? <==> c.status != Disposed && c.shouldReconnect && c.reconnectEnabled)
            && (r.log == c.log || (r.reconnectTimer.Some? && r.log == c.log + [Armed(r.reconnectTimer.value)]))
            && (r.reconnectTimer.None? ==> r.log == c.log)
  {
    hide Settle, Backoff;
  }

  lemma CloseRefuses(s: Client, close: CloseKind)
    requires ConnectionInv(s)
    ensures var r := HandleClose(s, close).conn;
            if Refuses(s, Transport(Closed(close))) then RefusedNow(s.conn, r) else NoRefusal(s.conn, r)
  {
    hide RejectQueue, ClearWaiters, LoseConnection;
    var c := s.conn.(connectTimer := false, genericErrorTimer := false);
    Loses(s.settings, c);
    Loses(s.settings, c.(errorInfo := PairingRequired, shouldReconnect := false, log := c.log + [AuthRejected]));
  }

  lemma ErrorRefuses(s: Client, error: ErrorKind)
    requires ConnectionInv(s)
    ensures var r := HandleError(s, error).conn;
            if Refuses(s, Transport(Errored(error))) then RefusedNow(s.conn, r) else NoRefusal(s.conn, r)
  {
    hide RejectQueue, ClearWaiters, LoseConnection;
    var c := s.conn.(connectTimer := false, genericErrorTimer := false);
    Loses(s.settings, c);
    Loses(s.settings, c.(errorInfo := PairingRequired, shouldReconnect := false, log := c.log + [AuthRejected]));
  }

  lemma SessionNeverRefuses(s: Client, m: SessionMessage)
    ensures NoRefusal(s.conn, HandleSession(s, m).conn)
  {
    hide RejectQueue, ClearWaiters, LoseConnection, ResolveWaiters, Settle, Flush, Resubscribe;
    Loses(s.settings, DisposeTransport(s.(conn := s.conn.(errorInfo := IdentityMismatch))).conn);
  }

  lemma TransportRefuses(s: Client, event: TransportEvent)
    requires ConnectionInv(s)
    ensures var r := StepTransport(s, event).conn;
            if Refuses(s, Transport(event)) then RefusedNow(s.conn, r) else NoRefusal(s.conn, r)
  {
    hide HandleClose, HandleError, HandleSession, RejectQueue, ClearWaiters, LoseConnection, RejectWaitersFor;
    match event
    case Opened(_) => Loses(s.settings, s.conn.(genericErrorTimer := false));
    case Closed(close) => CloseRefuses(s, close);
    case Errored(error) => ErrorRefuses(s, error);
    case Received(Session(m)) => SessionNeverRefuses(s.(live := HearInbound(s.live)), m);
    case Received(FileFrame(Some(m))) => SessionNeverRefuses(s.(live := HearInbound(s.live)), m);
    case Received(_) =>
  }

  lemma AttemptNeverRefuses(s: Client, factoryOk: bool)
    ensures NoRefusal(s.conn, AttemptConnect(s, factoryOk).conn)
  {
    hide RejectQueue, ClearWaiters, LoseConnection, Settle;
    Loses(s.settings, DisposeTransport(s).conn);
  }

  lemma OpenNeverRefuses(s: Client, factoryOk: bool)
    ensures NoRefusal(s.conn, OpenConnection(s, factoryOk).conn)
  {
    hide AttemptConnect, Make, Remember;
    AttemptNeverRefuses(StartPromise(s), factoryOk);
  }

  lemma NotedGrows(c: Connection, r: Connection)
    requires NoRefusal(c.(log := c.log + [ConnectCalled]), r)
    ensures NoRefusal(c, r)
  {
    var n := |c.log|;
    assert r.log[n] == ConnectCalled;
    assert r.log[n..] == [ConnectCalled] + r.log[n + 1..];
  }

  lemma ApiNeverRefuses(s: Client, call: ApiCall)
    ensures NoRefusal(s.conn, StepApi(s, call).conn)
  {
    hide OpenConnection, SendMessage, MakeCall, SendPing, ChangeSubscription, AddWaiter, CancelWait, Enlist, Delist, RejectQueue,
         ClearWaiters, Drop, LoseConnection;
    match call
    case Connect(factoryOk) =>
      OpenNeverRefuses(NoteConnectCall(s), factoryOk);
      NotedGrows(s.conn, StepApi(s, call).conn);
    case EnsureConnected(factoryOk) =>
      var n := NoteConnectCall(s);
      OpenNeverRefuses(n.(conn := n.conn.(shouldReconnect := true)), factoryOk);
      NotedGrows(s.conn, StepApi(s, call).conn);
    case MeasureLatency(_) => Loses(s.settings, DisposeTransport(s).conn);
    case _ =>
  }

  lemma TimerNeverRefuses(s: Client, timer: TimerEvent)
    ensures NoRefusal(s.conn, StepTimer(s, timer).conn)
  {
    hide AttemptConnect, RejectQueue, ClearWaiters, LoseConnection, SendPing, FailProbe, FireSendTimer, FireWaiterTimer;
    Loses(s.settings, DisposeTransport(s).conn);
    Loses(s.settings, s.conn.(genericErrorTimer := false));
    match timer
    case ReconnectFire(factoryOk) => AttemptNeverRefuses(s.(conn := s.conn.(reconnectTimer := None)), factoryOk);
    case _ =>
  }

  /** A refusal, and no other event, reports that pairing is required; it leaves the client disconnected,
      with reconnecting off and no timer. */
  lemma RefusalLatchesExactly(s: Client, e: Event)
    requires ConnectionInv(s)
    ensures var c, r := s.conn, Step(s, e).conn;
            && c.log <= r.log && (Refuses(s, e) <==> AuthRejected in r.log[|c.log|..])
            && (Refuses(s, e) ==>
                  && r.status == Disconnected && r.errorInfo == PairingRequired && !r.shouldReconnect && r.reconnectTimer.None?)
  {
    hide StepApi, StepTransport, StepTimer;
    match e
    case Api(call) => ApiNeverRefuses(s, call);
    case Transport(event) => TransportRefuses(s, event);
    case Timer(timer) => TimerNeverRefuses(s, timer);
  }

  // ---------------------------------------------------------------- and stays refused

  ghost predicate AsksAgain(e: Event) {
    e.Api? && (e.call.Connect? || e.call.EnsureConnected?)
  }

  ghost predicate Quieted(c: Connection) {
    !c.shouldReconnect && c.reconnectTimer.None? && (c.status == Disconnected || c.status == Disposed)
  }

  /** The log grows by no arming and no transport. */
  ghost predicate NoAttempt(c: Connection, r: Connection) {
    && c.log <= r.log && r.created == c.created
    && forall k :: |c.log| <= k < |r.log| ==> !r.log[k].Armed? && !r.log[k].Created?
  }

  lemma QuietLoss(settings: Settings, c: Connection)
    requires !c.shouldReconnect
    ensures var r := LoseConnection(settings, c); r.log == c.log && r.reconnectTimer.None? && !r.shouldReconnect
  {
    hide Settle;
  }

  lemma QuietSession(s: Client, m: SessionMessage)
    requires Quieted(s.conn)
    ensures var r := HandleSession(s, m).conn; Quieted(r) && NoAttempt(s.conn, r)
  {
    hide RejectQueue, ClearWaiters, LoseConnection, ResolveWaiters, Handshake;
    QuietLoss(s.settings, DisposeTransport(s.(conn := s.conn.(errorInfo := IdentityMismatch))).conn);
  }

  lemma QuietTransport(s: Client, event: TransportEvent)
    requires ConnectionInv(s) && Quieted(s.conn)
    ensures var r := StepTransport(s, event).conn; Quieted(r) && NoAttempt(s.conn, r)
  {
    hide RejectQueue, ClearWaiters, LoseConnection, RejectWaitersFor, HandleSession;
    var c := s.conn.(connectTimer := false, genericErrorTimer := false);
    QuietLoss(s.settings, c);
    QuietLoss(s.settings, s.conn.(genericErrorTimer := false));
    QuietLoss(s.settings, c.(errorInfo := PairingRequired, shouldReconnect := false, log := c.log + [AuthRejected]));
    match event
    case Received(Session(m)) => QuietSession(s.(live := HearInbound(s.live)), m);
    case Received(FileFrame(Some(m))) => QuietSession(s.(live := HearInbound(s.live)), m);
    case _ =>
  }

  lemma QuietOther(s: Client, e: Event)
    requires ConnectionInv(s) && Quieted(s.conn) && !AsksAgain(e) && !e.Transport?
    ensures var r := Step(s, e).conn; Quieted(r) && NoAttempt(s.conn, r)
  {
    hide OpenConnection, AttemptConnect, SendMessage, MakeCall, SendPing, FailProbe, ChangeSubscription, AddWaiter, CancelWait, Enlist,
         Delist, RejectQueue, ClearWaiters, Drop, LoseConnection, FireSendTimer, FireWaiterTimer;
    QuietLoss(s.settings, DisposeTransport(s).conn);
  }

  lemma QuietStep(s: Client, e: Event)
    requires ConnectionInv(s) && Quieted(s.conn) && !AsksAgain(e)
    ensures var r := Step(s, e).conn; Quieted(r) && NoAttempt(s.conn, r)
  {
    hide StepTransport, StepApi, StepTimer;
    if e.Transport? {
      QuietTransport(s, e.event);
    } else {
      QuietOther(s, e);
    }
  }

  lemma NoAttemptJoins(a: Connection, b: Connection, c: Connection)
    requires NoAttempt(a, b) && NoAttempt(b, c)
    ensures NoAttempt(a, c)
  {
    forall k | |a.log| <= k < |c.log|
      ensures !c.log[k].Armed? && !c.log[k].Created?
    {
      assert k < |b.log| ==> c.log[k] == b.log[k];
    }
  }

  lemma {:induction false} QuietRun(s: Client, events: seq<Event>)
    requires ConnectionInv(s) && Quieted(s.conn) && forall i :: 0 <= i < |events| ==> !AsksAgain(events[i])
    ensures var r := Run(s, events).conn; ConnectionInv(Run(s, events)) && Quieted(r) && NoAttempt(s.conn, r)
  {
    hide Step, ConnectionInv, Quieted, NoAttempt;
    if events == [] {
      assert NoAttempt(s.conn, s.conn) by { NoAttemptItself(s.conn); }
    } else {
      var front, last := events[..|events| - 1], events[|events| - 1];
      QuietRun(s, front);
      ConnectionInvStep(Run(s, front), last);
      QuietStep(Run(s, front), last);
      NoAttemptJoins(s.conn, Run(s, front).conn, Run(s, events).conn);
    }
  }

  lemma NoAttemptItself(c: Connection)
    ensures NoAttempt(c, c)
  {
  }

  /** After a refusal, whatever happens next, no timer is armed and no transport is created until somebody
      calls `connect` or `ensureConnected`. */
  lemma RefusedClientsStayQuiet(s: Client, e: Event, events: seq<Event>)
    requires ConnectionInv(s) && Refuses(s, e)
    requires forall i :: 0 <= i < |events| ==> !AsksAgain(events[i])
    ensures var c, r := Step(s, e).conn, Run(Step(s, e), events).conn;
            && c.log <= r.log && r.created == c.created && r.reconnectTimer.None?
            && forall k :: |c.log| <= k < |r.log| ==> !r.log[k].Armed? && !r.log[k].Created?
  {
    hide Step, Run, ConnectionInv;
    RefusalLatchesExactly(s, e);
    ConnectionInvStep(s, e);
    QuietRun(Step(s, e), events);
  }
}
