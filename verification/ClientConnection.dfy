/** What every callback keeps of the connection, and the two latches: disposal and refusal. */
module ClientConnection {
  import opened Sequences
  import opened ClientState

  /** The part that also holds in the middle of a callback. */
  ghost predicate Sound(s: Client) {
    var c := s.conn;
    && (c.transport.Some? ==> c.transport.value < c.created)
    && (c.genericErrorTimer ==> c.transport.Some?)
    && (c.status == Disposed ==>
          && c.transport.None? && c.reconnectTimer.None? && !c.connectTimer && !c.genericErrorTimer
          && !c.shouldReconnect && !s.live.heartbeatTimer && s.live.probe.None? && s.sends.queue == [])
  }

  /** The link between the status, the transport, the queue and the timers. */
  ghost predicate ConnectionInv(s: Client) {
    && Sound(s)
    && (s.conn.status == Connecting || s.conn.status == Connected ==> s.conn.transport.Some?)
    && (s.sends.queue != [] ==> s.conn.status == Connecting)
  }

  lemma LossKeeps(s: Client)
    requires Sound(s)
    ensures ConnectionInv(ScheduleReconnect(s))
  {
  }

  lemma AttemptKeeps(s: Client, factoryOk: bool)
    requires ConnectionInv(s)
    ensures ConnectionInv(AttemptConnect(s, factoryOk))
  {
    LossKeeps(DisposeTransport(s));
  }

  lemma OpenKeeps(s: Client, factoryOk: bool)
    requires ConnectionInv(s)
    ensures ConnectionInv(OpenConnection(s, factoryOk))
  {
    if s.conn.status != Disposed {
      AttemptKeeps(StartPromise(s), factoryOk);
    }
  }

  lemma RecordKeeps(s: Client)
    requires ConnectionInv(s)
    ensures ConnectionInv(RecordLivenessFailure(s))
  {
    LossKeeps(DisposeTransport(s.(live := s.live.(failures := 0, log := s.live.log + [Teardown]))));
  }

  lemma FailKeeps(s: Client)
    requires ConnectionInv(s)
    ensures ConnectionInv(FailProbe(s))
  {
    if s.live.probe.Some? {
      var live := EndProbe(s.live);
      RecordKeeps(s.(live := live.(log := live.log + [Failed(s.live.probe.value.id, true)])));
    }
  }

  lemma PingKeeps(s: Client, drives: bool, sendOk: bool)
    requires ConnectionInv(s)
    ensures ConnectionInv(SendPing(s, drives, sendOk))
  {
    if Live(s.conn) {
      FailKeeps(s.(live := StartProbe(s.live, drives)));
    }
  }

  lemma SessionKeeps(s: Client, m: SessionMessage)
    requires ConnectionInv(s)
    ensures ConnectionInv(HandleSession(s, m))
  {
    hide SettleOpen, ClearWaiters, RejectQueue, Where;
    if m.ServerInfo? && Mismatched(s.conn, m.serverId) {
      LossKeeps(DisposeTransport(s.(conn := s.conn.(errorInfo := IdentityMismatch))));
    }
  }

  lemma ApiKeeps(s: Client, call: ApiCall)
    requires ConnectionInv(s)
    ensures ConnectionInv(StepApi(s, call))
  {
    hide SettleOpen, ClearWaiters, RejectQueue, Where;
    match call
    case Connect(factoryOk) => OpenKeeps(NoteConnectCall(s), factoryOk);
    case EnsureConnected(factoryOk) =>
      if s.conn.status != Disposed {
        var n := NoteConnectCall(s);
        OpenKeeps(n.(conn := n.conn.(shouldReconnect := true)), factoryOk);
      }
    case MeasureLatency(sendOk) => PingKeeps(s, false, sendOk);
    case _ =>
  }

  lemma CloseKeeps(s: Client, close: CloseKind)
    requires ConnectionInv(s)
    ensures ConnectionInv(HandleClose(s, close))
  {
    hide SettleOpen, ClearWaiters, RejectQueue, Where;
  }

  lemma ErrorKeeps(s: Client, error: ErrorKind)
    requires ConnectionInv(s)
    ensures ConnectionInv(HandleError(s, error))
  {
    hide SettleOpen, ClearWaiters, RejectQueue, Where;
  }

  lemma TransportKeeps(s: Client, event: TransportEvent)
    requires ConnectionInv(s)
    ensures ConnectionInv(StepTransport(s, event))
  {
    hide SettleOpen, ClearWaiters, RejectQueue, Where, HandleSession, HandleClose, HandleError;
    match event
    case Opened(sendOk) =>
    case Closed(close) => CloseKeeps(s, close);
    case Errored(error) => ErrorKeeps(s, error);
    case Received(Session(m)) => SessionKeeps(s.(live := HearInbound(s.live)), m);
    case Received(FileFrame(Some(m))) => SessionKeeps(s.(live := HearInbound(s.live)), m);
    case Received(_) =>
  }

  lemma TimerKeeps(s: Client, timer: TimerEvent)
    requires ConnectionInv(s)
    ensures ConnectionInv(StepTimer(s, timer))
  {
    hide SettleOpen, ClearWaiters, RejectQueue;
    match timer
    case ReconnectFire(factoryOk) => AttemptKeeps(s.(conn := s.conn.(reconnectTimer := None)), factoryOk);
    case HeartbeatFire(sendOk) => PingKeeps(s.(live := s.live.(heartbeatTimer := false)), true, sendOk);
    case ProbeTimeout(id) => FailKeeps(s);
    case _ =>
  }

  lemma ConnectionInvStep(s: Client, e: Event)
    requires ConnectionInv(s)
    ensures ConnectionInv(Step(s, e))
  {
    match e
    case Api(call) => ApiKeeps(s, call);
    case Transport(event) => TransportKeeps(s, event);
    case Timer(timer) => TimerKeeps(s, timer);
  }
}
