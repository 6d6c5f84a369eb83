/** Reconnecting: the backoff of every arming, the latch an authentication refusal sets, and disposal. */
module ClientReconnect {
  import opened Arithmetic
  import opened Sequences
  import opened ClientState
  import opened ClientConnection

  /** Armings of the reconnect timer since the last handshake. */
  ghost function ArmingsSince(log: seq<Milestone>): nat {
    if log == [] then 0
    else
      var before := ArmingsSince(log[..|log| - 1]);
      match log[|log| - 1]
      case Handshaken => 0
      case Armed(_) => before + 1
      case _ => before
  }

  /** The daemon refused the credentials and nobody has asked to connect since. */
  ghost predicate Refused(log: seq<Milestone>) {
    log != [] &&
    match log[|log| - 1]
    case AuthRejected => true
    case ConnectCalled => false
    case _ => Refused(log[..|log| - 1])
  }

  ghost function CreatedIn(log: seq<Milestone>): nat {
    if log == [] then 0
    else CreatedIn(log[..|log| - 1]) + if log[|log| - 1].Created? then 1 else 0
  }

  ghost predicate LogInv(settings: Settings, log: seq<Milestone>) {
    && (forall k :: 0 <= k < |log| && log[k].Armed? ==> log[k].delay == Backoff(settings, ArmingsSince(log[..k])))
    && (forall k :: 0 <= k < |log| && (log[k].Armed? || log[k].Created?) ==> !Refused(log[..k]))
  }

  ghost predicate ReconnectInv(settings: Settings, c: Connection) {
    && LogInv(settings, c.log)
    && c.attempt == ArmingsSince(c.log)
    && c.created == CreatedIn(c.log)
    && (c.reconnectTimer.Some? ==> Armed(c.reconnectTimer.value) in c.log)
    && (Refused(c.log) ==>
          !c.shouldReconnect && c.reconnectTimer.None? && (c.status == Disconnected || c.status == Disposed))
  }

  lemma LogSnoc(settings: Settings, log: seq<Milestone>, more: Milestone)
    requires LogInv(settings, log)
    requires more.Armed? ==> more.delay == Backoff(settings, ArmingsSince(log))
    requires more.Armed? || more.Created? ==> !Refused(log)
    ensures LogInv(settings, log + [more])
    ensures ArmingsSince(log + [more]) ==
            if more.Handshaken? then 0 else ArmingsSince(log) + if more.Armed? then 1 else 0
    ensures Refused(log + [more]) <==> more.AuthRejected? || (!more.ConnectCalled? && Refused(log))
    ensures CreatedIn(log + [more]) == CreatedIn(log) + if more.Created? then 1 else 0
  {
    var l := log + [more];
    assert l[..|log|] == log;
    assert forall k :: 0 <= k < |log| ==> l[..k] == log[..k];
  }

  lemma LoseKeeps(settings: Settings, c: Connection)
    requires ReconnectInv(settings, c.(reconnectTimer := None, status := if c.status == Disposed then Disposed else Disconnected))
    ensures ReconnectInv(settings, LoseConnection(settings, c))
  {
    hide LogInv, Backoff, Refused, ArmingsSince, CreatedIn;
    if c.status != Disposed && c.shouldReconnect && c.reconnectEnabled {
      LogSnoc(settings, c.log, Armed(Backoff(settings, c.attempt)));
    }
  }

  lemma RefuseKeeps(settings: Settings, c: Connection)
    requires ReconnectInv(settings, c)
    ensures ReconnectInv(settings, LoseConnection(settings, c.(errorInfo := PairingRequired, shouldReconnect := false,
                                                               log := c.log + [AuthRejected])))
  {
    hide LogInv, Backoff, Refused, ArmingsSince, CreatedIn, LoseConnection;
    LogSnoc(settings, c.log, AuthRejected);
    LoseKeeps(settings, c.(errorInfo := PairingRequired, shouldReconnect := false, log := c.log + [AuthRejected]));
  }

  lemma AttachKeeps(settings: Settings, c: Connection)
    requires ReconnectInv(settings, c) && c.shouldReconnect
    ensures ReconnectInv(settings, Attach(c))
  {
    hide LogInv, Refused, ArmingsSince, CreatedIn;
    LogSnoc(settings, c.log, Created(c.created));
  }

  lemma NoteKeeps(settings: Settings, c: Connection)
    requires ReconnectInv(settings, c)
    ensures ReconnectInv(settings, c.(log := c.log + [ConnectCalled]))
    ensures !Refused(c.log + [ConnectCalled])
  {
    hide LogInv, Refused, ArmingsSince, CreatedIn;
    LogSnoc(settings, c.log, ConnectCalled);
  }

  lemma AttemptKeepsLog(s: Client, factoryOk: bool)
    requires ReconnectInv(s.settings, s.conn)
    ensures ReconnectInv(s.settings, AttemptConnect(s, factoryOk).conn)
  {
    hide LogInv, Refused, ArmingsSince, CreatedIn, SettleOpen, ClearWaiters, RejectQueue, Where, Backoff;
    var d := DisposeTransport(s);
    if s.conn.status != Disposed && s.conn.shouldReconnect && s.conn.status != Connecting {
      AttachKeeps(s.settings, d.conn);
      LoseKeeps(s.settings, d.conn);
    }
  }

  lemma OpenKeepsLog(s: Client, factoryOk: bool)
    requires ReconnectInv(s.settings, s.conn) && !Refused(s.conn.log)
    ensures ReconnectInv(s.settings, OpenConnection(s, factoryOk).conn)
  {
    hide LogInv, Refused, ArmingsSince, CreatedIn, AttemptConnect;
    AttemptKeepsLog(StartPromise(s), factoryOk);
  }

  lemma FailKeepsLog(s: Client)
    requires ReconnectInv(s.settings, s.conn)
    ensures ReconnectInv(s.settings, FailProbe(s).conn)
  {
    hide LogInv, Refused, ArmingsSince, CreatedIn, SettleOpen, ClearWaiters, RejectQueue, Where, LoseConnection;
    LoseKeeps(s.settings, DisposeTransport(s).conn);
  }

  lemma PingKeepsLog(s: Client, drives: bool, sendOk: bool)
    requires ReconnectInv(s.settings, s.conn)
    ensures ReconnectInv(s.settings, SendPing(s, drives, sendOk).conn)
  {
    hide LogInv, Refused, ArmingsSince, CreatedIn, FailProbe;
    FailKeepsLog(s.(live := StartProbe(s.live, drives)));
  }

  lemma SessionKeepsLog(s: Client, m: SessionMessage)
    requires ReconnectInv(s.settings, s.conn)
    ensures ReconnectInv(s.settings, HandleSession(s, m).conn)
  {
    hide LogInv, Refused, ArmingsSince, CreatedIn, SettleOpen, ClearWaiters, RejectQueue, Where, LoseConnection, Flush, Resubscribe;
    if m.ServerInfo? && Mismatched(s.conn, m.serverId) {
      LoseKeeps(s.settings, DisposeTransport(s).conn.(errorInfo := IdentityMismatch));
    } else {
      LogSnoc(s.settings, s.conn.log, Handshaken);
    }
  }

  lemma ApiKeepsLog(s: Client, call: ApiCall)
    requires ReconnectInv(s.settings, s.conn)
    ensures ReconnectInv(s.settings, StepApi(s, call).conn)
  {
    hide LogInv, Refused, ArmingsSince, CreatedIn, SettleOpen, ClearWaiters, RejectQueue, Where, OpenConnection, SendPing,
         AddWaiter, CancelWait, Enlist, Delist;
    match call
    case Connect(factoryOk) =>
      NoteKeeps(s.settings, s.conn);
      OpenKeepsLog(NoteConnectCall(s), factoryOk);
    case EnsureConnected(factoryOk) =>
      NoteKeeps(s.settings, s.conn);
      var n := NoteConnectCall(s);
      OpenKeepsLog(n.(conn := n.conn.(shouldReconnect := true)), factoryOk);
    case MeasureLatency(sendOk) => PingKeepsLog(s, false, sendOk);
    case _ =>
  }

  lemma CloseKeepsLog(s: Client, close: CloseKind)
    requires ReconnectInv(s.settings, s.conn)
    ensures ReconnectInv(s.settings, HandleClose(s, close).conn)
  {
    hide LogInv, Refused, ArmingsSince, CreatedIn, ClearWaiters, RejectQueue, Where, LoseConnection;
    var quiet := s.conn.(connectTimer := false, genericErrorTimer := false);
    LoseKeeps(s.settings, quiet);
    RefuseKeeps(s.settings, quiet);
  }

  lemma ErrorKeepsLog(s: Client, error: ErrorKind)
    requires ReconnectInv(s.settings, s.conn)
    ensures ReconnectInv(s.settings, HandleError(s, error).conn)
  {
    hide LogInv, Refused, ArmingsSince, CreatedIn, ClearWaiters, RejectQueue, Where, LoseConnection;
    var quiet := s.conn.(connectTimer := false, genericErrorTimer := false);
    LoseKeeps(s.settings, quiet);
    RefuseKeeps(s.settings, quiet);
  }

  lemma TransportKeepsLog(s: Client, event: TransportEvent)
    requires ReconnectInv(s.settings, s.conn)
    ensures ReconnectInv(s.settings, StepTransport(s, event).conn)
  {
    hide LogInv, Refused, ArmingsSince, CreatedIn, SettleOpen, ClearWaiters, RejectQueue, Where, HandleSession, LoseConnection,
         HandleClose, HandleError;
    match event
    case Opened(_) => LoseKeeps(s.settings, s.conn.(genericErrorTimer := false));
    case Closed(close) => CloseKeepsLog(s, close);
    case Errored(error) => ErrorKeepsLog(s, error);
    case Received(Session(m)) => SessionKeepsLog(s.(live := HearInbound(s.live)), m);
    case Received(FileFrame(Some(m))) => SessionKeepsLog(s.(live := HearInbound(s.live)), m);
    case _ =>
  }

  lemma TimerKeepsLog(s: Client, timer: TimerEvent)
    requires ReconnectInv(s.settings, s.conn)
    ensures ReconnectInv(s.settings, StepTimer(s, timer).conn)
  {
    hide LogInv, Refused, ArmingsSince, CreatedIn, SettleOpen, ClearWaiters, RejectQueue, Where, FailProbe, SendPing, AttemptConnect,
         LoseConnection, FireSendTimer;
    match timer
    case ConnectTimeout => LoseKeeps(s.settings, DisposeTransport(s).conn);
    case GenericErrorTimeout => LoseKeeps(s.settings, s.conn.(genericErrorTimer := false));
    case ReconnectFire(factoryOk) => AttemptKeepsLog(s.(conn := s.conn.(reconnectTimer := None)), factoryOk);
    case HeartbeatFire(sendOk) => PingKeepsLog(s.(live := s.live.(heartbeatTimer := false)), true, sendOk);
    case ProbeTimeout(id) => FailKeepsLog(s);
    case _ =>
  }

  lemma ReconnectInvStep(s: Client, e: Event)
    requires ReconnectInv(s.settings, s.conn)
    ensures ReconnectInv(s.settings, Step(s, e).conn) && Step(s, e).settings == s.settings
  {
    hide ReconnectInv, StepApi, StepTransport, StepTimer;
    StepKeepsSettings(s, e);
    match e
    case Api(call) => ApiKeepsLog(s, call);
    case Transport(event) => TransportKeepsLog(s, event);
    case Timer(timer) => TimerKeepsLog(s, timer);
  }

  lemma StepKeepsSettings(s: Client, e: Event)
    ensures Step(s, e).settings == s.settings
  {
    hide SettleOpen, ClearWaiters, RejectQueue, Where, LoseConnection, Flush, Resubscribe, AddWaiter, CancelWait, Enlist, Delist, Backoff;
  }

  lemma {:induction false} ReconnectInvRun(s: Client, events: seq<Event>)
    requires ReconnectInv(s.settings, s.conn)
    ensures ReconnectInv(s.settings, Run(s, events).conn) && Run(s, events).settings == s.settings
  {
    hide ReconnectInv, Step;
    if events == [] {
    } else {
      ReconnectInvRun(s, events[..|events| - 1]);
      ReconnectInvStep(Run(s, events[..|events| - 1]), events[|events| - 1]);
    }
  }

  /** Over every run: the k-th arming since the last handshake waits min(base * 2^(k-1), max); after
      an authentication refusal nothing is armed and no transport is created until `connect` or
      `ensureConnected` is called, and meanwhile no timer is pending; `created` counts every
      transport there ever was. */
  lemma BackoffAndRefusal(settings: Settings, enabled: bool, expected: Option<string>, events: seq<Event>)
    ensures var c := Run(NewClient(settings, enabled, expected), events).conn;
            && (forall k :: 0 <= k < |c.log| && c.log[k].Armed? ==>
                  c.log[k].delay ==
                  Min(settings.baseDelay * PowerOfTwo(ArmingsSince(c.log[..k])), settings.maxDelay))
            && (forall i, k :: 0 <= i < k < |c.log| && c.log[i].AuthRejected? && (c.log[k].Armed? || c.log[k].Created?) ==>
                  exists j :: i < j < k && c.log[j].ConnectCalled?)
            && c.created == CreatedIn(c.log)
            && (Refused(c.log) ==> c.reconnectTimer.None? && (c.status == Disconnected || c.status == Disposed))
  {
    ReconnectInvRun(NewClient(settings, enabled, expected), events);
    var log := Run(NewClient(settings, enabled, expected), events).conn.log;
    forall i, k | 0 <= i < k < |log| && log[i].AuthRejected? && (log[k].Armed? || log[k].Created?)
      ensures exists j :: i < j < k && log[j].ConnectCalled?
    {
      RefusedUntilConnect(log[..k], i);
      if j :| i < j < k && log[..k][j].ConnectCalled? {
        assert log[j].ConnectCalled?;
      }
    }
  }

  /** A refusal lasts until somebody asks to connect. */
  lemma {:induction false} RefusedUntilConnect(log: seq<Milestone>, i: nat)
    requires i < |log| && log[i].AuthRejected?
    ensures Refused(log) || exists j :: i < j < |log| && log[j].ConnectCalled?
  {
    if i < |log| - 1 {
      var front := log[..|log| - 1];
      RefusedUntilConnect(front, i);
      if j :| i < j < |front| && front[j].ConnectCalled? {
        assert log[j].ConnectCalled?;
      } else if log[|log| - 1].ConnectCalled? {
        assert i < |log| - 1 < |log|;
      }
    }
  }

  /** Disposal is final: every later callback leaves the client disposed, with no transport, no
      queued send, no probe and no connection timer, and creates no transport. */
  lemma DisposedIsAbsorbing(s: Client, events: seq<Event>)
    requires ConnectionInv(s) && s.conn.status == Disposed
    ensures var r := Run(s, events);
            && r.conn.status == Disposed && r.conn.created == s.conn.created
            && r.conn.transport.None? && r.sends.queue == [] && r.live.probe.None? && !r.live.heartbeatTimer
            && r.conn.reconnectTimer.None? && !r.conn.connectTimer && !r.conn.genericErrorTimer
  {
    DisposedRun(s, events);
  }

  lemma {:induction false} DisposedRun(s: Client, events: seq<Event>)
    requires ConnectionInv(s) && s.conn.status == Disposed
    ensures ConnectionInv(Run(s, events)) && Run(s, events).conn.status == Disposed
    ensures Run(s, events).conn.created == s.conn.created
  {
    hide Step, Sound;
    if events == [] {
    } else {
      var before := Run(s, events[..|events| - 1]);
      DisposedRun(s, events[..|events| - 1]);
      ConnectionInvStep(before, events[|events| - 1]);
      DisposedStep(before, events[|events| - 1]);
    }
  }

  lemma DisposedStep(s: Client, e: Event)
    requires ConnectionInv(s) && s.conn.status == Disposed
    ensures Step(s, e).conn.status == Disposed && Step(s, e).conn.created == s.conn.created
  {
    hide SettleOpen, ClearWaiters, RejectQueue, Where, Flush, Resubscribe, AddWaiter, CancelWait, Enlist, Delist, Backoff;
  }
}
