/** What a lost connection leaves, and where the client stops short of what one might expect, with the
    exact conditions. */
module ClientLimits {
  import opened Sequences
  import opened ClientState
  import opened ClientConnection

  // ---------------------------------------------------------------- losing the connection

  ghost predicate InSession(s: Client) {
    s.conn.status == Connecting || s.conn.status == Connected
  }

  ghost predicate Ended(s: Client) {
    s.conn.status == Disconnected || s.conn.status == Disposed
  }

  ghost predicate NothingPending(s: Client) {
    s.waits.open == [] && s.sends.queue == [] && s.live.probe.None?
  }

  lemma ApiLoss(s: Client, call: ApiCall)
    requires InSession(s) && Ended(StepApi(s, call))
    ensures NothingPending(StepApi(s, call))
  {
    hide RejectQueue, Where, ClearWaiters, AddWaiter, CancelWait, Enlist, Delist, Backoff;
  }

  lemma SessionLoss(s: Client, m: SessionMessage)
    requires InSession(s) && Ended(HandleSession(s, m))
    ensures NothingPending(HandleSession(s, m))
  {
    hide RejectQueue, Where, ClearWaiters, Flush, Resubscribe, Backoff;
  }

  lemma CloseLoss(s: Client, close: CloseKind)
    requires InSession(s) && Ended(HandleClose(s, close))
    ensures NothingPending(HandleClose(s, close))
  {
    hide RejectQueue, Where, ClearWaiters, Backoff;
  }

  lemma ErrorLoss(s: Client, error: ErrorKind)
    requires InSession(s) && Ended(HandleError(s, error))
    ensures NothingPending(HandleError(s, error))
  {
    hide RejectQueue, Where, ClearWaiters, Backoff;
  }

  lemma TransportLoss(s: Client, event: TransportEvent)
    requires InSession(s) && Ended(StepTransport(s, event))
    ensures NothingPending(StepTransport(s, event))
  {
    hide RejectQueue, Where, ClearWaiters, Backoff, HandleSession, HandleClose, HandleError;
    match event
    case Closed(close) => CloseLoss(s, close);
    case Errored(error) => ErrorLoss(s, error);
    case Received(Session(m)) => SessionLoss(s.(live := HearInbound(s.live)), m);
    case Received(FileFrame(Some(m))) => SessionLoss(s.(live := HearInbound(s.live)), m);
    case _ =>
  }

  lemma TimerLoss(s: Client, timer: TimerEvent)
    requires InSession(s) && Ended(StepTimer(s, timer))
    ensures NothingPending(StepTimer(s, timer))
  {
    hide RejectQueue, Where, ClearWaiters, Backoff;
  }

  /** A callback that ends an attempt or a session leaves no open waiter, no queued send and no probe. */
  lemma LossLeavesNothing(s: Client, e: Event)
    requires InSession(s) && Ended(Step(s, e))
    ensures NothingPending(Step(s, e))
  {
    hide StepApi, StepTransport, StepTimer, NothingPending;
    match e
    case Api(call) => ApiLoss(s, call);
    case Transport(event) => TransportLoss(s, event);
    case Timer(timer) => TimerLoss(s, timer);
  }

  // ---------------------------------------------------------------- waiters across transports

  lemma OpenStays(s: Client, factoryOk: bool)
    requires s.conn.status == Connected
    ensures OpenConnection(s, factoryOk).conn.status != Connecting
  {
    hide RejectQueue, Where, SettleOpen, ClearWaiters, LoseConnection;
  }

  lemma DisposeStays(s: Client)
    requires s.conn.status == Connected
    ensures DisposeClient(s).conn.status != Connecting
  {
    hide RejectQueue, Where, SettleOpen, ClearWaiters, LoseConnection;
  }

  lemma ApiStays(s: Client, call: ApiCall)
    requires s.conn.status == Connected
    ensures StepApi(s, call).conn.status != Connecting
  {
    hide SendMessage, MakeCall, SendPing, ChangeSubscription, AddWaiter, CancelWait, Enlist, Delist, OpenConnection, DisposeClient;
    match call
    case Connect(factoryOk) => OpenStays(NoteConnectCall(s), factoryOk);
    case Close => DisposeStays(s);
    case _ =>
  }

  lemma SessionStays(s: Client, m: SessionMessage)
    requires s.conn.status == Connected
    ensures HandleSession(s, m).conn.status != Connecting
  {
    hide RejectQueue, Where, SettleOpen, ClearWaiters, LoseConnection, Handshake;
  }

  lemma CloseStays(s: Client, close: CloseKind)
    requires s.conn.status == Connected
    ensures HandleClose(s, close).conn.status != Connecting
  {
    hide RejectQueue, ClearWaiters, LoseConnection;
  }

  lemma ErrorStays(s: Client, error: ErrorKind)
    requires s.conn.status == Connected
    ensures HandleError(s, error).conn.status != Connecting
  {
    hide RejectQueue, ClearWaiters, LoseConnection;
  }

  lemma TransportStays(s: Client, event: TransportEvent)
    requires s.conn.status == Connected
    ensures StepTransport(s, event).conn.status != Connecting
  {
    hide RejectQueue, Where, SettleOpen, ClearWaiters, LoseConnection, HandleSession, HandleClose, HandleError;
    match event
    case Closed(close) => CloseStays(s, close);
    case Errored(error) => ErrorStays(s, error);
    case Received(Session(m)) => SessionStays(s.(live := HearInbound(s.live)), m);
    case Received(FileFrame(Some(m))) => SessionStays(s.(live := HearInbound(s.live)), m);
    case _ =>
  }

  /** Within a session, the transport is replaced exactly when a reconnect timer left over from an
      earlier loss fires; the waiters, the probe and the failure count then survive the swap. */
  lemma SessionIsReplacedExactly(s: Client, e: Event)
    requires ConnectionInv(s) && s.conn.status == Connected
    ensures Step(s, e).conn.status == Connecting <==>
            && e.Timer? && e.timer == ReconnectFire(true)
            && s.conn.reconnectTimer.Some? && s.conn.shouldReconnect
    ensures Step(s, e).conn.status == Connecting ==>
            && Step(s, e).conn.transport == Some(s.conn.created) != s.conn.transport
            && Step(s, e).waits == s.waits && Step(s, e).live.probe == s.live.probe
            && Step(s, e).live.failures == s.live.failures
  {
    hide StepApi, StepTransport, StepTimer;
    match e
    case Api(call) => ApiStays(s, call);
    case Transport(event) => TransportStays(s, event);
    case Timer(timer) => TimerReplaces(s, timer);
  }

  lemma TimerReplaces(s: Client, timer: TimerEvent)
    requires ConnectionInv(s) && s.conn.status == Connected
    ensures var r := StepTimer(s, timer);
            && (r.conn.status == Connecting <==>
                  timer == ReconnectFire(true) && s.conn.reconnectTimer.Some? && s.conn.shouldReconnect)
            && (r.conn.status == Connecting ==>
                  && r.conn.transport == Some(s.conn.created) != s.conn.transport
                  && r.waits == s.waits && r.live.probe == s.live.probe && r.live.failures == s.live.failures)
  {
    hide RejectQueue, Where, ClearWaiters, SettleOpen, LoseConnection, SendPing, FailProbe, FireSendTimer, FireWaiterTimer,
         HandleReconnectFire, HandleConnectTimeout, HandleGenericErrorTimeout;
    match timer
    case ReconnectFire(factoryOk) => ReconnectReplaces(s, factoryOk);
    case ConnectTimeout => ConnectTimeoutStays(s);
    case GenericErrorTimeout => GenericErrorStays(s);
    case _ =>
  }

  lemma ReconnectReplaces(s: Client, factoryOk: bool)
    requires ConnectionInv(s) && s.conn.status == Connected
    ensures var r := HandleReconnectFire(s, factoryOk);
            && (r.conn.status == Connecting <==> factoryOk && s.conn.reconnectTimer.Some? && s.conn.shouldReconnect)
            && (r.conn.status == Connecting ==>
                  && r.conn.transport == Some(s.conn.created) != s.conn.transport
                  && r.waits == s.waits && r.live.probe == s.live.probe && r.live.failures == s.live.failures)
  {
    hide RejectQueue, ClearWaiters, LoseConnection, Settle;
  }

  lemma ConnectTimeoutStays(s: Client)
    requires s.conn.status == Connected
    ensures HandleConnectTimeout(s).conn.status != Connecting
  {
    hide RejectQueue, ClearWaiters, LoseConnection;
  }

  lemma GenericErrorStays(s: Client)
    requires s.conn.status == Connected
    ensures HandleGenericErrorTimeout(s).conn.status != Connecting
  {
    hide RejectQueue, ClearWaiters, LoseConnection;
  }

  lemma RunSnoc(s: Client, events: seq<Event>, e: Event)
    ensures Run(s, events + [e]) == Step(Run(s, events), e)
  {
    assert (events + [e])[..|events|] == events;
  }

  /** From idle to connected, however the settings are. */
  lemma Join(s: Client, events: seq<Event>) returns (longer: seq<Event>)
    requires var c := Run(s, events).conn;
             (c.status == Idle || c.status == Disconnected) && c.promises.remembered.None? && c.expectedServer.None?
    requires Run(s, events).sends.queue == [] && Run(s, events).waits.open == []
    ensures var before := Run(s, events); var c := Run(s, longer).conn;
            && c == before.conn.(status := Connected, transport := Some(before.conn.created), created := before.conn.created + 1,
                                 shouldReconnect := true, errorInfo := NoInfo, connectTimer := false,
                                 genericErrorTimer := false, attempt := 0,
                                 promises := c.promises,
                                 log := before.conn.log + [ConnectCalled, Created(before.conn.created), Handshaken])
            && c.promises.remembered.None?
            && Run(s, longer).waits.created == before.waits.created && Run(s, longer).waits.open == []
            && Run(s, longer).sends.queue == []
  {
    hide Run, Where, RejectQueue, SettleOpen, ClearWaiters, LoseConnection, Flush, Resubscribe;
    var before := Run(s, events);
    var dial := Api(Connect(true));
    var info := Transport(Received(Session(ServerInfo("daemon"))));
    RunSnoc(s, events, dial);
    RunSnoc(s, events + [dial], info);
    longer := events + [dial] + [info];
    var dialed := Run(s, events + [dial]);
    assert dialed.conn.status == Connecting && dialed.waits == before.waits;
    assert Run(s, longer).waits == ResolveWaiters(dialed.waits, ServerInfo("daemon"));
    NoneToResolve(dialed.waits, ServerInfo("daemon"));
    assert before.conn.log + [ConnectCalled] + [Created(before.conn.created)] + [Handshaken]
        == before.conn.log + [ConnectCalled, Created(before.conn.created), Handshaken];
  }

  lemma NoneToResolve(w: Waits, m: SessionMessage)
    requires w.open == []
    ensures ResolveWaiters(w, m).open == [] && ResolveWaiters(w, m).created == w.created
  {
    assert Where([], (id: nat) => id !in Where(w.open, (id: nat) => WaiterAccepts(w, id, m))) == [];
  }

  /** Such a timer is left over by calling `connect` after a loss: waiter 0, created on transport 1,
      is still open once transport 2 is attached. */
  lemma WaiterOutlivesItsTransport(settings: Settings, waiter: Waiter) returns (events: seq<Event>)
    ensures var before := Run(NewClient(settings, true, None), events);
            var after := Step(before, Timer(ReconnectFire(true)));
            && before.conn.status == Connected && before.conn.transport == Some(1) && before.waits.open == [0]
            && after.conn.status == Connecting && after.conn.transport == Some(2) && after.waits.open == [0]
  {
    hide Run, Where, RejectQueue, SettleOpen, ClearWaiters, Backoff, Handshake;
    var s := NewClient(settings, true, None);
    EmptyRun(s);
    events := Join(s, []);
    var close := Transport(Closed(OtherClose));
    RunSnoc(s, events, close);
    events := events + [close];
    assert Run(s, events).conn.reconnectTimer.Some?;
    assert Run(s, events).waits.created == [];
    events := Join(s, events);
    RunSnoc(s, events, Api(Await(waiter)));
    events := events + [Api(Await(waiter))];
  }

  lemma EmptyRun(s: Client)
    ensures Run(s, []) == s
  {
  }
}
