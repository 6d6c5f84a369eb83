/** What must happen to the connection, the pending work, the subscriptions and the probes, event by event
    (packages/client/src/daemon-client.ts:1340-1575, 2151-2233, 6690-6717, 7321-7388, 7500-7520). */
module ClientEffects {
  import opened Sequences
  import opened ClientState
  import opened ClientConnection
  import opened ClientLimits
  import opened ClientResponses
  import opened ClientWaitResponses

  // ---------------------------------------------------------------- entering a session

  /** The server the client expects, or any if it expects none, introduces itself. */
  ghost predicate Welcomes(s: Client, e: Event) {
    exists m: SessionMessage :: Carries(e, m) && m.ServerInfo? && !FromOther(s.conn, m)
  }

  /** Nothing is left of the attempt. */
  ghost predicate Cleared(c: Connection) {
    !c.connectTimer && c.attempt == 0 && c.errorInfo == NoInfo && c.promises.remembered.None?
  }

  lemma ApiEntersNothing(s: Client, call: ApiCall)
    requires s.conn.status == Connecting
    ensures StepApi(s, call).conn.status != Connected
  {
    hide SendMessage, MakeCall, SendPing, ChangeSubscription, AddWaiter, CancelWait, Enlist, Delist, RejectQueue, ClearWaiters,
         LoseConnection, Settle, Drop, Make, Remember;
  }

  lemma TimerEntersNothing(s: Client, timer: TimerEvent)
    requires s.conn.status == Connecting
    ensures StepTimer(s, timer).conn.status != Connected
  {
    hide RejectQueue, ClearWaiters, LoseConnection, SendPing, FailProbe, FireSendTimer, FireWaiterTimer, Settle;
  }

  lemma SessionEnters(s: Client, m: SessionMessage)
    requires s.conn.status == Connecting
    ensures var r := HandleSession(s, m);
            && (r.conn.status == Connected <==> m.ServerInfo? && !FromOther(s.conn, m))
            && (r.conn.status == Connected ==> r.conn.transport == s.conn.transport && r.live.heartbeatTimer && Cleared(r.conn))
  {
    hide RejectQueue, ClearWaiters, LoseConnection, Flush, Resubscribe, ResolveWaiters;
  }

  lemma TransportEnters(s: Client, event: TransportEvent)
    requires s.conn.status == Connecting
    ensures var r := StepTransport(s, event);
            && (r.conn.status == Connected <==> Welcomes(s, Transport(event)))
            && (r.conn.status == Connected ==> r.conn.transport == s.conn.transport && r.live.heartbeatTimer && Cleared(r.conn))
  {
    hide RejectQueue, ClearWaiters, LoseConnection, HandleSession, RejectWaitersFor;
    match event
    case Received(Session(m)) =>
      SessionEnters(s.(live := HearInbound(s.live)), m);
      assert Carries(Transport(event), m);
    case Received(FileFrame(Some(m))) =>
      SessionEnters(s.(live := HearInbound(s.live)), m);
      assert Carries(Transport(event), m);
    case _ =>
  }

  /** A connecting client becomes connected exactly when the server it expects introduces itself, on the
      transport it has, and then arms its heartbeat. */
  lemma HandshakeExactly(s: Client, e: Event)
    requires s.conn.status == Connecting
    ensures var r := Step(s, e);
            && (r.conn.status == Connected <==> Welcomes(s, e))
            && (r.conn.status == Connected ==> r.conn.transport == s.conn.transport && r.live.heartbeatTimer && Cleared(r.conn))
  {
    hide StepApi, StepTransport, StepTimer;
    match e
    case Api(call) => ApiEntersNothing(s, call);
    case Transport(event) => TransportEnters(s, event);
    case Timer(timer) => TimerEntersNothing(s, timer);
  }

  /** Another server is turned away, whenever it introduces itself. */
  lemma StrangersAreRejected(s: Client, e: Event, m: SessionMessage)
    requires Carries(e, m) && FromOther(s.conn, m) && s.conn.status != Disposed
    ensures var r := Step(s, e).conn;
            r.status == Disconnected && r.transport.None? && r.errorInfo == IdentityMismatch
  {
    hide RejectQueue, ClearWaiters, LoseConnection, Handshake, ResolveWaiters;
    var heard := s.(live := HearInbound(s.live));
    Loses(s.settings, DisposeTransport(heard.(conn := heard.conn.(errorInfo := IdentityMismatch))).conn);
  }

  // ---------------------------------------------------------------- losing it

  /** Does this event end what the client has with its transport? A close or an error the client has not
      been told to ignore, a hello that cannot be sent, or a timeout of its own. */
  ghost predicate Breaks(s: Client, e: Event) {
    var c := s.conn;
    || (e == Transport(Closed(OtherClose)) && c.transport.Some? && !Latched(c))
    || (e == Transport(Errored(Detailed)) && c.transport.Some?)
    || (e == Transport(Opened(false)) && c.transport.Some?)
    || (e == Timer(ConnectTimeout) && c.connectTimer && c.status == Connecting)
    || (e == Timer(GenericErrorTimeout) && c.genericErrorTimer && (c.status == Connecting || c.status == Connected))
  }

  /** Then it is disconnected, and the reconnect timer is armed exactly if reconnecting is wanted. */
  lemma BreaksReconnect(s: Client, e: Event)
    requires ConnectionInv(s) && Breaks(s, e)
    ensures var r := Step(s, e).conn;
            r.status == Disconnected && (r.reconnectTimer.Some? <==> s.conn.shouldReconnect && s.conn.reconnectEnabled)
  {
    hide RejectQueue, ClearWaiters, LoseConnection, RejectWaitersFor, HandleSession;
    var c := s.conn;
    Loses(s.settings, c.(connectTimer := false, genericErrorTimer := false));
    Loses(s.settings, c.(genericErrorTimer := false));
    Loses(s.settings, DisposeTransport(s).conn);
  }

  /** An error without details is only noted, and its timer armed. */
  lemma GenericErrorsWait(s: Client)
    requires s.conn.transport.Some?
    ensures var r := Step(s, Transport(Errored(Generic)));
            r == s.(conn := s.conn.(connectTimer := false, genericErrorTimer := true))
  {
  }

  /** What a loss, or closing, does to the pending work. */
  ghost predicate Settles(s: Client, r: Client, closed: bool) {
    && r.waits == ClearWaiters(s.waits, if closed then WaitClosed else WaitLost)
    && r.sends == RejectQueue(s.sends, if closed then ClientClosed else ConnectionLost)
  }

  lemma ApiSettles(s: Client, call: ApiCall)
    requires InSession(s) && Ended(StepApi(s, call))
    ensures call.Close? && Settles(s, StepApi(s, call), true)
  {
    hide RejectQueue, ClearWaiters, AddWaiter, CancelWait, Enlist, Delist, LoseConnection, SendMessage, MakeCall, ChangeSubscription,
         Settle, Drop, Make, Remember;
  }

  lemma SessionSettles(s: Client, m: SessionMessage)
    requires InSession(s) && Ended(HandleSession(s, m))
    ensures Settles(s, HandleSession(s, m), false)
  {
    hide RejectQueue, ClearWaiters, LoseConnection, Handshake, ResolveWaiters;
  }

  lemma TransportSettles(s: Client, event: TransportEvent)
    requires InSession(s) && Ended(StepTransport(s, event))
    ensures Settles(s, StepTransport(s, event), false)
  {
    hide RejectQueue, ClearWaiters, LoseConnection, HandleSession, RejectWaitersFor;
    match event
    case Received(Session(m)) => SessionSettles(s.(live := HearInbound(s.live)), m);
    case Received(FileFrame(Some(m))) => SessionSettles(s.(live := HearInbound(s.live)), m);
    case _ =>
  }

  lemma TimerSettles(s: Client, timer: TimerEvent)
    requires InSession(s) && Ended(StepTimer(s, timer))
    ensures Settles(s, StepTimer(s, timer), false)
  {
    hide RejectQueue, ClearWaiters, LoseConnection, FireSendTimer, FireWaiterTimer, Settle;
  }

  lemma StepSettles(s: Client, e: Event)
    requires InSession(s) && Ended(Step(s, e))
    ensures Settles(s, Step(s, e), e == Api(Close))
  {
    hide StepApi, StepTransport, StepTimer, Settles;
    match e
    case Api(call) => ApiSettles(s, call);
    case Transport(event) => TransportSettles(s, event);
    case Timer(timer) => TimerSettles(s, timer);
  }

  /** Every step that ends an attempt or a session settles each open waiter and each queued send, as
      closed if it is `close`, and as lost otherwise. */
  lemma LossSettlesEverything(s: Client, e: Event)
    requires InSession(s) && Ended(Step(s, e))
    ensures var r, closed := Step(s, e), e == Api(Close);
            && (forall id :: id in s.waits.open ==> Leaves(s.waits, r.waits, id, if closed then WaitClosed else WaitLost))
            && (forall id :: id in s.sends.queue ==>
                  SendSettled(id, if closed then ClientClosed else ConnectionLost) in r.sends.settled && id !in r.sends.timers)
            && r.waits.open == [] && r.sends.queue == []
  {
    hide Step;
    StepSettles(s, e);
    var r, closed := Step(s, e), e == Api(Close);
    forall id | id in s.waits.open
      ensures Leaves(s.waits, r.waits, id, if closed then WaitClosed else WaitLost)
    {
      var k :| 0 <= k < |s.waits.open| && s.waits.open[k] == id;
      assert r.waits.settled[|s.waits.settled| + k].id == id;
    }
    forall id | id in s.sends.queue
      ensures SendSettled(id, if closed then ClientClosed else ConnectionLost) in r.sends.settled
    {
      var k :| 0 <= k < |s.sends.queue| && s.sends.queue[k] == id;
      assert r.sends.settled[|s.sends.settled| + k].id == id;
    }
  }

  /** `close` disposes of any client. */
  lemma CloseDisposes(s: Client)
    ensures Step(s, Api(Close)).conn.status == Disposed
  {
    hide RejectQueue, ClearWaiters, Drop;
  }

  // ---------------------------------------------------------------- attempting

  /** What an attempt that reaches the factory leaves. */
  ghost predicate Attempted(s: Client, r: Client, factoryOk: bool) {
    if factoryOk then
      r.conn.status == Connecting && r.conn.transport == Some(s.conn.created) && r.conn.created == s.conn.created + 1
      && r.conn.connectTimer
    else
      r.conn.status == Disconnected && r.conn.transport.None? && r.conn.created == s.conn.created
      && (r.conn.reconnectTimer.Some? <==> s.conn.reconnectEnabled)
  }

  lemma AttemptReaches(s: Client, factoryOk: bool)
    requires s.conn.shouldReconnect && s.conn.status != Disposed && s.conn.status != Connecting
    ensures Attempted(s, AttemptConnect(s, factoryOk), factoryOk)
  {
    hide RejectQueue, ClearWaiters, LoseConnection, Settle;
    Loses(s.settings, DisposeTransport(s).conn);
  }

  /** The reconnect timer's firing attempts, unless reconnecting was turned off or an attempt is under way. */
  lemma ReconnectTimerAttempts(s: Client, factoryOk: bool)
    requires ConnectionInv(s) && s.conn.reconnectTimer.Some?
    ensures var r := Step(s, Timer(ReconnectFire(factoryOk)));
            if s.conn.shouldReconnect && s.conn.status != Connecting then Attempted(s, r, factoryOk)
            else r == s.(conn := s.conn.(reconnectTimer := None))
  {
    hide AttemptConnect;
    var fired := s.(conn := s.conn.(reconnectTimer := None));
    if s.conn.shouldReconnect && s.conn.status != Connecting {
      AttemptReaches(fired, factoryOk);
    } else if s.conn.shouldReconnect {
      AttemptWaits(fired, factoryOk);
    }
  }

  lemma AttemptWaits(s: Client, factoryOk: bool)
    requires s.conn.shouldReconnect && s.conn.status == Connecting
    ensures AttemptConnect(s, factoryOk) == s
  {
  }

  /** Outside a session, asking to connect attempts, unless an earlier promise is still remembered; and
      `ensureConnected` turns reconnecting on in any case. */
  lemma AskingAttempts(s: Client, e: Event)
    requires (s.conn.status == Idle || s.conn.status == Disconnected) && AsksAgain(e)
    ensures var r := Step(s, e);
            && (s.conn.promises.remembered.None? ==> Attempted(s, r, e.call.factoryOk) && r.conn.shouldReconnect)
            && (e.call.EnsureConnected? ==> r.conn.shouldReconnect)
  {
    hide AttemptConnect, Make, Remember;
    var asked := NoteConnectCall(s);
    AttemptReaches(StartPromise(asked), e.call.factoryOk);
    AttemptReaches(StartPromise(asked.(conn := asked.conn.(shouldReconnect := true))), e.call.factoryOk);
    AttemptKeepsWish(StartPromise(asked), e.call.factoryOk);
    AttemptKeepsWish(StartPromise(asked.(conn := asked.conn.(shouldReconnect := true))), e.call.factoryOk);
  }

  lemma AttemptKeepsWish(s: Client, factoryOk: bool)
    ensures AttemptConnect(s, factoryOk).conn.shouldReconnect == s.conn.shouldReconnect
  {
    hide RejectQueue, ClearWaiters, LoseConnection, Settle;
    Loses(s.settings, DisposeTransport(s).conn);
  }

  /** An opened transport is greeted. */
  lemma OpenSaysHello(s: Client)
    requires s.conn.transport.Some?
    ensures Step(s, Transport(Opened(true))).wire == s.wire + [Sending(s.conn.transport.value, Hello)]
  {
  }

  // ---------------------------------------------------------------- subscriptions

  /** The subscription map changes by the two calls alone, and as they say. */
  lemma SubscriptionsFollowCalls(s: Client, e: Event)
    ensures var subs := Step(s, e).subs;
            subs == if e.Api? && e.call.SubscribeTerminals? then Enlist(s.subs, e.call.sub)
                    else if e.Api? && e.call.UnsubscribeTerminals? then Delist(s.subs, Key(e.call.sub))
                    else s.subs
  {
    hide StepTransport, StepTimer, Enlist, Delist;
    match e
    case Api(call) =>
      if !call.SubscribeTerminals? && !call.UnsubscribeTerminals? {
        ApiKeepsSubs(s, call);
      }
    case Transport(event) => TransportKeepsSubs(s, event);
    case Timer(timer) => TimerKeepsSubs(s, timer);
  }

  lemma ApiKeepsSubs(s: Client, call: ApiCall)
    requires !call.SubscribeTerminals? && !call.UnsubscribeTerminals?
    ensures StepApi(s, call).subs == s.subs
  {
    hide SendMessage, MakeCall, SendPing, AddWaiter, CancelWait, RejectQueue, ClearWaiters, LoseConnection, Settle, Drop, Make, Remember;
  }

  lemma TransportKeepsSubs(s: Client, event: TransportEvent)
    ensures StepTransport(s, event).subs == s.subs
  {
    hide RejectQueue, ClearWaiters, LoseConnection, RejectWaitersFor, ResolveWaiters, Handshake;
  }

  lemma TimerKeepsSubs(s: Client, timer: TimerEvent)
    ensures StepTimer(s, timer).subs == s.subs
  {
    hide RejectQueue, ClearWaiters, LoseConnection, SendPing, FailProbe, FireSendTimer, FireWaiterTimer, Settle;
  }
}
