/** One summary of every callback: what it does to the queue, the subscriptions and the wire, and
    how the status and the transport may move meanwhile. */
module ClientTraffic {
  import opened Sequences
  import opened ClientState
  import opened ClientConnection

  datatype Traffic =
    | Quiet
    | Greet
    | Probing
    | Alter(subs: seq<Subscription>, payload: Payload)
    | Drop(outcome: SendOutcome)
    | Submit(message: Message)
    | Expire(id: nat)
    | Shake(from: Client)

  /** The client as the traffic leaves it; only `sends`, `subs` and `wire` matter. */
  function Carry(s: Client, traffic: Traffic): Client {
    match traffic
    case Quiet => s
    case Greet => Emit(s, Hello)
    case Probing => Emit(s, Ping)
    case Alter(subs, payload) => ChangeSubscription(s, subs, payload)
    case Drop(outcome) => s.(sends := RejectQueue(s.sends, outcome))
    case Submit(message) => SendMessage(s, message)
    case Expire(id) => s.(sends := FireSendTimer(s.sends, id))
    case Shake(from) => Handshake(from)
  }

  ghost predicate SameTraffic(a: Client, b: Client) {
    a.sends == b.sends && a.subs == b.subs && a.wire == b.wire
  }

  /** `Alter` is one of the two subscription calls; `Shake` starts from this very client. */
  ghost predicate Fitting(s: Client, traffic: Traffic) {
    match traffic
    case Alter(subs, Subscribe(sub)) => subs == Enlist(s.subs, sub)
    case Alter(subs, Unsubscribe(sub)) => subs == Delist(s.subs, Key(sub))
    case Alter(_, _) => false
    case Drop(outcome) => outcome == ConnectionLost || outcome == ClientClosed
    case Shake(from) => from.conn == s.conn && SameTraffic(from, s) && s.conn.status == Connecting
    case _ => true
  }

  /** A session is only entered through a handshake, and a new attempt only on a new transport. */
  ghost predicate Moves(c: Connection, after: Connection, traffic: Traffic) {
    && c.created <= after.created
    && (after.status == Connected ==>
          && after.transport == c.transport
          && if traffic.Shake? then c.status == Connecting else c.status == Connected)
    && (after.status == Connecting ==>
          !traffic.Shake? &&
          if c.status == Connecting then after.transport == c.transport
          else after.transport == Some(c.created) && after.created == c.created + 1 && traffic.Quiet?)
  }

  ghost predicate Summary(s: Client, after: Client, traffic: Traffic) {
    && Fitting(s, traffic)
    && SameTraffic(after, Carry(s, traffic))
    && Moves(s.conn, after.conn, traffic)
  }

  /** The traffic of a callback that is not a call, a timer or a message of its own kind. */
  ghost function Otherwise(s: Client, after: Client): Traffic {
    if after.sends == s.sends then Quiet else Drop(ConnectionLost)
  }

  lemma OpenSummary(s: Client, factoryOk: bool) returns (traffic: Traffic)
    requires ConnectionInv(s)
    ensures Summary(s, OpenConnection(s, factoryOk), traffic)
    ensures traffic.Quiet? || traffic.Drop?
  {
    hide SettleOpen, ClearWaiters, RejectQueue, Where;
    traffic := Otherwise(s, OpenConnection(s, factoryOk));
  }

  lemma FailSummary(s: Client) returns (traffic: Traffic)
    requires ConnectionInv(s)
    ensures Summary(s, FailProbe(s), traffic)
    ensures traffic.Quiet? || traffic.Drop?
  {
    hide SettleOpen, ClearWaiters, RejectQueue, Where;
    traffic := Otherwise(s, FailProbe(s));
  }

  lemma PingSummary(s: Client, drives: bool, sendOk: bool) returns (traffic: Traffic)
    requires ConnectionInv(s)
    ensures Summary(s, SendPing(s, drives, sendOk), traffic)
    ensures traffic.Quiet? || traffic.Drop? || traffic.Probing?
  {
    hide SettleOpen, ClearWaiters, RejectQueue, Where, FailProbe;
    if Live(s.conn) && s.live.probe.None? {
      if sendOk {
        traffic := Probing;
      } else {
        traffic := FailSummary(s.(live := StartProbe(s.live, drives)));
      }
    } else {
      traffic := Quiet;
    }
  }

  lemma CallSummary(s: Client, waiter: Waiter, message: Message)
    ensures Summary(s, MakeCall(s, waiter, message), Submit(message))
  {
    hide AddWaiter, CancelWait, Where;
  }

  lemma AlterSummary(s: Client, subs: seq<Subscription>, payload: Payload)
    requires Fitting(s, Alter(subs, payload))
    ensures Summary(s, ChangeSubscription(s, subs, payload), Alter(subs, payload))
  {
    hide Enlist, Delist;
  }

  lemma DisposeSummary(s: Client) returns (traffic: Traffic)
    ensures Summary(s, DisposeClient(s), traffic)
  {
    hide SettleOpen, ClearWaiters, RejectQueue, Where;
    traffic := if s.conn.status != Disposed then Drop(ClientClosed) else Quiet;
  }

  lemma ApiSummary(s: Client, call: ApiCall) returns (traffic: Traffic)
    requires ConnectionInv(s)
    ensures Summary(s, StepApi(s, call), traffic)
  {
    hide SettleOpen, ClearWaiters, RejectQueue, Where, OpenConnection, SendPing, MakeCall, AddWaiter, CancelWait, Enlist, Delist,
         SendMessage, ChangeSubscription, DisposeClient;
    traffic := Quiet;
    match call
    case Connect(factoryOk) => traffic := OpenSummary(NoteConnectCall(s), factoryOk);
    case EnsureConnected(factoryOk) =>
      if s.conn.status == Idle || s.conn.status == Disconnected {
        var n := NoteConnectCall(s);
        traffic := OpenSummary(n.(conn := n.conn.(shouldReconnect := true)), factoryOk);
      }
    case Close => traffic := DisposeSummary(s);
    case Send(message) => traffic := Submit(message);
    case Call(waiter, message) => traffic := Submit(message); CallSummary(s, waiter, message);
    case MeasureLatency(sendOk) => traffic := PingSummary(s, false, sendOk);
    case SubscribeTerminals(sub) =>
      traffic := Alter(Enlist(s.subs, sub), Subscribe(sub));
      AlterSummary(s, Enlist(s.subs, sub), Subscribe(sub));
    case UnsubscribeTerminals(sub) =>
      traffic := Alter(Delist(s.subs, Key(sub)), Unsubscribe(sub));
      AlterSummary(s, Delist(s.subs, Key(sub)), Unsubscribe(sub));
    case _ =>
  }

  lemma SessionSummary(s: Client, m: SessionMessage) returns (traffic: Traffic)
    requires ConnectionInv(s)
    ensures Summary(s, HandleSession(s, m), traffic)
    ensures traffic.Quiet? || traffic.Drop? || traffic.Shake?
  {
    hide SettleOpen, ClearWaiters, RejectQueue, Where, Flush, Resubscribe;
    if m.ServerInfo? && Mismatched(s.conn, m.serverId) {
      traffic := Drop(ConnectionLost);
    } else if m.ServerInfo? && s.conn.status == Connecting {
      traffic := Shake(s);
    } else {
      traffic := Quiet;
    }
  }

  lemma CloseSummary(s: Client, close: CloseKind) returns (traffic: Traffic)
    requires ConnectionInv(s)
    ensures Summary(s, HandleClose(s, close), traffic)
  {
    hide SettleOpen, ClearWaiters, RejectQueue, Where;
    traffic := Otherwise(s, HandleClose(s, close));
  }

  lemma ErrorSummary(s: Client, error: ErrorKind) returns (traffic: Traffic)
    requires ConnectionInv(s)
    ensures Summary(s, HandleError(s, error), traffic)
  {
    hide SettleOpen, ClearWaiters, RejectQueue, Where;
    traffic := Otherwise(s, HandleError(s, error));
  }

  lemma TransportSummary(s: Client, event: TransportEvent) returns (traffic: Traffic)
    requires ConnectionInv(s)
    ensures Summary(s, StepTransport(s, event), traffic)
  {
    hide SettleOpen, ClearWaiters, RejectQueue, Where, HandleSession, HandleClose, HandleError, Handshake;
    match event
    case Opened(sendOk) =>
      if s.conn.transport.None? { traffic := Quiet; }
      else { traffic := if sendOk then Greet else Drop(ConnectionLost); }
    case Closed(close) => traffic := CloseSummary(s, close);
    case Errored(error) => traffic := ErrorSummary(s, error);
    case Received(Session(m)) => traffic := SessionSummary(s.(live := HearInbound(s.live)), m);
    case Received(FileFrame(Some(m))) => traffic := SessionSummary(s.(live := HearInbound(s.live)), m);
    case Received(_) => traffic := Quiet;
  }

  lemma ConnectTimeoutSummary(s: Client) returns (traffic: Traffic)
    requires ConnectionInv(s)
    ensures Summary(s, HandleConnectTimeout(s), traffic)
  {
    hide SettleOpen, ClearWaiters, RejectQueue, Where;
    traffic := Otherwise(s, HandleConnectTimeout(s));
  }

  lemma GenericErrorSummary(s: Client) returns (traffic: Traffic)
    requires ConnectionInv(s)
    ensures Summary(s, HandleGenericErrorTimeout(s), traffic)
  {
    hide SettleOpen, ClearWaiters, RejectQueue, Where;
    traffic := Otherwise(s, HandleGenericErrorTimeout(s));
  }

  lemma ReconnectFireSummary(s: Client, factoryOk: bool) returns (traffic: Traffic)
    requires ConnectionInv(s)
    ensures Summary(s, HandleReconnectFire(s, factoryOk), traffic)
  {
    hide SettleOpen, ClearWaiters, RejectQueue, Where;
    traffic := Otherwise(s, HandleReconnectFire(s, factoryOk));
  }

  lemma TimerSummary(s: Client, timer: TimerEvent) returns (traffic: Traffic)
    requires ConnectionInv(s)
    ensures Summary(s, StepTimer(s, timer), traffic)
  {
    hide SettleOpen, ClearWaiters, RejectQueue, Where, FailProbe, SendPing, FireSendTimer, FireWaiterTimer, HandleConnectTimeout,
         HandleGenericErrorTimeout, HandleReconnectFire;
    match timer
    case ConnectTimeout => traffic := ConnectTimeoutSummary(s);
    case GenericErrorTimeout => traffic := GenericErrorSummary(s);
    case ReconnectFire(factoryOk) => traffic := ReconnectFireSummary(s, factoryOk);
    case SendTimeout(id) => traffic := Expire(id);
    case HeartbeatFire(sendOk) =>
      if s.live.heartbeatTimer { traffic := PingSummary(s.(live := s.live.(heartbeatTimer := false)), true, sendOk); }
      else { traffic := Quiet; }
    case ProbeTimeout(id) =>
      if s.live.probe.Some? && s.live.probe.value.id == id { traffic := FailSummary(s); } else { traffic := Quiet; }
    case _ => traffic := Quiet;
  }

  lemma StepSummary(s: Client, e: Event) returns (traffic: Traffic)
    requires ConnectionInv(s)
    ensures Summary(s, Step(s, e), traffic)
  {
    hide StepApi, StepTransport, StepTimer, Summary;
    match e
    case Api(call) => traffic := ApiSummary(s, call);
    case Transport(event) => traffic := TransportSummary(s, event);
    case Timer(timer) => traffic := TimerSummary(s, timer);
  }
}
