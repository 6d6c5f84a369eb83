/**
 The state of a daemon client and what each of its callbacks does to it
 (packages/client/src/daemon-client.ts).

 One `Event` is one run-to-completion callback: an API call, a transport callback, a timer
 firing, or a promise continuation. `Step` is total: a timer event whose timer is not armed and
 a transport event with no transport attached change nothing. Inbound frames may arrive at any
 time, because a Blob is decoded asynchronously and so can outlive its transport (line 7063).

 The logs (`conn.log`, `promises.log`, `live.log`, `wire`, `queued` and the two `settled` lists)
 record history only; no branch reads them.
 */
module ClientState {
  import opened Arithmetic
  import opened Sequences

  // ---------------------------------------------------------------- connection

  datatype Status = Idle | Connecting | Connected | Disconnected | Disposed

  datatype ErrorInfo = NoInfo | PairingRequired | IdentityMismatch

  datatype Milestone =
    | ConnectCalled
    | Created(transport: nat)
    | Handshaken
    | AuthRejected
    | Armed(delay: nat)

  /** What became of the promises `connect` made. `Forgotten` is the client's reference to one being set
      back to null, `Dropped` its resolvers being thrown away unused. */
  datatype PromiseEvent =
    | Made(id: nat)
    | FactoryThrew(id: nat)
    | Settled(id: nat, resolved: bool)
    | Dropped(id: nat)
    | Forgotten(id: nat)

  /** `connectPromise`, and the promise that `connectResolve` and `connectReject` settle. */
  datatype Promises = Promises(
    remembered: Option<nat>,
    resolvers: Option<nat>,
    made: nat,
    log: seq<PromiseEvent>)

  datatype Connection = Connection(
    status: Status,
    transport: Option<nat>,
    created: nat,
    shouldReconnect: bool,
    reconnectEnabled: bool,
    expectedServer: Option<string>,
    errorInfo: ErrorInfo,
    promises: Promises,
    connectTimer: bool,
    genericErrorTimer: bool,
    reconnectTimer: Option<nat>,
    attempt: nat,
    log: seq<Milestone>)

  datatype Settings = Settings(baseDelay: nat, maxDelay: nat)

  // ---------------------------------------------------------------- outbound messages

  datatype Message = Message(body: string, valid: bool)

  datatype SendOutcome =
    | Sent(transport: nat)
    | SendTimedOut
    | ConnectionLost
    | ClientClosed
    | SchemaRejected
    | NotConnected

  datatype SendSettled = SendSettled(id: nat, outcome: SendOutcome)

  /** A send is named by its position in `accepted`, the order in which calls were made; `queued` are
      those accepted while connecting. */
  datatype Sends = Sends(
    accepted: seq<Message>,
    queue: seq<nat>,
    queued: set<nat>,
    timers: set<nat>,
    settled: seq<SendSettled>)

  // ---------------------------------------------------------------- inbound messages

  datatype SessionMessage =
    | ServerInfo(serverId: string)
    | RpcError(requestId: string)
    | Response(responseType: string, requestId: string, payload: string)
    | Notice(kind: string, payload: string)

  datatype Frame =
    | Invalid(requestId: Option<string>)
    | Pong
    | Session(message: SessionMessage)
    | FileFrame(reply: Option<SessionMessage>)
    | TerminalFrame

  // ---------------------------------------------------------------- waiters

  /** `Plain` waiters have no request id; `Rpc` is `sendRequest`; `Correlated` is
      `sendCorrelatedRequest`, whose `keep` is the caller's `selectPayload`. */
  datatype Selector =
    | Plain(select: SessionMessage -> bool)
    | Rpc(requestId: string, select: SessionMessage -> bool)
    | Correlated(requestId: string, responseType: string, keep: SessionMessage -> bool)

  datatype Waiter = Waiter(selector: Selector, timed: bool)

  datatype WaitOutcome =
    | Resolved(message: SessionMessage)
    | WaitTimedOut
    | Cancelled
    | ProtocolFailure
    | WaitLost
    | WaitClosed

  datatype WaitSettled = WaitSettled(id: nat, outcome: WaitOutcome)

  /** A waiter is named by its position in `created`. */
  datatype Waits = Waits(
    created: seq<Waiter>,
    open: seq<nat>,
    timers: set<nat>,
    settled: seq<WaitSettled>)

  // ---------------------------------------------------------------- liveness

  datatype Probe = Probe(id: nat, drives: bool)

  datatype Pulse =
    | Inbound
    | Started(probe: nat, heartbeat: bool)
    | Failed(probe: nat, counted: bool)
    | Teardown

  datatype Liveness = Liveness(
    failures: nat,
    probe: Option<Probe>,
    started: nat,
    ended: nat,
    heartbeatTimer: bool,
    log: seq<Pulse>)

  // ---------------------------------------------------------------- terminal subscriptions

  datatype Subscription = Subscription(cwd: string, workspaceId: Option<string>)

  /** packages/protocol/src/terminal-subscription-key.ts */
  function Key(sub: Subscription): string {
    if sub.workspaceId.None? then sub.cwd else sub.workspaceId.value + "::" + sub.cwd
  }

  /** `Map.set`: an existing key keeps its place. */
  function Enlist(subs: seq<Subscription>, sub: Subscription): seq<Subscription> {
    if subs == [] then [sub]
    else if Key(subs[0]) == Key(sub) then [sub] + subs[1..]
    else [subs[0]] + Enlist(subs[1..], sub)
  }

  /** `Map.delete` */
  function Delist(subs: seq<Subscription>, key: string): seq<Subscription> {
    if subs == [] then []
    else if Key(subs[0]) == key then subs[1..]
    else [subs[0]] + Delist(subs[1..], key)
  }

  // ---------------------------------------------------------------- the wire

  /** `Welcome` marks the point where the server info completed the handshake. */
  datatype Payload =
    | Hello
    | Welcome
    | Ping
    | Subscribe(sub: Subscription)
    | Unsubscribe(sub: Subscription)
    | Request(id: nat)

  datatype Sending = Sending(transport: nat, payload: Payload)

  // ---------------------------------------------------------------- the client

  datatype Client = Client(
    settings: Settings,
    conn: Connection,
    sends: Sends,
    waits: Waits,
    live: Liveness,
    subs: seq<Subscription>,
    wire: seq<Sending>)

  datatype CloseKind = AuthRefused | OtherClose
  datatype ErrorKind = Unauthorized | Generic | Detailed

  datatype ApiCall =
    | Connect(factoryOk: bool)
    | EnsureConnected(factoryOk: bool)
    | Close
    | SetReconnectEnabled(enabled: bool)
    | SetExpectedServer(serverId: Option<string>)
    | Send(message: Message)
    | Await(waiter: Waiter)
    | Call(waiter: Waiter, message: Message)
    | CancelWaiter(id: nat)
    | MeasureLatency(sendOk: bool)
    | SubscribeTerminals(sub: Subscription)
    | UnsubscribeTerminals(sub: Subscription)

  datatype TransportEvent =
    | Opened(sendOk: bool)
    | Closed(close: CloseKind)
    | Errored(error: ErrorKind)
    | Received(frame: Frame)

  datatype TimerEvent =
    | ConnectTimeout
    | GenericErrorTimeout
    | ReconnectFire(factoryOk: bool)
    | SendTimeout(id: nat)
    | WaiterTimeout(id: nat)
    | HeartbeatFire(sendOk: bool)
    | HeartbeatSettled
    | ProbeTimeout(id: nat)

  datatype Event =
    | Api(call: ApiCall)
    | Transport(event: TransportEvent)
    | Timer(timer: TimerEvent)

  const LIVENESS_FAILURE_RECONNECT_THRESHOLD: nat := 2

  function NewClient(settings: Settings, reconnectEnabled: bool, expectedServer: Option<string>): Client {
    Client(
      settings,
      Connection(Idle, None, 0, true, reconnectEnabled, expectedServer, NoInfo, Promises(None, None, 0, []), false,
                 false, None, 0, []),
      Sends([], [], {}, {}, []),
      Waits([], [], {}, []),
      Liveness(0, None, 0, 0, false, []),
      [],
      [])
  }

  // ---------------------------------------------------------------- building blocks

  function Min(a: nat, b: nat): nat {
    if a <= b then a else b
  }

  /** The delay before the reconnect attempt that follows `attempt` earlier armings. */
  function Backoff(settings: Settings, attempt: nat): nat {
    Min(settings.baseDelay * PowerOfTwo(attempt), settings.maxDelay)
  }

  function Emit(s: Client, payload: Payload): (r: Client)
    ensures r == s.(wire := r.wire)
  {
    match s.conn.transport
    case None => s
    case Some(t) => s.(wire := s.wire + [Sending(t, payload)])
  }

  predicate Live(c: Connection) {
    c.status == Connected && c.transport.Some?
  }

  function SettleSends(ids: seq<nat>, outcome: SendOutcome): (r: seq<SendSettled>)
    ensures |r| == |ids|
    ensures forall i :: 0 <= i < |r| ==> r[i] == SendSettled(ids[i], outcome)
  {
    seq(|ids|, i requires 0 <= i < |ids| => SendSettled(ids[i], outcome))
  }

  function SettleWaits(ids: seq<nat>, outcome: WaitOutcome): (r: seq<WaitSettled>)
    ensures |r| == |ids|
    ensures forall i :: 0 <= i < |r| ==> r[i] == WaitSettled(ids[i], outcome)
  {
    seq(|ids|, i requires 0 <= i < |ids| => WaitSettled(ids[i], outcome))
  }

  function Members(ids: seq<nat>): set<nat> {
    set id | id in ids
  }

  function RejectQueue(q: Sends, outcome: SendOutcome): (r: Sends)
    ensures r.queue == []
  {
    q.(queue := [], timers := q.timers - Members(q.queue), settled := q.settled + SettleSends(q.queue, outcome))
  }

  /** `delete` on the set, `clearTimeout`, then settle, for each of `ids`. */
  function SettleOpen(w: Waits, ids: seq<nat>, outcome: WaitOutcome): Waits {
    w.(open := Without(w.open, ids), timers := w.timers - Members(ids),
       settled := w.settled + SettleWaits(ids, outcome))
  }

  function ClearWaiters(w: Waits, outcome: WaitOutcome): (r: Waits)
    ensures r.open == [] && r.created == w.created
  {
    w.(open := [], timers := w.timers - Members(w.open), settled := w.settled + SettleWaits(w.open, outcome))
  }

  predicate CorrelatedMatch(requestId: string, responseType: string, keep: SessionMessage -> bool, m: SessionMessage) {
    m.Response? && m.responseType == responseType && m.requestId == requestId && keep(m)
  }

  predicate Accepts(selector: Selector, m: SessionMessage) {
    match selector
    case Plain(select) => select(m)
    case Rpc(requestId, select) => (m.RpcError? && m.requestId == requestId) || select(m)
    case Correlated(requestId, responseType, keep) =>
      (m.RpcError? && m.requestId == requestId) || CorrelatedMatch(requestId, responseType, keep, m)
  }

  predicate WaiterAccepts(w: Waits, id: nat, m: SessionMessage) {
    id < |w.created| && Accepts(w.created[id].selector, m)
  }

  predicate WaiterHasRequest(w: Waits, id: nat, requestId: string) {
    id < |w.created| && !w.created[id].selector.Plain? && w.created[id].selector.requestId == requestId
  }

  function ResolveWaiters(w: Waits, m: SessionMessage): Waits {
    SettleOpen(w, Where(w.open, (id: nat) => WaiterAccepts(w, id, m)), Resolved(m))
  }

  function RejectWaitersFor(w: Waits, requestId: string): Waits {
    SettleOpen(w, Where(w.open, (id: nat) => WaiterHasRequest(w, id, requestId)), ProtocolFailure)
  }

  /** `waitForWithCancel` */
  function AddWaiter(w: Waits, waiter: Waiter): Waits {
    var id := |w.created|;
    w.(created := w.created + [waiter], open := w.open + [id],
       timers := if waiter.timed then w.timers + {id} else w.timers)
  }

  function FireWaiterTimer(w: Waits, id: nat): Waits {
    if id !in w.timers then w else SettleOpen(w, [id], WaitTimedOut)
  }

  predicate WaitIsSettled(w: Waits, id: nat) {
    exists k :: 0 <= k < |w.settled| && w.settled[k].id == id
  }

  function CancelWait(w: Waits, id: nat): Waits {
    if id >= |w.created| || WaitIsSettled(w, id) then w else SettleOpen(w, [id], Cancelled)
  }

  function EndProbe(l: Liveness): Liveness {
    if l.probe.None? then l else l.(probe := None, ended := l.ended + 1)
  }

  function HearInbound(l: Liveness): Liveness {
    l.(failures := 0, log := l.log + [Inbound])
  }

  /** Sets the client's references to its promise back to null. */
  function Forget(p: Promises): Promises {
    p.(remembered := None, resolvers := None,
       log := if p.remembered.Some? then p.log + [Forgotten(p.remembered.value)] else p.log)
  }

  /** `resolveConnect` and `rejectConnect` */
  function Settle(p: Promises, resolved: bool): Promises {
    Forget(if p.resolvers.Some? then p.(log := p.log + [Settled(p.resolvers.value, resolved)]) else p)
  }

  /** What `close` does instead. */
  function Drop(p: Promises): Promises {
    Forget(if p.resolvers.Some? then p.(log := p.log + [Dropped(p.resolvers.value)]) else p)
  }

  function Make(p: Promises): Promises {
    p.(resolvers := Some(p.made), made := p.made + 1, log := p.log + [Made(p.made)])
  }

  function Remember(p: Promises, id: nat, threw: bool): Promises {
    p.(remembered := Some(id), log := if threw then p.log + [FactoryThrew(id)] else p.log)
  }

  function SettleConnect(c: Connection, resolved: bool): Connection {
    c.(promises := Settle(c.promises, resolved))
  }

  function DisposeTransport(s: Client): Client {
    s.(conn := s.conn.(transport := None, connectTimer := false, genericErrorTimer := false),
       live := s.live.(heartbeatTimer := false))
  }

  function ArmReconnect(settings: Settings, c: Connection): Connection {
    var delay := Backoff(settings, c.attempt);
    c.(attempt := c.attempt + 1, reconnectTimer := Some(delay), log := c.log + [Armed(delay)])
  }

  /** What `scheduleReconnect` does to the connection fields. */
  function LoseConnection(settings: Settings, c: Connection): (r: Connection)
    ensures r.status == if c.status == Disposed then Disposed else Disconnected
    ensures r.created == c.created && r.transport == c.transport
    ensures r.promises == c.promises || r.promises == Settle(c.promises, false)
  {
    var c := c.(reconnectTimer := None);
    if c.status == Disposed then SettleConnect(c, false)
    else
      var c := c.(status := Disconnected);
      if !c.shouldReconnect || !c.reconnectEnabled then SettleConnect(c, false) else ArmReconnect(settings, c)
  }

  function ScheduleReconnect(s: Client): Client {
    s.(conn := LoseConnection(s.settings, s.conn),
       sends := RejectQueue(s.sends, ConnectionLost),
       waits := ClearWaiters(s.waits, WaitLost),
       live := EndProbe(s.live))
  }

  function ReportAuthRejected(s: Client): Client {
    ScheduleReconnect(s.(conn := s.conn.(errorInfo := PairingRequired, shouldReconnect := false,
                                         log := s.conn.log + [AuthRejected])))
  }

  function Attach(c: Connection): Connection {
    c.(transport := Some(c.created), created := c.created + 1, status := Connecting, connectTimer := true,
       log := c.log + [Created(c.created)])
  }

  function AttemptConnect(s: Client, factoryOk: bool): Client {
    if s.conn.status == Disposed || !s.conn.shouldReconnect then s.(conn := SettleConnect(s.conn, false))
    else if s.conn.status == Connecting then s
    else
      var d := DisposeTransport(s);
      if factoryOk then d.(conn := Attach(d.conn))
      else
        var lost := ScheduleReconnect(d);
        lost.(conn := SettleConnect(lost.conn, false))
  }

  function StartPromise(s: Client): Client {
    s.(conn := s.conn.(shouldReconnect := true, promises := Make(s.conn.promises)))
  }

  /** The promise executor runs `attemptConnect` before `connectPromise` is assigned. */
  function OpenConnection(s: Client, factoryOk: bool): Client {
    if s.conn.status == Disposed || s.conn.status == Connected || s.conn.promises.remembered.Some? then s
    else
      var id, throws := s.conn.promises.made, s.conn.status != Connecting && !factoryOk;
      var tried := AttemptConnect(StartPromise(s), factoryOk);
      tried.(conn := tried.conn.(promises := Remember(tried.conn.promises, id, throws)))
  }

  function NoteConnectCall(s: Client): Client {
    s.(conn := s.conn.(log := s.conn.log + [ConnectCalled]))
  }

  function DisposeClient(s: Client): Client {
    if s.conn.status == Disposed then s
    else
      var c := s.conn.(shouldReconnect := false, promises := Drop(s.conn.promises),
                       reconnectTimer := None, connectTimer := false);
      var d := DisposeTransport(s.(conn := c));
      d.(conn := d.conn.(status := Disposed),
         sends := RejectQueue(d.sends, ClientClosed),
         waits := ClearWaiters(d.waits, WaitClosed),
         live := EndProbe(d.live))
  }

  // ---------------------------------------------------------------- sending

  /** `sendSessionMessageOrThrow` */
  function SendMessage(s: Client, message: Message): (r: Client)
    ensures r == s.(sends := r.sends, wire := r.wire)
  {
    var id := |s.sends.accepted|;
    var q := s.sends.(accepted := s.sends.accepted + [message]);
    if Live(s.conn) then
      if message.valid then
        Emit(s, Request(id)).(sends := q.(settled := q.settled + [SendSettled(id, Sent(s.conn.transport.value))]))
      else
        s.(sends := q.(settled := q.settled + [SendSettled(id, SchemaRejected)]))
    else if s.conn.status == Connecting then
      s.(sends := q.(queue := q.queue + [id], queued := q.queued + {id}, timers := q.timers + {id}))
    else
      s.(sends := q.(settled := q.settled + [SendSettled(id, NotConnected)]))
  }

  function FireSendTimer(q: Sends, id: nat): Sends {
    if id !in q.timers then q
    else q.(queue := Without(q.queue, [id]), timers := q.timers - {id},
            settled := q.settled + [SendSettled(id, SendTimedOut)])
  }

  /** Takes the first queued send off the queue and sends or rejects it. */
  function FlushHead(s: Client): Client
    requires s.sends.queue != []
  {
    var id := s.sends.queue[0];
    var q := s.sends.(queue := s.sends.queue[1..], timers := s.sends.timers - {id});
    if !Live(s.conn) then
      s.(sends := q.(settled := q.settled + [SendSettled(id, ConnectionLost)]))
    else if id < |q.accepted| && q.accepted[id].valid then
      Emit(s, Request(id)).(sends := q.(settled := q.settled + [SendSettled(id, Sent(s.conn.transport.value))]))
    else
      s.(sends := q.(settled := q.settled + [SendSettled(id, SchemaRejected)]))
  }

  function Flush(s: Client): (r: Client)
    ensures r.sends.queue == []
    ensures r == s.(sends := r.sends, wire := r.wire)
    decreases |s.sends.queue|
  {
    if s.sends.queue == [] then s else Flush(FlushHead(s))
  }

  /** `sendRequest`: a schema error is thrown synchronously and cancels the waiter at once. A send
      rejected later reaches the waiter as a separate `CancelWaiter`. */
  function MakeCall(s: Client, waiter: Waiter, message: Message): (r: Client)
    ensures r == s.(sends := r.sends, waits := r.waits, wire := r.wire)
  {
    var id := |s.waits.created|;
    var sent := SendMessage(s.(waits := AddWaiter(s.waits, waiter)), message);
    if Live(s.conn) && !message.valid then sent.(waits := CancelWait(sent.waits, id)) else sent
  }

  // ---------------------------------------------------------------- liveness

  function RecordLivenessFailure(s: Client): Client {
    var s := s.(live := s.live.(failures := s.live.failures + 1));
    if s.live.failures < LIVENESS_FAILURE_RECONNECT_THRESHOLD then s
    else
      var s := s.(live := s.live.(failures := 0, log := s.live.log + [Teardown]));
      ScheduleReconnect(DisposeTransport(s))
  }

  /** The outstanding probe ends in failure, by timeout or because the ping could not be sent. */
  function FailProbe(s: Client): (r: Client)
    ensures r.live.probe.None?
    ensures r.conn == s.conn || r.conn == LoseConnection(s.settings, DisposeTransport(s).conn)
    ensures r.subs == s.subs && r.wire == s.wire && r.settings == s.settings
  {
    match s.live.probe
    case None => s
    case Some(probe) =>
      var ended := EndProbe(s.live);
      var s := s.(live := ended.(log := ended.log + [Failed(probe.id, probe.drives)]));
      if probe.drives then RecordLivenessFailure(s) else s
  }

  function StartProbe(l: Liveness, drives: bool): Liveness {
    l.(probe := Some(Probe(l.started, drives)), started := l.started + 1,
       log := l.log + [Started(l.started, drives)])
  }

  /** `sendPingAwaitRtt`: an outstanding probe is shared, whoever started it. */
  function SendPing(s: Client, drives: bool, sendOk: bool): (r: Client)
    ensures r.conn == s.conn || r.conn == LoseConnection(s.settings, DisposeTransport(s).conn)
    ensures r.subs == s.subs && r.settings == s.settings
  {
    if !Live(s.conn) || s.live.probe.Some? then s
    else
      var s := s.(live := StartProbe(s.live, drives));
      if sendOk then Emit(s, Ping) else FailProbe(s)
  }

  function HandleHeartbeat(s: Client, sendOk: bool): Client {
    if s.live.heartbeatTimer then SendPing(s.(live := s.live.(heartbeatTimer := false)), true, sendOk) else s
  }

  // ---------------------------------------------------------------- receiving

  function Resubscribe(s: Client, subs: seq<Subscription>): (r: Client)
    ensures r == s.(wire := r.wire)
    decreases |subs|
  {
    if subs == [] then s else Resubscribe(Emit(s, Subscribe(subs[0])), subs[1..])
  }

  function Handshake(s: Client): (r: Client)
    ensures r.conn.status == Connected && r.conn.transport == s.conn.transport
    ensures r.conn.promises == Settle(s.conn.promises, true)
    ensures r == s.(conn := r.conn, sends := r.sends, wire := r.wire, live := s.live.(heartbeatTimer := true))
  {
    var c := s.conn.(connectTimer := false, attempt := 0, status := Connected, errorInfo := NoInfo,
                     log := s.conn.log + [Handshaken]);
    var up := Emit(s.(conn := c, live := s.live.(heartbeatTimer := true)), Welcome);
    var flushed := Flush(Resubscribe(up, s.subs));
    flushed.(conn := SettleConnect(flushed.conn, true))
  }

  predicate Mismatched(c: Connection, serverId: string) {
    c.expectedServer.Some? && c.expectedServer.value != "" && c.expectedServer.value != serverId
  }

  function RejectServer(s: Client): Client {
    ScheduleReconnect(DisposeTransport(s.(conn := s.conn.(errorInfo := IdentityMismatch))))
  }

  function HandleSession(s: Client, m: SessionMessage): Client {
    if m.ServerInfo? && Mismatched(s.conn, m.serverId) then RejectServer(s)
    else
      var s := if m.ServerInfo? && s.conn.status == Connecting then Handshake(s) else s;
      s.(waits := ResolveWaiters(s.waits, m))
  }

  function ReceiveFrame(s: Client, frame: Frame): Client {
    match frame
    case Invalid(None) => s
    case Invalid(Some(requestId)) => s.(waits := RejectWaitersFor(s.waits, requestId))
    case Pong => s.(live := EndProbe(HearInbound(s.live)))
    case Session(m) => HandleSession(s.(live := HearInbound(s.live)), m)
    case FileFrame(None) => s.(live := HearInbound(s.live))
    case FileFrame(Some(m)) => HandleSession(s.(live := HearInbound(s.live)), m)
    case TerminalFrame => s.(live := HearInbound(s.live))
  }

  // ---------------------------------------------------------------- transport callbacks

  function HandleOpen(s: Client, sendOk: bool): Client {
    if s.conn.transport.None? then s
    else
      var s := s.(conn := s.conn.(genericErrorTimer := false));
      if sendOk then Emit(s, Hello) else ScheduleReconnect(s)
  }

  function HandleClose(s: Client, close: CloseKind): Client {
    if s.conn.transport.None? then s
    else
      var s := s.(conn := s.conn.(connectTimer := false, genericErrorTimer := false));
      if !s.conn.shouldReconnect && s.conn.errorInfo == PairingRequired then s
      else if close == AuthRefused then ReportAuthRejected(s)
      else ScheduleReconnect(s)
  }

  function HandleError(s: Client, error: ErrorKind): Client {
    if s.conn.transport.None? then s
    else
      var s := s.(conn := s.conn.(connectTimer := false));
      match error
      case Unauthorized => ReportAuthRejected(s.(conn := s.conn.(genericErrorTimer := false)))
      case Generic => s.(conn := s.conn.(genericErrorTimer := true))
      case Detailed => ScheduleReconnect(s.(conn := s.conn.(genericErrorTimer := false)))
  }

  function HandleConnectTimeout(s: Client): Client {
    if !s.conn.connectTimer then s
    else
      var s := s.(conn := s.conn.(connectTimer := false));
      if s.conn.status == Connecting then ScheduleReconnect(DisposeTransport(s)) else s
  }

  function HandleGenericErrorTimeout(s: Client): Client {
    if !s.conn.genericErrorTimer then s
    else
      var s := s.(conn := s.conn.(genericErrorTimer := false));
      if s.conn.status == Connected || s.conn.status == Connecting then ScheduleReconnect(s) else s
  }

  function HandleReconnectFire(s: Client, factoryOk: bool): Client {
    if s.conn.reconnectTimer.None? then s
    else
      var s := s.(conn := s.conn.(reconnectTimer := None));
      if s.conn.shouldReconnect then AttemptConnect(s, factoryOk) else s
  }

  function Ensure(s: Client, factoryOk: bool): Client {
    if s.conn.status == Disposed then s
    else
      var s := s.(conn := s.conn.(shouldReconnect := true));
      if s.conn.status == Connected || s.conn.status == Connecting then s else OpenConnection(s, factoryOk)
  }

  function ChangeSubscription(s: Client, subs: seq<Subscription>, payload: Payload): (r: Client)
    ensures r == s.(subs := subs, wire := r.wire)
  {
    var s := s.(subs := subs);
    if Live(s.conn) then Emit(s, payload) else s
  }

  function StepApi(s: Client, call: ApiCall): Client {
    match call
    case Connect(factoryOk) => OpenConnection(NoteConnectCall(s), factoryOk)
    case EnsureConnected(factoryOk) => Ensure(NoteConnectCall(s), factoryOk)
    case Close => DisposeClient(s)
    case SetReconnectEnabled(enabled) => s.(conn := s.conn.(reconnectEnabled := enabled))
    case SetExpectedServer(serverId) => s.(conn := s.conn.(expectedServer := serverId))
    case Send(message) => SendMessage(s, message)
    case Await(waiter) => s.(waits := AddWaiter(s.waits, waiter))
    case Call(waiter, message) => MakeCall(s, waiter, message)
    case CancelWaiter(id) => s.(waits := CancelWait(s.waits, id))
    case MeasureLatency(sendOk) => SendPing(s, false, sendOk)
    case SubscribeTerminals(sub) => ChangeSubscription(s, Enlist(s.subs, sub), Subscribe(sub))
    case UnsubscribeTerminals(sub) => ChangeSubscription(s, Delist(s.subs, Key(sub)), Unsubscribe(sub))
  }

  function StepTransport(s: Client, event: TransportEvent): Client {
    match event
    case Opened(sendOk) => HandleOpen(s, sendOk)
    case Closed(close) => HandleClose(s, close)
    case Errored(error) => HandleError(s, error)
    case Received(frame) => ReceiveFrame(s, frame)
  }

  function StepTimer(s: Client, timer: TimerEvent): Client {
    match timer
    case ConnectTimeout => HandleConnectTimeout(s)
    case GenericErrorTimeout => HandleGenericErrorTimeout(s)
    case ReconnectFire(factoryOk) => HandleReconnectFire(s, factoryOk)
    case SendTimeout(id) => s.(sends := FireSendTimer(s.sends, id))
    case WaiterTimeout(id) => s.(waits := FireWaiterTimer(s.waits, id))
    case HeartbeatFire(sendOk) => HandleHeartbeat(s, sendOk)
    case HeartbeatSettled =>
      if s.conn.status == Connected then s.(live := s.live.(heartbeatTimer := true)) else s
    case ProbeTimeout(id) =>
      if s.live.probe.Some? && s.live.probe.value.id == id then FailProbe(s) else s
  }

  function Step(s: Client, e: Event): Client {
    match e
    case Api(call) => StepApi(s, call)
    case Transport(event) => StepTransport(s, event)
    case Timer(timer) => StepTimer(s, timer)
  }

  function Run(s: Client, events: seq<Event>): Client {
    if events == [] then s else Step(Run(s, events[..|events| - 1]), events[|events| - 1])
  }
}
