/** The promises `connect` returns (packages/client/src/daemon-client.ts:1319-1338, 1511-1527,
    1533-1536): each is settled at most once, and which ones never are. */
module ClientPromises {
  import opened Sequences
  import opened ClientState
  import opened ClientConnection
  import opened ClientReconnect

  ghost predicate IsSettled(p: Promises, id: nat) {
    Settled(id, true) in p.log || Settled(id, false) in p.log
  }

  /** At most one settlement per promise. */
  ghost predicate SettledOnce(log: seq<PromiseEvent>) {
    forall i, j :: 0 <= i < j < |log| && log[i].Settled? && log[j].Settled? ==> log[i].id != log[j].id
  }

  /** A promise is unsettled exactly while its resolvers are held, or when they were dropped. */
  ghost predicate Unresolved(p: Promises) {
    && (forall id: nat :: id < p.made ==> (!IsSettled(p, id) <==> p.resolvers == Some(id) || Dropped(id) in p.log))
    && (p.resolvers.Some? ==> p.resolvers.value < p.made && Dropped(p.resolvers.value) !in p.log)
  }

  /** The client remembers a promise exactly until it forgets it, and it has been settled by then exactly
      if the factory threw in the call that made it. */
  ghost predicate Remembered(p: Promises) {
    && (p.remembered.Some? ==> p.remembered.value < p.made)
    && (forall id: nat :: id < p.made ==> (p.remembered == Some(id) <==> Forgotten(id) !in p.log))
    && (p.resolvers.Some? ==> p.remembered == p.resolvers)
    && (p.remembered.Some? ==> (IsSettled(p, p.remembered.value) <==> FactoryThrew(p.remembered.value) in p.log))
  }

  ghost predicate PromiseInv(p: Promises) {
    && (forall k :: 0 <= k < |p.log| ==> p.log[k].id < p.made)
    && SettledOnce(p.log)
    && Unresolved(p)
    && Remembered(p)
  }

  // ---------------------------------------------------------------- what a step does

  /** What `connect` does to the promises when it makes one. */
  function Opened(p: Promises, threw: bool): Promises {
    Remember(if threw then Settle(Make(p), false) else Make(p), p.made, threw)
  }

  ghost predicate Changes(s: Client, after: Client) {
    var p, r := s.conn.promises, after.conn.promises;
    || r == p
    || r == Settle(p, true)
    || r == Settle(p, false)
    || (r == Drop(p) && s.conn.status != Disposed && after.conn.status == Disposed)
    || (p.remembered.None? && (r == Opened(p, true) || r == Opened(p, false)))
  }

  lemma SettleTwice(p: Promises, first: bool, second: bool)
    ensures Settle(Settle(p, first), second) == Settle(p, first)
  {
  }

  /** An attempt settles at most what was there, and a factory that throws settles it. */
  lemma AttemptChanges(s: Client, factoryOk: bool)
    ensures var p, r := s.conn.promises, AttemptConnect(s, factoryOk).conn.promises;
            && (r == p || r == Settle(p, false))
            && (s.conn.shouldReconnect && s.conn.status != Disposed ==>
                  r == if s.conn.status != Connecting && !factoryOk then Settle(p, false) else p)
  {
    SettleTwice(s.conn.promises, false, false);
    hide Settle, RejectQueue, ClearWaiters, LoseConnection;
  }

  lemma OpenChanges(s: Client, factoryOk: bool)
    ensures Changes(s, OpenConnection(s, factoryOk))
  {
    AttemptChanges(StartPromise(s), factoryOk);
    hide AttemptConnect, Settle, Make, Remember;
  }

  lemma PingChanges(s: Client, drives: bool, sendOk: bool)
    ensures Changes(s, SendPing(s, drives, sendOk))
  {
    hide Settle, SendPing, LoseConnection;
  }

  lemma ApiChanges(s: Client, call: ApiCall)
    ensures Changes(s, StepApi(s, call))
  {
    hide OpenConnection, SendMessage, MakeCall, SendPing, ChangeSubscription, AddWaiter, CancelWait, Enlist, Delist, RejectQueue,
         ClearWaiters, Settle, Drop, Make, Remember, Opened;
    match call
    case Connect(factoryOk) => OpenChanges(NoteConnectCall(s), factoryOk);
    case EnsureConnected(factoryOk) =>
      var n := NoteConnectCall(s);
      OpenChanges(n.(conn := n.conn.(shouldReconnect := true)), factoryOk);
    case MeasureLatency(sendOk) => PingChanges(s, false, sendOk);
    case _ =>
  }

  lemma SessionChanges(s: Client, m: SessionMessage)
    ensures Changes(s, HandleSession(s, m))
  {
    hide ResolveWaiters, RejectQueue, ClearWaiters, LoseConnection, Handshake, Settle;
  }

  lemma TransportChanges(s: Client, event: TransportEvent)
    ensures Changes(s, StepTransport(s, event))
  {
    hide RejectWaitersFor, RejectQueue, ClearWaiters, LoseConnection, HandleSession, Settle;
    match event
    case Received(Session(m)) => SessionChanges(s.(live := HearInbound(s.live)), m);
    case Received(FileFrame(Some(m))) => SessionChanges(s.(live := HearInbound(s.live)), m);
    case _ =>
  }

  lemma TimerChanges(s: Client, timer: TimerEvent)
    ensures Changes(s, StepTimer(s, timer))
  {
    hide RejectQueue, ClearWaiters, LoseConnection, SendPing, FailProbe, FireSendTimer, FireWaiterTimer, AttemptConnect, Settle;
    match timer
    case ReconnectFire(factoryOk) => AttemptChanges(s.(conn := s.conn.(reconnectTimer := None)), factoryOk);
    case HeartbeatFire(sendOk) => PingChanges(s.(live := s.live.(heartbeatTimer := false)), true, sendOk);
    case _ =>
  }

  lemma StepChanges(s: Client, e: Event)
    ensures Changes(s, Step(s, e))
  {
    hide StepApi, StepTransport, StepTimer, Changes;
    match e
    case Api(call) => ApiChanges(s, call);
    case Transport(event) => TransportChanges(s, event);
    case Timer(timer) => TimerChanges(s, timer);
  }

  // ---------------------------------------------------------------- what every step keeps

  lemma NoteSettled(p: Promises, e: PromiseEvent)
    requires SettledOnce(p.log) && (e.Settled? ==> !IsSettled(p, e.id))
    ensures SettledOnce(p.log + [e])
  {
    var log := p.log + [e];
    forall i, j | 0 <= i < j < |log| && log[i].Settled? && log[j].Settled?
      ensures log[i].id != log[j].id
    {
      if j == |p.log| {
        assert log[i] in p.log && log[i] == Settled(log[i].id, log[i].resolved);
      }
    }
  }

  lemma ForgetKeeps(p: Promises)
    requires SettledOnce(p.log)
    ensures SettledOnce(Forget(p).log)
  {
    if p.remembered.Some? {
      NoteSettled(p, Forgotten(p.remembered.value));
    }
  }

  lemma SettleKeeps(p: Promises, resolved: bool)
    requires PromiseInv(p)
    ensures PromiseInv(Settle(p, resolved))
  {
    var noted := if p.resolvers.Some? then p.(log := p.log + [Settled(p.resolvers.value, resolved)]) else p;
    if p.resolvers.Some? {
      NoteSettled(p, Settled(p.resolvers.value, resolved));
    }
    ForgetKeeps(noted);
    hide SettledOnce;
  }

  lemma DropKeeps(p: Promises)
    requires PromiseInv(p)
    ensures PromiseInv(Drop(p))
  {
    var noted := if p.resolvers.Some? then p.(log := p.log + [Dropped(p.resolvers.value)]) else p;
    if p.resolvers.Some? {
      NoteSettled(p, Dropped(p.resolvers.value));
    }
    ForgetKeeps(noted);
    hide SettledOnce;
  }

  /** A new promise's id does not occur yet. */
  lemma NewIsFresh(p: Promises)
    requires PromiseInv(p)
    ensures forall e :: e in p.log ==> e.id < p.made
  {
  }

  lemma MadeKeeps(p: Promises)
    requires PromiseInv(p) && p.remembered.None?
    ensures PromiseInv(Opened(p, false))
  {
    NewIsFresh(p);
    NoteSettled(p, Made(p.made));
    var r := Opened(p, false);
    assert forall e :: e in r.log <==> e in p.log || e == Made(p.made);
    hide SettledOnce;
    assert Unresolved(r);
  }

  lemma ThrownKeeps(p: Promises)
    requires PromiseInv(p) && p.remembered.None?
    ensures PromiseInv(Opened(p, true))
  {
    NewIsFresh(p);
    var n, r := p.made, Opened(p, true);
    NoteSettled(p, Made(n));
    var made := p.(log := p.log + [Made(n)]);
    assert !IsSettled(made, n);
    NoteSettled(made, Settled(n, false));
    var settled := made.(log := made.log + [Settled(n, false)]);
    NoteSettled(settled, FactoryThrew(n));
    assert r.log == settled.log + [FactoryThrew(n)];
    assert forall e :: e in r.log <==> e in p.log || e == Made(n) || e == Settled(n, false) || e == FactoryThrew(n);
    hide SettledOnce, Opened;
    ThrownResolves(p, r);
  }

  lemma ThrownResolves(p: Promises, r: Promises)
    requires PromiseInv(p) && p.remembered.None?
    requires r.made == p.made + 1 && r.remembered == Some(p.made) && r.resolvers.None?
    requires forall e :: e in r.log <==>
               e in p.log || e == Made(p.made) || e == Settled(p.made, false) || e == FactoryThrew(p.made)
    ensures Unresolved(r) && Remembered(r)
  {
    NewIsFresh(p);
    hide SettledOnce;
    forall id: nat | id < r.made
      ensures IsSettled(r, id) <==> id == p.made || IsSettled(p, id)
      ensures Dropped(id) in r.log <==> Dropped(id) in p.log
      ensures Forgotten(id) in r.log <==> Forgotten(id) in p.log
    {
    }
  }

  /** Every step keeps the account of the promises; a promise is dropped only by closing. */
  lemma PromiseInvStep(s: Client, e: Event)
    requires PromiseInv(s.conn.promises)
    ensures PromiseInv(Step(s, e).conn.promises)
    ensures s.conn.promises.log <= Step(s, e).conn.promises.log
  {
    StepChanges(s, e);
    hide Step, PromiseInv;
    var p := s.conn.promises;
    SettleKeeps(p, true);
    SettleKeeps(p, false);
    DropKeeps(p);
    if p.remembered.None? {
      ThrownKeeps(p);
      MadeKeeps(p);
    }
  }

  // ---------------------------------------------------------------- over every run

  ghost predicate DropsAreClosed(c: Connection) {
    forall id :: Dropped(id) in c.promises.log ==> c.status == Disposed
  }

  lemma DropsStep(s: Client, e: Event)
    requires ConnectionInv(s) && DropsAreClosed(s.conn)
    ensures DropsAreClosed(Step(s, e).conn)
  {
    StepChanges(s, e);
    NoneDropped(s.conn.promises);
    if s.conn.status == Disposed {
      DisposedStep(s, e);
    }
    hide Step, ConnectionInv, Settle, Opened, Drop;
  }

  lemma NoneDropped(p: Promises)
    ensures forall id, b :: Dropped(id) in Settle(p, b).log <==> Dropped(id) in p.log
    ensures forall id, b :: Dropped(id) in Opened(p, b).log <==> Dropped(id) in p.log
  {
  }

  ghost predicate PromisesOk(s: Client) {
    ConnectionInv(s) && PromiseInv(s.conn.promises) && DropsAreClosed(s.conn)
  }

  lemma {:induction false} PromisesRun(s: Client, events: seq<Event>)
    requires PromisesOk(s)
    ensures PromisesOk(Run(s, events))
    ensures s.conn.promises.log <= Run(s, events).conn.promises.log
  {
    hide Step, PromisesOk;
    if events == [] {
      assert Run(s, events) == s;
    } else {
      var before, last := Run(s, events[..|events| - 1]), events[|events| - 1];
      PromisesRun(s, events[..|events| - 1]);
      OkStep(before, last);
    }
  }

  lemma OkStep(s: Client, e: Event)
    requires PromisesOk(s)
    ensures PromisesOk(Step(s, e)) && s.conn.promises.log <= Step(s, e).conn.promises.log
  {
    hide Step, ConnectionInv, PromiseInv, DropsAreClosed;
    ConnectionInvStep(s, e);
    PromiseInvStep(s, e);
    DropsStep(s, e);
  }

  lemma NewIsOk(settings: Settings, enabled: bool, expected: Option<string>)
    ensures PromisesOk(NewClient(settings, enabled, expected))
  {
  }

  /** Over every run: each promise `connect` made is settled at most once; it is unsettled exactly while
      its resolvers are held or when `close` dropped them; the client remembers it exactly until it
      forgets it; and a remembered promise is already settled exactly when the factory threw in
      the call that made it. */
  lemma PromisesSettleOnce(settings: Settings, enabled: bool, expected: Option<string>, events: seq<Event>)
    ensures var c := Run(NewClient(settings, enabled, expected), events).conn;
            var p := c.promises;
            && SettledOnce(p.log)
            && (forall id: nat :: id < p.made ==> (!IsSettled(p, id) <==> p.resolvers == Some(id) || Dropped(id) in p.log))
            && (forall id :: Dropped(id) in p.log ==> c.status == Disposed)
            && (p.resolvers.Some? ==> p.remembered == p.resolvers)
            && (forall id: nat :: id < p.made ==> (p.remembered == Some(id) <==> Forgotten(id) !in p.log))
            && (p.remembered.Some? ==> (IsSettled(p, p.remembered.value) <==> FactoryThrew(p.remembered.value) in p.log))
  {
    NewIsOk(settings, enabled, expected);
    PromisesRun(NewClient(settings, enabled, expected), events);
    hide Run, SettledOnce, IsSettled;
  }

  lemma CloseDrops(s: Client)
    requires s.conn.status != Disposed
    ensures Step(s, Api(Close)).conn.promises == Drop(s.conn.promises)
  {
    hide RejectQueue, ClearWaiters, Drop;
  }

  /** Whatever happens after `close`, the promise that was pending then is never settled, and every other
      one has been. */
  lemma CloseStrandsExactly(s: Client, events: seq<Event>, id: nat)
    requires PromisesOk(s) && s.conn.status != Disposed && id < s.conn.promises.made
    ensures var p := Run(Step(s, Api(Close)), events).conn.promises;
            !IsSettled(p, id) <==> s.conn.promises.resolvers == Some(id)
  {
    var closed := Step(s, Api(Close));
    CloseDrops(s);
    OkStep(s, Api(Close));
    PromisesRun(closed, events);
    hide Step, Run, ConnectionInv, PromiseInv, Drop, IsSettled;
    DropStrands(s.conn.promises, Run(closed, events).conn.promises, id);
  }

  lemma DropStrands(p: Promises, r: Promises, id: nat)
    requires PromiseInv(p) && PromiseInv(r) && id < p.made
    requires forall k :: Dropped(k) !in p.log
    requires Drop(p).log <= r.log
    ensures !IsSettled(r, id) <==> p.resolvers == Some(id)
  {
    var q := Drop(p);
    hide SettledOnce, Remembered;
    if p.resolvers == Some(id) {
      assert q.log[|p.log|] == Dropped(id);
      assert r.log[|p.log|] == Dropped(id);
      assert id < r.made;
    } else {
      assert IsSettled(p, id);
      hide Unresolved;
      var e :| e in p.log && e.Settled? && e.id == id;
      var k :| 0 <= k < |p.log| && p.log[k] == e;
      assert q.log[k] == e;
      assert r.log[k] == e;
    }
  }

  /** So a `connect` that `close` follows at once never settles, in no run. */
  lemma ConnectThenCloseNeverSettles(settings: Settings, enabled: bool, expected: Option<string>, events: seq<Event>)
    ensures var s := Step(NewClient(settings, enabled, expected), Api(Connect(true)));
            var p := Run(Step(s, Api(Close)), events).conn.promises;
            s.conn.promises.made == 1 && !IsSettled(p, 0)
  {
    var s := FirstConnect(settings, enabled, expected);
    NewIsOk(settings, enabled, expected);
    OkStep(NewClient(settings, enabled, expected), Api(Connect(true)));
    hide Step, Run, PromisesOk;
    CloseStrandsExactly(s, events, 0);
  }

  lemma FirstConnect(settings: Settings, enabled: bool, expected: Option<string>) returns (s: Client)
    ensures s == Step(NewClient(settings, enabled, expected), Api(Connect(true)))
    ensures s.conn.promises == Promises(Some(0), Some(0), 1, [Made(0)]) && s.conn.status == Connecting
  {
    hide RejectQueue, ClearWaiters, LoseConnection;
    s := Step(NewClient(settings, enabled, expected), Api(Connect(true)));
  }

  // ---------------------------------------------------------------- when `connect` connects

  /** After any run that is outside a session, `connect` starts an attempt exactly when every promise made
      so far has been forgotten. Otherwise it only hands out the one remembered, and that one is
      already settled exactly when the factory threw in the call that made it. */
  lemma ConnectAttemptsExactly(settings: Settings, enabled: bool, expected: Option<string>, events: seq<Event>)
    requires var c := Run(NewClient(settings, enabled, expected), events).conn; c.status == Idle || c.status == Disconnected
    ensures var s := Run(NewClient(settings, enabled, expected), events);
            var p, next := s.conn.promises, Step(s, Api(Connect(true)));
            && (next.conn.status == Connecting <==> forall id: nat :: id < p.made ==> Forgotten(id) in p.log)
            && (next.conn.status != Connecting ==>
                  && next == NoteConnectCall(s)
                  && p.remembered.Some?
                  && (IsSettled(p, p.remembered.value) <==> FactoryThrew(p.remembered.value) in p.log))
  {
    var s := Run(NewClient(settings, enabled, expected), events);
    PromisesSettleOnce(settings, enabled, expected, events);
    ConnectGuard(s);
    NewIsOk(settings, enabled, expected);
    PromisesRun(NewClient(settings, enabled, expected), events);
    hide Run, Step, IsSettled;
  }

  lemma ConnectGuard(s: Client)
    requires s.conn.status == Idle || s.conn.status == Disconnected
    ensures Step(s, Api(Connect(true))).conn.status == Connecting <==> s.conn.promises.remembered.None?
    ensures s.conn.promises.remembered.Some? ==> Step(s, Api(Connect(true))) == NoteConnectCall(s)
  {
    hide RejectQueue, ClearWaiters, Settle;
  }

  ghost predicate AsksToConnect(events: seq<Event>) {
    forall i :: 0 <= i < |events| ==> events[i].Api? && (events[i].call.Connect? || events[i].call.EnsureConnected?)
  }

  /** A throwing transport factory leaves a settled promise behind (the executor runs before the
      promise is stored), so with reconnecting off every later request to connect is ignored. */
  lemma ThrowingFactoryStrandsConnect(settings: Settings, events: seq<Event>)
    requires AsksToConnect(events)
    ensures var s := Run(Step(NewClient(settings, false, None), Api(Connect(false))), events);
            && s.conn.status == Disconnected && s.conn.created == 0 && s.conn.reconnectTimer.None?
            && s.conn.promises.remembered == Some(0) && IsSettled(s.conn.promises, 0)
  {
    hide RejectQueue, ClearWaiters, Backoff;
    var s := Step(NewClient(settings, false, None), Api(Connect(false)));
    assert s.conn.promises.log == [Made(0), Settled(0, false), FactoryThrew(0)];
    StrandedRun(s, events);
  }

  ghost predicate Stranded(c: Connection) {
    && c.status == Disconnected && c.created == 0 && c.reconnectTimer.None?
    && c.promises.remembered == Some(0) && IsSettled(c.promises, 0)
  }

  lemma {:induction false} StrandedRun(s: Client, events: seq<Event>)
    requires AsksToConnect(events) && Stranded(s.conn)
    ensures Stranded(Run(s, events).conn)
  {
    hide RejectQueue, ClearWaiters, LoseConnection, IsSettled;
    if events == [] {
      assert Run(s, events) == s;
    } else {
      StrandedRun(s, events[..|events| - 1]);
    }
  }
}
