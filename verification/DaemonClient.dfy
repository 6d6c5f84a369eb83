/**
 The client object (packages/client/src/daemon-client.ts:1208-7731) as an object: its callbacks
 update fields, and loop over the waiter set, the send queue and the subscriptions. Every
 callback is proved to do exactly its `Step`, and so to keep all the invariants of the run
 lemmas. Fields the source declares one by one are grouped into the records of `ClientState`.
 */
module DaemonClients {
  import opened Sequences
  import opened ClientState
  import opened ClientConnection
  import opened ClientSends
  import opened ClientSubscriptions
  import opened ClientReconnect
  import opened ClientLiveness
  import ClientPromises
  import ClientWaiters

  /** Everything the run lemmas maintain. */
  ghost predicate Coherent(s: Client) {
    && ConnectionInv(s)
    && SendsInv(s)
    && SubscriptionsInv(s)
    && ClientWaiters.WaitsInv(s.waits)
    && LivenessInv(s.live)
    && ReconnectInv(s.settings, s.conn)
    && ClientPromises.PromisesOk(s)
  }

  lemma NewIsCoherent(settings: Settings, reconnectEnabled: bool, expectedServer: Option<string>)
    ensures Coherent(NewClient(settings, reconnectEnabled, expectedServer))
  {
    var s := NewClient(settings, reconnectEnabled, expectedServer);
    NewSends(settings, reconnectEnabled, expectedServer);
    ClientPromises.NewIsOk(settings, reconnectEnabled, expectedServer);
    NewHistories(settings, reconnectEnabled, expectedServer);
    hide SendsInv, LivenessInv, ReconnectInv, ClientPromises.PromisesOk;
  }

  lemma NewHistories(settings: Settings, reconnectEnabled: bool, expectedServer: Option<string>)
    ensures var s := NewClient(settings, reconnectEnabled, expectedServer);
            LivenessInv(s.live) && ReconnectInv(s.settings, s.conn)
  {
  }

  lemma CoherentStep(s: Client, e: Event)
    requires Coherent(s)
    ensures Coherent(Step(s, e))
  {
    hide Step, ConnectionInv, SendsInv, SubscriptionsInv, ClientWaiters.WaitsInv, LivenessInv, ReconnectInv,
         ClientPromises.PromisesOk;
    ConnectionInvStep(s, e);
    SendsInvStep(s, e);
    SubscriptionsInvStep(s, e);
    ClientWaiters.WaitsInvStep(s, e);
    LivenessInvStep(s, e);
    ReconnectInvStep(s, e);
    ClientPromises.OkStep(s, e);
  }

  // ---------------------------------------------------------------- loops over the waiters

  lemma {:induction false} WhereSnoc(ids: seq<nat>, keep: nat -> bool, id: nat)
    ensures Where(ids + [id], keep) == if keep(id) then Where(ids, keep) + [id] else Where(ids, keep)
  {
    if ids == [] {
      assert ids + [id] == [id];
      assert [id][1..] == [];
    } else {
      WhereSnoc(ids[1..], keep, id);
      assert (ids + [id])[1..] == ids[1..] + [id];
    }
  }

  lemma {:induction false} WithoutTwice(ids: seq<nat>, gone: seq<nat>, id: nat)
    ensures Without(Without(ids, gone), [id]) == Without(ids, gone + [id])
  {
    if ids == [] {
    } else {
      WithoutTwice(ids[1..], gone, id);
      if ids[0] !in gone {
        assert ([ids[0]] + Without(ids[1..], gone))[1..] == Without(ids[1..], gone);
      }
    }
  }

  lemma SettleTwice(w: Waits, ids: seq<nat>, id: nat, outcome: WaitOutcome)
    ensures SettleOpen(SettleOpen(w, ids, outcome), [id], outcome) == SettleOpen(w, ids + [id], outcome)
  {
    WithoutTwice(w.open, ids, id);
    assert SettleWaits(ids + [id], outcome) == SettleWaits(ids, outcome) + SettleWaits([id], outcome);
    assert Members(ids + [id]) == Members(ids) + Members([id]);
    assert w.settled + SettleWaits(ids + [id], outcome)
        == w.settled + SettleWaits(ids, outcome) + SettleWaits([id], outcome);
  }

  lemma {:induction false} SettleNone(w: Waits, outcome: WaitOutcome)
    ensures SettleOpen(w, [], outcome) == w
  {
    WithoutNone(w.open);
  }

  lemma {:induction false} WithoutNone(ids: seq<nat>)
    ensures Without(ids, []) == ids
  {
    if ids == [] {
    } else {
      WithoutNone(ids[1..]);
    }
  }

  class DaemonClient {
    const settings: Settings
    var conn: Connection
    var sends: Sends
    var waits: Waits
    var live: Liveness
    var subs: seq<Subscription>
    var wire: seq<Sending>

    ghost function State(): Client
      reads this
    {
      Client(settings, conn, sends, waits, live, subs, wire)
    }

    ghost predicate Valid()
      reads this
    {
      Coherent(State())
    }

    constructor (settings: Settings, reconnectEnabled: bool, expectedServer: Option<string>)
      ensures State() == NewClient(settings, reconnectEnabled, expectedServer)
      ensures Valid()
    {
      hide Coherent;
      this.settings := settings;
      var initial := NewClient(settings, reconnectEnabled, expectedServer);
      conn, sends, waits, live := initial.conn, initial.sends, initial.waits, initial.live;
      subs, wire := [], [];
      NewIsCoherent(settings, reconnectEnabled, expectedServer);
    }

    // -------------------------------------------------------------- shared by the callbacks

    method SendFrame(payload: Payload)
      modifies this`wire
      ensures State() == Emit(old(State()), payload)
    {
      if conn.transport.Some? {
        wire := wire + [Sending(conn.transport.value, payload)];
      }
    }

    method RejectWaiter(id: nat, outcome: WaitOutcome)
      modifies this`waits
      ensures waits == SettleOpen(old(waits), [id], outcome)
    {
      waits := waits.(open := Without(waits.open, [id]), timers := waits.timers - {id},
                      settled := waits.settled + [WaitSettled(id, outcome)]);
      assert Members([id]) == {id};
    }

    method ClearWaiters(outcome: WaitOutcome)
      modifies this`waits
      ensures waits == ClientState.ClearWaiters(old(waits), outcome)
    {
      var all := waits.open;
      for i := 0 to |all|
        invariant waits == old(waits).(timers := old(waits).timers - Members(all[..i]),
                                       settled := old(waits).settled + SettleWaits(all[..i], outcome))
      {
        waits := waits.(timers := waits.timers - {all[i]}, settled := waits.settled + [WaitSettled(all[i], outcome)]);
        assert all[..i + 1] == all[..i] + [all[i]];
        assert SettleWaits(all[..i + 1], outcome) == SettleWaits(all[..i], outcome) + [WaitSettled(all[i], outcome)];
      }
      assert all[..|all|] == all;
      waits := waits.(open := []);
    }

    method ResolveWaiters(message: SessionMessage)
      modifies this`waits
      ensures waits == ClientState.ResolveWaiters(old(waits), message)
    {
      var all := waits.open;
      ghost var w := waits;
      ghost var hit := (id: nat) => WaiterAccepts(w, id, message);
      SettleNone(waits, Resolved(message));
      for i := 0 to |all|
        invariant waits == SettleOpen(w, Where(all[..i], hit), Resolved(message))
        invariant waits.created == w.created
      {
        assert hit(all[i]) <==> WaiterAccepts(waits, all[i], message);
        assert all[..i + 1] == all[..i] + [all[i]];
        WhereSnoc(all[..i], hit, all[i]);
        if WaiterAccepts(waits, all[i], message) {
          SettleTwice(w, Where(all[..i], hit), all[i], Resolved(message));
          RejectWaiter(all[i], Resolved(message));
        }
      }
      assert all[..|all|] == all;
    }

    method RejectWaitersFor(requestId: string)
      modifies this`waits
      ensures waits == ClientState.RejectWaitersFor(old(waits), requestId)
    {
      var all := waits.open;
      ghost var w := waits;
      ghost var hit := (id: nat) => WaiterHasRequest(w, id, requestId);
      SettleNone(waits, ProtocolFailure);
      for i := 0 to |all|
        invariant waits == SettleOpen(w, Where(all[..i], hit), ProtocolFailure)
        invariant waits.created == w.created
      {
        assert hit(all[i]) <==> WaiterHasRequest(waits, all[i], requestId);
        assert all[..i + 1] == all[..i] + [all[i]];
        WhereSnoc(all[..i], hit, all[i]);
        if WaiterHasRequest(waits, all[i], requestId) {
          SettleTwice(w, Where(all[..i], hit), all[i], ProtocolFailure);
          RejectWaiter(all[i], ProtocolFailure);
        }
      }
      assert all[..|all|] == all;
    }

    method RejectPendingSendQueue(outcome: SendOutcome)
      modifies this`sends
      ensures sends == RejectQueue(old(sends), outcome)
    {
      var queue := sends.queue;
      sends := sends.(queue := []);
      for i := 0 to |queue|
        invariant sends == old(sends).(queue := [], timers := old(sends).timers - Members(queue[..i]),
                                       settled := old(sends).settled + SettleSends(queue[..i], outcome))
      {
        sends := sends.(timers := sends.timers - {queue[i]}, settled := sends.settled + [SendSettled(queue[i], outcome)]);
        assert queue[..i + 1] == queue[..i] + [queue[i]];
        assert SettleSends(queue[..i + 1], outcome) == SettleSends(queue[..i], outcome) + [SendSettled(queue[i], outcome)];
      }
      assert queue[..|queue|] == queue;
    }

    method FlushPendingSendQueue()
      modifies this`sends, this`wire
      ensures State() == Flush(old(State()))
    {
      var queue := sends.queue;
      sends := sends.(queue := []);
      for i := 0 to |queue|
        invariant sends.queue == [] && sends.accepted == old(sends).accepted
        invariant Flush(State().(sends := sends.(queue := queue[i..]))) == Flush(old(State()))
      {
        ghost var rest := State().(sends := sends.(queue := queue[i..]));
        var id := queue[i];
        sends := sends.(timers := sends.timers - {id});
        if conn.transport.Some? && conn.status == Connected {
          if id < |sends.accepted| && sends.accepted[id].valid {
            SendFrame(Request(id));
            sends := sends.(settled := sends.settled + [SendSettled(id, Sent(conn.transport.value))]);
          } else {
            sends := sends.(settled := sends.settled + [SendSettled(id, SchemaRejected)]);
          }
        } else {
          sends := sends.(settled := sends.settled + [SendSettled(id, ConnectionLost)]);
        }
        assert queue[i..][1..] == queue[i + 1..];
        assert State().(sends := sends.(queue := queue[i + 1..])) == FlushHead(rest);
      }
    }

    method DisposeTransport()
      modifies this`conn, this`live
      ensures State() == ClientState.DisposeTransport(old(State()))
    {
      live := live.(heartbeatTimer := false);
      conn := conn.(connectTimer := false, genericErrorTimer := false);
      conn := conn.(transport := None);
    }

    method EndPingProbe()
      modifies this`live
      ensures live == EndProbe(old(live))
    {
      if live.probe.Some? {
        live := live.(probe := None, ended := live.ended + 1);
      }
    }

    /** `resolveConnect` and `rejectConnect`: settles through the resolvers, if there are any. */
    method SettleConnect(resolved: bool)
      modifies this`conn
      ensures conn == ClientState.SettleConnect(old(conn), resolved)
    {
      var promises := conn.promises;
      if promises.resolvers.Some? {
        promises := promises.(log := promises.log + [Settled(promises.resolvers.value, resolved)]);
      }
      if promises.remembered.Some? {
        promises := promises.(log := promises.log + [Forgotten(promises.remembered.value)]);
      }
      conn := conn.(promises := promises.(remembered := None, resolvers := None));
    }

    /** Sets the promise and its resolvers to null, without settling it. */
    method DropConnect()
      modifies this`conn
      ensures conn == old(conn).(promises := Drop(old(conn).promises))
    {
      var promises := conn.promises;
      if promises.resolvers.Some? {
        promises := promises.(log := promises.log + [Dropped(promises.resolvers.value)]);
      }
      if promises.remembered.Some? {
        promises := promises.(log := promises.log + [Forgotten(promises.remembered.value)]);
      }
      conn := conn.(promises := promises.(remembered := None, resolvers := None));
    }

    method ArmReconnectTimer()
      modifies this`conn
      ensures conn == ArmReconnect(settings, old(conn))
    {
      var delay := Backoff(settings, conn.attempt);
      conn := conn.(attempt := conn.attempt + 1);
      conn := conn.(reconnectTimer := Some(delay), log := conn.log + [Armed(delay)]);
    }

    method ScheduleReconnect()
      modifies this
      ensures State() == ClientState.ScheduleReconnect(old(State()))
    {
      hide ClientState.ClearWaiters, RejectQueue, ArmReconnect;
      conn := conn.(reconnectTimer := None);
      var wasDisposed := conn.status == Disposed;
      ClearWaiters(WaitLost);
      RejectPendingSendQueue(ConnectionLost);
      EndPingProbe();
      if wasDisposed {
        SettleConnect(false);
        return;
      }
      conn := conn.(status := Disconnected);
      if !conn.shouldReconnect || !conn.reconnectEnabled {
        SettleConnect(false);
        return;
      }
      ArmReconnectTimer();
    }

    method ReportAuthRejected()
      modifies this
      ensures State() == ClientState.ReportAuthRejected(old(State()))
    {
      conn := conn.(errorInfo := PairingRequired, shouldReconnect := false, log := conn.log + [AuthRejected]);
      ScheduleReconnect();
    }

    method AttemptConnect(factoryOk: bool)
      modifies this
      ensures State() == ClientState.AttemptConnect(old(State()), factoryOk)
    {
      hide ClientState.ScheduleReconnect;
      if conn.status == Disposed || !conn.shouldReconnect {
        SettleConnect(false);
        return;
      }
      if conn.status == Connecting {
        return;
      }
      DisposeTransport();
      if !factoryOk {
        ScheduleReconnect();
        SettleConnect(false);
        return;
      }
      conn := conn.(transport := Some(conn.created), created := conn.created + 1, log := conn.log + [Created(conn.created)]);
      conn := conn.(status := Connecting);
      conn := conn.(connectTimer := true);
    }

    method StartConnecting(factoryOk: bool)
      modifies this
      ensures State() == OpenConnection(old(State()), factoryOk)
    {
      hide ClientState.AttemptConnect;
      if conn.status == Disposed || conn.status == Connected || conn.promises.remembered.Some? {
        return;
      }
      conn := conn.(shouldReconnect := true);
      var id, throws := conn.promises.made, conn.status != Connecting && !factoryOk;
      conn := conn.(promises := conn.promises.(resolvers := Some(id), made := id + 1, log := conn.promises.log + [Made(id)]));
      AttemptConnect(factoryOk);
      conn := conn.(promises := Remember(conn.promises, id, throws));
    }

    method AddWaiter(waiter: Waiter)
      modifies this`waits
      ensures waits == ClientState.AddWaiter(old(waits), waiter)
    {
      var id := |waits.created|;
      waits := waits.(created := waits.created + [waiter], open := waits.open + [id]);
      if waiter.timed {
        waits := waits.(timers := waits.timers + {id});
      }
    }

    method CancelWait(id: nat)
      modifies this`waits
      ensures waits == ClientState.CancelWait(old(waits), id)
    {
      if id < |waits.created| {
        var settled := exists k :: 0 <= k < |waits.settled| && waits.settled[k].id == id;
        if !settled {
          RejectWaiter(id, Cancelled);
        }
      }
    }

    method SendOrQueue(message: Message)
      modifies this`sends, this`wire
      ensures State() == SendMessage(old(State()), message)
    {
      var id := |sends.accepted|;
      sends := sends.(accepted := sends.accepted + [message]);
      if conn.transport.Some? && conn.status == Connected {
        if message.valid {
          SendFrame(Request(id));
          sends := sends.(settled := sends.settled + [SendSettled(id, Sent(conn.transport.value))]);
        } else {
          sends := sends.(settled := sends.settled + [SendSettled(id, SchemaRejected)]);
        }
      } else if conn.status == Connecting {
        sends := sends.(queue := sends.queue + [id], queued := sends.queued + {id}, timers := sends.timers + {id});
      } else {
        sends := sends.(settled := sends.settled + [SendSettled(id, NotConnected)]);
      }
    }

    method RecordLivenessFailure()
      modifies this
      ensures State() == ClientState.RecordLivenessFailure(old(State()))
    {
      hide ClientState.ScheduleReconnect;
      live := live.(failures := live.failures + 1);
      if live.failures < LIVENESS_FAILURE_RECONNECT_THRESHOLD {
        return;
      }
      live := live.(failures := 0, log := live.log + [Teardown]);
      DisposeTransport();
      ScheduleReconnect();
    }

    method FailProbe()
      modifies this
      ensures State() == ClientState.FailProbe(old(State()))
    {
      hide ClientState.RecordLivenessFailure;
      if live.probe.Some? {
        var probe := live.probe.value;
        live := live.(probe := None, ended := live.ended + 1, log := live.log + [Failed(probe.id, probe.drives)]);
        if probe.drives {
          RecordLivenessFailure();
        }
      }
    }

    method SendPing(drives: bool, sendOk: bool)
      modifies this
      ensures State() == ClientState.SendPing(old(State()), drives, sendOk)
    {
      hide ClientState.FailProbe, Emit;
      if conn.status != Connected || conn.transport.None? || live.probe.Some? {
        return;
      }
      live := live.(probe := Some(Probe(live.started, drives)), log := live.log + [Started(live.started, drives)],
                    started := live.started + 1);
      if sendOk {
        SendFrame(Ping);
      } else {
        FailProbe();
      }
    }

    method ResubscribeTerminals()
      modifies this`wire
      ensures State() == Resubscribe(old(State()), subs)
    {
      for i := 0 to |subs|
        invariant Resubscribe(State(), subs[i..]) == Resubscribe(old(State()), subs)
      {
        assert subs[i..][1..] == subs[i + 1..];
        SendFrame(Subscribe(subs[i]));
      }
    }

    method CompleteHandshake()
      modifies this
      ensures State() == Handshake(old(State()))
    {
      hide Flush, Resubscribe, Emit;
      conn := conn.(connectTimer := false);
      conn := conn.(attempt := 0);
      conn := conn.(status := Connected, errorInfo := NoInfo, log := conn.log + [Handshaken]);
      live := live.(heartbeatTimer := true);
      SendFrame(Welcome);
      ResubscribeTerminals();
      FlushPendingSendQueue();
      SettleConnect(true);
    }

    method HandleSession(message: SessionMessage)
      modifies this
      ensures State() == ClientState.HandleSession(old(State()), message)
    {
      hide Handshake, ClientState.ScheduleReconnect, ClientState.ResolveWaiters;
      if message.ServerInfo? {
        var expected := conn.expectedServer;
        if expected.Some? && expected.value != "" && expected.value != message.serverId {
          conn := conn.(connectTimer := false, errorInfo := IdentityMismatch);
          DisposeTransport();
          ScheduleReconnect();
          return;
        }
        if conn.status == Connecting {
          CompleteHandshake();
        }
      }
      ResolveWaiters(message);
    }

    // -------------------------------------------------------------- calls

    method Connect(factoryOk: bool)
      requires Valid()
      modifies this
      ensures Valid() && State() == Step(old(State()), Api(ClientState.Connect(factoryOk)))
    {
      hide Coherent, OpenConnection;
      CoherentStep(State(), Api(ClientState.Connect(factoryOk)));
      conn := conn.(log := conn.log + [ConnectCalled]);
      StartConnecting(factoryOk);
    }

    method EnsureConnected(factoryOk: bool)
      requires Valid()
      modifies this
      ensures Valid() && State() == Step(old(State()), Api(ClientState.EnsureConnected(factoryOk)))
    {
      hide Coherent, OpenConnection;
      CoherentStep(State(), Api(ClientState.EnsureConnected(factoryOk)));
      conn := conn.(log := conn.log + [ConnectCalled]);
      if conn.status == Disposed {
        return;
      }
      if !conn.shouldReconnect {
        conn := conn.(shouldReconnect := true);
      }
      if conn.status == Connected || conn.status == Connecting {
        return;
      }
      StartConnecting(factoryOk);
    }

    method Close()
      requires Valid()
      modifies this
      ensures Valid() && State() == Step(old(State()), Api(ClientState.Close))
    {
      hide Coherent, ClientState.ClearWaiters, RejectQueue;
      CoherentStep(State(), Api(ClientState.Close));
      if conn.status == Disposed {
        return;
      }
      conn := conn.(shouldReconnect := false);
      DropConnect();
      conn := conn.(reconnectTimer := None);
      conn := conn.(connectTimer := false);
      DisposeTransport();
      ClearWaiters(WaitClosed);
      RejectPendingSendQueue(ClientClosed);
      EndPingProbe();
      conn := conn.(status := Disposed);
    }

    method SetReconnectEnabled(enabled: bool)
      requires Valid()
      modifies this`conn
      ensures Valid() && State() == Step(old(State()), Api(ClientState.SetReconnectEnabled(enabled)))
    {
      hide Coherent;
      CoherentStep(State(), Api(ClientState.SetReconnectEnabled(enabled)));
      conn := conn.(reconnectEnabled := enabled);
    }

    method SetExpectedServer(serverId: Option<string>)
      requires Valid()
      modifies this`conn
      ensures Valid() && State() == Step(old(State()), Api(ClientState.SetExpectedServer(serverId)))
    {
      hide Coherent;
      CoherentStep(State(), Api(ClientState.SetExpectedServer(serverId)));
      conn := conn.(expectedServer := serverId);
    }

    method Send(message: Message)
      requires Valid()
      modifies this`sends, this`wire
      ensures Valid() && State() == Step(old(State()), Api(ClientState.Send(message)))
    {
      hide Coherent, SendMessage;
      CoherentStep(State(), Api(ClientState.Send(message)));
      SendOrQueue(message);
    }

    method Await(waiter: Waiter)
      requires Valid()
      modifies this`waits
      ensures Valid() && State() == Step(old(State()), Api(ClientState.Await(waiter)))
    {
      hide Coherent, ClientState.AddWaiter;
      CoherentStep(State(), Api(ClientState.Await(waiter)));
      AddWaiter(waiter);
    }

    /** `sendRequest` */
    method Call(waiter: Waiter, message: Message)
      requires Valid()
      modifies this`sends, this`waits, this`wire
      ensures Valid() && State() == Step(old(State()), Api(ClientState.Call(waiter, message)))
    {
      hide Coherent, SendMessage, ClientState.AddWaiter, ClientState.CancelWait;
      CoherentStep(State(), Api(ClientState.Call(waiter, message)));
      var id := |waits.created|;
      AddWaiter(waiter);
      SendOrQueue(message);
      if conn.status == Connected && conn.transport.Some? && !message.valid {
        CancelWait(id);
      }
    }

    method CancelWaiter(id: nat)
      requires Valid()
      modifies this`waits
      ensures Valid() && State() == Step(old(State()), Api(ClientState.CancelWaiter(id)))
    {
      hide Coherent, ClientState.CancelWait;
      CoherentStep(State(), Api(ClientState.CancelWaiter(id)));
      CancelWait(id);
    }

    method MeasureLatency(sendOk: bool)
      requires Valid()
      modifies this
      ensures Valid() && State() == Step(old(State()), Api(ClientState.MeasureLatency(sendOk)))
    {
      hide Coherent, ClientState.SendPing;
      CoherentStep(State(), Api(ClientState.MeasureLatency(sendOk)));
      SendPing(false, sendOk);
    }

    method SubscribeTerminals(sub: Subscription)
      requires Valid()
      modifies this`subs, this`wire
      ensures Valid() && State() == Step(old(State()), Api(ClientState.SubscribeTerminals(sub)))
    {
      hide Coherent, Emit, Enlist;
      CoherentStep(State(), Api(ClientState.SubscribeTerminals(sub)));
      subs := Enlist(subs, sub);
      if conn.transport.Some? && conn.status == Connected {
        SendFrame(Subscribe(sub));
      }
    }

    method UnsubscribeTerminals(sub: Subscription)
      requires Valid()
      modifies this`subs, this`wire
      ensures Valid() && State() == Step(old(State()), Api(ClientState.UnsubscribeTerminals(sub)))
    {
      hide Coherent, Emit, Delist;
      CoherentStep(State(), Api(ClientState.UnsubscribeTerminals(sub)));
      subs := Delist(subs, Key(sub));
      if conn.transport.Some? && conn.status == Connected {
        SendFrame(Unsubscribe(sub));
      }
    }

    // -------------------------------------------------------------- transport callbacks

    method OnOpen(sendOk: bool)
      requires Valid()
      modifies this
      ensures Valid() && State() == Step(old(State()), Transport(Opened(sendOk)))
    {
      hide Coherent, Emit, ClientState.ScheduleReconnect;
      CoherentStep(State(), Transport(Opened(sendOk)));
      if conn.transport.None? {
        return;
      }
      conn := conn.(genericErrorTimer := false);
      if sendOk {
        SendFrame(Hello);
      } else {
        ScheduleReconnect();
      }
    }

    method OnClose(close: CloseKind)
      requires Valid()
      modifies this
      ensures Valid() && State() == Step(old(State()), Transport(Closed(close)))
    {
      hide Coherent, ClientState.ScheduleReconnect, ClientState.ReportAuthRejected;
      CoherentStep(State(), Transport(Closed(close)));
      if conn.transport.None? {
        return;
      }
      conn := conn.(connectTimer := false);
      conn := conn.(genericErrorTimer := false);
      if !conn.shouldReconnect && conn.errorInfo == PairingRequired {
        return;
      }
      if close == AuthRefused {
        ReportAuthRejected();
        return;
      }
      ScheduleReconnect();
    }

    method OnError(error: ErrorKind)
      requires Valid()
      modifies this
      ensures Valid() && State() == Step(old(State()), Transport(Errored(error)))
    {
      hide Coherent, ClientState.ScheduleReconnect, ClientState.ReportAuthRejected;
      CoherentStep(State(), Transport(Errored(error)));
      if conn.transport.None? {
        return;
      }
      conn := conn.(connectTimer := false);
      match error
      case Unauthorized =>
        conn := conn.(genericErrorTimer := false);
        ReportAuthRejected();
      case Generic =>
        conn := conn.(genericErrorTimer := true);
      case Detailed =>
        conn := conn.(genericErrorTimer := false);
        ScheduleReconnect();
    }

    method OnMessage(frame: Frame)
      requires Valid()
      modifies this
      ensures Valid() && State() == Step(old(State()), Transport(Received(frame)))
    {
      hide Coherent, ClientState.HandleSession, ClientState.RejectWaitersFor;
      CoherentStep(State(), Transport(Received(frame)));
      if frame.Invalid? {
        if frame.requestId.Some? {
          RejectWaitersFor(frame.requestId.value);
        }
        return;
      }
      live := live.(failures := 0, log := live.log + [Inbound]);
      match frame
      case Pong => EndPingProbe();
      case Session(message) => HandleSession(message);
      case FileFrame(reply) =>
        if reply.Some? {
          HandleSession(reply.value);
        }
      case TerminalFrame =>
    }

    // -------------------------------------------------------------- timers

    method OnConnectTimeout()
      requires Valid()
      modifies this
      ensures Valid() && State() == Step(old(State()), Timer(ConnectTimeout))
    {
      hide Coherent, ClientState.ScheduleReconnect;
      CoherentStep(State(), Timer(ConnectTimeout));
      if !conn.connectTimer {
        return;
      }
      conn := conn.(connectTimer := false);
      if conn.status == Connecting {
        DisposeTransport();
        ScheduleReconnect();
      }
    }

    method OnGenericErrorTimeout()
      requires Valid()
      modifies this
      ensures Valid() && State() == Step(old(State()), Timer(GenericErrorTimeout))
    {
      hide Coherent, ClientState.ScheduleReconnect;
      CoherentStep(State(), Timer(GenericErrorTimeout));
      if !conn.genericErrorTimer {
        return;
      }
      conn := conn.(genericErrorTimer := false);
      if conn.status == Connected || conn.status == Connecting {
        ScheduleReconnect();
      }
    }

    method OnReconnectFire(factoryOk: bool)
      requires Valid()
      modifies this
      ensures Valid() && State() == Step(old(State()), Timer(ReconnectFire(factoryOk)))
    {
      hide Coherent, ClientState.AttemptConnect;
      CoherentStep(State(), Timer(ReconnectFire(factoryOk)));
      if conn.reconnectTimer.None? {
        return;
      }
      conn := conn.(reconnectTimer := None);
      if conn.shouldReconnect {
        AttemptConnect(factoryOk);
      }
    }

    method OnSendTimeout(id: nat)
      requires Valid()
      modifies this`sends
      ensures Valid() && State() == Step(old(State()), Timer(SendTimeout(id)))
    {
      hide Coherent, Without;
      CoherentStep(State(), Timer(SendTimeout(id)));
      if id in sends.timers {
        sends := sends.(queue := Without(sends.queue, [id]), timers := sends.timers - {id});
        sends := sends.(settled := sends.settled + [SendSettled(id, SendTimedOut)]);
      }
    }

    method OnWaiterTimeout(id: nat)
      requires Valid()
      modifies this`waits
      ensures Valid() && State() == Step(old(State()), Timer(WaiterTimeout(id)))
    {
      hide Coherent, SettleOpen;
      CoherentStep(State(), Timer(WaiterTimeout(id)));
      if id in waits.timers {
        RejectWaiter(id, WaitTimedOut);
      }
    }

    method OnHeartbeat(sendOk: bool)
      requires Valid()
      modifies this
      ensures Valid() && State() == Step(old(State()), Timer(HeartbeatFire(sendOk)))
    {
      hide Coherent, ClientState.SendPing;
      CoherentStep(State(), Timer(HeartbeatFire(sendOk)));
      if live.heartbeatTimer {
        live := live.(heartbeatTimer := false);
        SendPing(true, sendOk);
      }
    }

    method OnHeartbeatSettled()
      requires Valid()
      modifies this`live
      ensures Valid() && State() == Step(old(State()), Timer(HeartbeatSettled))
    {
      hide Coherent;
      CoherentStep(State(), Timer(HeartbeatSettled));
      if conn.status == Connected && !live.heartbeatTimer {
        live := live.(heartbeatTimer := true);
      }
    }

    method OnProbeTimeout(id: nat)
      requires Valid()
      modifies this
      ensures Valid() && State() == Step(old(State()), Timer(ProbeTimeout(id)))
    {
      hide Coherent, ClientState.FailProbe;
      CoherentStep(State(), Timer(ProbeTimeout(id)));
      if live.probe.Some? && live.probe.value.id == id {
        FailProbe();
      }
    }
  }
}
