/** Sends: each accepted message is settled once, is on the wire exactly when it settled as sent,
    and the wire carries messages in acceptance order across the whole run. */
module ClientSends {
  import opened Sequences
  import opened ClientState
  import opened ClientConnection
  import opened ClientTraffic

  ghost predicate SendIsSettled(q: Sends, id: nat) {
    exists k :: 0 <= k < |q.settled| && q.settled[k].id == id
  }

  ghost predicate QueueInv(q: Sends) {
    && Increasing(q.queue)
    && (forall id :: id in q.queue ==> id < |q.accepted|)
    && (forall k :: 0 <= k < |q.settled| ==> q.settled[k].id < |q.accepted|)
    && (forall i, j :: 0 <= i < j < |q.settled| ==> q.settled[i].id != q.settled[j].id)
    && (forall id: nat :: id < |q.accepted| ==> (id in q.queue <==> !SendIsSettled(q, id)))
    && (forall id :: id in q.timers <==> id in q.queue)
    && OutcomesFit(q)
  }

  /** Only a send that was queued can time out or be lost, only one that never was can be turned away, and
      the schema lets exactly the valid ones through. */
  ghost predicate Fits(outcome: SendOutcome, wasQueued: bool, valid: bool) {
    match outcome
    case SendTimedOut => wasQueued
    case ConnectionLost => wasQueued
    case ClientClosed => wasQueued
    case NotConnected => !wasQueued
    case Sent(_) => valid
    case SchemaRejected => !valid
  }

  ghost predicate OutcomesFit(q: Sends) {
    && (forall id :: id in q.queue ==> id in q.queued)
    && (forall id :: id in q.queued ==> id < |q.accepted|)
    && (forall k :: 0 <= k < |q.settled| ==>
          q.settled[k].id < |q.accepted| &&
          Fits(q.settled[k].outcome, q.settled[k].id in q.queued, q.accepted[q.settled[k].id].valid))
  }

  ghost predicate WireInv(q: Sends, wire: seq<Sending>) {
    && (forall i :: 0 <= i < |wire| && wire[i].payload.Request? ==>
          wire[i].payload.id < |q.accepted| && forall id :: id in q.queue ==> wire[i].payload.id < id)
    && (forall i, j :: 0 <= i < j < |wire| && wire[i].payload.Request? && wire[j].payload.Request? ==>
          wire[i].payload.id < wire[j].payload.id)
    && (forall t, id :: Sending(t, Request(id)) in wire <==> SendSettled(id, Sent(t)) in q.settled)
    && (forall i :: 0 <= i < |wire| && wire[i].payload.Request? ==> Sending(wire[i].transport, Welcome) in wire[..i])
  }

  ghost predicate WelcomeInv(s: Client) {
    s.conn.status == Connected ==> s.conn.transport.Some? && Sending(s.conn.transport.value, Welcome) in s.wire
  }

  ghost predicate SendsInv(s: Client) {
    QueueInv(s.sends) && WireInv(s.sends, s.wire) && WelcomeInv(s)
  }

  // ---------------------------------------------------------------- the queue

  lemma DropKeepsQueue(q: Sends, outcome: SendOutcome)
    requires QueueInv(q) && Fits(outcome, true, true) && Fits(outcome, true, false)
    ensures QueueInv(RejectQueue(q, outcome))
  {
    var r := RejectQueue(q, outcome);
    var n := |q.settled|;
    assert forall k :: n <= k < |r.settled| ==> r.settled[k].id == q.queue[k - n] && q.queue[k - n] in q.queue;
    assert OutcomesFit(r);
    hide OutcomesFit;
    forall id: nat | id < |q.accepted|
      ensures SendIsSettled(r, id)
    {
      if id in q.queue {
        var k :| 0 <= k < |q.queue| && q.queue[k] == id;
        assert r.settled[n + k].id == id;
      } else {
        var k :| 0 <= k < n && q.settled[k].id == id;
        assert r.settled[k].id == id;
      }
    }
  }

  /** Taking `id` out of the queue and settling it. */
  lemma TakeKeepsQueue(q: Sends, id: nat, rest: seq<nat>, outcome: SendOutcome)
    requires QueueInv(q) && id in q.queue && Increasing(rest) && Fits(outcome, true, q.accepted[id].valid)
    requires forall k :: k in rest <==> k in q.queue && k != id
    ensures QueueInv(q.(queue := rest, timers := q.timers - {id}, settled := q.settled + [SendSettled(id, outcome)]))
  {
    var r := q.(queue := rest, timers := q.timers - {id}, settled := q.settled + [SendSettled(id, outcome)]);
    assert r.settled[|q.settled|].id == id;
    forall k: nat
      ensures SendIsSettled(r, k) <==> SendIsSettled(q, k) || k == id
    {
      if SendIsSettled(q, k) {
        var i :| 0 <= i < |q.settled| && q.settled[i].id == k;
        assert r.settled[i].id == k;
      }
    }
  }

  lemma SubmitKeepsQueue(s: Client, message: Message)
    requires QueueInv(s.sends)
    ensures QueueInv(SendMessage(s, message).sends)
  {
    hide Emit, QueueInv;
    var r := SendMessage(s, message).sends;
    var id := |s.sends.accepted|;
    if Live(s.conn) || s.conn.status != Connecting {
      SettleNewKeepsQueue(s.sends, message, r.settled[|s.sends.settled|].outcome);
    } else {
      EnqueueKeepsQueue(s.sends, message);
    }
  }

  lemma SettleNewKeepsQueue(q: Sends, message: Message, outcome: SendOutcome)
    requires QueueInv(q) && Fits(outcome, false, message.valid)
    ensures QueueInv(q.(accepted := q.accepted + [message],
                        settled := q.settled + [SendSettled(|q.accepted|, outcome)]))
  {
    var id := |q.accepted|;
    var r := q.(accepted := q.accepted + [message], settled := q.settled + [SendSettled(id, outcome)]);
    assert r.settled[|q.settled|].id == id;
    assert forall k :: 0 <= k < |q.settled| ==> r.settled[k] == q.settled[k];
    assert forall k: nat :: SendIsSettled(r, k) <==> SendIsSettled(q, k) || k == id;
  }

  lemma EnqueueKeepsQueue(q: Sends, message: Message)
    requires QueueInv(q)
    ensures QueueInv(q.(accepted := q.accepted + [message], queue := q.queue + [|q.accepted|],
                        queued := q.queued + {|q.accepted|}, timers := q.timers + {|q.accepted|}))
  {
    var r := q.(accepted := q.accepted + [message], queue := q.queue + [|q.accepted|],
                queued := q.queued + {|q.accepted|}, timers := q.timers + {|q.accepted|});
    assert forall k :: 0 <= k < |q.queue| ==> q.queue[k] in q.queue;
    assert forall k: nat :: SendIsSettled(r, k) <==> SendIsSettled(q, k);
  }

  // ---------------------------------------------------------------- the wire

  lemma SayKeepsWire(q: Sends, wire: seq<Sending>, more: Sending)
    requires WireInv(q, wire) && !more.payload.Request?
    ensures WireInv(q, wire + [more])
  {
    var w := wire + [more];
    assert forall i :: 0 <= i < |wire| ==> w[..i] == wire[..i];
    assert forall t, id :: Sending(t, Request(id)) in w <==> Sending(t, Request(id)) in wire;
  }

  /** Settling without sending leaves the wire as it was. */
  lemma SettleKeepsWire(q: Sends, r: Sends, wire: seq<Sending>, more: seq<SendSettled>)
    requires WireInv(q, wire) && r.settled == q.settled + more && |q.accepted| <= |r.accepted|
    requires forall k :: 0 <= k < |more| ==> !more[k].outcome.Sent?
    requires forall id :: id in r.queue ==> id in q.queue || |q.accepted| <= id
    ensures WireInv(r, wire)
  {
    assert forall t, id :: SendSettled(id, Sent(t)) in r.settled <==> SendSettled(id, Sent(t)) in q.settled;
  }

  lemma SendKeepsWire(q: Sends, r: Sends, wire: seq<Sending>, t: nat, id: nat)
    requires WireInv(q, wire) && r.settled == q.settled + [SendSettled(id, Sent(t))] && |q.accepted| <= |r.accepted|
    requires Sending(t, Welcome) in wire
    requires id < |r.accepted| && forall k :: k in r.queue ==> id < k && k in q.queue
    requires forall i :: 0 <= i < |wire| && wire[i].payload.Request? ==> wire[i].payload.id < id
    ensures WireInv(r, wire + [Sending(t, Request(id))])
  {
    var w := wire + [Sending(t, Request(id))];
    assert forall i :: 0 <= i <= |wire| ==> w[..i] == wire[..i];
    assert forall u, k :: Sending(u, Request(k)) in w <==> Sending(u, Request(k)) in wire || (u == t && k == id);
    assert forall u, k :: SendSettled(k, Sent(u)) in r.settled <==>
        SendSettled(k, Sent(u)) in q.settled || (u == t && k == id);
  }

  // ---------------------------------------------------------------- each kind of traffic

  lemma SubmitKeeps(s: Client, message: Message)
    requires ConnectionInv(s) && SendsInv(s)
    ensures QueueInv(SendMessage(s, message).sends)
    ensures WireInv(SendMessage(s, message).sends, SendMessage(s, message).wire)
    ensures s.wire <= SendMessage(s, message).wire
  {
    SubmitKeepsQueue(s, message);
    hide QueueInv, WireInv;
    var r := SendMessage(s, message).sends;
    var id := |s.sends.accepted|;
    if Live(s.conn) && message.valid {
      assert s.sends.queue == [];
      assert forall i :: 0 <= i < |s.wire| && s.wire[i].payload.Request? ==> s.wire[i].payload.id < id by {
        WireBelow(s.sends, s.wire);
      }
      SendKeepsWire(s.sends, r, s.wire, s.conn.transport.value, id);
    } else if Live(s.conn) || s.conn.status != Connecting {
      SettleKeepsWire(s.sends, r, s.wire, [r.settled[|s.sends.settled|]]);
    } else {
      SettleKeepsWire(s.sends, r, s.wire, []);
    }
  }

  lemma WireBelow(q: Sends, wire: seq<Sending>)
    requires WireInv(q, wire)
    ensures forall i :: 0 <= i < |wire| && wire[i].payload.Request? ==>
              wire[i].payload.id < |q.accepted| && forall id :: id in q.queue ==> wire[i].payload.id < id
  {
  }

  ghost predicate Greeted(s: Client) {
    s.conn.transport.Some? ==> Sending(s.conn.transport.value, Welcome) in s.wire
  }

  lemma FlushHeadKeeps(s: Client)
    requires s.sends.queue != [] && QueueInv(s.sends) && WireInv(s.sends, s.wire) && Greeted(s)
    ensures QueueInv(FlushHead(s).sends) && WireInv(FlushHead(s).sends, FlushHead(s).wire) && Greeted(FlushHead(s))
  {
    var id := s.sends.queue[0];
    var rest := s.sends.queue[1..];
    var r := FlushHead(s).sends;
    var outcome := r.settled[|s.sends.settled|].outcome;
    assert r == s.sends.(queue := rest, timers := s.sends.timers - {id},
                         settled := s.sends.settled + [SendSettled(id, outcome)]);
    assert Increasing(s.sends.queue) && id in s.sends.queue;
    TakeKeepsQueue(s.sends, id, rest, outcome);
    hide QueueInv, WireInv;
    assert forall k :: k in rest ==> id < k && k in s.sends.queue;
    if Live(s.conn) && outcome.Sent? {
      WireBelow(s.sends, s.wire);
      SendKeepsWire(s.sends, r, s.wire, s.conn.transport.value, id);
    } else {
      SettleKeepsWire(s.sends, r, s.wire, [SendSettled(id, outcome)]);
    }
  }

  lemma {:induction false} FlushKeeps(s: Client)
    requires QueueInv(s.sends) && WireInv(s.sends, s.wire) && Greeted(s)
    ensures QueueInv(Flush(s).sends) && WireInv(Flush(s).sends, Flush(s).wire) && Greeted(Flush(s))
    decreases |s.sends.queue|
  {
    if s.sends.queue == [] {
    } else {
      FlushHeadKeeps(s);
      hide QueueInv, WireInv, Greeted;
      FlushKeeps(FlushHead(s));
    }
  }

  lemma {:induction false} ResubscribeKeeps(s: Client, subs: seq<Subscription>)
    requires WireInv(s.sends, s.wire) && Greeted(s)
    ensures WireInv(s.sends, Resubscribe(s, subs).wire) && Greeted(Resubscribe(s, subs))
    decreases |subs|
  {
    if subs == [] {
    } else {
      if s.conn.transport.Some? {
        SayKeepsWire(s.sends, s.wire, Sending(s.conn.transport.value, Subscribe(subs[0])));
      }
      hide WireInv;
      ResubscribeKeeps(Emit(s, Subscribe(subs[0])), subs[1..]);
    }
  }

  lemma HandshakeKeeps(s: Client)
    requires ConnectionInv(s) && SendsInv(s) && s.conn.status == Connecting
    ensures SendsInv(Handshake(s))
    ensures Greeted(Handshake(s)) && Handshake(s).conn.transport == s.conn.transport
  {
    var t := s.conn.transport.value;
    SayKeepsWire(s.sends, s.wire, Sending(t, Welcome));
    hide QueueInv, WireInv, Flush, Resubscribe;
    var c := s.conn.(connectTimer := false, attempt := 0, status := Connected, errorInfo := NoInfo,
                     log := s.conn.log + [Handshaken]);
    var up := Emit(s.(conn := c, live := s.live.(heartbeatTimer := true)), Welcome);
    ResubscribeKeeps(up, s.subs);
    FlushKeeps(Resubscribe(up, s.subs));
  }

  lemma ExpireKeeps(q: Sends, wire: seq<Sending>, id: nat)
    requires QueueInv(q) && WireInv(q, wire)
    ensures QueueInv(FireSendTimer(q, id)) && WireInv(FireSendTimer(q, id), wire)
  {
    if id in q.timers {
      var rest := Without(q.queue, [id]);
      WhereKeepsIncreasing(q.queue, (k: nat) => k !in [id]);
      TakeKeepsQueue(q, id, rest, SendTimedOut);
      hide QueueInv, WireInv, Without;
      SettleKeepsWire(q, FireSendTimer(q, id), wire, [SendSettled(id, SendTimedOut)]);
    }
  }

  lemma DropKeeps(q: Sends, wire: seq<Sending>, outcome: SendOutcome)
    requires QueueInv(q) && WireInv(q, wire) && !outcome.Sent? && Fits(outcome, true, true) && Fits(outcome, true, false)
    ensures QueueInv(RejectQueue(q, outcome)) && WireInv(RejectQueue(q, outcome), wire)
  {
    DropKeepsQueue(q, outcome);
    SettleKeepsWire(q, RejectQueue(q, outcome), wire, SettleSends(q.queue, outcome));
  }

  lemma EmitKeeps(s: Client, payload: Payload)
    requires WireInv(s.sends, s.wire) && !payload.Request?
    ensures WireInv(s.sends, Emit(s, payload).wire) && s.wire <= Emit(s, payload).wire
  {
    if s.conn.transport.Some? {
      SayKeepsWire(s.sends, s.wire, Sending(s.conn.transport.value, payload));
    }
  }

  lemma CarryKeeps(s: Client, traffic: Traffic)
    requires ConnectionInv(s) && SendsInv(s) && Fitting(s, traffic)
    ensures QueueInv(Carry(s, traffic).sends) && WireInv(Carry(s, traffic).sends, Carry(s, traffic).wire)
    ensures traffic.Shake? ==> Greeted(Carry(s, traffic)) && Carry(s, traffic).conn.transport == s.conn.transport
    ensures !traffic.Shake? ==> s.wire <= Carry(s, traffic).wire
  {
    hide QueueInv, WireInv, SendMessage, Handshake, FireSendTimer, RejectQueue;
    match traffic
    case Quiet =>
    case Greet => EmitKeeps(s, Hello);
    case Probing => EmitKeeps(s, Ping);
    case Alter(subs, payload) => EmitKeeps(s, payload);
    case Drop(outcome) =>
      DropKeeps(s.sends, s.wire, outcome);
    case Submit(message) => SubmitKeeps(s, message);
    case Expire(id) => ExpireKeeps(s.sends, s.wire, id);
    case Shake(from) => HandshakeKeeps(from);
  }

  lemma SendsInvStep(s: Client, e: Event)
    requires ConnectionInv(s) && SendsInv(s)
    ensures SendsInv(Step(s, e))
  {
    hide Step, Carry, QueueInv, WireInv;
    var traffic := StepSummary(s, e);
    CarryKeeps(s, traffic);
  }

  lemma {:induction false} SendsInvRun(s: Client, events: seq<Event>)
    requires ConnectionInv(s) && SendsInv(s)
    ensures ConnectionInv(Run(s, events)) && SendsInv(Run(s, events))
  {
    hide Step, ConnectionInv, SendsInv;
    if events == [] {
    } else {
      var before := events[..|events| - 1];
      SendsInvRun(s, before);
      ConnectionInvStep(Run(s, before), events[|events| - 1]);
      SendsInvStep(Run(s, before), events[|events| - 1]);
    }
  }

  /** The sends whose promises were settled, in the order in which that happened. */
  function SettledIds(settled: seq<SendSettled>): (ids: seq<nat>)
    ensures |ids| == |settled|
    ensures forall k :: 0 <= k < |ids| ==> ids[k] == settled[k].id
  {
    seq(|settled|, k requires 0 <= k < |settled| => settled[k].id)
  }

  lemma SettledOnce(q: Sends, id: nat)
    requires QueueInv(q) && id < |q.accepted|
    ensures Occurrences(SettledIds(q.settled), id) == if id in q.queue then 0 else 1
  {
    var ids := SettledIds(q.settled);
    DistinctOccurrences(ids, id);
    if SendIsSettled(q, id) {
      var k :| 0 <= k < |q.settled| && q.settled[k].id == id;
      assert ids[k] == id;
    }
  }

  lemma WelcomedBefore(q: Sends, wire: seq<Sending>, j: nat) returns (i: nat)
    requires WireInv(q, wire) && j < |wire| && wire[j].payload.Request?
    ensures i < j && wire[i] == Sending(wire[j].transport, Welcome)
  {
    var k :| 0 <= k < j && wire[..j][k] == Sending(wire[j].transport, Welcome);
    i := k;
  }

  lemma NewSends(settings: Settings, enabled: bool, expected: Option<string>)
    ensures ConnectionInv(NewClient(settings, enabled, expected)) && SendsInv(NewClient(settings, enabled, expected))
  {
  }

  predicate RejectedInQueue(outcome: SendOutcome) {
    outcome.SendTimedOut? || outcome.ConnectionLost? || outcome.ClientClosed? || outcome.SchemaRejected?
  }

  predicate TurnedAway(outcome: SendOutcome) {
    outcome.NotConnected? || outcome.SchemaRejected?
  }

  /** Over every run: an accepted send is settled exactly once unless it is still queued, and it is
      queued (with its timer armed) only while connecting; one accepted while connecting that was
      not sent was rejected by its timeout, by the loss of the connection, by closing or by its
      schema, and only one never queued was turned away as not connected; the schema turns away
      invalid messages only, and none of them is sent. A send is on the wire, on
      transport `t`, exactly when it settled as sent on `t`; the wire carries the callers' sends of
      the whole run, over all transports, in strictly increasing acceptance order, so none twice;
      and each goes out after the handshake of its own transport. */
  lemma SendsSettleOnceInOrder(settings: Settings, enabled: bool, expected: Option<string>, events: seq<Event>)
    ensures var s := Run(NewClient(settings, enabled, expected), events);
            && (forall id: nat :: id < |s.sends.accepted| ==>
                  Occurrences(SettledIds(s.sends.settled), id) == if id in s.sends.queue then 0 else 1)
            && (s.sends.queue != [] ==> s.conn.status == Connecting)
            && (forall k :: 0 <= k < |s.sends.settled| && s.sends.settled[k].id in s.sends.queued ==>
                  RejectedInQueue(s.sends.settled[k].outcome) || s.sends.settled[k].outcome.Sent?)
            && (forall k :: 0 <= k < |s.sends.settled| && s.sends.settled[k].id !in s.sends.queued ==>
                  TurnedAway(s.sends.settled[k].outcome) || s.sends.settled[k].outcome.Sent?)
            && (forall k :: 0 <= k < |s.sends.settled| ==>
                  && s.sends.settled[k].id < |s.sends.accepted|
                  && (s.sends.settled[k].outcome.Sent? ==> s.sends.accepted[s.sends.settled[k].id].valid)
                  && (s.sends.settled[k].outcome.SchemaRejected? ==> !s.sends.accepted[s.sends.settled[k].id].valid))
            && (forall id :: id in s.sends.timers <==> id in s.sends.queue)
            && (forall t, id :: Sending(t, Request(id)) in s.wire <==> SendSettled(id, Sent(t)) in s.sends.settled)
            && (forall i, j :: 0 <= i < j < |s.wire| && s.wire[i].payload.Request? && s.wire[j].payload.Request? ==>
                  s.wire[i].payload.id < s.wire[j].payload.id)
            && (forall j :: 0 <= j < |s.wire| && s.wire[j].payload.Request? ==>
                  exists i :: 0 <= i < j && s.wire[i] == Sending(s.wire[j].transport, Welcome))
  {
    hide Run, Occurrences, SettledIds, SendIsSettled, Increasing;
    NewSends(settings, enabled, expected);
    SendsInvRun(NewClient(settings, enabled, expected), events);
    var s := Run(NewClient(settings, enabled, expected), events);
    forall id: nat | id < |s.sends.accepted|
      ensures Occurrences(SettledIds(s.sends.settled), id) == if id in s.sends.queue then 0 else 1
    {
      SettledOnce(s.sends, id);
    }
    forall j | 0 <= j < |s.wire| && s.wire[j].payload.Request?
      ensures exists i :: 0 <= i < j && s.wire[i] == Sending(s.wire[j].transport, Welcome)
    {
      var i := WelcomedBefore(s.sends, s.wire, j);
    }
  }
}
