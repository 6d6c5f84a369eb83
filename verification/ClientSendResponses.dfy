/** What must become of a send (packages/client/src/daemon-client.ts:1785-1855, 7510-7519): when it goes
    out, when it waits, and what ends its waiting. */
module ClientSendResponses {
  import opened Sequences
  import opened ClientState
  import opened ClientConnection
  import opened ClientSends
  import opened ClientWaitResponses

  // ---------------------------------------------------------------- the handshake sends the queue

  ghost function FlushedAs(q: Sends, t: nat, id: nat): SendSettled
    requires id < |q.accepted|
  {
    SendSettled(id, if q.accepted[id].valid then Sent(t) else SchemaRejected)
  }

  lemma {:induction false} FlushSettles(s: Client, id: nat)
    requires Live(s.conn) && id in s.sends.queue && forall k :: k in s.sends.queue ==> k < |s.sends.accepted|
    ensures FlushedAs(s.sends, s.conn.transport.value, id) in Flush(s).sends.settled
    decreases |s.sends.queue|
  {
    var head := FlushHead(s);
    assert forall k :: k in head.sends.queue ==> k in s.sends.queue;
    if s.sends.queue[0] == id {
      assert head.sends.settled[|s.sends.settled|] == FlushedAs(s.sends, s.conn.transport.value, id);
      FlushKeepsSettled(head);
    } else {
      FlushSettles(head, id);
    }
  }

  lemma {:induction false} FlushKeepsSettled(s: Client)
    ensures s.sends.settled <= Flush(s).sends.settled
    decreases |s.sends.queue|
  {
    if s.sends.queue == [] {
    } else {
      assert s.sends.settled <= FlushHead(s).sends.settled;
      FlushKeepsSettled(FlushHead(s));
    }
  }

  ghost predicate OnWire(wire: seq<Sending>, id: nat) {
    exists t :: Sending(t, Request(id)) in wire
  }

  lemma HandshakeSettles(s: Client, id: nat)
    requires ConnectionInv(s) && QueueInv(s.sends) && s.conn.status == Connecting && id in s.sends.queue
    ensures FlushedAs(s.sends, s.conn.transport.value, id) in Handshake(s).sends.settled
  {
    var c := s.conn.(connectTimer := false, attempt := 0, status := Connected, errorInfo := NoInfo,
                     log := s.conn.log + [Handshaken]);
    var up := Emit(s.(conn := c, live := s.live.(heartbeatTimer := true)), Welcome);
    FlushSettles(Resubscribe(up, s.subs), id);
    hide Flush, Resubscribe, Emit;
  }

  lemma HandshakeStep(s: Client, e: Event, m: SessionMessage)
    requires s.conn.status == Connecting && Carries(e, m) && m.ServerInfo? && !FromOther(s.conn, m)
    ensures Step(s, e).sends == Handshake(s).sends && Step(s, e).wire == Handshake(s).wire
    ensures Step(s, e).conn == Handshake(s).conn
  {
    var heard := s.(live := HearInbound(s.live));
    HandshakeIgnoresLiveness(s, HearInbound(s.live));
    assert Step(s, e) == HandleSession(heard, m);
    hide Handshake, ResolveWaiters;
  }

  lemma HandshakeIgnoresLiveness(s: Client, live: Liveness)
    ensures var a, b := Handshake(s), Handshake(s.(live := live)); a.sends == b.sends && a.wire == b.wire && a.conn == b.conn
  {
    var c := s.conn.(connectTimer := false, attempt := 0, status := Connected, errorInfo := NoInfo,
                     log := s.conn.log + [Handshaken]);
    var a := Emit(s.(conn := c, live := s.live.(heartbeatTimer := true)), Welcome);
    var b := Emit(s.(live := live).(conn := c, live := live.(heartbeatTimer := true)), Welcome);
    ResubscribeIgnoresLiveness(a, b.live, s.subs);
    assert b == a.(live := b.live);
    FlushIgnoresLiveness(Resubscribe(a, s.subs), b.live);
    hide Flush, Resubscribe, Emit;
  }

  lemma {:induction false} ResubscribeIgnoresLiveness(s: Client, live: Liveness, subs: seq<Subscription>)
    ensures Resubscribe(s.(live := live), subs) == Resubscribe(s, subs).(live := live)
    decreases |subs|
  {
    if subs == [] {
    } else {
      assert Emit(s.(live := live), Subscribe(subs[0])) == Emit(s, Subscribe(subs[0])).(live := live);
      ResubscribeIgnoresLiveness(Emit(s, Subscribe(subs[0])), live, subs[1..]);
    }
  }

  lemma {:induction false} FlushIgnoresLiveness(s: Client, live: Liveness)
    ensures Flush(s.(live := live)) == Flush(s).(live := live)
    decreases |s.sends.queue|
  {
    if s.sends.queue == [] {
    } else {
      assert FlushHead(s.(live := live)) == FlushHead(s).(live := live);
      FlushIgnoresLiveness(FlushHead(s), live);
    }
  }

  /** The handshake sends every valid queued message on the transport it completed, and rejects exactly
      the invalid ones, which never reach a wire. */
  lemma HandshakeSendsTheQueue(s: Client, e: Event, m: SessionMessage, id: nat)
    requires ConnectionInv(s) && SendsInv(s) && s.conn.status == Connecting && id in s.sends.queue
    requires Carries(e, m) && m.ServerInfo? && !FromOther(s.conn, m)
    ensures var r, t := Step(s, e), s.conn.transport.value;
            if s.sends.accepted[id].valid
            then SendSettled(id, Sent(t)) in r.sends.settled && Sending(t, Request(id)) in r.wire
            else SendSettled(id, SchemaRejected) in r.sends.settled && !OnWire(r.wire, id)
  {
    hide Step, Handshake;
    HandshakeStep(s, e, m);
    HandshakeSettles(s, id);
    HandshakeKeeps(s);
    SettledOneWay(Handshake(s), id);
  }

  lemma OneOutcome(q: Sends, id: nat, a: SendOutcome, b: SendOutcome)
    requires QueueInv(q) && SendSettled(id, a) in q.settled && SendSettled(id, b) in q.settled
    ensures a == b
  {
    hide Increasing, SendIsSettled, OutcomesFit;
    var i :| 0 <= i < |q.settled| && q.settled[i] == SendSettled(id, a);
    var j :| 0 <= j < |q.settled| && q.settled[j] == SendSettled(id, b);
    assert q.settled[i].id == id && q.settled[j].id == id;
  }

  /** A settled send that is on a wire settled as sent on it. */
  lemma WireTellsOutcome(s: Client, id: nat, t: nat, outcome: SendOutcome)
    requires SendsInv(s) && Sending(t, Request(id)) in s.wire && SendSettled(id, outcome) in s.sends.settled
    ensures outcome == Sent(t)
  {
    hide QueueInv;
    OneOutcome(s.sends, id, outcome, Sent(t));
  }

  /** A rejected send is on no wire. */
  lemma SettledOneWay(s: Client, id: nat)
    requires SendsInv(s)
    ensures forall outcome :: SendSettled(id, outcome) in s.sends.settled && OnWire(s.wire, id) ==> outcome.Sent?
  {
    hide SendsInv;
    forall outcome | SendSettled(id, outcome) in s.sends.settled && OnWire(s.wire, id)
      ensures outcome.Sent?
    {
      var t :| Sending(t, Request(id)) in s.wire;
      WireTellsOutcome(s, id, t, outcome);
    }
  }

  // ---------------------------------------------------------------- a send by itself

  /** Is this a call that sends `message`? */
  ghost predicate Submits(e: Event, message: Message) {
    e == Api(Send(message)) || (e.Api? && e.call.Call? && e.call.message == message)
  }

  /** A message goes out at once on a connected client if it is valid, waits on a connecting one, and is
      turned away otherwise. */
  lemma SendGoesWhereItMust(s: Client, e: Event, message: Message)
    requires ConnectionInv(s) && Submits(e, message)
    ensures var r, id := Step(s, e), |s.sends.accepted|;
            && r.sends.accepted == s.sends.accepted + [message]
            && (s.conn.status == Connected ==>
                  if message.valid
                  then SendSettled(id, Sent(s.conn.transport.value)) in r.sends.settled
                       && Sending(s.conn.transport.value, Request(id)) in r.wire
                  else SendSettled(id, SchemaRejected) in r.sends.settled && r.wire == s.wire)
            && (s.conn.status == Connecting ==>
                  id in r.sends.queue && id in r.sends.timers && id in r.sends.queued && r.wire == s.wire)
            && (s.conn.status != Connected && s.conn.status != Connecting ==>
                  SendSettled(id, NotConnected) in r.sends.settled && r.wire == s.wire)
  {
    hide AddWaiter, CancelWait;
    var r := Step(s, e);
    if s.conn.status == Connecting {
      assert r.sends.queue[|s.sends.queue|] == |s.sends.accepted|;
    } else {
      assert r.sends.settled[|s.sends.settled|].id == |s.sends.accepted|;
    }
  }

  /** A queued send's timeout takes it, and only it, out of the queue. */
  lemma SendTimeoutTakesItsOwn(s: Client, id: nat, other: nat)
    requires QueueInv(s.sends) && other in s.sends.queue
    ensures var r := Step(s, Timer(SendTimeout(id))).sends;
            && (other == id ==> SendSettled(id, SendTimedOut) in r.settled && id !in r.queue && id !in r.timers)
            && (other != id ==> other in r.queue && other in r.timers)
  {
    hide Increasing, SendIsSettled, OutcomesFit;
    var r := Step(s, Timer(SendTimeout(id))).sends;
    if other == id {
      assert r.settled[|s.sends.settled|] == SendSettled(id, SendTimedOut);
    }
  }
}
