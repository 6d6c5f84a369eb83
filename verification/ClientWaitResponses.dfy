/** What must happen to the waiters, event by event (packages/client/src/daemon-client.ts:1857-1935,
    7565-7599, 7659-7730): which are settled, how, and which stay, said in the events' own fields. */
module ClientWaitResponses {
  import opened Sequences
  import opened ClientState
  import opened ClientConnection
  import opened ClientWaiters

  /** A session message, or one a file frame stands for, arrives. */
  ghost predicate Carries(e: Event, m: SessionMessage) {
    e == Transport(Received(Session(m))) || e == Transport(Received(FileFrame(Some(m))))
  }

  /** A server info from another server than the one expected. */
  ghost predicate FromOther(c: Connection, m: SessionMessage) {
    m.ServerInfo? && c.expectedServer.Some? && c.expectedServer.value != "" && c.expectedServer.value != m.serverId
  }

  /** The messages that settle a waiter: an error for its request, or what it waits for, which for a
      correlated one is a response of its type to its own request that its caller keeps. */
  ghost predicate Wants(selector: Selector, m: SessionMessage) {
    if selector.Plain? then selector.select(m)
    else if selector.Rpc? then m == RpcError(selector.requestId) || selector.select(m)
    else
      || m == RpcError(selector.requestId)
      || ((exists payload :: m == Response(selector.responseType, selector.requestId, payload)) && selector.keep(m))
  }

  /** `id` leaves the open waiters as settled with `outcome`. */
  ghost predicate Leaves(before: Waits, after: Waits, id: nat, outcome: WaitOutcome) {
    id !in after.open && id !in after.timers && WaitSettled(id, outcome) in after.settled
  }

  ghost predicate Stays(before: Waits, after: Waits, id: nat) {
    && id in after.open && (id in after.timers <==> id in before.timers)
    && forall k :: |before.settled| <= k < |after.settled| ==> after.settled[k].id != id
  }

  // ---------------------------------------------------------------- settling some

  lemma SettlesThose(w: Waits, ids: seq<nat>, outcome: WaitOutcome, id: nat)
    requires id in w.open
    ensures var r := SettleOpen(w, ids, outcome);
            && (id in ids ==> Leaves(w, r, id, outcome))
            && (id !in ids ==> Stays(w, r, id))
            && w.settled <= r.settled && r.created == w.created
  {
    var r := SettleOpen(w, ids, outcome);
    hide Where;
    if id in ids {
      var k :| 0 <= k < |ids| && ids[k] == id;
      assert r.settled[|w.settled| + k] == WaitSettled(id, outcome);
    }
    forall k | |w.settled| <= k < |r.settled|
      ensures r.settled[k].id in ids
    {
      assert r.settled[k] == WaitSettled(ids[k - |w.settled|], outcome);
    }
  }

  lemma MessageStep(s: Client, e: Event, m: SessionMessage)
    requires Carries(e, m) && !FromOther(s.conn, m)
    ensures Step(s, e).waits == ResolveWaiters(s.waits, m)
  {
    hide ResolveWaiters, Handshake;
  }

  lemma WantsIsAccepts(w: Waits, id: nat, m: SessionMessage)
    requires id < |w.created|
    ensures WaiterAccepts(w, id, m) <==> Wants(w.created[id].selector, m)
  {
    var selector := w.created[id].selector;
    if selector.Correlated? && m.Response? {
      assert m == Response(m.responseType, m.requestId, m.payload);
    }
  }

  /** A message settles exactly the open waiters that want it, each with that message; the others stay. */
  lemma MessageSettlesExactly(s: Client, e: Event, m: SessionMessage, id: nat)
    requires WaitsInv(s.waits) && id in s.waits.open
    requires Carries(e, m) && !FromOther(s.conn, m)
    ensures var after := Step(s, e).waits;
            && (Wants(s.waits.created[id].selector, m) ==> Leaves(s.waits, after, id, Resolved(m)))
            && (!Wants(s.waits.created[id].selector, m) ==> Stays(s.waits, after, id))
  {
    hide Step, SettleOpen, Wants, WaiterAccepts, Leaves, Stays;
    MessageStep(s, e, m);
    WantsIsAccepts(s.waits, id, m);
    var hits := Where(s.waits.open, (k: nat) => WaiterAccepts(s.waits, k, m));
    WhereMembers(s.waits.open, (k: nat) => WaiterAccepts(s.waits, k, m));
    SettlesThose(s.waits, hits, Resolved(m), id);
  }

  /** A frame that fails to decode fails exactly the open waiters of the request it names. */
  lemma BrokenFrameFailsExactly(s: Client, requestId: string, id: nat)
    requires WaitsInv(s.waits) && id in s.waits.open
    ensures var after := Step(s, Transport(Received(Invalid(Some(requestId))))).waits;
            var selector := s.waits.created[id].selector;
            && (!selector.Plain? && selector.requestId == requestId ==> Leaves(s.waits, after, id, ProtocolFailure))
            && (selector.Plain? || selector.requestId != requestId ==> Stays(s.waits, after, id))
  {
    hide SettleOpen, Leaves, Stays;
    var hits := Where(s.waits.open, (k: nat) => WaiterHasRequest(s.waits, k, requestId));
    WhereMembers(s.waits.open, (k: nat) => WaiterHasRequest(s.waits, k, requestId));
    SettlesThose(s.waits, hits, ProtocolFailure, id);
  }

  /** A timeout settles its own waiter, if that has a timer and is open, and nothing else. */
  lemma TimeoutSettlesItsOwn(s: Client, id: nat, other: nat)
    requires WaitsInv(s.waits) && other in s.waits.open
    ensures var after := Step(s, Timer(WaiterTimeout(id))).waits;
            if other == id && s.waits.created[id].timed then Leaves(s.waits, after, id, WaitTimedOut)
            else Stays(s.waits, after, other)
  {
    hide SettleOpen;
    if id in s.waits.timers {
      SettlesThose(s.waits, [id], WaitTimedOut, other);
    }
  }

  /** A cancellation settles its own waiter, if that is open, and nothing else. */
  lemma CancelSettlesItsOwn(s: Client, id: nat, other: nat)
    requires WaitsInv(s.waits) && other in s.waits.open
    ensures var after := Step(s, Api(CancelWaiter(id))).waits;
            if other == id then Leaves(s.waits, after, id, Cancelled) else Stays(s.waits, after, other)
  {
    hide SettleOpen;
    if id < |s.waits.created| && !WaitIsSettled(s.waits, id) {
      SettlesThose(s.waits, [id], Cancelled, other);
    }
  }

  /** Waiting adds an open waiter, with its timer if it has one. */
  lemma AwaitOpens(s: Client, waiter: Waiter)
    requires WaitsInv(s.waits)
    ensures var after, id := Step(s, Api(Await(waiter))).waits, |s.waits.created|;
            && after.created == s.waits.created + [waiter] && id in after.open
            && (id in after.timers <==> waiter.timed)
            && forall other :: other in s.waits.open ==> Stays(s.waits, after, other)
  {
    var after, id := Step(s, Api(Await(waiter))).waits, |s.waits.created|;
    assert after.open[|s.waits.open|] == id;
    assert forall k :: 0 <= k < |s.waits.open| ==> after.open[k] == s.waits.open[k];
  }

  /** A request waits for its reply, unless its message is sent at once and turned away by the schema. */
  lemma CallWaits(s: Client, waiter: Waiter, message: Message)
    requires WaitsInv(s.waits)
    ensures var after, id := Step(s, Api(Call(waiter, message))).waits, |s.waits.created|;
            && after.created == s.waits.created + [waiter]
            && (if s.conn.status == Connected && s.conn.transport.Some? && !message.valid
                then Leaves(s.waits, after, id, Cancelled)
                else id in after.open && (id in after.timers <==> waiter.timed))
  {
    hide SendMessage, SettleOpen, WaitIsSettled;
    var added, id := AddWaiter(s.waits, waiter), |s.waits.created|;
    AwaitOpens(s, waiter);
    NotSettledYet(s.waits, waiter);
    if s.conn.status == Connected && s.conn.transport.Some? && !message.valid {
      SettlesThose(added, [id], Cancelled, id);
    }
  }

  lemma NotSettledYet(w: Waits, waiter: Waiter)
    requires WaitsInv(w)
    ensures !WaitIsSettled(AddWaiter(w, waiter), |w.created|)
  {
  }
}
