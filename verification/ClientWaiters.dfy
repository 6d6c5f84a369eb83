/** Waiters: membership of the set, the settlement, and the timer agree over every run. */
module ClientWaiters {
  import opened Sequences
  import opened ClientState

  ghost predicate WaitsInv(w: Waits) {
    && Distinct(w.open)
    && (forall i, j :: 0 <= i < j < |w.settled| ==> w.settled[i].id != w.settled[j].id)
    && (forall k :: 0 <= k < |w.settled| ==> w.settled[k].id < |w.created|)
    && (forall id :: id in w.open ==> id < |w.created|)
    && (forall id: nat :: id < |w.created| ==> (id in w.open <==> !WaitIsSettled(w, id)))
    && (forall id :: id in w.timers <==> id in w.open && w.created[id].timed)
    && (forall k :: 0 <= k < |w.settled| && w.settled[k].outcome.Resolved? ==>
          Accepts(w.created[w.settled[k].id].selector, w.settled[k].outcome.message))
  }

  lemma SettledAfter(w: Waits, ids: seq<nat>, outcome: WaitOutcome, id: nat)
    ensures WaitIsSettled(SettleOpen(w, ids, outcome), id) <==> WaitIsSettled(w, id) || id in ids
  {
    hide Where;
    var r := SettleOpen(w, ids, outcome);
    var n := |w.settled|;
    if id in ids {
      var k :| 0 <= k < |ids| && ids[k] == id;
      assert r.settled[n + k].id == id;
    }
    if WaitIsSettled(w, id) {
      var k :| 0 <= k < n && w.settled[k].id == id;
      assert r.settled[k].id == id;
    }
  }

  lemma SettleKeeps(w: Waits, ids: seq<nat>, outcome: WaitOutcome)
    requires WaitsInv(w) && Distinct(ids)
    requires forall id :: id in ids ==> id in w.open
    requires outcome.Resolved? ==> forall id :: id in ids ==> WaiterAccepts(w, id, outcome.message)
    ensures WaitsInv(SettleOpen(w, ids, outcome))
  {
    hide Where;
    var r := SettleOpen(w, ids, outcome);
    var n := |w.settled|;
    WhereKeepsDistinct(w.open, (id: nat) => id !in ids);
    forall id: nat
      ensures WaitIsSettled(r, id) <==> WaitIsSettled(w, id) || id in ids
    {
      SettledAfter(w, ids, outcome, id);
    }
    forall k | n <= k < |r.settled|
      ensures r.settled[k] == WaitSettled(ids[k - n], outcome)
      ensures r.settled[k].id in w.open && !WaitIsSettled(w, r.settled[k].id)
    {
      assert ids[k - n] in ids;
    }
    hide WaitIsSettled;
    assert forall k :: 0 <= k < n ==> r.settled[k] == w.settled[k];
  }

  lemma AddKeeps(w: Waits, waiter: Waiter)
    requires WaitsInv(w)
    ensures WaitsInv(AddWaiter(w, waiter))
    ensures |w.created| in AddWaiter(w, waiter).open
  {
    var r := AddWaiter(w, waiter);
    assert forall id :: WaitIsSettled(r, id) <==> WaitIsSettled(w, id);
    assert r.open[|w.open|] == |w.created|;
    assert forall i :: 0 <= i < |w.open| ==> w.open[i] in w.open;
  }

  lemma CancelKeeps(w: Waits, id: nat)
    requires WaitsInv(w)
    ensures WaitsInv(CancelWait(w, id))
  {
    if id < |w.created| && !WaitIsSettled(w, id) {
      SettleKeeps(w, [id], Cancelled);
    }
  }

  /** Everything a callback can do to the waiters. */
  datatype Change =
    | Keep
    | ClearAll(outcome: WaitOutcome)
    | Resolve(message: SessionMessage)
    | RejectFor(requestId: string)
    | Add(waiter: Waiter)
    | AddThenCancel(waiter: Waiter)
    | Fire(id: nat)
    | Cancel(id: nat)

  function Apply(w: Waits, change: Change): Waits {
    match change
    case Keep => w
    case ClearAll(outcome) => ClearWaiters(w, outcome)
    case Resolve(message) => ResolveWaiters(w, message)
    case RejectFor(requestId) => RejectWaitersFor(w, requestId)
    case Add(waiter) => AddWaiter(w, waiter)
    case AddThenCancel(waiter) => CancelWait(AddWaiter(w, waiter), |w.created|)
    case Fire(id) => FireWaiterTimer(w, id)
    case Cancel(id) => CancelWait(w, id)
  }

  lemma {:induction false} NoneLeft(ids: seq<nat>, gone: seq<nat>)
    requires forall id :: id in ids ==> id in gone
    ensures Without(ids, gone) == []
  {
    if ids == [] {
    } else {
      assert ids[0] in gone;
      NoneLeft(ids[1..], gone);
    }
  }

  lemma ApplyKeeps(w: Waits, change: Change)
    requires WaitsInv(w)
    requires change.ClearAll? ==> !change.outcome.Resolved?
    ensures WaitsInv(Apply(w, change))
    ensures w.settled <= Apply(w, change).settled && w.created <= Apply(w, change).created
  {
    match change
    case Keep =>
    case ClearAll(outcome) =>
      SettleKeeps(w, w.open, outcome);
      NoneLeft(w.open, w.open);
    case Resolve(m) =>
      WhereMembers(w.open, (id: nat) => WaiterAccepts(w, id, m));
      WhereKeepsDistinct(w.open, (id: nat) => WaiterAccepts(w, id, m));
      SettleKeeps(w, Where(w.open, (id: nat) => WaiterAccepts(w, id, m)), Resolved(m));
    case RejectFor(requestId) =>
      WhereMembers(w.open, (id: nat) => WaiterHasRequest(w, id, requestId));
      WhereKeepsDistinct(w.open, (id: nat) => WaiterHasRequest(w, id, requestId));
      SettleKeeps(w, Where(w.open, (id: nat) => WaiterHasRequest(w, id, requestId)), ProtocolFailure);
    case Add(waiter) => AddKeeps(w, waiter);
    case AddThenCancel(waiter) => AddKeeps(w, waiter); CancelKeeps(AddWaiter(w, waiter), |w.created|);
    case Fire(id) => if id in w.timers { SettleKeeps(w, [id], WaitTimedOut); }
    case Cancel(id) => CancelKeeps(w, id);
  }

  lemma ApiChanges(s: Client, call: ApiCall) returns (change: Change)
    ensures StepApi(s, call).waits == Apply(s.waits, change)
    ensures change.ClearAll? ==> !change.outcome.Resolved?
  {
    hide SettleOpen, ClearWaiters, RejectQueue, Where, AddWaiter, CancelWait;
    change := Keep;
    match call
    case Connect(_) => change := ConnectChange(s.waits, StepApi(s, call).waits);
    case EnsureConnected(_) => change := ConnectChange(s.waits, StepApi(s, call).waits);
    case Close => if s.conn.status != Disposed { change := ClearAll(WaitClosed); }
    case Await(waiter) => change := Add(waiter);
    case Call(waiter, message) =>
      change := if Live(s.conn) && !message.valid then AddThenCancel(waiter) else Add(waiter);
    case CancelWaiter(id) => change := Cancel(id);
    case MeasureLatency(_) => change := ConnectChange(s.waits, StepApi(s, call).waits);
    case _ =>
  }

  ghost function ConnectChange(before: Waits, after: Waits): Change {
    if before == after then Keep else ClearAll(WaitLost)
  }

  lemma TransportChanges(s: Client, event: TransportEvent) returns (change: Change)
    ensures StepTransport(s, event).waits == Apply(s.waits, change)
    ensures change.ClearAll? ==> !change.outcome.Resolved?
  {
    hide SettleOpen, ClearWaiters, RejectQueue, Where, AddWaiter, CancelWait, ResolveWaiters;
    match event
    case Received(Invalid(Some(requestId))) => change := RejectFor(requestId);
    case Received(Session(m)) => change := SessionChange(s.(live := HearInbound(s.live)), m);
    case Received(FileFrame(Some(m))) => change := SessionChange(s.(live := HearInbound(s.live)), m);
    case _ => change := ConnectChange(s.waits, StepTransport(s, event).waits);
  }

  lemma SessionChange(s: Client, m: SessionMessage) returns (change: Change)
    ensures HandleSession(s, m).waits == Apply(s.waits, change)
    ensures change.ClearAll? ==> !change.outcome.Resolved?
  {
    hide SettleOpen, ClearWaiters, RejectQueue, Where, AddWaiter, CancelWait, ResolveWaiters;
    change := if m.ServerInfo? && Mismatched(s.conn, m.serverId) then ClearAll(WaitLost) else Resolve(m);
  }

  lemma TimerChanges(s: Client, timer: TimerEvent) returns (change: Change)
    ensures StepTimer(s, timer).waits == Apply(s.waits, change)
    ensures change.ClearAll? ==> !change.outcome.Resolved?
  {
    hide SettleOpen, ClearWaiters, RejectQueue, Where, AddWaiter, CancelWait;
    match timer
    case WaiterTimeout(id) => change := Fire(id);
    case _ => change := ConnectChange(s.waits, StepTimer(s, timer).waits);
  }

  lemma WaitsInvStep(s: Client, e: Event)
    requires WaitsInv(s.waits)
    ensures WaitsInv(Step(s, e).waits)
    ensures s.waits.settled <= Step(s, e).waits.settled && s.waits.created <= Step(s, e).waits.created
  {
    hide Apply, StepApi, StepTransport, StepTimer, WaitsInv;
    var change;
    match e {
      case Api(call) => change := ApiChanges(s, call);
      case Transport(event) => change := TransportChanges(s, event);
      case Timer(timer) => change := TimerChanges(s, timer);
    }
    ApplyKeeps(s.waits, change);
  }

  lemma {:induction false} WaitsInvRun(s: Client, events: seq<Event>)
    requires WaitsInv(s.waits)
    ensures WaitsInv(Run(s, events).waits)
  {
    if events == [] {
    } else {
      var before := events[..|events| - 1];
      WaitsInvRun(s, before);
      WaitsInvStep(Run(s, before), events[|events| - 1]);
    }
  }

  /** The waiters whose promises were settled, in the order in which that happened. */
  function SettledIds(settled: seq<WaitSettled>): (ids: seq<nat>)
    ensures |ids| == |settled|
    ensures forall k :: 0 <= k < |ids| ==> ids[k] == settled[k].id
  {
    seq(|settled|, k requires 0 <= k < |settled| => settled[k].id)
  }

  function RequestIdOf(m: SessionMessage): Option<string> {
    match m
    case RpcError(requestId) => Some(requestId)
    case Response(_, requestId, _) => Some(requestId)
    case _ => None
  }

  /** Over every run: a waiter is settled never or once, it is in the set exactly while it is
      unsettled, its timer is armed exactly while it is unsettled and has one, and a correlated
      waiter resolves only on a message that carries its own request id. */
  lemma WaitersSettleOnce(settings: Settings, enabled: bool, expected: Option<string>, events: seq<Event>)
    ensures var w := Run(NewClient(settings, enabled, expected), events).waits;
            && (forall id: nat :: id < |w.created| ==>
                  Occurrences(SettledIds(w.settled), id) == if id in w.open then 0 else 1)
            && (forall id: nat :: id in w.timers <==> id < |w.created| && w.created[id].timed && id in w.open)
            && (forall k :: 0 <= k < |w.settled| ==> w.settled[k].id < |w.created|)
            && (forall k :: 0 <= k < |w.settled| && w.settled[k].outcome.Resolved?
                            && w.created[w.settled[k].id].selector.Correlated? ==>
                  RequestIdOf(w.settled[k].outcome.message) == Some(w.created[w.settled[k].id].selector.requestId))
  {
    WaitsInvRun(NewClient(settings, enabled, expected), events);
    var w := Run(NewClient(settings, enabled, expected), events).waits;
    forall id: nat | id < |w.created|
      ensures Occurrences(SettledIds(w.settled), id) == if id in w.open then 0 else 1
    {
      var ids := SettledIds(w.settled);
      DistinctOccurrences(ids, id);
      assert id in ids <==> WaitIsSettled(w, id) by {
        if WaitIsSettled(w, id) {
          var k :| 0 <= k < |w.settled| && w.settled[k].id == id;
          assert ids[k] == id;
        }
      }
    }
  }
}
