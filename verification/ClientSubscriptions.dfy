/** Terminal subscriptions: the daemon's table, rebuilt from what the current transport carried,
    agrees with the client's own map whenever the client is connected. */
module ClientSubscriptions {
  import opened Sequences
  import opened ClientState
  import opened ClientConnection
  import opened ClientTraffic

  type Table = map<string, Subscription>

  /** The daemon sets the key on a subscribe and deletes it on an unsubscribe
      (packages/server/src/terminal/terminal-session-controller.ts:392-397). */
  function Update(table: Table, payload: Payload): Table {
    match payload
    case Subscribe(sub) => table[Key(sub) := sub]
    case Unsubscribe(sub) => table - {Key(sub)}
    case _ => table
  }

  /** The daemon's side of one transport. */
  function Replay(wire: seq<Sending>, transport: nat): Table {
    if wire == [] then map[]
    else
      var table := Replay(wire[..|wire| - 1], transport);
      var last := wire[|wire| - 1];
      if last.transport == transport then Update(table, last.payload) else table
  }

  /** The client's ordered map as a table. */
  function Entries(subs: seq<Subscription>): Table {
    if subs == [] then map[] else Entries(subs[1..])[Key(subs[0]) := subs[0]]
  }

  ghost predicate DistinctKeys(subs: seq<Subscription>) {
    forall i, j :: 0 <= i < j < |subs| ==> Key(subs[i]) != Key(subs[j])
  }

  lemma ReplaySnoc(wire: seq<Sending>, more: Sending, transport: nat)
    ensures Replay(wire + [more], transport) ==
            if more.transport == transport then Update(Replay(wire, transport), more.payload) else Replay(wire, transport)
  {
    assert (wire + [more])[..|wire|] == wire;
  }

  lemma {:induction false} EntriesHaveKeys(subs: seq<Subscription>, key: string)
    ensures key in Entries(subs) <==> exists i :: 0 <= i < |subs| && Key(subs[i]) == key
  {
    if subs == [] {
    } else {
      EntriesHaveKeys(subs[1..], key);
      if i :| 0 <= i < |subs| && Key(subs[i]) == key {
        assert i == 0 || Key(subs[1..][i - 1]) == key;
      }
    }
  }

  lemma {:induction false} EnlistEntries(subs: seq<Subscription>, sub: Subscription)
    ensures Entries(Enlist(subs, sub)) == Entries(subs)[Key(sub) := sub]
  {
    if subs == [] {
    } else {
      hide Key;
      EnlistEntries(subs[1..], sub);
      if Key(subs[0]) == Key(sub) {
        assert ([sub] + subs[1..])[1..] == subs[1..];
      } else {
        assert ([subs[0]] + Enlist(subs[1..], sub))[1..] == Enlist(subs[1..], sub);
      }
    }
  }

  lemma ConsDistinct(head: Subscription, rest: seq<Subscription>)
    requires DistinctKeys(rest) && forall k :: k in rest ==> Key(k) != Key(head)
    ensures DistinctKeys([head] + rest)
  {
    hide Key;
    var all := [head] + rest;
    forall i, j | 0 <= i < j < |all|
      ensures Key(all[i]) != Key(all[j])
    {
      assert all[j] == rest[j - 1] && rest[j - 1] in rest;
    }
  }

  lemma TailDistinct(subs: seq<Subscription>)
    requires DistinctKeys(subs) && subs != []
    ensures DistinctKeys(subs[1..]) && forall k :: k in subs[1..] ==> Key(k) != Key(subs[0])
  {
    hide Key;
    var rest := subs[1..];
    forall i, j | 0 <= i < j < |rest|
      ensures Key(rest[i]) != Key(rest[j])
    {
      assert rest[i] == subs[i + 1] && rest[j] == subs[j + 1];
    }
    forall k | k in rest
      ensures Key(k) != Key(subs[0])
    {
      var i :| 0 <= i < |rest| && rest[i] == k;
      assert subs[i + 1] == k;
    }
  }

  lemma {:induction false} EnlistKeepsDistinct(subs: seq<Subscription>, sub: Subscription)
    requires DistinctKeys(subs)
    ensures DistinctKeys(Enlist(subs, sub))
    ensures forall k :: k in Enlist(subs, sub) ==> Key(k) == Key(sub) || k in subs
  {
    if subs == [] {
      assert Enlist(subs, sub) == [sub];
    } else {
      TailDistinct(subs);
      hide Key, DistinctKeys;
      if Key(subs[0]) == Key(sub) {
        ConsDistinct(sub, subs[1..]);
      } else {
        EnlistKeepsDistinct(subs[1..], sub);
        ConsDistinct(subs[0], Enlist(subs[1..], sub));
      }
    }
  }

  lemma {:induction false} DelistEntries(subs: seq<Subscription>, key: string)
    requires DistinctKeys(subs)
    ensures Entries(Delist(subs, key)) == Entries(subs) - {key}
  {
    if subs == [] {
    } else {
      hide Key;
      var rest := subs[1..];
      if Key(subs[0]) == key {
        EntriesHaveKeys(rest, key);
        assert Entries(subs) - {key} == Entries(rest);
      } else {
        DelistEntries(rest, key);
        assert ([subs[0]] + Delist(rest, key))[1..] == Delist(rest, key);
        assert Entries(subs) - {key} == (Entries(rest) - {key})[Key(subs[0]) := subs[0]];
      }
    }
  }

  lemma {:induction false} DelistKeepsDistinct(subs: seq<Subscription>, key: string)
    requires DistinctKeys(subs)
    ensures DistinctKeys(Delist(subs, key))
    ensures forall sub :: sub in Delist(subs, key) ==> sub in subs
  {
    if subs == [] {
    } else {
      TailDistinct(subs);
      hide Key, DistinctKeys;
      if Key(subs[0]) != key {
        DelistKeepsDistinct(subs[1..], key);
        ConsDistinct(subs[0], Delist(subs[1..], key));
      }
    }
  }

  // ---------------------------------------------------------------- the invariant

  ghost predicate TransportsBelow(wire: seq<Sending>, created: nat) {
    forall i :: 0 <= i < |wire| ==> wire[i].transport < created
  }

  ghost predicate SubscriptionsInv(s: Client) {
    && DistinctKeys(s.subs)
    && TransportsBelow(s.wire, s.conn.created)
    && (s.conn.status == Connecting ==> s.conn.transport.Some? && Replay(s.wire, s.conn.transport.value) == map[])
    && (s.conn.status == Connected ==> s.conn.transport.Some? && Replay(s.wire, s.conn.transport.value) == Entries(s.subs))
  }

  lemma {:induction false} FreshTransportIsEmpty(wire: seq<Sending>, transport: nat)
    requires TransportsBelow(wire, transport)
    ensures Replay(wire, transport) == map[]
  {
    if wire == [] {
    } else {
      FreshTransportIsEmpty(wire[..|wire| - 1], transport);
    }
  }

  lemma UpdateThenMerge(table: Table, rest: Table, key: string, sub: Subscription)
    requires key !in rest
    ensures table[key := sub] + rest == table + rest[key := sub]
  {
  }

  lemma {:induction false} ResubscribeReplays(s: Client, subs: seq<Subscription>)
    requires s.conn.transport.Some? && s.conn.transport.value < s.conn.created
    requires DistinctKeys(subs) && TransportsBelow(s.wire, s.conn.created)
    ensures var t := s.conn.transport.value;
            Replay(Resubscribe(s, subs).wire, t) == Replay(s.wire, t) + Entries(subs)
    ensures TransportsBelow(Resubscribe(s, subs).wire, s.conn.created)
    decreases |subs|
  {
    if subs == [] {
    } else {
      var t := s.conn.transport.value;
      ReplaySnoc(s.wire, Sending(t, Subscribe(subs[0])), t);
      EntriesHaveKeys(subs[1..], Key(subs[0]));
      hide Key, Replay, Entries;
      UpdateThenMerge(Replay(s.wire, t), Entries(subs[1..]), Key(subs[0]), subs[0]);
      ResubscribeReplays(Emit(s, Subscribe(subs[0])), subs[1..]);
    }
  }

  /** Queued messages are not subscriptions, so the flush changes nothing the daemon keeps. */
  lemma {:induction false} FlushReplays(s: Client)
    requires TransportsBelow(s.wire, s.conn.created) && (s.conn.transport.Some? ==> s.conn.transport.value < s.conn.created)
    ensures forall t :: Replay(Flush(s).wire, t) == Replay(s.wire, t)
    ensures TransportsBelow(Flush(s).wire, s.conn.created)
    decreases |s.sends.queue|
  {
    if s.sends.queue == [] {
    } else {
      var h := FlushHead(s);
      if h.wire != s.wire {
        forall t
          ensures Replay(h.wire, t) == Replay(s.wire, t)
        {
          ReplaySnoc(s.wire, h.wire[|s.wire|], t);
        }
      }
      FlushReplays(h);
    }
  }

  lemma HandshakeAgrees(s: Client)
    requires ConnectionInv(s) && SubscriptionsInv(s) && s.conn.status == Connecting
    ensures Replay(Handshake(s).wire, s.conn.transport.value) == Entries(s.subs)
    ensures Handshake(s).subs == s.subs && TransportsBelow(Handshake(s).wire, s.conn.created)
  {
    hide Flush, Resubscribe, Replay, Entries, Key;
    var t := s.conn.transport.value;
    ReplaySnoc(s.wire, Sending(t, Welcome), t);
    var c := s.conn.(connectTimer := false, attempt := 0, status := Connected, errorInfo := NoInfo,
                     log := s.conn.log + [Handshaken]);
    var up := Emit(s.(conn := c, live := s.live.(heartbeatTimer := true)), Welcome);
    ResubscribeReplays(up, s.subs);
    FlushReplays(Resubscribe(up, s.subs));
  }

  /** A frame that is not a subscription changes no table. */
  lemma EmitReplays(s: Client, payload: Payload)
    requires ConnectionInv(s) && SubscriptionsInv(s)
    ensures TransportsBelow(Emit(s, payload).wire, s.conn.created)
    ensures s.conn.transport.Some? ==>
              var t := s.conn.transport.value;
              Replay(Emit(s, payload).wire, t) == Update(Replay(s.wire, t), payload)
  {
    if s.conn.transport.Some? {
      ReplaySnoc(s.wire, Sending(s.conn.transport.value, payload), s.conn.transport.value);
    }
  }

  /** The table and the map after the traffic of one callback, on an unchanged transport. */
  lemma CarryAgrees(s: Client, traffic: Traffic)
    requires ConnectionInv(s) && SubscriptionsInv(s) && Fitting(s, traffic)
    ensures var r := Carry(s, traffic);
            && DistinctKeys(r.subs)
            && TransportsBelow(r.wire, s.conn.created)
            && (s.conn.status == Connecting && !traffic.Shake? ==> Replay(r.wire, s.conn.transport.value) == map[])
            && (s.conn.status == Connected || traffic.Shake? ==> Replay(r.wire, s.conn.transport.value) == Entries(r.subs))
  {
    hide Replay, Entries, Key, Handshake, RejectQueue, FireSendTimer, Enlist, Delist;
    match traffic
    case Greet => EmitReplays(s, Hello);
    case Probing => EmitReplays(s, Ping);
    case Submit(_) => EmitReplays(s, Request(|s.sends.accepted|));
    case Alter(_, Subscribe(sub)) =>
      EnlistEntries(s.subs, sub);
      EnlistKeepsDistinct(s.subs, sub);
      EmitReplays(s, Subscribe(sub));
    case Alter(_, Unsubscribe(sub)) =>
      DelistEntries(s.subs, Key(sub));
      DelistKeepsDistinct(s.subs, Key(sub));
      EmitReplays(s, Unsubscribe(sub));
    case Shake(from) => HandshakeAgrees(from);
    case _ =>
  }

  lemma SubscriptionsInvStep(s: Client, e: Event)
    requires ConnectionInv(s) && SubscriptionsInv(s)
    ensures SubscriptionsInv(Step(s, e))
  {
    hide Step, Carry, Replay, Entries, Key;
    var traffic := StepSummary(s, e);
    CarryAgrees(s, traffic);
    if Step(s, e).conn.status == Connecting && s.conn.status != Connecting {
      QuietCarry(s, traffic);
      FreshTransportIsEmpty(s.wire, s.conn.created);
    }
  }

  lemma QuietCarry(s: Client, traffic: Traffic)
    requires traffic.Quiet?
    ensures Carry(s, traffic) == s
  {
  }

  lemma {:induction false} SubscriptionsInvRun(s: Client, events: seq<Event>)
    requires ConnectionInv(s) && SubscriptionsInv(s)
    ensures ConnectionInv(Run(s, events)) && SubscriptionsInv(Run(s, events))
  {
    hide Step, ConnectionInv, SubscriptionsInv;
    if events == [] {
    } else {
      var before := events[..|events| - 1];
      SubscriptionsInvRun(s, before);
      ConnectionInvStep(Run(s, before), events[|events| - 1]);
      SubscriptionsInvStep(Run(s, before), events[|events| - 1]);
    }
  }

  /** However calls, drops and handshakes interleave: while the client is connected, the daemon's
      table for the current transport is the client's subscription map, and before the handshake
      it is empty. */
  lemma SubscriptionsAgree(settings: Settings, enabled: bool, expected: Option<string>, events: seq<Event>)
    ensures var s := Run(NewClient(settings, enabled, expected), events);
            && (s.conn.status == Connected ==>
                  s.conn.transport.Some? && Replay(s.wire, s.conn.transport.value) == Entries(s.subs))
            && (s.conn.status == Connecting ==>
                  s.conn.transport.Some? && Replay(s.wire, s.conn.transport.value) == map[])
  {
    SubscriptionsInvRun(NewClient(settings, enabled, expected), events);
  }
}
