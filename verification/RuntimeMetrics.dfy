/**
 Rolling-window metrics of inbound traffic
 (packages/client/src/daemon-client-runtime-metrics.ts:57-233). What the maps add up to is said
 first, over values; the class then keeps handler timings in shared objects, as the program does.
 */
module RuntimeMetrics {
  import opened Sequences

  type Counts = map<string, int>

  datatype Tally = Tally(count: int, totalMs: real, maxMs: real)

  datatype Totals = Totals(
    messages: Counts,
    bytes: Counts,
    timings: map<string, Tally>,
    streams: Counts,
    agents: Counts,
    frames: Counts)

  const NOTHING := Totals(map[], map[], map[], map[], map[], map[])

  // ---------------------------------------------------------------- sums, key by key

  function Count(m: Counts, key: string): int {
    if key in m then m[key] else 0
  }

  function AddCounts(a: Counts, b: Counts): Counts {
    map key | key in a.Keys + b.Keys :: Count(a, key) + Count(b, key)
  }

  lemma AddCountsByKey(a: Counts, b: Counts)
    ensures AddCounts(a, b).Keys == a.Keys + b.Keys
    ensures forall key :: Count(AddCounts(a, b), key) == Count(a, key) + Count(b, key)
  {
  }

  function Max(a: real, b: real): real {
    if a < b then b else a
  }

  function AddTally(a: Tally, b: Tally): Tally {
    Tally(a.count + b.count, a.totalMs + b.totalMs, Max(a.maxMs, b.maxMs))
  }

  function Find(m: map<string, Tally>, key: string): Option<Tally> {
    if key in m then Some(m[key]) else None
  }

  function Join(a: Option<Tally>, b: Option<Tally>): Option<Tally> {
    if a.None? then b else if b.None? then a else Some(AddTally(a.value, b.value))
  }

  function AddTimings(a: map<string, Tally>, b: map<string, Tally>): map<string, Tally> {
    map key | key in a.Keys + b.Keys ::
      if key in a && key in b then AddTally(a[key], b[key]) else if key in a then a[key] else b[key]
  }

  lemma AddTimingsByKey(a: map<string, Tally>, b: map<string, Tally>)
    ensures forall key :: Find(AddTimings(a, b), key) == Join(Find(a, key), Find(b, key))
  {
  }

  function Add(a: Totals, b: Totals): Totals {
    Totals(
      AddCounts(a.messages, b.messages),
      AddCounts(a.bytes, b.bytes),
      AddTimings(a.timings, b.timings),
      AddCounts(a.streams, b.streams),
      AddCounts(a.agents, b.agents),
      AddCounts(a.frames, b.frames))
  }

  lemma SameCounts(a: Counts, b: Counts)
    requires a.Keys == b.Keys && forall key :: Count(a, key) == Count(b, key)
    ensures a == b
  {
    forall key | key in a
      ensures key in b && a[key] == b[key]
    {
      assert key in a.Keys && Count(a, key) == Count(b, key);
    }
  }

  lemma SameTimings(a: map<string, Tally>, b: map<string, Tally>)
    requires forall key :: Find(a, key) == Find(b, key)
    ensures a == b
  {
    forall key
      ensures key in a <==> key in b
      ensures key in a ==> a[key] == b[key]
    {
      assert Find(a, key) == Find(b, key);
    }
  }

  lemma AddCountsAssociates(a: Counts, b: Counts, c: Counts)
    ensures AddCounts(AddCounts(a, b), c) == AddCounts(a, AddCounts(b, c))
    ensures AddCounts(a, map[]) == a && AddCounts(map[], a) == a
  {
    assert forall key :: Count(map[], key) == 0;
    AddCountsByKey(a, b);
    AddCountsByKey(b, c);
    AddCountsByKey(AddCounts(a, b), c);
    AddCountsByKey(a, AddCounts(b, c));
    AddCountsByKey(a, map[]);
    AddCountsByKey(map[], a);
    hide Count, AddCounts;
    SameCounts(AddCounts(AddCounts(a, b), c), AddCounts(a, AddCounts(b, c)));
    SameCounts(AddCounts(a, map[]), a);
    SameCounts(AddCounts(map[], a), a);
  }

  lemma AddTimingsAssociates(a: map<string, Tally>, b: map<string, Tally>, c: map<string, Tally>)
    ensures AddTimings(AddTimings(a, b), c) == AddTimings(a, AddTimings(b, c))
    ensures AddTimings(a, map[]) == a && AddTimings(map[], a) == a
  {
    assert forall key :: Find(map[], key) == None;
    AddTimingsByKey(a, b);
    AddTimingsByKey(b, c);
    AddTimingsByKey(AddTimings(a, b), c);
    AddTimingsByKey(a, AddTimings(b, c));
    AddTimingsByKey(a, map[]);
    AddTimingsByKey(map[], a);
    hide Find, AddTimings;
    SameTimings(AddTimings(AddTimings(a, b), c), AddTimings(a, AddTimings(b, c)));
    SameTimings(AddTimings(a, map[]), a);
    SameTimings(AddTimings(map[], a), a);
  }

  lemma AddAssociates(a: Totals, b: Totals, c: Totals)
    ensures Add(Add(a, b), c) == Add(a, Add(b, c))
    ensures Add(a, NOTHING) == a && Add(NOTHING, a) == a
  {
    hide AddCounts, AddTimings;
    AddCountsAssociates(a.messages, b.messages, c.messages);
    AddCountsAssociates(a.bytes, b.bytes, c.bytes);
    AddTimingsAssociates(a.timings, b.timings, c.timings);
    AddCountsAssociates(a.streams, b.streams, c.streams);
    AddCountsAssociates(a.agents, b.agents, c.agents);
    AddCountsAssociates(a.frames, b.frames, c.frames);
  }

  // ---------------------------------------------------------------- what is recorded

  datatype StreamEvent = Timeline(item: string) | Event(name: string)

  datatype Record =
    | Message(name: string, bytes: int, handlerMs: real)
    | AgentStream(agent: string, event: StreamEvent)
    | BinaryFrame(kind: string, bytes: int, handlerMs: real)

  function EventKey(event: StreamEvent): string {
    if event.Timeline? then "timeline:" + event.item else event.name
  }

  function BinaryKey(kind: string): string {
    "binary:" + kind
  }

  /** What one record amounts to. */
  function Of(r: Record): Totals {
    match r
    case Message(name, bytes, ms) =>
      NOTHING.(messages := map[name := 1], bytes := map[name := bytes], timings := map[name := Tally(1, ms, ms)])
    case AgentStream(agent, event) =>
      NOTHING.(streams := map[EventKey(event) := 1], agents := map[agent := 1])
    case BinaryFrame(kind, bytes, ms) =>
      NOTHING.(frames := map[kind := 1], bytes := map[BinaryKey(kind) := bytes],
               timings := map[BinaryKey(kind) := Tally(1, ms, ms)])
  }

  /** What a history of records amounts to. */
  function Total(records: seq<Record>): Totals {
    if records == [] then NOTHING else Add(Of(records[0]), Total(records[1..]))
  }

  lemma {:induction false} TotalAppend(a: seq<Record>, b: seq<Record>)
    ensures Total(a + b) == Add(Total(a), Total(b))
  {
    hide Add, Of;
    if a == [] {
      assert a + b == b;
      AddAssociates(Total(b), NOTHING, NOTHING);
    } else {
      assert (a + b)[0] == a[0] && (a + b)[1..] == a[1..] + b;
      TotalAppend(a[1..], b);
      AddAssociates(Of(a[0]), Total(a[1..]), Total(b));
    }
  }

  lemma TotalSnoc(records: seq<Record>, r: Record)
    ensures Total(records + [r]) == Add(Total(records), Of(r))
  {
    hide Add, Of;
    TotalAppend(records, [r]);
    assert Total([r]) == Add(Of(r), Total([r][1..])) == Add(Of(r), NOTHING);
    AddAssociates(Of(r), NOTHING, NOTHING);
  }

  datatype Sample = Sample(bytes: int, ms: real)

  /** What a record adds under `key`, if anything. */
  function SampleOf(r: Record, key: string): seq<Sample> {
    match r
    case Message(name, bytes, ms) => if name == key then [Sample(bytes, ms)] else []
    case AgentStream(_, _) => []
    case BinaryFrame(kind, bytes, ms) => if "binary:" + kind == key then [Sample(bytes, ms)] else []
  }

  function Under(records: seq<Record>, key: string): seq<Sample> {
    if records == [] then [] else SampleOf(records[0], key) + Under(records[1..], key)
  }

  ghost function Milliseconds(samples: seq<Sample>): real {
    if samples == [] then 0.0 else samples[0].ms + Milliseconds(samples[1..])
  }

  ghost function Bytes(samples: seq<Sample>): int {
    if samples == [] then 0 else samples[0].bytes + Bytes(samples[1..])
  }

  ghost predicate IsMaximum(samples: seq<Sample>, ms: real) {
    && (exists i :: 0 <= i < |samples| && samples[i].ms == ms)
    && (forall i :: 0 <= i < |samples| ==> samples[i].ms <= ms)
  }

  /** A tally says how many samples there are, their time and the longest of it. */
  ghost predicate Tallies(samples: seq<Sample>, tally: Option<Tally>) {
    && (tally.None? <==> samples == [])
    && (tally.Some? ==>
          && tally.value.count == |samples|
          && tally.value.totalMs == Milliseconds(samples)
          && IsMaximum(samples, tally.value.maxMs))
  }

  /** Reads the totals back, key by key: how many records the key has, their bytes, their handler time
      and the longest of it; and a key is present exactly when it has a record. */
  lemma {:induction false} TotalByKey(records: seq<Record>, key: string)
    ensures Count(Total(records).bytes, key) == Bytes(Under(records, key))
    ensures Tallies(Under(records, key), Find(Total(records).timings, key))
  {
    if records == [] {
    } else {
      var r, rest := records[0], records[1..];
      TotalByKey(rest, key);
      OfByKey(r, key);
      hide Add, Of, Tallies, Bytes, SampleOf, Join;
      AddByKey(Of(r), Total(rest), key);
      if SampleOf(r, key) == [] {
        assert Under(records, key) == Under(rest, key);
      } else {
        ConsTallies(SampleOf(r, key)[0], Under(rest, key), Find(Total(rest).timings, key));
        assert Under(records, key) == [SampleOf(r, key)[0]] + Under(rest, key);
      }
      JoinNothing(Find(Total(rest).timings, key));
    }
  }

  datatype Kind = Messages | Frames | Streams | Agents

  function CountsOf(t: Totals, kind: Kind): Counts {
    match kind
    case Messages => t.messages
    case Frames => t.frames
    case Streams => t.streams
    case Agents => t.agents
  }

  /** Does a record count under this key? */
  ghost predicate Matches(r: Record, kind: Kind, key: string) {
    match kind
    case Messages => r.Message? && r.name == key
    case Frames => r.BinaryFrame? && r.kind == key
    case Streams =>
      r.AgentStream? && key == if r.event.Timeline? then "timeline:" + r.event.item else r.event.name
    case Agents => r.AgentStream? && r.agent == key
  }

  ghost function HowMany(records: seq<Record>, kind: Kind, key: string): nat {
    if records == [] then 0 else (if Matches(records[0], kind, key) then 1 else 0) + HowMany(records[1..], kind, key)
  }

  /** Each count is the number of records of its kind and key. */
  lemma {:induction false} CountsByKey(records: seq<Record>, kind: Kind, key: string)
    ensures Count(CountsOf(Total(records), kind), key) == HowMany(records, kind, key)
  {
    if records == [] {
    } else {
      CountsByKey(records[1..], kind, key);
      OneCountsByKey(records[0], Total(records[1..]), kind, key);
      hide Add, Of, Count, CountsOf;
    }
  }

  lemma OneCountsByKey(r: Record, rest: Totals, kind: Kind, key: string)
    ensures Count(CountsOf(Add(Of(r), rest), kind), key) ==
            (if Matches(r, kind, key) then 1 else 0) + Count(CountsOf(rest, kind), key)
  {
    assert Count(CountsOf(Of(r), kind), key) == if Matches(r, kind, key) then 1 else 0;
    AddCountsByKey(CountsOf(Of(r), kind), CountsOf(rest, kind));
    hide Of, AddCounts, AddTimings, Count, Matches;
  }

  lemma JoinNothing(t: Option<Tally>)
    ensures Join(None, t) == t
  {
  }

  lemma AddByKey(a: Totals, b: Totals, key: string)
    ensures Count(Add(a, b).bytes, key) == Count(a.bytes, key) + Count(b.bytes, key)
    ensures Find(Add(a, b).timings, key) == Join(Find(a.timings, key), Find(b.timings, key))
  {
    AddCountsByKey(a.bytes, b.bytes);
    AddTimingsByKey(a.timings, b.timings);
    hide AddCounts, AddTimings, Count, Find;
  }

  lemma OfByKey(r: Record, key: string)
    ensures |SampleOf(r, key)| <= 1
    ensures Count(Of(r).bytes, key) == if SampleOf(r, key) == [] then 0 else SampleOf(r, key)[0].bytes
    ensures Find(Of(r).timings, key) ==
            if SampleOf(r, key) == [] then None else Some(Tally(1, SampleOf(r, key)[0].ms, SampleOf(r, key)[0].ms))
  {
    hide EventKey;
  }

  lemma ConsTallies(x: Sample, samples: seq<Sample>, tally: Option<Tally>)
    requires Tallies(samples, tally)
    ensures Tallies([x] + samples, Join(Some(Tally(1, x.ms, x.ms)), tally))
    ensures Bytes([x] + samples) == x.bytes + Bytes(samples)
  {
    var all := [x] + samples;
    assert all[0] == x && all[1..] == samples;
    var ms := if tally.Some? then Max(x.ms, tally.value.maxMs) else x.ms;
    if tally.Some? && x.ms < ms {
      var i :| 0 <= i < |samples| && samples[i].ms == ms;
      assert all[i + 1].ms == ms;
    }
    forall j | 0 <= j < |all|
      ensures all[j].ms <= ms
    {
      assert j > 0 ==> all[j] == samples[j - 1];
    }
  }

  // ---------------------------------------------------------------- the rolling window

  datatype Bucket = Bucket(totals: Totals, endedAt: int)

  datatype Window = Window(current: Totals, buckets: seq<Bucket>)

  predicate Active(t: Totals) {
    |t.messages| > 0 || |t.frames| > 0
  }

  function Consume(w: Window, now: int): Window {
    if Active(w.current) then Window(NOTHING, w.buckets + [Bucket(w.current, now)]) else w
  }

  /** How many buckets at the front ended before the cutoff. */
  function Expired(buckets: seq<Bucket>, cutoff: int): (k: nat)
    ensures k <= |buckets|
    ensures forall i :: 0 <= i < k ==> buckets[i].endedAt < cutoff
    ensures k < |buckets| ==> buckets[k].endedAt >= cutoff
  {
    if buckets == [] || buckets[0].endedAt >= cutoff then 0 else 1 + Expired(buckets[1..], cutoff)
  }

  function Prune(buckets: seq<Bucket>, cutoff: int): seq<Bucket> {
    buckets[Expired(buckets, cutoff)..]
  }

  function Flushed(w: Window, now: int, windowMs: nat): Window {
    var consumed := Consume(w, now);
    consumed.(buckets := Prune(consumed.buckets, now - windowMs))
  }

  function SumOf(buckets: seq<Bucket>): Totals {
    if buckets == [] then NOTHING else Add(SumOf(buckets[..|buckets| - 1]), buckets[|buckets| - 1].totals)
  }

  datatype Action = Recorded(r: Record) | Flush(now: int)

  function Step(w: Window, a: Action, windowMs: nat): Window {
    match a
    case Recorded(r) => w.(current := Add(w.current, Of(r)))
    case Flush(now) => Flushed(w, now, windowMs)
  }

  function Play(w: Window, actions: seq<Action>, windowMs: nat): Window {
    if actions == [] then w
    else Step(Play(w, actions[..|actions| - 1], windowMs), actions[|actions| - 1], windowMs)
  }

  const INITIAL := Window(NOTHING, [])

  // ---------------------------------------------------------------- where every record is

  /** Everything recorded, in order. */
  ghost function History(actions: seq<Action>): seq<Record> {
    if actions == [] then []
    else
      var last := actions[|actions| - 1];
      History(actions[..|actions| - 1]) + if last.Recorded? then [last.r] else []
  }

  /** Where the records are: in a pruned bucket, in a retained one, or in the current maps. */
  datatype Ledger = Ledger(gone: seq<Bucket>, parts: seq<seq<Record>>, rest: seq<Record>)

  ghost predicate Hold(buckets: seq<Bucket>, parts: seq<seq<Record>>) {
    |buckets| == |parts| && forall i :: 0 <= i < |buckets| ==> buckets[i].totals == Total(parts[i])
  }

  ghost predicate Accounts(ledger: Ledger, w: Window, history: seq<Record>) {
    && history == Flatten(ledger.parts) + ledger.rest
    && Hold(ledger.gone + w.buckets, ledger.parts)
    && w.current == Total(ledger.rest)
  }

  /** The clock never goes back. */
  ghost predicate Monotone(actions: seq<Action>) {
    forall i, j :: 0 <= i <= j < |actions| && actions[i].Flush? && actions[j].Flush? ==> actions[i].now <= actions[j].now
  }

  ghost function LastFlush(actions: seq<Action>): Option<int> {
    if actions == [] then None
    else if actions[|actions| - 1].Flush? then Some(actions[|actions| - 1].now)
    else LastFlush(actions[..|actions| - 1])
  }

  /** Retained buckets ended within the window before the last flush, pruned ones before it. */
  ghost predicate InWindow(gone: seq<Bucket>, buckets: seq<Bucket>, last: Option<int>, windowMs: nat) {
    && (last.None? ==> buckets == [] && gone == [])
    && (last.Some? ==>
          && EndedWithin(buckets, last.value - windowMs, last.value)
          && EndedBefore(gone, last.value - windowMs))
    && InOrder(buckets)
  }

  ghost predicate EndedWithin(buckets: seq<Bucket>, from: int, to: int) {
    forall i :: 0 <= i < |buckets| ==> from <= buckets[i].endedAt <= to
  }

  ghost predicate EndedBefore(buckets: seq<Bucket>, cutoff: int) {
    forall i :: 0 <= i < |buckets| ==> buckets[i].endedAt < cutoff
  }

  ghost predicate InOrder(buckets: seq<Bucket>) {
    forall i, j :: 0 <= i <= j < |buckets| ==> buckets[i].endedAt <= buckets[j].endedAt
  }

  lemma RecordKeeps(ledger: Ledger, w: Window, history: seq<Record>, r: Record) returns (next: Ledger)
    requires Accounts(ledger, w, history)
    ensures next == ledger.(rest := ledger.rest + [r])
    ensures Accounts(next, w.(current := Add(w.current, Of(r))), history + [r])
  {
    hide Add, Of, Total, Hold, Flatten;
    next := ledger.(rest := ledger.rest + [r]);
    TotalSnoc(ledger.rest, r);
    assert Flatten(ledger.parts) + ledger.rest + [r] == Flatten(ledger.parts) + next.rest;
  }

  lemma ConsumeKeeps(ledger: Ledger, w: Window, history: seq<Record>, now: int) returns (next: Ledger)
    requires Accounts(ledger, w, history)
    ensures Accounts(next, Consume(w, now), history)
    ensures next.gone == ledger.gone
  {
    next := ledger;
    assert Total([]) == NOTHING;
    hide Add, Of, Total, Active, Flatten, Hold;
    if Active(w.current) {
      next := ledger.(parts := ledger.parts + [ledger.rest], rest := []);
      FlattenSnoc(ledger.parts, ledger.rest);
      HoldSnoc(ledger.gone + w.buckets, ledger.parts, Bucket(w.current, now), ledger.rest);
      AppendAssociates(ledger.gone, w.buckets, [Bucket(w.current, now)]);
      AppendAssociates(Flatten(ledger.parts), ledger.rest, []);
    }
  }

  lemma AppendAssociates<T>(a: seq<T>, b: seq<T>, c: seq<T>)
    ensures a + (b + c) == (a + b) + c && c + [] == c && a + [] == a
  {
  }

  lemma HoldSnoc(buckets: seq<Bucket>, parts: seq<seq<Record>>, bucket: Bucket, part: seq<Record>)
    requires Hold(buckets, parts) && bucket.totals == Total(part)
    ensures Hold(buckets + [bucket], parts + [part])
  {
    hide Total;
    var b, p := buckets + [bucket], parts + [part];
    forall i | 0 <= i < |b|
      ensures b[i].totals == Total(p[i])
    {
      if i < |buckets| {
        assert b[i] == buckets[i] && p[i] == parts[i];
      }
    }
  }

  lemma PruneKeeps(ledger: Ledger, w: Window, history: seq<Record>, cutoff: int) returns (next: Ledger)
    requires Accounts(ledger, w, history)
    ensures Accounts(next, w.(buckets := Prune(w.buckets, cutoff)), history)
    ensures next.gone == ledger.gone + w.buckets[..Expired(w.buckets, cutoff)]
  {
    hide Total, Hold, Flatten, Expired;
    var k := Expired(w.buckets, cutoff);
    next := ledger.(gone := ledger.gone + w.buckets[..k]);
    SplitAt(ledger.gone, w.buckets, k);
  }

  lemma SplitAt<T>(front: seq<T>, s: seq<T>, k: nat)
    requires k <= |s|
    ensures (front + s[..k]) + s[k..] == front + s
  {
  }

  /** Over every run, every record is in exactly one place: the history is, in order, the records of the
      pruned buckets, of the retained buckets and of the current maps, and each bucket and the
      current maps hold exactly the totals of theirs. With a clock that never goes back, the
      retained buckets are exactly those that ended within the window before the last flush. */
  lemma {:induction false} EveryRecordIsInOnePlace(actions: seq<Action>, windowMs: nat) returns (ledger: Ledger)
    ensures Accounts(ledger, Play(INITIAL, actions, windowMs), History(actions))
    ensures Monotone(actions) ==>
              InWindow(ledger.gone, Play(INITIAL, actions, windowMs).buckets, LastFlush(actions), windowMs)
  {
    if actions == [] {
      return Ledger([], [], []);
    }
    hide Accounts, InWindow, Monotone, Consume, Add, Of, Prune;
    var before, last := actions[..|actions| - 1], actions[|actions| - 1];
    var w, history := Play(INITIAL, before, windowMs), History(before);
    ledger := EveryRecordIsInOnePlace(before, windowMs);
    assert Monotone(actions) ==> Monotone(before) by { MonotonePrefix(actions); }
    if last.Recorded? {
      ledger := RecordKeeps(ledger, w, history, last.r);
    } else {
      var gone := ledger.gone;
      ledger := ConsumeKeeps(ledger, w, history, last.now);
      ledger := PruneKeeps(ledger, Consume(w, last.now), history, last.now - windowMs);
      assert history + [] == history;
      if Monotone(actions) {
        LastFlushIsEarlier(actions);
        FlushedInWindow(gone, w, LastFlush(before), last.now, windowMs);
      }
    }
  }

  lemma MonotonePrefix(actions: seq<Action>)
    requires actions != []
    ensures Monotone(actions) ==> Monotone(actions[..|actions| - 1])
  {
  }

  lemma LastFlushIsEarlier(actions: seq<Action>)
    requires Monotone(actions) && actions != [] && actions[|actions| - 1].Flush?
    ensures var before := LastFlush(actions[..|actions| - 1]);
            before.Some? ==> before.value <= actions[|actions| - 1].now
  {
    if LastFlush(actions[..|actions| - 1]).Some? {
      var i := LastFlushAt(actions[..|actions| - 1]);
    }
  }

  lemma {:induction false} LastFlushAt(actions: seq<Action>) returns (i: nat)
    requires LastFlush(actions).Some?
    ensures i < |actions| && actions[i].Flush? && LastFlush(actions) == Some(actions[i].now)
  {
    if actions[|actions| - 1].Flush? {
      i := |actions| - 1;
    } else {
      i := LastFlushAt(actions[..|actions| - 1]);
    }
  }

  lemma FlushedInWindow(gone: seq<Bucket>, w: Window, before: Option<int>, now: int, windowMs: nat)
    requires InWindow(gone, w.buckets, before, windowMs) && (before.Some? ==> before.value <= now)
    ensures var consumed := Consume(w, now).buckets;
            InWindow(gone + consumed[..Expired(consumed, now - windowMs)], Flushed(w, now, windowMs).buckets, Some(now), windowMs)
  {
    hide Active, Expired, InOrder, EndedWithin, EndedBefore, Prune;
    ConsumedInOrder(gone, w, before, now, windowMs);
    var consumed := Consume(w, now).buckets;
    hide Consume;
    PruneInOrder(consumed, now - windowMs, now);
    ExpiredEndedBefore(gone, consumed, before, now, windowMs);
  }

  lemma ExpiredEndedBefore(gone: seq<Bucket>, consumed: seq<Bucket>, before: Option<int>, now: int, windowMs: nat)
    requires before.Some? ==> before.value <= now && EndedBefore(gone, before.value - windowMs)
    requires before.None? ==> gone == []
    ensures EndedBefore(gone + consumed[..Expired(consumed, now - windowMs)], now - windowMs)
  {
    hide Expired;
    var k := Expired(consumed, now - windowMs);
    var all := gone + consumed[..k];
    forall i | 0 <= i < |all|
      ensures all[i].endedAt < now - windowMs
    {
      assert all[i] == if i < |gone| then gone[i] else consumed[i - |gone|];
    }
  }

  lemma ConsumedInOrder(gone: seq<Bucket>, w: Window, before: Option<int>, now: int, windowMs: nat)
    requires InWindow(gone, w.buckets, before, windowMs) && (before.Some? ==> before.value <= now)
    ensures InOrder(Consume(w, now).buckets)
    ensures EndedBefore(Consume(w, now).buckets, now + 1)
  {
    hide Active;
    var consumed := Consume(w, now).buckets;
    forall i | 0 <= i < |consumed|
      ensures consumed[i].endedAt <= now
    {
      if i < |w.buckets| {
        assert consumed[i] == w.buckets[i];
      }
    }
    forall i, j | 0 <= i <= j < |consumed|
      ensures consumed[i].endedAt <= consumed[j].endedAt
    {
      if j < |w.buckets| {
        assert consumed[i] == w.buckets[i] && consumed[j] == w.buckets[j];
      }
    }
  }

  lemma PruneInOrder(buckets: seq<Bucket>, cutoff: int, now: int)
    requires InOrder(buckets) && EndedBefore(buckets, now + 1)
    ensures InOrder(Prune(buckets, cutoff))
    ensures EndedWithin(Prune(buckets, cutoff), cutoff, now)
  {
    hide Expired;
    var k := Expired(buckets, cutoff);
    var kept := Prune(buckets, cutoff);
    forall i | 0 <= i < |kept|
      ensures cutoff <= kept[i].endedAt <= now
    {
      assert kept[i] == buckets[k + i] && buckets[k].endedAt <= buckets[k + i].endedAt;
    }
    forall i, j | 0 <= i <= j < |kept|
      ensures kept[i].endedAt <= kept[j].endedAt
    {
      assert kept[i] == buckets[k + i] && kept[j] == buckets[k + j];
    }
  }

  /** A flush moves the current maps into a bucket of its own time exactly when a message or a binary
      frame was recorded since the last one that did; agent-stream records alone stay where they are. */
  lemma FlushMovesExactly(records: seq<Record>, buckets: seq<Bucket>, now: int, windowMs: nat)
    requires buckets != [] ==> buckets[|buckets| - 1].endedAt <= now
    ensures var w := Step(Window(Total(records), buckets), Flush(now), windowMs);
            if HasTraffic(records)
            then w.current == NOTHING && w.buckets != [] && w.buckets[|w.buckets| - 1] == Bucket(Total(records), now)
            else w.current == Total(records) && |w.buckets| <= |buckets|
  {
    ActiveExactly(records);
    var consumed := Consume(Window(Total(records), buckets), now).buckets;
    var k := Expired(consumed, now - windowMs);
    hide Total, Active, Expired, HasTraffic;
    if HasTraffic(records) {
      assert consumed[|consumed| - 1] == Bucket(Total(records), now);
    }
  }

  /** Is there a record of a message or a binary frame? */
  ghost predicate HasTraffic(records: seq<Record>) {
    exists i :: 0 <= i < |records| && !records[i].AgentStream?
  }

  lemma TrafficFirst(records: seq<Record>)
    requires records != []
    ensures HasTraffic(records) <==> !records[0].AgentStream? || HasTraffic(records[1..])
  {
    var rest := records[1..];
    if HasTraffic(records) && records[0].AgentStream? {
      var i :| 0 <= i < |records| && !records[i].AgentStream?;
      assert rest[i - 1] == records[i];
    }
    if HasTraffic(rest) {
      var i :| 0 <= i < |rest| && !rest[i].AgentStream?;
      assert records[i + 1] == rest[i];
    }
  }

  lemma {:induction false} ActiveExactly(records: seq<Record>)
    ensures Active(Total(records)) <==> HasTraffic(records)
  {
    if records == [] {
      assert Total(records) == NOTHING;
    } else {
      hide Active, Add, Of, HasTraffic;
      ActiveExactly(records[1..]);
      ActiveSum(records[0], Total(records[1..]));
      TrafficFirst(records);
    }
  }

  lemma ActiveSum(r: Record, rest: Totals)
    ensures Active(Add(Of(r), rest)) <==> !r.AgentStream? || Active(rest)
  {
    var a, sum := Of(r), Add(Of(r), rest);
    AddCountsByKey(a.messages, rest.messages);
    AddCountsByKey(a.frames, rest.frames);
    hide AddCounts, AddTimings, Count;
    assert r.Message? ==> r.name in a.messages.Keys;
    assert r.BinaryFrame? ==> r.kind in a.frames.Keys;
    NonEmpty(sum.messages);
    NonEmpty(sum.frames);
    NonEmpty(rest.messages);
    NonEmpty(rest.frames);
  }

  lemma NonEmpty(m: Counts)
    ensures |m| > 0 <==> exists key :: key in m.Keys
  {
    if |m| > 0 {
      assert |m.Keys| > 0;
    }
    if key :| key in m.Keys {
      assert |m.Keys| > 0;
    }
  }

  /** What a flush reports is the total of exactly the records of the retained buckets. */
  lemma {:induction false} AggregateIsTheWindow(buckets: seq<Bucket>, retained: seq<seq<Record>>)
    requires Hold(buckets, retained)
    ensures SumOf(buckets) == Total(Flatten(retained))
  {
    hide Add;
    if buckets == [] {
    } else {
      var n := |buckets| - 1;
      AggregateIsTheWindow(buckets[..n], retained[..n]);
      assert retained == retained[..n] + [retained[n]];
      FlattenSnoc(retained[..n], retained[n]);
      TotalAppend(Flatten(retained[..n]), retained[n]);
    }
  }
}
