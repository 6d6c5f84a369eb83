/**
 `DaemonClientRuntimeMetrics` as it is written (packages/client/src/daemon-client-runtime-metrics.ts):
 maps updated in place, handler timings in mutable objects that must not be shared between the
 current maps, the buckets and an aggregate.
 */
module RuntimeMetricsRecorder {
  import opened Sequences
  import opened RuntimeMetrics

  class Timing {
    var count: int
    var totalMs: real
    var maxMs: real

    constructor (t: Tally)
      ensures Value() == t
    {
      count, totalMs, maxMs := t.count, t.totalMs, t.maxMs;
    }

    function Value(): Tally
      reads this
    {
      Tally(count, totalMs, maxMs)
    }

    method Include(t: Tally)
      modifies this
      ensures Value() == AddTally(old(Value()), t)
    {
      count := count + t.count;
      totalMs := totalMs + t.totalMs;
      maxMs := if maxMs < t.maxMs then t.maxMs else maxMs;
    }
  }

  type Timings = map<string, Timing>

  /** What the timing objects say at present. */
  ghost function Read(m: Timings): map<string, Tally>
    reads m.Values
  {
    map key | key in m :: m[key].Value()
  }

  ghost predicate Unshared(m: Timings) {
    forall a, b :: a in m && b in m && m[a] == m[b] ==> a == b
  }

  // ---------------------------------------------------------------- the merge helpers

  method IncrementCount(m: Counts, key: string, amount: int) returns (r: Counts)
    ensures r == AddCounts(m, map[key := amount])
  {
    r := m[key := Count(m, key) + amount];
    AddCountsByKey(m, map[key := amount]);
    SameCounts(r, AddCounts(m, map[key := amount]));
  }

  method MergeCounts(target: Counts, source: Counts) returns (r: Counts)
    ensures r == AddCounts(target, source)
  {
    r := target;
    var left := source.Keys;
    while left != {}
      invariant left <= source.Keys
      invariant r.Keys == target.Keys + (source.Keys - left)
      invariant forall key :: Count(r, key) == Count(target, key) + if key in left then 0 else Count(source, key)
      decreases left
    {
      var key :| key in left;
      r := r[key := Count(r, key) + source[key]];
      left := left - {key};
    }
    AddCountsByKey(target, source);
    SameCounts(r, AddCounts(target, source));
  }

  ghost predicate Included(before: map<string, Tally>, after: map<string, Tally>, key: string, t: Tally) {
    forall k :: Find(after, k) == if k == key then Join(Find(before, k), Some(t)) else Find(before, k)
  }

  /** `r` has the objects of `m`, and new ones. */
  twostate predicate Grown(m: Timings, new r: Timings) {
    forall k :: k in r ==> (k in m && r[k] == m[k]) || fresh(r[k])
  }

  ghost predicate Apart(m: Timings, objects: set<Timing>) {
    forall k :: k in m ==> m[k] !in objects
  }

  /** Adds to the timing of one key, in the object that is there or in a new one. */
  method IncludeTiming(m: Timings, key: string, t: Tally) returns (r: Timings)
    requires Unshared(m)
    modifies if key in m then {m[key]} else {}
    ensures Unshared(r) && Grown(m, r)
    ensures Included(old(Read(m)), Read(r), key, t)
  {
    r := m;
    if key in m {
      m[key].Include(t);
    } else {
      var timing := new Timing(t);
      r := m[key := timing];
    }
  }

  /** A deep copy: new objects that say the same. */
  method CloneTimings(m: Timings) returns (r: Timings)
    ensures Unshared(r) && Read(r) == Read(m) && forall key :: key in r ==> fresh(r[key])
  {
    r := map[];
    var left := m.Keys;
    while left != {}
      invariant left <= m.Keys && r.Keys == m.Keys - left
      invariant Unshared(r) && forall key :: key in r ==> fresh(r[key])
      invariant forall key :: key in r ==> r[key].Value() == m[key].Value()
      decreases left
    {
      var key :| key in left;
      var timing := new Timing(m[key].Value());
      r := r[key := timing];
      left := left - {key};
    }
    assert left == {};
  }

  ghost predicate MergedBut(before: map<string, Tally>, source: map<string, Tally>, left: set<string>, now: map<string, Tally>) {
    forall k :: Find(now, k) == Join(Find(before, k), if k in left then None else Find(source, k))
  }

  lemma MergeOne(before: map<string, Tally>, source: map<string, Tally>, left: set<string>, now: map<string, Tally>,
                 key: string, next: map<string, Tally>)
    requires MergedBut(before, source, left, now) && key in left && key in source
    requires Included(now, next, key, source[key])
    ensures MergedBut(before, source, left - {key}, next)
  {
    assert Find(source, key) == Some(source[key]);
    hide Find;
    forall k
      ensures Find(next, k) == Join(Find(before, k), if k in left - {key} then None else Find(source, k))
    {
      assert Find(now, k) == Join(Find(before, k), if k in left then None else Find(source, k));
    }
  }

  lemma NothingMerged(before: map<string, Tally>, source: map<string, Tally>)
    ensures MergedBut(before, source, source.Keys, before)
  {
  }

  lemma MergedAll(before: map<string, Tally>, source: map<string, Tally>, now: map<string, Tally>)
    requires MergedBut(before, source, {}, now)
    ensures now == AddTimings(before, source)
  {
    hide Find, Join;
    AddTimingsByKey(before, source);
    SameTimings(now, AddTimings(before, source));
  }

  /** `incrementHandlerTiming`: one more handler run under `key`. */
  method IncrementTiming(m: Timings, key: string, handlerMs: real) returns (r: Timings)
    requires Unshared(m)
    modifies if key in m then {m[key]} else {}
    ensures Unshared(r) && Grown(m, r)
    ensures Read(r) == AddTimings(old(Read(m)), map[key := Tally(1, handlerMs, handlerMs)])
  {
    ghost var before := Read(m);
    r := IncludeTiming(m, key, Tally(1, handlerMs, handlerMs));
    IncludedIsAdded(before, Read(r), key, Tally(1, handlerMs, handlerMs));
  }

  lemma IncludedIsAdded(before: map<string, Tally>, after: map<string, Tally>, key: string, t: Tally)
    requires Included(before, after, key, t)
    ensures after == AddTimings(before, map[key := t])
  {
    var one := map[key := t];
    assert forall k :: Find(one, k) == if k == key then Some(t) else None;
    hide Find;
    AddTimingsByKey(before, one);
    SameTimings(after, AddTimings(before, one));
  }

  lemma ReadAt(m: Timings, key: string)
    requires key in m
    ensures key in Read(m) && Read(m)[key] == m[key].Value()
  {
  }

  /** One round of the merge. */
  method IncludeFrom(m: Timings, source: Timings, key: string) returns (r: Timings)
    requires Unshared(m) && Apart(m, source.Values) && key in source
    modifies if key in m then {m[key]} else {}
    ensures Unshared(r) && Grown(m, r) && Apart(r, source.Values)
    ensures Read(source) == old(Read(source))
    ensures key in Read(source) && Included(old(Read(m)), Read(r), key, Read(source)[key])
  {
    hide Included, Unshared, Read;
    ghost var theirs := source.Values;
    ReadAt(source, key);
    r := IncludeTiming(m, key, source[key].Value());
    assert forall k :: k in r ==> r[k] !in theirs;
  }

  /** Adds every timing of `source` into `target`, and leaves the objects of `source` as they are. */
  method MergeTimings(target: Timings, source: Timings) returns (r: Timings)
    requires Unshared(target) && Apart(target, source.Values)
    modifies target.Values
    ensures Unshared(r) && Grown(target, r)
    ensures Read(r) == AddTimings(old(Read(target)), old(Read(source)))
    ensures Read(source) == old(Read(source))
  {
    r := target;
    assert MergedBut(Read(target), Read(source), source.Keys, Read(r)) by { NothingMerged(Read(target), Read(source)); }
    hide MergedBut, Included, Unshared, AddTimings, Read, Apart;
    ghost var before, added := Read(target), Read(source);
    var left := source.Keys;
    while left != {}
      invariant left <= source.Keys
      invariant Unshared(r) && Grown(target, r) && Apart(r, source.Values)
      invariant Read(source) == added && MergedBut(before, added, left, Read(r))
      decreases left
    {
      var key :| key in left;
      ghost var now := Read(r);
      r := IncludeFrom(r, source, key);
      MergeOne(before, added, left, now, key, Read(r));
      left := left - {key};
    }
    MergedAll(before, added, Read(r));
  }

  // ---------------------------------------------------------------- the recorder

  /** A bucket, or an aggregate, with its timing objects. */
  datatype Maps = Maps(
    messages: Counts,
    bytes: Counts,
    timings: Timings,
    streams: Counts,
    agents: Counts,
    frames: Counts,
    endedAt: int)

  ghost function TotalsOf(m: Maps): Totals
    reads m.timings.Values
  {
    Totals(m.messages, m.bytes, Read(m.timings), m.streams, m.agents, m.frames)
  }

  ghost function Objects(buckets: seq<Maps>): set<Timing> {
    set i, key | 0 <= i < |buckets| && key in buckets[i].timings :: buckets[i].timings[key]
  }

  ghost function BucketsOf(buckets: seq<Maps>): (r: seq<Bucket>)
    reads Objects(buckets)
    ensures |r| == |buckets|
    ensures forall i {:trigger r[i]} :: 0 <= i < |r| ==> r[i] == Bucket(TotalsOf(buckets[i]), buckets[i].endedAt)
  {
    seq(|buckets|, i requires 0 <= i < |buckets| reads Objects(buckets) => Bucket(TotalsOf(buckets[i]), buckets[i].endedAt))
  }

  datatype Report = Report(windowMs: int, bucketCount: nat, final: bool, aggregate: Maps)

  const DEFAULT_ROLLING_WINDOW_MS: nat := 60_000

  function Least(a: int, b: int): int {
    if a < b then a else b
  }

  function Greatest(a: int, b: int): int {
    if a < b then b else a
  }

  class DaemonClientRuntimeMetrics {
    const startedAt: int
    const windowMs: nat
    var buckets: seq<Maps>
    var current: Maps

    ghost predicate Valid()
      reads this
    {
      Unshared(current.timings) && Apart(current.timings, Objects(buckets))
    }

    ghost function State(): Window
      reads this, current.timings.Values, Objects(buckets)
    {
      Window(TotalsOf(current), BucketsOf(buckets))
    }

    constructor (now: int, window: Option<nat>)
      ensures Valid() && State() == INITIAL
      ensures windowMs == if window.Some? && window.value > 0 then window.value else 60_000
    {
      startedAt := now;
      windowMs := if window.Some? && window.value > 0 then window.value else DEFAULT_ROLLING_WINDOW_MS;
      buckets := [];
      current := Maps(map[], map[], map[], map[], map[], map[], now);
    }

    /** One more handler run in the current maps; the buckets have none of the objects touched. */
    method TimeHandler(key: string, handlerMs: real)
      requires Valid()
      modifies this`current, current.timings.Values
      ensures Valid() && buckets == old(buckets) && BucketsOf(buckets) == old(BucketsOf(buckets))
      ensures current == old(current).(timings := current.timings)
      ensures Read(current.timings) == AddTimings(old(Read(current.timings)), map[key := Tally(1, handlerMs, handlerMs)])
    {
      hide AddTimings, Unshared, BucketsOf, Read;
      ghost var objects := Objects(buckets);
      assert key in current.timings ==> current.timings[key] !in objects;
      var timings := IncrementTiming(current.timings, key, handlerMs);
      assert forall k :: k in timings ==> timings[k] !in objects;
      current := current.(timings := timings);
    }

    method RecordMessage(name: string, bytes: int, handlerMs: real)
      requires Valid()
      modifies this`current, current.timings.Values
      ensures Valid() && State() == Step(old(State()), Recorded(Message(name, bytes, handlerMs)), windowMs)
      ensures buckets == old(buckets)
    {
      AddMessage(State().current, name, bytes, handlerMs);
      RecordStep(State(), Message(name, bytes, handlerMs), windowMs);
      hide AddCounts, AddTimings, Add, Of, Unshared, BucketsOf, Step, Read, Objects;
      var messages := IncrementCount(current.messages, name, 1);
      var sizes := IncrementCount(current.bytes, name, bytes);
      current := current.(messages := messages, bytes := sizes);
      TimeHandler(name, handlerMs);
    }

    method RecordAgentStream(agent: string, event: StreamEvent)
      requires Valid()
      modifies this`current
      ensures Valid() && State() == Step(old(State()), Recorded(AgentStream(agent, event)), windowMs)
      ensures buckets == old(buckets)
    {
      ghost var before := State();
      AddAgentStream(before.current, agent, event);
      RecordStep(before, AgentStream(agent, event), windowMs);
      hide AddCounts, AddTimings, Add, Of, Unshared, BucketsOf, Step, Read;
      var name := if event.Timeline? then "timeline:" + event.item else event.name;
      var streams := IncrementCount(current.streams, name, 1);
      var agents := IncrementCount(current.agents, agent, 1);
      current := current.(streams := streams, agents := agents);
    }

    method RecordBinaryFrame(kind: string, bytes: int, handlerMs: real)
      requires Valid()
      modifies this`current, current.timings.Values
      ensures Valid() && State() == Step(old(State()), Recorded(BinaryFrame(kind, bytes, handlerMs)), windowMs)
      ensures buckets == old(buckets)
    {
      AddBinaryFrame(State().current, kind, bytes, handlerMs);
      RecordStep(State(), BinaryFrame(kind, bytes, handlerMs), windowMs);
      hide AddCounts, AddTimings, Add, Of, Unshared, BucketsOf, Step, Read, Objects, BinaryKey;
      var frames := IncrementCount(current.frames, kind, 1);
      var sizes := IncrementCount(current.bytes, BinaryKey(kind), bytes);
      current := current.(frames := frames, bytes := sizes);
      TimeHandler(BinaryKey(kind), handlerMs);
    }

    /** The current maps as a bucket with timing objects of its own, if there was activity to speak of. */
    method ConsumeCurrentBucket(now: int) returns (bucket: Option<Maps>)
      requires Valid()
      modifies this`current
      ensures Valid() && buckets == old(buckets)
      ensures bucket.Some? <==> Active(old(TotalsOf(current)))
      ensures bucket.None? ==> current == old(current)
      ensures bucket.Some? ==>
                && bucket.value.endedAt == now && TotalsOf(bucket.value) == old(TotalsOf(current))
                && (forall k :: k in bucket.value.timings ==> fresh(bucket.value.timings[k]))
                && TotalsOf(current) == NOTHING && current.timings == map[]
    {
      if |current.messages| == 0 && |current.frames| == 0 {
        return None;
      }
      var timings := CloneTimings(current.timings);
      bucket := Some(current.(timings := timings, endedAt := now));
      current := Maps(map[], map[], map[], map[], map[], map[], now);
    }

    method PruneBuckets(now: int)
      requires Valid()
      modifies this`buckets
      ensures Valid() && BucketsOf(buckets) == Prune(old(BucketsOf(buckets)), now - windowMs)
    {
      hide BucketsOf, Prune, Objects;
      var cutoff := now - windowMs;
      while |buckets| > 0 && buckets[0].endedAt < cutoff
        invariant Valid()
        invariant Prune(BucketsOf(buckets), cutoff) == Prune(old(BucketsOf(buckets)), cutoff)
        decreases |buckets|
      {
        PruneFirst(BucketsOf(buckets), cutoff);
        TailBuckets(buckets);
        buckets := buckets[1..];
      }
      PruneFirst(BucketsOf(buckets), cutoff);
    }

    /** One round of the aggregation, into objects that no bucket has. */
    method AddBucket(aggregate: Maps, i: nat) returns (r: Maps)
      requires i < |buckets| && Unshared(aggregate.timings) && Apart(aggregate.timings, Objects(buckets))
      modifies aggregate.timings.Values
      ensures Unshared(r.timings) && Grown(aggregate.timings, r.timings) && Apart(r.timings, Objects(buckets))
      ensures BucketsOf(buckets) == old(BucketsOf(buckets))
      ensures TotalsOf(r) == Add(old(TotalsOf(aggregate)), BucketsOf(buckets)[i].totals)
    {
      hide BucketsOf, AddCounts, AddTimings, Add, Unshared, Read;
      ghost var objects := Objects(buckets);
      BucketObjects(buckets, i);
      r := MergeBucket(aggregate, buckets[i]);
      assert forall k :: k in r.timings ==> r.timings[k] !in objects;
    }

    /** The sum of the buckets, in timing objects of its own: no bucket is altered. */
    method AggregateBuckets(now: int) returns (aggregate: Maps)
      requires Valid()
      ensures TotalsOf(aggregate) == SumOf(BucketsOf(buckets))
      ensures Unshared(aggregate.timings) && forall k :: k in aggregate.timings ==> fresh(aggregate.timings[k])
    {
      aggregate := Maps(map[], map[], map[], map[], map[], map[], now);
      assert Unshared(aggregate.timings) && TotalsOf(aggregate) == NOTHING;
      hide BucketsOf, Add, Unshared, Objects, TotalsOf, SumOf;
      ghost var sums := BucketsOf(buckets);
      var i := 0;
      SumOfFirst(sums, 0);
      while i < |buckets|
        invariant 0 <= i <= |buckets| && BucketsOf(buckets) == sums
        invariant Unshared(aggregate.timings) && Apart(aggregate.timings, Objects(buckets))
        invariant forall k :: k in aggregate.timings ==> fresh(aggregate.timings[k])
        invariant TotalsOf(aggregate) == SumOf(sums[..i])
      {
        aggregate := AddBucket(aggregate, i);
        SumOfFirst(sums, i);
        i := i + 1;
      }
      SumOfAll(sums);
    }

    /** The first half of `flush`. */
    method RollOver(now: int)
      requires Valid()
      modifies this
      ensures Valid() && State() == Consume(old(State()), now)
    {
      hide BucketsOf, Unshared, Objects, Read, Active;
      ghost var before, objects := State(), Objects(buckets);
      var bucket := ConsumeCurrentBucket(now);
      assert BucketsOf(buckets) == before.buckets;
      if bucket.Some? {
        SnocBuckets(buckets, bucket.value);
        buckets := buckets + [bucket.value];
      }
    }

    /** `flush`: the window moves as `Flushed` says, and what is reported, if anything, is the sum of the
        buckets retained. */
    method Flush(now: int, final: bool) returns (report: Option<Report>)
      requires Valid()
      modifies this
      ensures Valid() && State() == Step(old(State()), RuntimeMetrics.Action.Flush(now), windowMs)
      ensures report.Some? <==> final || Active(SumOf(State().buckets))
      ensures report.Some? ==>
                && TotalsOf(report.value.aggregate) == SumOf(State().buckets)
                && report.value.bucketCount == |State().buckets|
                && report.value.windowMs == Least(windowMs, Greatest(0, now - startedAt))
                && report.value.final == final
    {
      hide BucketsOf, Unshared, Objects, Read, SumOf, Prune, Consume;
      RollOver(now);
      PruneBuckets(now);
      var aggregate := AggregateBuckets(now);
      if |aggregate.messages| == 0 && |aggregate.frames| == 0 && !final {
        return None;
      }
      report := Some(Report(Least(windowMs, Greatest(0, now - startedAt)), |buckets|, final, aggregate));
    }
  }

  /** `target` plus a bucket, whose own objects stay as they are. */
  method MergeBucket(target: Maps, bucket: Maps) returns (r: Maps)
    requires Unshared(target.timings) && Apart(target.timings, bucket.timings.Values)
    modifies target.timings.Values
    ensures Unshared(r.timings) && Grown(target.timings, r.timings)
    ensures TotalsOf(r) == Add(old(TotalsOf(target)), old(TotalsOf(bucket)))
  {
    hide AddCounts, AddTimings, Unshared, Read;
    var messages := MergeCounts(target.messages, bucket.messages);
    var bytes := MergeCounts(target.bytes, bucket.bytes);
    var timings := MergeTimings(target.timings, bucket.timings);
    var streams := MergeCounts(target.streams, bucket.streams);
    var agents := MergeCounts(target.agents, bucket.agents);
    var frames := MergeCounts(target.frames, bucket.frames);
    r := Maps(messages, bytes, timings, streams, agents, frames, target.endedAt);
  }

  lemma SumOfFirst(sums: seq<Bucket>, i: nat)
    requires i <= |sums|
    ensures SumOf(sums[..0]) == NOTHING
    ensures i < |sums| ==> SumOf(sums[..i + 1]) == Add(SumOf(sums[..i]), sums[i].totals)
  {
    hide Add;
    if i < |sums| {
      assert sums[..i + 1][..i] == sums[..i];
    }
  }

  lemma SumOfAll(sums: seq<Bucket>)
    ensures SumOf(sums[..|sums|]) == SumOf(sums)
  {
    assert sums[..|sums|] == sums;
  }

  lemma BucketObjects(buckets: seq<Maps>, i: nat)
    requires i < |buckets|
    ensures buckets[i].timings.Values <= Objects(buckets)
  {
  }

  lemma TailBuckets(buckets: seq<Maps>)
    requires buckets != []
    ensures BucketsOf(buckets[1..]) == BucketsOf(buckets)[1..] && Objects(buckets[1..]) <= Objects(buckets)
    ensures BucketsOf(buckets)[0].endedAt == buckets[0].endedAt
  {
    var rest := buckets[1..];
    forall o | o in Objects(rest)
      ensures o in Objects(buckets)
    {
      var i, key :| 0 <= i < |rest| && key in rest[i].timings && o == rest[i].timings[key];
      assert buckets[i + 1] == rest[i];
    }
  }

  lemma SnocBuckets(buckets: seq<Maps>, bucket: Maps)
    ensures BucketsOf(buckets + [bucket]) == BucketsOf(buckets) + [Bucket(TotalsOf(bucket), bucket.endedAt)]
    ensures Objects(buckets + [bucket]) == Objects(buckets) + bucket.timings.Values
  {
    var all := buckets + [bucket];
    forall o | o in Objects(buckets) + bucket.timings.Values
      ensures o in Objects(all)
    {
      if o in Objects(buckets) {
        var i, key :| 0 <= i < |buckets| && key in buckets[i].timings && o == buckets[i].timings[key];
        assert all[i] == buckets[i];
      } else {
        var key :| key in bucket.timings && o == bucket.timings[key];
        assert all[|buckets|] == bucket;
      }
    }
  }

  lemma PruneFirst(buckets: seq<Bucket>, cutoff: int)
    ensures Prune(buckets, cutoff) ==
            if buckets != [] && buckets[0].endedAt < cutoff then Prune(buckets[1..], cutoff) else buckets
  {
  }

  lemma RecordStep(w: Window, r: Record, windowMs: nat)
    ensures Step(w, Recorded(r), windowMs) == Window(Add(w.current, Of(r)), w.buckets)
  {
  }

  lemma AddMessage(t: Totals, name: string, bytes: int, ms: real)
    ensures Add(t, Of(Message(name, bytes, ms))) ==
            t.(messages := AddCounts(t.messages, map[name := 1]), bytes := AddCounts(t.bytes, map[name := bytes]),
               timings := AddTimings(t.timings, map[name := Tally(1, ms, ms)]))
  {
    hide AddCounts, AddTimings;
    AddNothing(t);
  }

  lemma AddAgentStream(t: Totals, agent: string, event: StreamEvent)
    ensures Add(t, Of(AgentStream(agent, event))) ==
            t.(streams := AddCounts(t.streams, map[EventKey(event) := 1]), agents := AddCounts(t.agents, map[agent := 1]))
  {
    hide AddCounts, AddTimings;
    AddNothing(t);
  }

  lemma AddBinaryFrame(t: Totals, kind: string, bytes: int, ms: real)
    ensures Add(t, Of(BinaryFrame(kind, bytes, ms))) ==
            t.(frames := AddCounts(t.frames, map[kind := 1]), bytes := AddCounts(t.bytes, map[BinaryKey(kind) := bytes]),
               timings := AddTimings(t.timings, map[BinaryKey(kind) := Tally(1, ms, ms)]))
  {
    hide AddCounts, AddTimings, BinaryKey;
    AddNothing(t);
  }

  lemma AddNothing(t: Totals)
    ensures AddCounts(t.messages, map[]) == t.messages && AddCounts(t.bytes, map[]) == t.bytes
    ensures AddCounts(t.streams, map[]) == t.streams && AddCounts(t.agents, map[]) == t.agents
    ensures AddCounts(t.frames, map[]) == t.frames && AddTimings(t.timings, map[]) == t.timings
  {
    hide AddCounts, AddTimings;
    AddAssociates(t, NOTHING, NOTHING);
  }
}
