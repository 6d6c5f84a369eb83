/** Binary file reads and uploads over one socket (packages/client/src/daemon-client.ts:1128-1136,
    5403-5412, 7196-7257): frames of many transfers interleave, and each must come out whole. */
module FileTransfers {
  import opened Arithmetic
  import opened Sequences

  /** `maxBytes` is 0 when the read has no budget. */
  datatype Transfer = Transfer(maxBytes: nat, size: nat, chunks: seq<seq<Byte>>)

  datatype Frame =
    | Begin(id: string, size: nat)
    | Chunk(id: string, payload: seq<Byte>)
    | End(id: string)

  /** A read is registered, a frame arrives, or the read's `finally` drops everything it left. */
  datatype Event =
    | StartRead(id: string, maxBytes: nat)
    | Arrive(frame: Frame)
    | FinishRead(id: string)

  datatype Transfers = Transfers(
    pending: map<string, nat>,
    active: map<string, Transfer>,
    completed: map<string, seq<Byte>>)

  predicate OverBudget(t: Transfer) {
    t.maxBytes > 0 && t.size > t.maxBytes
  }

  function Zeros(n: nat): (r: seq<Byte>)
    ensures |r| == n
  {
    seq(n, i => 0)
  }

  /** The received bytes, cut to the declared size by nothing and filled up with zeros. */
  function Assemble(t: Transfer): Option<seq<Byte>> {
    var bytes := Flatten(t.chunks);
    if |bytes| <= t.size then Some(bytes + Zeros(t.size - |bytes|)) else None
  }

  function HandleFrame(s: Transfers, frame: Frame): Transfers {
    match frame
    case Begin(id, size) =>
      if id in s.pending then s.(active := s.active[id := Transfer(s.pending[id], size, [])]) else s
    case Chunk(id, payload) =>
      if id !in s.active || OverBudget(s.active[id]) then s
      else s.(active := s.active[id := s.active[id].(chunks := s.active[id].chunks + [payload])])
    case End(id) =>
      if id !in s.active then s
      else if OverBudget(s.active[id]) then s.(active := s.active - {id})
      else
        // Too many bytes: the copy throws before the transfer is taken off the table.
        var bytes := Assemble(s.active[id]);
        if bytes.None? then s
        else s.(active := s.active - {id}, completed := s.completed[id := bytes.value])
  }

  function Step(s: Transfers, e: Event): Transfers {
    match e
    case StartRead(id, maxBytes) => s.(pending := s.pending[id := maxBytes])
    case Arrive(frame) => HandleFrame(s, frame)
    case FinishRead(id) => Transfers(s.pending - {id}, s.active - {id}, s.completed - {id})
  }

  function Run(s: Transfers, events: seq<Event>): Transfers
    decreases |events|
  {
    if events == [] then s else Run(Step(s, events[0]), events[1..])
  }

  const EMPTY := Transfers(map[], map[], map[])

  // ---------------------------------------------------------------- one transfer by itself

  function IdOf(e: Event): string {
    match e
    case StartRead(id, _) => id
    case Arrive(frame) => frame.id
    case FinishRead(id) => id
  }

  /** The events of one id, in order. */
  function Only(events: seq<Event>, id: string): seq<Event> {
    if events == [] then []
    else (if IdOf(events[0]) == id then [events[0]] else []) + Only(events[1..], id)
  }

  /** The tables as one id sees them. */
  function Seen(s: Transfers, id: string): Transfers {
    Transfers(
      if id in s.pending then map[id := s.pending[id]] else map[],
      if id in s.active then map[id := s.active[id]] else map[],
      if id in s.completed then map[id := s.completed[id]] else map[])
  }

  lemma OtherFrameSeen(s: Transfers, frame: Frame, id: string)
    requires frame.id != id
    ensures Seen(HandleFrame(s, frame), id) == Seen(s, id)
  {
    hide Assemble, OverBudget;
  }

  lemma OwnFrameSeen(s: Transfers, frame: Frame)
    ensures Seen(HandleFrame(s, frame), frame.id) == HandleFrame(Seen(s, frame.id), frame)
  {
    hide Assemble, OverBudget;
    var id := frame.id;
    var own := Seen(s, id);
    assert id in s.active <==> id in own.active;
    assert id in s.active ==> own.active[id] == s.active[id];
    assert own.active - {id} == map[];
  }

  lemma StepSeen(s: Transfers, e: Event, id: string)
    ensures Seen(Step(s, e), id) == if IdOf(e) == id then Step(Seen(s, id), e) else Seen(s, id)
  {
    hide HandleFrame;
    match e
    case Arrive(frame) => if frame.id == id { OwnFrameSeen(s, frame); } else { OtherFrameSeen(s, frame, id); }
    case _ =>
      if IdOf(e) == id {
        var a, b := Seen(Step(s, e), id), Step(Seen(s, id), e);
        assert a.pending == b.pending && a.active == b.active && a.completed == b.completed;
      }
  }

  /** Transfers do not disturb each other: what one id sees depends on its own events only, however
      the others interleave. */
  lemma {:induction false} TransfersAreIndependent(s: Transfers, events: seq<Event>, id: string)
    ensures Seen(Run(s, events), id) == Run(Seen(s, id), Only(events, id))
    decreases |events|
  {
    if events == [] {
    } else {
      var e, rest := events[0], events[1..];
      StepSeen(s, e, id);
      TransfersAreIndependent(Step(s, e), rest, id);
      if IdOf(e) == id {
        assert Only(events, id) == [e] + Only(rest, id);
        assert ([e] + Only(rest, id))[1..] == Only(rest, id);
      } else {
        assert Only(events, id) == Only(rest, id);
      }
    }
  }

  // ---------------------------------------------------------------- a whole transfer

  function ChunkFrames(id: string, chunks: seq<seq<Byte>>): (r: seq<Event>)
    ensures |r| == |chunks|
  {
    seq(|chunks|, i requires 0 <= i < |chunks| => Arrive(Chunk(id, chunks[i])))
  }

  /** A transfer on the wire. */
  function Frames(id: string, size: nat, chunks: seq<seq<Byte>>): seq<Event> {
    [Arrive(Begin(id, size))] + ChunkFrames(id, chunks) + [Arrive(End(id))]
  }

  lemma {:induction false} RunAppend(s: Transfers, a: seq<Event>, b: seq<Event>)
    ensures Run(s, a + b) == Run(Run(s, a), b)
    decreases |a|
  {
    if a == [] {
      assert a + b == b;
    } else {
      RunAppend(Step(s, a[0]), a[1..], b);
      assert (a + b)[1..] == a[1..] + b;
    }
  }

  lemma {:induction false} ChunksAccumulate(s: Transfers, id: string, chunks: seq<seq<Byte>>)
    requires id in s.active
    ensures Run(s, ChunkFrames(id, chunks)) ==
            if OverBudget(s.active[id]) then s
            else s.(active := s.active[id := s.active[id].(chunks := s.active[id].chunks + chunks)])
    decreases |chunks|
  {
    var t := s.active[id];
    if chunks == [] {
      assert t.chunks + chunks == t.chunks;
    } else {
      var frames := ChunkFrames(id, chunks);
      assert frames[1..] == ChunkFrames(id, chunks[1..]);
      var next := Step(s, frames[0]);
      ChunksAccumulate(next, id, chunks[1..]);
      assert t.chunks + [chunks[0]] + chunks[1..] == t.chunks + chunks;
    }
  }

  lemma TransferResult(s: Transfers, id: string, size: nat, chunks: seq<seq<Byte>>)
    requires id in s.pending
    ensures var t := Transfer(s.pending[id], size, chunks);
            var begun := s.(active := s.active[id := if OverBudget(t) then t.(chunks := []) else t]);
            Run(s, Frames(id, size, chunks)) ==
            if OverBudget(t) then s.(active := s.active - {id})
            else if Assemble(t).None? then begun
            else s.(active := s.active - {id}, completed := s.completed[id := Assemble(t).value])
  {
    var begin, end := Arrive(Begin(id, size)), Arrive(End(id));
    var frames := ChunkFrames(id, chunks);
    var begun := s.(active := s.active[id := Transfer(s.pending[id], size, [])]);
    assert Step(s, begin) == begun;
    hide Assemble, ChunkFrames, Step, Run;
    RunAppend(s, [begin], frames);
    RunAppend(s, [begin] + frames, [end]);
    RunOne(s, begin);
    ChunksAccumulate(begun, id, chunks);
    var filled := Run(begun, frames);
    RunOne(filled, end);
    assert [] + chunks == chunks;
    EndResult(filled, id);
    assert filled.active - {id} == s.active - {id};
  }

  lemma RunOne(s: Transfers, e: Event)
    ensures Run(s, [e]) == Step(s, e)
  {
    hide Step;
    assert [e][1..] == [];
  }

  lemma EndResult(s: Transfers, id: string)
    requires id in s.active
    ensures Step(s, Arrive(End(id))) ==
            if OverBudget(s.active[id]) then s.(active := s.active - {id})
            else if Assemble(s.active[id]).None? then s
            else s.(active := s.active - {id}, completed := s.completed[id := Assemble(s.active[id]).value])
  {
    hide Assemble, OverBudget;
  }

  /** What a transfer leaves for its own id. */
  lemma FramesComplete(s: Transfers, id: string, size: nat, chunks: seq<seq<Byte>>)
    requires id in s.pending && !OverBudget(Transfer(s.pending[id], size, chunks))
    ensures var r := Run(s, Frames(id, size, chunks));
            && (|Flatten(chunks)| <= size ==>
                  id in r.completed && id !in r.active
                  && r.completed[id] == Flatten(chunks) + Zeros(size - |Flatten(chunks)|))
            && (|Flatten(chunks)| > size ==> r.completed == s.completed)
  {
    TransferResult(s, id, size, chunks);
    hide Run, Frames, Flatten, OverBudget;
  }

  /** Interleaved with any events of other ids, a transfer whose chunks sum to the declared size
      completes with exactly their concatenation; short ones are zero-filled, long ones do not complete. */
  lemma WholeTransferCompletes(s: Transfers, events: seq<Event>, id: string, size: nat, chunks: seq<seq<Byte>>)
    requires id in s.pending
    requires Only(events, id) == Frames(id, size, chunks)
    requires !OverBudget(Transfer(s.pending[id], size, chunks))
    ensures var r := Run(s, events);
            && (|Flatten(chunks)| <= size ==> id in r.completed && id !in r.active)
            && (|Flatten(chunks)| == size ==> r.completed[id] == Flatten(chunks))
            && (|Flatten(chunks)| < size ==> r.completed[id] == Flatten(chunks) + Zeros(size - |Flatten(chunks)|))
            && (|Flatten(chunks)| > size && id !in s.completed ==> id !in r.completed)
  {
    SeenTables(s, id);
    SeenTables(Run(s, events), id);
    TransfersAreIndependent(s, events, id);
    hide Run, Only, Frames, Flatten, Seen, OverBudget;
    FramesComplete(Seen(s, id), id, size, chunks);
    NoZeros(Flatten(chunks));
  }

  lemma NoZeros(bytes: seq<Byte>)
    ensures bytes + Zeros(0) == bytes
  {
  }

  lemma SeenTables(s: Transfers, id: string)
    ensures id in Seen(s, id).pending <==> id in s.pending
    ensures id in s.pending ==> Seen(s, id).pending[id] == s.pending[id]
    ensures id in Seen(s, id).active <==> id in s.active
    ensures id in Seen(s, id).completed <==> id in s.completed
    ensures id in s.completed ==> Seen(s, id).completed[id] == s.completed[id]
  {
  }

  // ---------------------------------------------------------------- every completed read of a run

  /** The budget of the read registered under `id`, if one is. */
  function Budget(events: seq<Event>, id: string): Option<nat> {
    if events == [] then None
    else
      var last := events[|events| - 1];
      if IdOf(last) == id && last.StartRead? then Some(last.maxBytes)
      else if last == FinishRead(id) then None
      else Budget(events[..|events| - 1], id)
  }

  /** The payloads of the chunk frames of `id`. */
  function ChunksOf(events: seq<Event>, id: string): seq<seq<Byte>> {
    if events == [] then []
    else
      var last, before := events[|events| - 1], ChunksOf(events[..|events| - 1], id);
      if last.Arrive? && last.frame.Chunk? && last.frame.id == id then before + [last.frame.payload] else before
  }

  /** A begin, an end or a finish of `id`. */
  ghost predicate Bounds(e: Event, id: string) {
    e == FinishRead(id) || (e.Arrive? && e.frame.id == id && !e.frame.Chunk?)
  }

  ghost predicate BeginsAt(events: seq<Event>, id: string, b: nat) {
    b < |events| && events[b].Arrive? && events[b].frame.Begin? && events[b].frame.id == id && Budget(events[..b], id).Some?
  }

  /** Is the begin at `b` the last event of `id` before `e`, but for chunks and registrations? */
  ghost predicate Spans(events: seq<Event>, id: string, b: nat, e: nat) {
    b < e <= |events| && BeginsAt(events, id, b) && forall k :: b < k < e ==> !Bounds(events[k], id)
  }

  ghost function TransferAt(events: seq<Event>, id: string, b: nat, e: nat): Transfer
    requires Spans(events, id, b, e)
  {
    var t := Transfer(Budget(events[..b], id).value, events[b].frame.size, ChunksOf(events[b + 1..e], id));
    if OverBudget(t) then t.(chunks := []) else t
  }

  /** A whole transfer: registered, begun at `b` within its budget if it has one, ended at `e` with no more
      bytes than it declared. */
  ghost predicate Delivery(events: seq<Event>, id: string, b: nat, e: nat) {
    && e < |events| && events[e] == Arrive(End(id))
    && Spans(events, id, b, e)
    && (Budget(events[..b], id).value == 0 || events[b].frame.size <= Budget(events[..b], id).value)
    && |Flatten(ChunksOf(events[b + 1..e], id))| <= events[b].frame.size
  }

  lemma DeliveryCompletes(events: seq<Event>, id: string, b: nat, e: nat)
    ensures Delivery(events, id, b, e) <==> Completes(events, id, b, e)
  {
    hide Flatten, ChunksOf, Budget;
  }

  /** The end at `e` completes what the begin at `b` started, as the tables have it. */
  ghost predicate Completes(events: seq<Event>, id: string, b: nat, e: nat) {
    && e < |events| && events[e] == Arrive(End(id))
    && Spans(events, id, b, e)
    && !OverBudget(TransferAt(events, id, b, e))
    && Assemble(TransferAt(events, id, b, e)).Some?
  }

  ghost predicate Kept(events: seq<Event>, id: string, e: nat) {
    forall k :: e < k < |events| ==> events[k] != FinishRead(id)
  }

  ghost predicate Latest(events: seq<Event>, id: string, e: nat) {
    forall b: nat, f: nat :: Completes(events, id, b, f) ==> f <= e
  }

  lemma RunSnoc(s: Transfers, events: seq<Event>, x: Event)
    ensures Run(s, events + [x]) == Step(Run(s, events), x)
  {
    hide Step;
    RunAppend(s, events, [x]);
    assert [x][1..] == [];
    assert Run(Run(s, events), [x]) == Run(Step(Run(s, events), x), []);
  }

  /** Adding an event changes nothing that lies before it. */
  lemma SpansSnoc(events: seq<Event>, x: Event, id: string, b: nat, e: nat)
    requires e <= |events|
    ensures Spans(events + [x], id, b, e) <==> Spans(events, id, b, e)
    ensures Spans(events, id, b, e) ==> TransferAt(events + [x], id, b, e) == TransferAt(events, id, b, e)
  {
    var t := events + [x];
    if b < e {
      assert t[..b] == events[..b] && t[b + 1..e] == events[b + 1..e];
      assert forall k :: b < k < e ==> t[k] == events[k];
      if Spans(t, id, b, e) {
        assert forall k :: b < k < e ==> !Bounds(t[k], id);
      }
    }
  }

  lemma DeliverySnoc(events: seq<Event>, x: Event, id: string, b: nat, e: nat)
    requires e < |events|
    ensures Completes(events + [x], id, b, e) <==> Completes(events, id, b, e)
  {
    SpansSnoc(events, x, id, b, e);
    hide Spans, TransferAt, OverBudget, Assemble;
  }

  /** One event more inside the span. */
  lemma SpansOn(events: seq<Event>, x: Event, id: string, b: nat)
    requires b < |events| && !Bounds(x, id)
    ensures Spans(events + [x], id, b, |events| + 1) <==> Spans(events, id, b, |events|)
  {
    var t := events + [x];
    assert t[..b] == events[..b];
    if Spans(events, id, b, |events|) {
      forall k | b < k < |events| + 1
        ensures !Bounds(t[k], id)
      {
        assert k < |events| ==> t[k] == events[k];
      }
    }
    if Spans(t, id, b, |events| + 1) {
      forall k | b < k < |events|
        ensures !Bounds(events[k], id)
      {
        assert t[k] == events[k];
      }
    }
  }

  lemma TransferOn(events: seq<Event>, x: Event, id: string, b: nat)
    requires Spans(events, id, b, |events|) && Spans(events + [x], id, b, |events| + 1)
    ensures var was, t := TransferAt(events, id, b, |events|), TransferAt(events + [x], id, b, |events| + 1);
            t == if x.Arrive? && x.frame.Chunk? && x.frame.id == id && !OverBudget(was)
                 then was.(chunks := was.chunks + [x.frame.payload]) else was
  {
    var t := events + [x];
    assert t[..b] == events[..b];
    assert t[b + 1..|events| + 1] == events[b + 1..] + [x] && events[b + 1..|events|] == events[b + 1..];
    assert (events[b + 1..] + [x])[..|events| - b - 1] == events[b + 1..];
  }

  ghost predicate PendingMatches(events: seq<Event>, id: string, s: Transfers) {
    && (id in s.pending <==> Budget(events, id).Some?)
    && (id in s.pending ==> s.pending[id] == Budget(events, id).value)
    && (id in s.active ==> id in s.pending)
  }

  /** What is on the table for `id` is what its last begin started; a transfer that has outgrown its
      declared size may stay there, but can never end. */
  ghost predicate ActiveMatches(events: seq<Event>, id: string, s: Transfers) {
    && (forall b: nat :: Spans(events, id, b, |events|) ==>
          id in s.active && s.active[id] == TransferAt(events, id, b, |events|))
    && (Ready(s, id) ==> exists b: nat :: Spans(events, id, b, |events|))
  }

  ghost predicate Ready(s: Transfers, id: string) {
    id in s.active && !OverBudget(s.active[id]) && Assemble(s.active[id]).Some?
  }

  ghost predicate CompletedMatches(events: seq<Event>, id: string, s: Transfers) {
    && (forall b: nat, e: nat :: Completes(events, id, b, e) && Kept(events, id, e) && Latest(events, id, e) ==>
          id in s.completed && Assemble(TransferAt(events, id, b, e)) == Some(s.completed[id]))
    && (id in s.completed ==> exists b: nat, e: nat :: Completes(events, id, b, e) && Kept(events, id, e))
  }

  lemma PendingSnoc(events: seq<Event>, x: Event, id: string, s: Transfers)
    requires PendingMatches(events, id, s)
    ensures PendingMatches(events + [x], id, Step(s, x))
  {
    hide OverBudget, Assemble;
    BudgetSnoc(events, x, id);
    hide Budget;
  }

  lemma BudgetSnoc(events: seq<Event>, x: Event, id: string)
    ensures Budget(events + [x], id) ==
            if IdOf(x) == id && x.StartRead? then Some(x.maxBytes)
            else if x == FinishRead(id) then None
            else Budget(events, id)
  {
    assert (events + [x])[..|events|] == events;
  }

  /** What an event that does not begin, end or finish `id` does to its transfer. */
  lemma InsideStep(s: Transfers, x: Event, id: string)
    requires !Bounds(x, id)
    ensures id in Step(s, x).active <==> id in s.active
    ensures id in s.active ==>
              Step(s, x).active[id] ==
              if x.Arrive? && x.frame.Chunk? && x.frame.id == id && !OverBudget(s.active[id])
              then s.active[id].(chunks := s.active[id].chunks + [x.frame.payload]) else s.active[id]
    ensures (id in Step(s, x).completed <==> id in s.completed)
    ensures id in s.completed ==> Step(s, x).completed[id] == s.completed[id]
  {
    hide OverBudget, Assemble;
  }

  lemma SpanActive(events: seq<Event>, x: Event, id: string, s: Transfers, b: nat)
    requires PendingMatches(events, id, s) && ActiveMatches(events, id, s)
    requires Spans(events + [x], id, b, |events| + 1)
    ensures id in Step(s, x).active && Step(s, x).active[id] == TransferAt(events + [x], id, b, |events| + 1)
  {
    var t, n := events + [x], |events|;
    if b == n {
      assert t[..n] == events && t[n + 1..n + 1] == [];
      hide Assemble;
      assert t[n] == x;
    } else {
      assert !Bounds(t[n], id) && t[n] == x;
      SpansOn(events, x, id, b);
      TransferOn(events, x, id, b);
      InsideStep(s, x, id);
      hide Step, TransferAt, Spans, OverBudget;
    }
  }

  lemma ChunkOnlyGrows(t: Transfer, payload: seq<Byte>)
    requires Assemble(t.(chunks := t.chunks + [payload])).Some?
    ensures Assemble(t).Some?
  {
    FlattenSnoc(t.chunks, payload);
  }

  lemma ReadySpans(events: seq<Event>, x: Event, id: string, s: Transfers) returns (b: nat)
    requires PendingMatches(events, id, s) && ActiveMatches(events, id, s)
    requires Ready(Step(s, x), id)
    ensures Spans(events + [x], id, b, |events| + 1)
  {
    var t, n := events + [x], |events|;
    if Bounds(x, id) {
      b := n;
      assert t[..n] == events && t[n] == x;
      hide Assemble, Spans;
      assert x.Arrive? && x.frame.Begin? && id in s.pending;
      hide Step;
      assert BeginsAt(t, id, n);
      JustBegun(t, id);
    } else {
      InsideStep(s, x, id);
      if x.Arrive? && x.frame.Chunk? && x.frame.id == id && !OverBudget(s.active[id]) {
        ChunkOnlyGrows(s.active[id], x.frame.payload);
      }
      hide Step, Spans, Assemble;
      b :| Spans(events, id, b, n);
      SpanIsBefore(events, id, b, n);
      SpansOn(events, x, id, b);
    }
  }

  lemma SpanIsBefore(events: seq<Event>, id: string, b: nat, e: nat)
    requires Spans(events, id, b, e)
    ensures b < e <= |events|
  {
  }

  lemma JustBegun(events: seq<Event>, id: string)
    requires events != [] && BeginsAt(events, id, |events| - 1)
    ensures Spans(events, id, |events| - 1, |events|)
  {
  }

  lemma ActiveSnoc(events: seq<Event>, x: Event, id: string, s: Transfers)
    requires PendingMatches(events, id, s) && ActiveMatches(events, id, s)
    ensures ActiveMatches(events + [x], id, Step(s, x))
  {
    hide Step, TransferAt, Spans, Ready;
    var t := events + [x];
    forall b: nat | Spans(t, id, b, |t|)
      ensures id in Step(s, x).active && Step(s, x).active[id] == TransferAt(t, id, b, |t|)
    {
      SpanActive(events, x, id, s, b);
    }
    if Ready(Step(s, x), id) {
      var b := ReadySpans(events, x, id, s);
      assert Spans(t, id, b, |t|);
    }
  }

  /** An end completes its read exactly when it closes a delivery. */
  lemma EndDelivers(events: seq<Event>, id: string, s: Transfers)
    requires ActiveMatches(events, id, s)
    ensures var t := events + [Arrive(End(id))];
            && (Ready(s, id) <==> exists b: nat :: Completes(t, id, b, |events|))
            && (forall b: nat :: Completes(t, id, b, |events|) ==>
                  Ready(s, id) && TransferAt(t, id, b, |events|) == s.active[id])
  {
    var x, n := Arrive(End(id)), |events|;
    var t := events + [x];
    assert t[n] == x;
    forall b: nat
      ensures Spans(t, id, b, n) <==> Spans(events, id, b, n)
      ensures Spans(events, id, b, n) ==> TransferAt(t, id, b, n) == TransferAt(events, id, b, n)
    {
      SpansSnoc(events, x, id, b, n);
    }
    hide Spans, TransferAt, OverBudget, Assemble;
    if Ready(s, id) {
      var b: nat :| Spans(events, id, b, n);
      assert Completes(t, id, b, n);
    }
  }

  lemma CompletedByEnd(events: seq<Event>, id: string, s: Transfers)
    requires ActiveMatches(events, id, s) && Ready(s, id)
    ensures CompletedMatches(events + [Arrive(End(id))], id, Step(s, Arrive(End(id))))
  {
    var t, n := events + [Arrive(End(id))], |events|;
    EndDelivers(events, id, s);
    var b: nat :| Completes(t, id, b, n);
    assert Kept(t, id, n);
    assert Step(s, Arrive(End(id))).completed == s.completed[id := Assemble(s.active[id]).value];
    hide Step, Completes, TransferAt, Assemble, OverBudget;
    forall c: nat, e: nat | Completes(t, id, c, e) && Kept(t, id, e) && Latest(t, id, e)
      ensures e == n
    {
      DeliveryIsInside(t, id, c, e);
    }
  }

  lemma DeliveryIsInside(events: seq<Event>, id: string, b: nat, e: nat)
    requires Completes(events, id, b, e)
    ensures e < |events| && events[e] == Arrive(End(id)) && Spans(events, id, b, e)
  {
  }

  /** An event that neither completes nor finishes a read leaves the completed one in place. */
  lemma CompletedStays(s: Transfers, x: Event, id: string)
    requires x != FinishRead(id) && (x == Arrive(End(id)) ==> !Ready(s, id))
    ensures id in Step(s, x).completed <==> id in s.completed
    ensures id in s.completed ==> Step(s, x).completed[id] == s.completed[id]
  {
    hide OverBudget, Assemble;
  }

  lemma CompletedOtherwise(events: seq<Event>, x: Event, id: string, s: Transfers)
    requires ActiveMatches(events, id, s) && CompletedMatches(events, id, s)
    requires x != FinishRead(id) && (x == Arrive(End(id)) ==> !Ready(s, id))
    ensures CompletedMatches(events + [x], id, Step(s, x))
  {
    var t, n := events + [x], |events|;
    CompletedStays(s, x, id);
    if x == Arrive(End(id)) {
      EndDelivers(events, id, s);
    }
    hide Step, Ready, ActiveMatches;
    assert t[n] == x;
    forall b: nat, e: nat
      ensures Completes(t, id, b, e) <==> Completes(events, id, b, e)
      ensures Completes(events, id, b, e) ==> TransferAt(t, id, b, e) == TransferAt(events, id, b, e)
    {
      if e < n {
        DeliverySnoc(events, x, id, b, e);
        SpansSnoc(events, x, id, b, e);
      }
    }
    hide Completes, TransferAt, Assemble;
    assert forall e: nat :: Latest(t, id, e) <==> Latest(events, id, e);
    forall e: nat | e < n
      ensures Kept(t, id, e) <==> Kept(events, id, e)
    {
      assert forall k :: e < k < n ==> t[k] == events[k];
      assert t[n] == x;
      if Kept(t, id, e) {
        assert forall k :: e < k < n ==> t[k] != FinishRead(id);
      }
    }
    forall b: nat, e: nat | Completes(events, id, b, e)
      ensures e < n
    {
      DeliveryIsInside(events, id, b, e);
    }
  }

  lemma CompletedFinish(events: seq<Event>, id: string, s: Transfers)
    ensures CompletedMatches(events + [FinishRead(id)], id, Step(s, FinishRead(id)))
  {
    var t, n := events + [FinishRead(id)], |events|;
    hide TransferAt, Assemble;
    forall b: nat, e: nat | Completes(t, id, b, e)
      ensures !Kept(t, id, e)
    {
      DeliveryIsInside(t, id, b, e);
      assert t[n] == FinishRead(id);
    }
    hide Completes;
  }

  lemma {:induction false} HistoryMatches(events: seq<Event>, id: string)
    ensures var s := Run(EMPTY, events);
            PendingMatches(events, id, s) && ActiveMatches(events, id, s) && CompletedMatches(events, id, s)
  {
    if events == [] {
      assert Run(EMPTY, events) == EMPTY;
    } else {
      var before, x := events[..|events| - 1], events[|events| - 1];
      assert events == before + [x];
      var s := Run(EMPTY, before);
      HistoryMatches(before, id);
      RunSnoc(EMPTY, before, x);
      PendingSnoc(before, x, id, s);
      ActiveSnoc(before, x, id, s);
      hide Run, Step, PendingMatches, ActiveMatches, CompletedMatches, Ready;
      if x == FinishRead(id) {
        CompletedFinish(before, id, s);
      } else if x == Arrive(End(id)) && Ready(s, id) {
        CompletedByEnd(before, id, s);
      } else {
        CompletedOtherwise(before, x, id, s);
      }
    }
  }

  lemma {:induction false} LatestExists(events: seq<Event>, id: string, b: nat, e: nat) returns (c: nat, f: nat)
    requires Completes(events, id, b, e)
    ensures Completes(events, id, c, f) && Latest(events, id, f) && e <= f
    decreases |events| - e
  {
    DeliveryIsInside(events, id, b, e);
    hide Completes;
    c, f := b, e;
    if !Latest(events, id, e) {
      var b': nat, e': nat :| Completes(events, id, b', e') && e' > e;
      DeliveryIsInside(events, id, b', e');
      c, f := LatestExists(events, id, b', e');
    }
  }

  ghost predicate DeliversBytes(events: seq<Event>, id: string, b: nat, e: nat)
    requires Completes(events, id, b, e)
  {
    var bytes := Flatten(ChunksOf(events[b + 1..e], id));
    && |bytes| <= events[b].frame.size
    && Assemble(TransferAt(events, id, b, e)) == Some(bytes + Zeros(events[b].frame.size - |bytes|))
  }

  lemma DeliveryBytes(events: seq<Event>, id: string, b: nat, e: nat)
    requires Completes(events, id, b, e)
    ensures DeliversBytes(events, id, b, e)
  {
  }

  /** In every run, however its events repeat, stray and interleave: a read is completed exactly when some
      delivery of its id has not been followed by its finish, and what it holds is then the
      concatenation of the id's chunks between the begin and the end of the last delivery,
      zero-filled to the size that begin declared. */
  lemma CompletedReadsAreWhole(events: seq<Event>, id: string)
    ensures var s := Run(EMPTY, events);
            && (id in s.completed <==> exists b: nat, e: nat :: Delivery(events, id, b, e) && Kept(events, id, e))
            && (forall b: nat, e: nat :: Delivery(events, id, b, e) && Kept(events, id, e) && LastDelivery(events, id, e) ==>
                  var bytes := Flatten(ChunksOf(events[b + 1..e], id));
                  id in s.completed && s.completed[id] == bytes + Zeros(events[b].frame.size - |bytes|))
  {
    forall b: nat, e: nat
      ensures Delivery(events, id, b, e) <==> Completes(events, id, b, e)
    {
      DeliveryCompletes(events, id, b, e);
    }
    hide Run, Kept, Flatten, ChunksOf, Completes;
    assert forall e: nat :: LastDelivery(events, id, e) <==> Latest(events, id, e);
    CompletionsAreWhole(events, id);
    forall b: nat, e: nat | Completes(events, id, b, e)
      ensures DeliversBytes(events, id, b, e)
    {
      DeliveryBytes(events, id, b, e);
    }
    hide Latest, LastDelivery, Delivery, TransferAt, Assemble;
  }

  ghost predicate LastDelivery(events: seq<Event>, id: string, e: nat) {
    forall b: nat, f: nat :: Delivery(events, id, b, f) ==> f <= e
  }

  lemma CompletionsAreWhole(events: seq<Event>, id: string)
    ensures var s := Run(EMPTY, events);
            && (id in s.completed <==> exists b: nat, e: nat :: Completes(events, id, b, e) && Kept(events, id, e))
            && (forall b: nat, e: nat :: Completes(events, id, b, e) && Kept(events, id, e) && Latest(events, id, e) ==>
                  id in s.completed && Assemble(TransferAt(events, id, b, e)) == Some(s.completed[id]))
  {
    HistoryMatches(events, id);
    if b: nat, e: nat :| Completes(events, id, b, e) && Kept(events, id, e) {
      var c, f := LatestExists(events, id, b, e);
      assert Kept(events, id, f);
    }
    hide Run, Latest, Kept, Flatten, ChunksOf, TransferAt, Assemble, Completes;
  }

  // ---------------------------------------------------------------- the budget

  ghost predicate WithinBudget(s: Transfers) {
    forall id :: id in s.active && s.active[id].maxBytes > 0 && s.active[id].size > s.active[id].maxBytes ==>
      s.active[id].chunks == []
  }

  /** Over every run, a transfer over its budget never holds a byte. */
  lemma {:induction false} OverBudgetHoldsNothing(s: Transfers, events: seq<Event>)
    requires WithinBudget(s)
    ensures WithinBudget(Run(s, events))
    decreases |events|
  {
    if events == [] {
    } else {
      OverBudgetHoldsNothing(Step(s, events[0]), events[1..]);
    }
  }

  // ---------------------------------------------------------------- the loops

  /** `concatByteChunks`: fills a buffer of the declared size; a chunk that does not fit throws. */
  method ConcatByteChunks(chunks: seq<seq<Byte>>, size: nat) returns (ok: bool, bytes: array<Byte>)
    ensures fresh(bytes) && bytes.Length == size
    ensures ok <==> |Flatten(chunks)| <= size
    ensures ok ==> bytes[..] == Flatten(chunks) + Zeros(size - |Flatten(chunks)|)
  {
    bytes := new Byte[size](i => 0);
    var offset := 0;
    for n := 0 to |chunks|
      invariant offset == |Flatten(chunks[..n])| <= size
      invariant bytes[..offset] == Flatten(chunks[..n])
      invariant forall k :: offset <= k < size ==> bytes[k] == 0
    {
      var chunk := chunks[n];
      assert chunks[..n + 1] == chunks[..n] + [chunk];
      FlattenSnoc(chunks[..n], chunk);
      if offset + |chunk| > size {
        assert chunks == chunks[..n + 1] + chunks[n + 1..];
        FlattenAppend(chunks[..n + 1], chunks[n + 1..]);
        return false, bytes;
      }
      ghost var before := bytes[..offset];
      for k := 0 to |chunk|
        invariant bytes[..offset] == before
        invariant bytes[offset..offset + k] == chunk[..k]
        invariant forall m :: offset + k <= m < size ==> bytes[m] == 0
      {
        bytes[offset + k] := chunk[k];
        assert chunk[..k + 1] == chunk[..k] + [chunk[k]];
      }
      assert chunk[..|chunk|] == chunk;
      assert bytes[..offset + |chunk|] == bytes[..offset] + bytes[offset..offset + |chunk|];
      offset := offset + |chunk|;
    }
    assert chunks[..|chunks|] == chunks;
    assert bytes[..] == bytes[..offset] + bytes[offset..];
    ok := true;
  }

  /** The frames `uploadFile` sends for a file, for any positive chunk size. */
  method UploadFrames(id: string, bytes: seq<Byte>, chunkSize: nat) returns (frames: seq<Event>, chunks: seq<seq<Byte>>)
    requires chunkSize > 0
    ensures frames == Frames(id, |bytes|, chunks)
    ensures Flatten(chunks) == bytes
    ensures forall i :: 0 <= i < |chunks| ==> 0 < |chunks[i]| <= chunkSize
    ensures forall i :: 0 <= i < |chunks| - 1 ==> |chunks[i]| == chunkSize
  {
    frames := [Arrive(Begin(id, |bytes|))];
    chunks := [];
    var offset := 0;
    while offset < |bytes|
      invariant 0 <= offset
      invariant Flatten(chunks) == bytes[..if offset < |bytes| then offset else |bytes|]
      invariant frames == [Arrive(Begin(id, |bytes|))] + ChunkFrames(id, chunks)
      invariant forall i :: 0 <= i < |chunks| ==> 0 < |chunks[i]| <= chunkSize
      invariant forall i :: 0 <= i < |chunks| - 1 ==> |chunks[i]| == chunkSize
      invariant offset < |bytes| && chunks != [] ==> |chunks[|chunks| - 1]| == chunkSize
    {
      var end := if offset + chunkSize < |bytes| then offset + chunkSize else |bytes|;
      var chunk := bytes[offset..end];
      frames := frames + [Arrive(Chunk(id, chunk))];
      assert ChunkFrames(id, chunks + [chunk]) == ChunkFrames(id, chunks) + [Arrive(Chunk(id, chunk))];
      FlattenSnoc(chunks, chunk);
      assert bytes[..end] == bytes[..offset] + chunk;
      chunks := chunks + [chunk];
      offset := offset + chunkSize;
    }
    assert bytes[..|bytes|] == bytes;
    frames := frames + [Arrive(End(id))];
  }

  /** What `uploadFile` cuts, the transfer tables put together again, whatever arrives in between. */
  lemma UploadRoundTrip(s: Transfers, events: seq<Event>, id: string, bytes: seq<Byte>, chunks: seq<seq<Byte>>)
    requires id in s.pending && s.pending[id] == 0
    requires Flatten(chunks) == bytes && Only(events, id) == Frames(id, |bytes|, chunks)
    ensures id in Run(s, events).completed && Run(s, events).completed[id] == bytes
  {
    WholeTransferCompletes(s, events, id, |bytes|, chunks);
  }

  // ---------------------------------------------------------------- the tables as fields

  class TransferTables {
    var pending: map<string, nat>
    var active: map<string, Transfer>
    var completed: map<string, seq<Byte>>

    ghost function State(): Transfers
      reads this
    {
      Transfers(pending, active, completed)
    }

    constructor ()
      ensures State() == EMPTY
    {
      pending, active, completed := map[], map[], map[];
    }

    method StartRead(id: string, maxBytes: nat)
      modifies this
      ensures State() == Step(old(State()), Event.StartRead(id, maxBytes))
    {
      pending := pending[id := maxBytes];
    }

    method FinishRead(id: string)
      modifies this
      ensures State() == Step(old(State()), Event.FinishRead(id))
    {
      pending := pending - {id};
      active := active - {id};
      completed := completed - {id};
    }

    method OnFrame(frame: Frame) returns (threw: bool)
      modifies this
      ensures State() == Step(old(State()), Arrive(frame))
      ensures threw <==> frame.End? && frame.id in old(active)
                         && (old(active)[frame.id].maxBytes == 0 || old(active)[frame.id].size <= old(active)[frame.id].maxBytes)
                         && |Flatten(old(active)[frame.id].chunks)| > old(active)[frame.id].size
    {
      threw := false;
      if frame.Begin? {
        if frame.id in pending {
          active := active[frame.id := Transfer(pending[frame.id], frame.size, [])];
        }
        return;
      }
      if frame.id !in active {
        return;
      }
      var transfer := active[frame.id];
      var over := transfer.maxBytes > 0 && transfer.size > transfer.maxBytes;
      if frame.Chunk? {
        if !over {
          active := active[frame.id := transfer.(chunks := transfer.chunks + [frame.payload])];
        }
        return;
      }
      if over {
        active := active - {frame.id};
        return;
      }
      var ok, bytes := ConcatByteChunks(transfer.chunks, transfer.size);
      if !ok {
        return true;
      }
      active := active - {frame.id};
      completed := completed[frame.id := bytes[..]];
    }
  }
}
