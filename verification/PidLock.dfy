/**
 The PID lock (apps/daemon-rs/src/pidlock.rs:91-171, apps/daemon-rs/src/main.rs:299-310): processes
 that read, remove, link and check one shared file, in any interleaving. A process is alive while
 it has an entry in `procs`; it may crash at any point, and its pid may be used again.
 */
module PidLock {
  const I32_MAX: int := 0x7FFF_FFFF

  /** The lock file: missing, unreadable, or naming an owner, under our brand or a foreign one. */
  datatype File = Absent | Corrupt | Lock(owner: int, ours: bool)

  /** Where a live process stands: it found no readable lock and is about to look for a file again, is
      judging another's lock, is about to remove the file, about to link its own, holding, stopping
      because a heartbeat failed, or about to remove its own lock. */
  datatype Phase = Idle | Rechecking | Examining(owner: int) | Clearing | Linking | Holding | Stopping | Removing

  datatype Entry = Changed | Passed(pid: int)

  datatype State = State(file: File, procs: map<int, Phase>, log: seq<Entry>)

  datatype Action =
    | Start(pid: int)
    | Crash(pid: int)
    | Read(pid: int)
    | Recheck(pid: int)
    | Probe(pid: int)
    | Remove(pid: int)
    | Link(pid: int)
    | Beat(pid: int)
    | ReleaseRead(pid: int)
    | ReleaseRemove(pid: int)

  // ---------------------------------------------------------------- one atomic step

  predicate Running(s: State, pid: int) {
    0 < pid <= I32_MAX && pid in s.procs
  }

  predicate Names(file: File, pid: int) {
    file.Lock? && file.owner == pid
  }

  predicate At(s: State, pid: int, phase: Phase) {
    pid in s.procs && s.procs[pid] == phase
  }

  function Goes(s: State, pid: int, phase: Phase): State {
    s.(procs := s.procs[pid := phase])
  }

  function Write(s: State, file: File): State {
    if s.file == file then s else s.(file := file, log := s.log + [Changed])
  }

  /** The read that decides what `acquire` goes by, after those it retried. A process is always running
      to itself, so finding its own pid in the lock settles the matter at once. */
  function StepRead(s: State, pid: int): State
    requires At(s, pid, Idle)
  {
    match s.file
    case Absent => Goes(s, pid, Rechecking)
    case Corrupt => Goes(s, pid, Rechecking)
    case Lock(owner, ours) =>
      if !ours then s
      else if owner == pid then Goes(s, pid, Holding)
      else Goes(s, pid, Examining(owner))
  }

  function Step(s: State, action: Action): State {
    var pid := action.pid;
    match action
    case Start(_) => if 0 < pid <= I32_MAX && pid !in s.procs then Goes(s, pid, Idle) else s
    case Crash(_) => s.(procs := s.procs - {pid})
    case Read(_) => if At(s, pid, Idle) then StepRead(s, pid) else s
    case Recheck(_) =>
      if At(s, pid, Rechecking) then Goes(s, pid, if s.file.Absent? then Linking else Clearing) else s
    case Probe(_) =>
      if pid in s.procs && s.procs[pid].Examining?
      then Goes(s, pid, if Running(s, s.procs[pid].owner) then Idle else Clearing)
      else s
    case Remove(_) => if At(s, pid, Clearing) then Goes(Write(s, Absent), pid, Linking) else s
    case Link(_) =>
      if !At(s, pid, Linking) then s
      else if s.file.Absent? then Goes(Write(s, Lock(pid, true)), pid, Holding)
      else Goes(s, pid, Idle)
    case Beat(_) =>
      if !At(s, pid, Holding) then s
      else if Names(s.file, pid) then s.(log := s.log + [Passed(pid)])
      else Goes(s, pid, Stopping)
    case ReleaseRead(_) =>
      if At(s, pid, Holding) || At(s, pid, Stopping) then Goes(s, pid, if Names(s.file, pid) then Removing else Idle) else s
    case ReleaseRemove(_) => if At(s, pid, Removing) then Goes(Write(s, Absent), pid, Idle) else s
  }

  function Play(s: State, actions: seq<Action>): State
    decreases |actions|
  {
    if actions == [] then s else Play(Step(s, actions[0]), actions[1..])
  }

  lemma {:induction false} PlayAppend(s: State, a: seq<Action>, b: seq<Action>)
    ensures Play(s, a + b) == Play(Play(s, a), b)
    decreases |a|
  {
    hide Step;
    if a == [] {
      assert a + b == b;
    } else {
      assert (a + b)[0] == a[0] && (a + b)[1..] == a[1..] + b;
      PlayAppend(Step(s, a[0]), a[1..], b);
    }
  }

  // ---------------------------------------------------------------- mutual exclusion

  /** Every live holder is the process the file names. */
  ghost predicate Named(s: State) {
    forall pid :: At(s, pid, Holding) ==> Names(s.file, pid)
  }

  ghost predicate AtMostOneHolder(s: State) {
    forall p, q :: At(s, p, Holding) && At(s, q, Holding) ==> p == q
  }

  lemma NamedExcludes(s: State)
    requires Named(s)
    ensures AtMostOneHolder(s)
  {
  }

  /** A removal that takes away the lock of a live holder. */
  ghost predicate Stray(s: State, action: Action) {
    && ((action.Remove? && At(s, action.pid, Clearing)) || (action.ReleaseRemove? && At(s, action.pid, Removing)))
    && s.file.Lock? && At(s, s.file.owner, Holding)
  }

  ghost predicate NoStray(s: State, actions: seq<Action>)
    decreases |actions|
  {
    actions == [] || (!Stray(s, actions[0]) && NoStray(Step(s, actions[0]), actions[1..]))
  }

  ghost predicate AlwaysNamed(s: State, actions: seq<Action>)
    decreases |actions|
  {
    Named(s) && (actions == [] || AlwaysNamed(Step(s, actions[0]), actions[1..]))
  }

  lemma StepNamed(s: State, action: Action)
    requires Named(s)
    ensures Named(Step(s, action)) <==> !Stray(s, action)
  {
    var t := Step(s, action);
    if Stray(s, action) {
      assert At(t, s.file.owner, Holding);
    } else {
      forall pid | At(t, pid, Holding)
        ensures Names(t.file, pid)
      {
        assert pid != action.pid ==> At(s, pid, Holding);
        assert pid == action.pid && !action.Read? && !action.Link? ==> At(s, pid, Holding);
      }
    }
  }

  /** With every read, removal and link a step of its own, over any number of processes, crashes,
      releases and reused pids: the file names every live holder throughout a run exactly when no
      step of the run removes a live holder's lock. */
  lemma {:induction false} NamedExactlyWithoutStray(s: State, actions: seq<Action>)
    requires Named(s)
    ensures AlwaysNamed(s, actions) <==> NoStray(s, actions)
    decreases |actions|
  {
    hide Step, Stray, Named;
    if actions == [] {
    } else {
      StepNamed(s, actions[0]);
      if Named(Step(s, actions[0])) {
        NamedExactlyWithoutStray(Step(s, actions[0]), actions[1..]);
      }
    }
  }

  // ---------------------------------------------------------------- which schedules are safe

  /** What a schedule shows of a process: that it inspected the file, got the lock, or gave it up. */
  datatype Move = Inspected(pid: int) | Got(pid: int) | Left(pid: int)

  ghost predicate Inspects(s: State, action: Action) {
    || (action.Read? && At(s, action.pid, Idle))
    || (action.ReleaseRead? && (At(s, action.pid, Holding) || At(s, action.pid, Stopping)))
  }

  ghost function Moves(s: State, action: Action): seq<Move> {
    var pid, before, after := action.pid, At(s, action.pid, Holding), At(Step(s, action), action.pid, Holding);
    (if Inspects(s, action) then [Inspected(pid)] else []) +
    (if before && !after then [Left(pid)] else if !before && after then [Got(pid)] else [])
  }

  /** Has `q` got the lock since `p` last inspected the file, and not given it up? */
  ghost predicate GotSince(moves: seq<Move>, p: int, q: int) {
    moves != [] &&
    (var last := moves[|moves| - 1];
     last == Got(q) || (last != Left(q) && last != Inspected(p) && GotSince(moves[..|moves| - 1], p, q)))
  }

  ghost predicate HasLock(moves: seq<Move>, q: int) {
    moves != [] &&
    (var last := moves[|moves| - 1]; last == Got(q) || (last != Left(q) && HasLock(moves[..|moves| - 1], q)))
  }

  ghost predicate Removes(s: State, action: Action) {
    (action.Remove? && At(s, action.pid, Clearing)) || (action.ReleaseRemove? && At(s, action.pid, Removing))
  }

  /** A removal is overtaken when another process got the lock after the remover's inspection. */
  ghost predicate Overtaken(s: State, moves: seq<Move>, action: Action) {
    Removes(s, action) && exists q :: GotSince(moves, action.pid, q)
  }

  ghost predicate NoneOvertaken(s: State, moves: seq<Move>, actions: seq<Action>)
    decreases |actions|
  {
    actions == [] ||
    (!Overtaken(s, moves, actions[0]) && NoneOvertaken(Step(s, actions[0]), moves + Moves(s, actions[0]), actions[1..]))
  }

  lemma MovesSnoc(moves: seq<Move>, m: Move)
    ensures forall p, q :: GotSince(moves + [m], p, q) <==>
              m == Got(q) || (m != Left(q) && m != Inspected(p) && GotSince(moves, p, q))
    ensures forall q :: HasLock(moves + [m], q) <==> m == Got(q) || (m != Left(q) && HasLock(moves, q))
  {
    assert (moves + [m])[..|moves|] == moves;
  }

  lemma {:induction false} GotIsHad(moves: seq<Move>, p: int, q: int)
    requires GotSince(moves, p, q)
    ensures HasLock(moves, q)
  {
    if moves[|moves| - 1] != Got(q) {
      GotIsHad(moves[..|moves| - 1], p, q);
    }
  }

  /** Whom an inspection has ruled out as a holder: everyone, or everyone but the owner being judged. */
  predicate RulesOut(phase: Phase, q: int) {
    phase.Rechecking? || phase.Clearing? || phase.Removing? || (phase.Examining? && phase.owner != q)
  }

  ghost predicate MovesInv(s: State, moves: seq<Move>) {
    && (forall pid :: pid in s.procs ==> 0 < pid <= I32_MAX)
    && (forall q :: At(s, q, Holding) <==> HasLock(moves, q))
    && (forall p, q :: p in s.procs && RulesOut(s.procs[p], q) && At(s, q, Holding) ==> GotSince(moves, p, q))
  }

  /** After a step's moves, one at a time. */
  lemma MovesAppend(s: State, moves: seq<Move>, action: Action)
    ensures var more := Moves(s, action); var pid := action.pid;
            && (forall p, q :: GotSince(moves + more, p, q) <==>
                  Got(q) in more || (Left(q) !in more && Inspected(p) !in more && GotSince(moves, p, q)))
            && (forall q :: HasLock(moves + more, q) <==> Got(q) in more || (Left(q) !in more && HasLock(moves, q)))
  {
    var more := Moves(s, action);
    hide Step, At, Inspects, GotSince, HasLock;
    if |more| == 0 {
      assert moves + more == moves;
    } else if |more| == 1 {
      MovesSnoc(moves, more[0]);
      assert more == [more[0]];
    } else {
      MovesSnoc(moves, more[0]);
      MovesSnoc(moves + [more[0]], more[1]);
      assert moves + more == (moves + [more[0]]) + [more[1]];
    }
  }

  /** A process that comes to rule out a live holder had ruled it out before: an inspection itself finds
      no holder but the one the file names. */
  lemma RulingIsOld(s: State, action: Action, q: int)
    requires Named(s) && forall pid :: pid in s.procs ==> 0 < pid <= I32_MAX
    requires At(s, q, Holding) && q != action.pid
    requires action.pid in Step(s, action).procs && RulesOut(Step(s, action).procs[action.pid], q)
    ensures action.pid in s.procs && RulesOut(s.procs[action.pid], q) && Moves(s, action) == []
  {
    assert Names(s.file, q);
  }

  lemma OthersStay(s: State, action: Action)
    ensures forall q :: q != action.pid ==> (q in Step(s, action).procs <==> q in s.procs)
    ensures forall q :: q != action.pid && q in s.procs ==> Step(s, action).procs[q] == s.procs[q]
    ensures action.pid in Step(s, action).procs ==> action.pid in s.procs || 0 < action.pid <= I32_MAX
  {
  }

  lemma RulingKeeps(s: State, moves: seq<Move>, action: Action, p: int, q: int)
    requires Named(s) && MovesInv(s, moves)
    requires var t := Step(s, action); p in t.procs && RulesOut(t.procs[p], q) && At(t, q, Holding)
    ensures GotSince(moves + Moves(s, action), p, q)
  {
    hide Step, GotSince, HasLock, Inspects, Named;
    var pid := action.pid;
    OthersStay(s, action);
    MovesAppend(s, moves, action);
    if p == pid && q != pid {
      RulingIsOld(s, action, q);
    }
  }

  /** Every read, look, probe, removal and link keeps the account of who got the lock behind whom. */
  lemma MovesKeep(s: State, moves: seq<Move>, action: Action)
    requires Named(s) && MovesInv(s, moves)
    ensures MovesInv(Step(s, action), moves + Moves(s, action))
  {
    var t := Step(s, action);
    OthersStay(s, action);
    MovesAppend(s, moves, action);
    hide Step, GotSince, HasLock, Inspects, Named, RulesOut;
    forall p, q | p in t.procs && RulesOut(t.procs[p], q) && At(t, q, Holding)
      ensures GotSince(moves + Moves(s, action), p, q)
    {
      RulingKeeps(s, moves, action, p, q);
    }
  }

  lemma StrayIsOvertaken(s: State, moves: seq<Move>, action: Action)
    requires Named(s) && MovesInv(s, moves)
    ensures Stray(s, action) <==> Overtaken(s, moves, action)
  {
    if Stray(s, action) {
      assert RulesOut(s.procs[action.pid], s.file.owner);
      assert GotSince(moves, action.pid, s.file.owner);
    }
    if Overtaken(s, moves, action) {
      var q :| GotSince(moves, action.pid, q);
      GotIsHad(moves, action.pid, q);
      assert At(s, q, Holding);
    }
  }

  lemma {:induction false} NamedUnlessOvertaken(s: State, moves: seq<Move>, actions: seq<Action>)
    requires Named(s) && MovesInv(s, moves)
    ensures AlwaysNamed(s, actions) <==> NoneOvertaken(s, moves, actions)
    decreases |actions|
  {
    hide Step, Stray, Named, MovesInv, Overtaken, Moves;
    if actions == [] {
      assert AlwaysNamed(s, actions) && NoneOvertaken(s, moves, actions);
    } else {
      StepNamed(s, actions[0]);
      StrayIsOvertaken(s, moves, actions[0]);
      MovesKeep(s, moves, actions[0]);
      if Named(Step(s, actions[0])) {
        NamedUnlessOvertaken(Step(s, actions[0]), moves + Moves(s, actions[0]), actions[1..]);
      }
    }
  }

  /** With every read, look, removal and link a step of its own, from any file and any processes of which
      none has begun, over crashes, releases and reused pids: throughout a run the file names every
      live holder, and so there is at most one, exactly when no process removes the file after
      another got the lock behind its inspection. */
  lemma SafeExactlyUnlessOvertaken(s: State, actions: seq<Action>)
    requires forall pid :: pid in s.procs ==> 0 < pid <= I32_MAX && s.procs[pid].Idle?
    ensures AlwaysNamed(s, actions) <==> NoneOvertaken(s, [], actions)
  {
    NamedUnlessOvertaken(s, [], actions);
  }

  // ---------------------------------------------------------------- inspecting and clearing as one step

  datatype Coarse =
    | Starting(pid: int)
    | Crashing(pid: int)
    | InspectAndClear(pid: int)
    | Publish(pid: int)
    | Heartbeat(pid: int)
    | ReleaseInspect(pid: int)
    | ReleaseClear(pid: int)

  function Expand(c: Coarse): seq<Action> {
    match c
    case Starting(pid) => [Start(pid)]
    case Crashing(pid) => [Crash(pid)]
    case InspectAndClear(pid) => [Read(pid), Recheck(pid), Probe(pid), Remove(pid)]
    case Publish(pid) => [Link(pid)]
    case Heartbeat(pid) => [Beat(pid)]
    case ReleaseInspect(pid) => [ReleaseRead(pid)]
    case ReleaseClear(pid) => [ReleaseRemove(pid)]
  }

  function PlayCoarse(s: State, run: seq<Coarse>): State
    decreases |run|
  {
    if run == [] then s else PlayCoarse(Play(s, Expand(run[0])), run[1..])
  }

  /** Between coarse steps nobody is half way through an inspection, and a process about to remove its own
      lock is still the one the file names. */
  ghost predicate Settled(s: State) {
    && (forall pid :: pid in s.procs ==>
          && 0 < pid <= I32_MAX
          && !s.procs[pid].Rechecking? && !s.procs[pid].Examining? && !s.procs[pid].Clearing?)
    && (forall pid :: At(s, pid, Removing) ==> Names(s.file, pid))
  }

  /** A coarse step is its fine steps, one after the other. */
  lemma ExpandSteps(s: State, c: Coarse)
    ensures var pid, t := c.pid, Play(s, Expand(c));
            match c
            case Starting(_) => t == Step(s, Start(pid))
            case Crashing(_) => t == Step(s, Crash(pid))
            case InspectAndClear(_) => t == Step(Step(Step(Step(s, Read(pid)), Recheck(pid)), Probe(pid)), Remove(pid))
            case Publish(_) => t == Step(s, Link(pid))
            case Heartbeat(_) => t == Step(s, Beat(pid))
            case ReleaseInspect(_) => t == Step(s, ReleaseRead(pid))
            case ReleaseClear(_) => t == Step(s, ReleaseRemove(pid))
  {
    hide Step;
    var pid := c.pid;
    PlayAppend(s, [Read(pid)], [Recheck(pid)]);
    PlayAppend(s, [Read(pid)] + [Recheck(pid)], [Probe(pid)]);
    PlayAppend(s, [Read(pid)] + [Recheck(pid)] + [Probe(pid)], [Remove(pid)]);
    assert [Read(pid)] + [Recheck(pid)] + [Probe(pid)] + [Remove(pid)] == Expand(InspectAndClear(pid));
    forall a: Action, u: State
      ensures Play(u, [a]) == Step(u, a)
    {
    }
  }

  /** Inspecting and clearing at once removes no lock of a running process. */
  lemma InspectResult(s: State, pid: int)
    ensures var t := Step(Step(Step(Step(s, Read(pid)), Recheck(pid)), Probe(pid)), Remove(pid));
            At(s, pid, Idle) ==>
              && (t.procs == s.procs[pid := Idle] || t.procs == s.procs[pid := Linking] || t.procs == s.procs[pid := Holding])
              && (At(t, pid, Holding) ==> Names(s.file, pid))
              && (t.file != s.file ==> s.file.Lock? ==> !Running(s, s.file.owner))
  {
    if At(s, pid, Idle) {
      var read := Step(s, Read(pid));
      if s.file.Lock? && s.file.ours && s.file.owner != pid {
        assert Step(read, Recheck(pid)) == read;
        assert s.procs[pid := Examining(s.file.owner)][pid := Clearing][pid := Linking] == s.procs[pid := Linking];
        assert s.procs[pid := Examining(s.file.owner)][pid := Idle] == s.procs[pid := Idle];
      } else if s.file.Lock? {
        assert read.procs == s.procs[pid := if s.file.ours then Holding else Idle];
      } else {
        assert s.procs[pid := Rechecking][pid := Clearing][pid := Linking] == s.procs[pid := Linking];
        assert s.procs[pid := Rechecking][pid := Linking] == s.procs[pid := Linking];
      }
    }
  }

  lemma InspectOtherwise(s: State, pid: int)
    requires Settled(s) && !At(s, pid, Idle)
    ensures Step(Step(Step(Step(s, Read(pid)), Recheck(pid)), Probe(pid)), Remove(pid)) == s
  {
  }

  lemma InspectNamed(s: State, pid: int)
    requires Named(s) && Settled(s)
    ensures var t := Step(Step(Step(Step(s, Read(pid)), Recheck(pid)), Probe(pid)), Remove(pid));
            Named(t) && Settled(t)
  {
    var t := Step(Step(Step(Step(s, Read(pid)), Recheck(pid)), Probe(pid)), Remove(pid));
    if At(s, pid, Idle) {
      InspectResult(s, pid);
      hide Step;
      forall q | At(t, q, Holding) || At(t, q, Removing)
        ensures Names(t.file, q)
      {
        if q != pid {
          assert At(s, q, Holding) || At(s, q, Removing);
        }
        assert Names(s.file, q) && Running(s, q);
      }
    } else {
      InspectOtherwise(s, pid);
    }
  }

  /** Any other single step, but for one that would inspect in parts. */
  lemma SettledStep(s: State, action: Action)
    requires Named(s) && Settled(s) && !action.Read? && !action.Recheck? && !action.Probe? && !action.Remove?
    ensures Named(Step(s, action)) && Settled(Step(s, action))
  {
    var t := Step(s, action);
    forall q | At(t, q, Holding) || At(t, q, Removing)
      ensures Names(t.file, q)
    {
      if q != action.pid {
        assert At(s, q, Holding) || At(s, q, Removing);
        assert Names(s.file, q);
      }
    }
  }

  lemma CoarseStep(s: State, c: Coarse)
    requires Named(s) && Settled(s)
    ensures Named(Play(s, Expand(c))) && Settled(Play(s, Expand(c)))
  {
    hide Play, Step, Named, Settled;
    var pid := c.pid;
    ExpandSteps(s, c);
    match c
    case Starting(_) => SettledStep(s, Start(pid));
    case Crashing(_) => SettledStep(s, Crash(pid));
    case InspectAndClear(_) => InspectNamed(s, pid);
    case Publish(_) => SettledStep(s, Link(pid));
    case Heartbeat(_) => SettledStep(s, Beat(pid));
    case ReleaseInspect(_) => SettledStep(s, ReleaseRead(pid));
    case ReleaseClear(_) => SettledStep(s, ReleaseRemove(pid));
  }

  /** With `acquire`'s inspecting and clearing as one step and every other operation a step of its own
      (publishing, and release's read and its removal), over crashes and reused pids, from any file
      and any live processes of which none holds: at most one live process ever holds the lock, and
      the file names it. */
  lemma {:induction false} CoarseLockIsExclusive(s: State, run: seq<Coarse>)
    requires forall pid :: pid in s.procs ==> 0 < pid <= I32_MAX && s.procs[pid].Idle?
    ensures Named(PlayCoarse(s, run)) && AtMostOneHolder(PlayCoarse(s, run))
  {
    CoarseRun(s, run);
    NamedExcludes(PlayCoarse(s, run));
  }

  lemma {:induction false} CoarseRun(s: State, run: seq<Coarse>)
    requires Named(s) && Settled(s)
    ensures Named(PlayCoarse(s, run)) && Settled(PlayCoarse(s, run))
    decreases |run|
  {
    hide Named, Settled, Play;
    if run == [] {
    } else {
      CoarseStep(s, run[0]);
      CoarseRun(Play(s, Expand(run[0])), run[1..]);
    }
  }

  // ---------------------------------------------------------------- the race, and what heartbeats still give

  lemma PlayCons(s: State, action: Action, rest: seq<Action>)
    ensures Play(s, [action] + rest) == Play(Step(s, action), rest)
  {
    hide Step;
    assert ([action] + rest)[1..] == rest;
  }

  lemma TwoMore(s: State, a: Action, b: Action, rest: seq<Action>)
    ensures Play(s, [a] + ([b] + rest)) == Play(Step(Step(s, a), b), rest)
  {
    hide Step, Play;
    PlayCons(s, a, [b] + rest);
    PlayCons(Step(s, a), b, rest);
  }

  /** A process that reads and probes the lock of a dead owner is set to clear it. */
  lemma ReadsDead(s: State, pid: int)
    requires At(s, pid, Idle) && s.file.Lock? && s.file.ours && s.file.owner != pid && !Running(s, s.file.owner)
    ensures Step(Step(s, Read(pid)), Probe(pid)) == Goes(s, pid, Clearing)
  {
    var read := Step(s, Read(pid));
    assert read.procs[pid].Examining?;
    assert s.procs[pid := Examining(s.file.owner)][pid := Clearing] == s.procs[pid := Clearing];
  }

  /** A process set to clear the file ends up holding, whatever lock was there. */
  lemma ClearsAndHolds(s: State, pid: int)
    requires At(s, pid, Clearing)
    ensures var t := Step(Step(s, Remove(pid)), Link(pid));
            t.file == Lock(pid, true) && t.procs == s.procs[pid := Holding]
  {
    assert s.procs[pid := Linking][pid := Holding] == s.procs[pid := Holding];
  }

  /** Two processes that both read a dead owner's lock before either clears it, whatever other processes
      are alive: the second removal takes away the first's lock, and both end up holding. */
  lemma TwoHoldersRace(s: State, p: int, q: int)
    requires At(s, p, Idle) && At(s, q, Idle) && p != q
    requires s.file.Lock? && s.file.ours && !Running(s, s.file.owner) && s.file.owner != p && s.file.owner != q
    ensures var run := [Read(p)] + ([Probe(p)] + ([Read(q)] + ([Probe(q)] + ([Remove(p)] + ([Link(p)] + ([Remove(q)] + ([Link(q)] + [])))))));
            At(Play(s, run), p, Holding) && At(Play(s, run), q, Holding) && !AtMostOneHolder(Play(s, run))
  {
    hide Step, Play;
    var last := [Remove(q)] + ([Link(q)] + []);
    var clears := [Remove(p)] + ([Link(p)] + last);
    TwoMore(s, Read(p), Probe(p), [Read(q)] + ([Probe(q)] + clears));
    ReadsDead(s, p);
    var s1 := Goes(s, p, Clearing);
    TwoMore(s1, Read(q), Probe(q), clears);
    ReadsDead(s1, q);
    var s2 := Goes(s1, q, Clearing);
    TwoMore(s2, Remove(p), Link(p), last);
    ClearsAndHolds(s2, p);
    var s3 := Step(Step(s2, Remove(p)), Link(p));
    TwoMore(s3, Remove(q), Link(q), []);
    ClearsAndHolds(s3, q);
    PlayNothing(Step(Step(s3, Remove(q)), Link(q)));
  }

  /** Two processes that both find no readable lock before either looks again, on an empty home or on a
      corrupt file: the second's look finds the first's lock and clears it, and both end up
      holding. No owner has died. */
  lemma EmptyHomeRace(s: State, p: int, q: int)
    requires At(s, p, Idle) && At(s, q, Idle) && p != q && !s.file.Lock?
    ensures var run := [Read(p)] + ([Read(q)] + ([Recheck(q)] + ([Remove(q)] + ([Link(q)] + ([Recheck(p)] + ([Remove(p)] + ([Link(p)] + [])))))));
            At(Play(s, run), p, Holding) && At(Play(s, run), q, Holding) && !AtMostOneHolder(Play(s, run))
  {
    hide Step, Play;
    var last := [Remove(p)] + ([Link(p)] + []);
    var middle := [Link(q)] + ([Recheck(p)] + last);
    TwoMore(s, Read(p), Read(q), [Recheck(q)] + ([Remove(q)] + middle));
    FindsNothing(s, p);
    FindsNothing(Step(s, Read(p)), q);
    var s1 := Step(Step(s, Read(p)), Read(q));
    TwoMore(s1, Recheck(q), Remove(q), middle);
    LooksAndClears(s1, q);
    var s2 := Step(Step(s1, Recheck(q)), Remove(q));
    TwoMore(s2, Link(q), Recheck(p), last);
    LinksUnseen(s2, p, q);
    var s3 := Step(Step(s2, Link(q)), Recheck(p));
    TwoMore(s3, Remove(p), Link(p), []);
    ClearsAndHolds(s3, p);
    PlayNothing(Step(Step(s3, Remove(p)), Link(p)));
  }

  lemma FindsNothing(s: State, pid: int)
    requires At(s, pid, Idle) && !s.file.Lock?
    ensures Step(s, Read(pid)) == Goes(s, pid, Rechecking)
  {
  }

  lemma LooksAndClears(s: State, pid: int)
    requires At(s, pid, Rechecking)
    ensures var t := Step(Step(s, Recheck(pid)), Remove(pid));
            t.file == Absent && t.procs == s.procs[pid := Linking]
  {
    assert s.procs[pid := Clearing][pid := Linking] == s.procs[pid := Linking];
  }

  lemma LinksUnseen(s: State, p: int, q: int)
    requires At(s, p, Rechecking) && At(s, q, Linking) && s.file.Absent?
    ensures Step(Step(s, Link(q)), Recheck(p)).procs == s.procs[q := Holding][p := Clearing]
  {
  }

  /** Do two processes hold at once at some point of the run? */
  ghost predicate EverTwo(s: State, actions: seq<Action>)
    decreases |actions|
  {
    !AtMostOneHolder(s) || (actions != [] && EverTwo(Step(s, actions[0]), actions[1..]))
  }

  /** Steps of processes other than `pid`. */
  ghost predicate Others(actions: seq<Action>, pid: int) {
    forall i :: 0 <= i < |actions| ==> actions[i].pid != pid
  }

  /** While the file is missing and `q` holds, whoever links next holds as well. */
  lemma {:induction false} NextLinkJoins(s: State, p: int, q: int, between: seq<Action>)
    requires At(s, p, Linking) && At(s, q, Holding) && s.file.Absent?
    requires Others(between, p) && Others(between, q)
    ensures EverTwo(s, between + [Link(p)])
    decreases |between|
  {
    var run := between + [Link(p)];
    if between == [] {
      var t := Step(s, Link(p));
      assert At(t, p, Holding) && At(t, q, Holding);
      assert run[0] == Link(p) && EverTwo(t, run[1..]);
    } else {
      var a := between[0];
      var t := Step(s, a);
      assert At(t, p, Linking) && At(t, q, Holding);
      assert run[0] == a && run[1..] == between[1..] + [Link(p)];
      if t.file.Absent? {
        hide Step, At, AtMostOneHolder;
        NextLinkJoins(t, p, q, between[1..]);
      } else {
        assert a.pid != q && At(t, a.pid, Holding);
        assert EverTwo(t, run[1..]);
      }
    }
  }

  /** In every schedule in which a process removes the file while another holds, and then links: whatever
      third processes do in between, two hold at once before its link is over. */
  lemma RemovalBehindHolderBreaksExclusion(s: State, p: int, q: int, between: seq<Action>)
    requires At(s, p, Clearing) && At(s, q, Holding) && Others(between, p) && Others(between, q)
    ensures EverTwo(s, [Remove(p)] + between + [Link(p)])
  {
    var t := Step(s, Remove(p));
    var run := [Remove(p)] + between + [Link(p)];
    assert At(t, p, Linking) && At(t, q, Holding) && t.file.Absent?;
    assert run[0] == Remove(p) && run[1..] == between + [Link(p)];
    hide Step, At, AtMostOneHolder;
    NextLinkJoins(t, p, q, between);
  }

  lemma PlayNothing(s: State)
    ensures Play(s, []) == s
  {
  }

  ghost predicate Quiet(log: seq<Entry>, i: int, j: int)
    requires 0 <= i && j <= |log|
  {
    forall k :: i < k < j ==> !log[k].Changed?
  }

  /** Between two changes of the file, only one process passes its heartbeats. */
  ghost predicate OnePasser(log: seq<Entry>) {
    forall i, j :: 0 <= i < j < |log| && log[i].Passed? && log[j].Passed? && Quiet(log, i, j) ==> log[i].pid == log[j].pid
  }

  ghost predicate PassersNamed(s: State) {
    forall i :: 0 <= i < |s.log| && s.log[i].Passed? && Quiet(s.log, i, |s.log|) ==> Names(s.file, s.log[i].pid)
  }

  lemma StepPasses(s: State, action: Action)
    requires OnePasser(s.log) && PassersNamed(s)
    ensures OnePasser(Step(s, action).log) && PassersNamed(Step(s, action))
  {
    var t := Step(s, action);
    assert t.log == s.log || (|t.log| == |s.log| + 1 && t.log[..|s.log|] == s.log);
    if t.log != s.log {
      var n := |s.log|;
      assert forall k :: 0 <= k < n ==> t.log[k] == s.log[k];
      forall i, j | 0 <= i < j < |t.log| && t.log[i].Passed? && t.log[j].Passed? && Quiet(t.log, i, j)
        ensures t.log[i].pid == t.log[j].pid
      {
        assert Quiet(s.log, i, j);
      }
      forall i | 0 <= i < |t.log| && t.log[i].Passed? && Quiet(t.log, i, |t.log|)
        ensures Names(t.file, t.log[i].pid)
      {
        assert !t.log[n].Changed?;
        if i < n {
          assert Quiet(s.log, i, n);
        }
      }
    }
  }

  lemma {:induction false} PlayPasses(s: State, actions: seq<Action>)
    requires OnePasser(s.log) && PassersNamed(s)
    ensures OnePasser(Play(s, actions).log) && PassersNamed(Play(s, actions))
    decreases |actions|
  {
    hide Step, OnePasser, PassersNamed;
    if actions == [] {
    } else {
      StepPasses(s, actions[0]);
      PlayPasses(Step(s, actions[0]), actions[1..]);
    }
  }

  /** Even where removals go astray, from any file and any processes: two heartbeats that pass between
      the same two changes of the file are one process's. */
  lemma HeartbeatsAreExclusive(file: File, procs: map<int, Phase>, actions: seq<Action>)
    ensures OnePasser(Play(State(file, procs, []), actions).log)
  {
    PlayPasses(State(file, procs, []), actions);
  }

  /** A process that was displaced and has neither released nor crashed. */
  ghost predicate Displaced(s: State, pid: int) {
    (At(s, pid, Holding) || At(s, pid, Stopping)) && !Names(s.file, pid)
  }

  ghost predicate StaysOn(actions: seq<Action>, pid: int) {
    forall a :: a in actions && a.pid == pid ==> !a.Crash? && !a.ReleaseRead?
  }

  /** A holder whose lock was taken away never passes another heartbeat, whatever the others do: its
      next heartbeat makes it stop, and it never finds its own pid in the file again. */
  lemma {:induction false} DisplacedHolderStops(s: State, pid: int, actions: seq<Action>)
    requires Displaced(s, pid) && StaysOn(actions, pid)
    ensures var t := Play(s, actions);
            && Displaced(t, pid)
            && |s.log| <= |t.log| && Passed(pid) !in t.log[|s.log|..]
            && (At(s, pid, Stopping) || Beat(pid) in actions ==> At(t, pid, Stopping))
    decreases |actions|
  {
    if actions == [] {
      assert Play(s, actions) == s;
    } else {
      var next, rest := Step(s, actions[0]), actions[1..];
      assert actions[0] in actions;
      DisplacedStep(s, pid, actions[0]);
      hide Step, Displaced;
      DisplacedHolderStops(next, pid, rest);
      var t := Play(s, actions);
      if next.log != s.log {
        LogGrows(next, rest);
        TailStartsWith(t.log, next.log, |s.log|);
      }
      assert Beat(pid) in actions ==> actions[0] == Beat(pid) || Beat(pid) in rest;
    }
  }

  lemma TailStartsWith(log: seq<Entry>, part: seq<Entry>, n: nat)
    requires part <= log && |part| == n + 1
    ensures log[n..] == [part[n]] + log[n + 1..]
  {
  }

  lemma DisplacedStep(s: State, pid: int, action: Action)
    requires Displaced(s, pid) && StaysOn([action], pid)
    ensures var next := Step(s, action);
            && Displaced(next, pid)
            && (next.log == s.log || (|next.log| == |s.log| + 1 && next.log[|s.log|] != Passed(pid)))
            && (At(s, pid, Stopping) || action == Beat(pid) ==> At(next, pid, Stopping))
  {
    assert action in [action];
  }

  lemma {:induction false} LogGrows(s: State, actions: seq<Action>)
    ensures s.log <= Play(s, actions).log
    decreases |actions|
  {
    if actions == [] {
    } else {
      assert s.log <= Step(s, actions[0]).log;
      LogGrows(Step(s, actions[0]), actions[1..]);
    }
  }

  // ---------------------------------------------------------------- undisturbed calls

  function FiveSteps(s: State, pid: int): State {
    Step(Step(Step(Step(Step(s, Read(pid)), Recheck(pid)), Probe(pid)), Remove(pid)), Link(pid))
  }

  /** `acquire` when nobody interferes: it gets the lock exactly when there is none to read, the lock is its
      own, or its owner is not a live process; a foreign product's lock and a live owner's stay. */
  lemma UndisturbedAcquire(s: State, pid: int)
    requires At(s, pid, Idle) && forall p :: p in s.procs ==> 0 < p <= I32_MAX
    ensures var t := FiveSteps(s, pid);
            && (At(t, pid, Holding) <==>
                  !s.file.Lock? || (s.file.ours && (s.file.owner == pid || s.file.owner !in s.procs)))
            && (!At(t, pid, Holding) ==> At(t, pid, Idle) && t.file == s.file)
            && (At(t, pid, Holding) ==>
                  t.file == if s.file.Lock? && s.file.owner == pid then s.file else Lock(pid, true))
  {
    var read := Step(s, Read(pid));
    if !s.file.Lock? {
      FindsNothing(s, pid);
      var looked := Step(read, Recheck(pid));
      assert looked.file == s.file;
      assert Step(looked, Probe(pid)) == looked;
    } else {
      assert Step(read, Recheck(pid)) == read;
    }
  }

  /** `release` when nobody interferes removes the file exactly when it names the process. */
  lemma UndisturbedRelease(s: State, pid: int)
    requires At(s, pid, Holding) || At(s, pid, Stopping)
    ensures var t := Step(Step(s, ReleaseRead(pid)), ReleaseRemove(pid));
            At(t, pid, Idle) && t.file == if s.file.Lock? && s.file.owner == pid then Absent else s.file
  {
  }

  // ---------------------------------------------------------------- the calls

  datatype Outcome = Acquired | Held(owner: int) | ForeignProduct | NotPublished

  /** `pid`'s own steps in a schedule, in order. */
  ghost function Own(schedule: seq<Action>, pid: int): seq<Action> {
    if schedule == [] then []
    else (if schedule[0].pid == pid then [schedule[0]] else []) + Own(schedule[1..], pid)
  }

  lemma {:induction false} OwnAppend(a: seq<Action>, b: seq<Action>, pid: int)
    ensures Own(a + b, pid) == Own(a, pid) + Own(b, pid)
  {
    if a == [] {
      assert a + b == b;
    } else {
      var first := if a[0].pid == pid then [a[0]] else [];
      assert (a + b)[0] == a[0] && (a + b)[1..] == a[1..] + b;
      OwnAppend(a[1..], b, pid);
      assert first + (Own(a[1..], pid) + Own(b, pid)) == (first + Own(a[1..], pid)) + Own(b, pid);
    }
  }

  /** With no readable lock it looks for a file once more, and removes whatever is there by then. */
  ghost predicate AfterLook(own: seq<Action>, pid: int) {
    own == [Read(pid), Recheck(pid), Link(pid)] || own == [Read(pid), Recheck(pid), Remove(pid), Link(pid)]
  }

  /** The steps `acquire` takes after finding `seen`. */
  ghost predicate AcquireSteps(seen: File, own: seq<Action>, pid: int) {
    match seen
    case Absent => AfterLook(own, pid)
    case Corrupt => AfterLook(own, pid)
    case Lock(owner, ours) =>
      if !ours || owner == pid then own == [Read(pid)]
      else own == [Read(pid), Probe(pid)] || own == [Read(pid), Probe(pid), Remove(pid), Link(pid)]
  }

  /** What other processes do leaves `pid` where it stands. */
  lemma {:induction false} OthersKeep(s: State, others: seq<Action>, pid: int)
    requires pid in s.procs && Others(others, pid)
    ensures At(Play(s, others), pid, s.procs[pid])
    ensures Own(others, pid) == []
    decreases |others|
  {
    if others == [] {
    } else {
      OthersKeep(Step(s, others[0]), others[1..], pid);
    }
  }

  /** One more step of `pid`, and then what the others do. */
  lemma Extend(start: State, schedule: seq<Action>, action: Action, others: seq<Action>)
    returns (longer: seq<Action>)
    requires action.pid in Step(Play(start, schedule), action).procs && Others(others, action.pid)
    ensures longer == schedule + [action] + others
    ensures Play(start, longer) == Play(Step(Play(start, schedule), action), others)
    ensures Own(longer, action.pid) == Own(schedule, action.pid) + [action]
    ensures At(Play(start, longer), action.pid, Step(Play(start, schedule), action).procs[action.pid])
  {
    var pid := action.pid;
    longer := schedule + [action] + others;
    OthersKeep(Step(Play(start, schedule), action), others, pid);
    hide Step;
    PlayAppend(start, schedule, [action]);
    PlayAppend(start, schedule + [action], others);
    PlayCons(Play(start, schedule), action, []);
    PlayNothing(Step(Play(start, schedule), action));
    assert [action] + [] == [action];
    OwnAppend(schedule, [action], pid);
    OwnAppend(schedule + [action], others, pid);
    assert Own([action], pid) == [action] + Own([], pid);
  }

  /** The state directory. What other processes do to it between the steps of one call is given to that
      call. */
  class Home {
    var file: File
    var procs: map<int, Phase>
    var log: seq<Entry>

    function Now(): State
      reads this
    {
      State(file, procs, log)
    }

    constructor (file: File, procs: map<int, Phase>)
      ensures Now() == State(file, procs, [])
    {
      this.file, this.procs, this.log := file, procs, [];
    }

    method WriteFile(content: File)
      modifies this`file, this`log
      ensures Now() == Write(old(Now()), content)
    {
      if file != content {
        file, log := content, log + [Changed];
      }
    }

    method Interfere(others: seq<Action>)
      modifies this
      ensures Now() == Play(old(Now()), others)
    {
      var s := Play(Now(), others);
      file, procs, log := s.file, s.procs, s.log;
    }

    /** Is the owner that `pid` read still running? If not, its lock is to be cleared. */
    method Judge(pid: int, owner: int, others: seq<Action>, ghost start: State, ghost schedule: seq<Action>)
      returns (running: bool, ghost longer: seq<Action>)
      requires At(Now(), pid, Examining(owner)) && Now() == Play(start, schedule) && Others(others, pid)
      modifies this
      ensures Now() == Play(start, longer) && Own(longer, pid) == Own(schedule, pid) + [Probe(pid)]
      ensures running == Running(old(Now()), owner)
      ensures At(Now(), pid, if running then Idle else Clearing)
    {
      hide Own;
      longer := Extend(start, schedule, Probe(pid), others);
      running := Running(Now(), owner);
      procs := procs[pid := if running then Idle else Clearing];
      assert Now() == Step(Play(start, schedule), Probe(pid));
      Interfere(others);
    }

    /** Is there a file now? If so it is to be cleared. */
    method Look(pid: int, others: seq<Action>, ghost start: State, ghost schedule: seq<Action>)
      returns (found: bool, ghost longer: seq<Action>)
      requires At(Now(), pid, Rechecking) && Now() == Play(start, schedule) && Others(others, pid)
      modifies this
      ensures Now() == Play(start, longer) && Own(longer, pid) == Own(schedule, pid) + [Recheck(pid)]
      ensures found == !old(file).Absent?
      ensures At(Now(), pid, if found then Clearing else Linking)
    {
      hide Own;
      longer := Extend(start, schedule, Recheck(pid), others);
      found := !file.Absent?;
      procs := procs[pid := if found then Clearing else Linking];
      assert Now() == Step(Play(start, schedule), Recheck(pid));
      Interfere(others);
    }

    /** Removes the file, whatever it holds by now. */
    method Clear(pid: int, others: seq<Action>, ghost start: State, ghost schedule: seq<Action>)
      returns (ghost longer: seq<Action>)
      requires At(Now(), pid, Clearing) && Now() == Play(start, schedule) && Others(others, pid)
      modifies this
      ensures Now() == Play(start, longer) && Own(longer, pid) == Own(schedule, pid) + [Remove(pid)]
      ensures At(Now(), pid, Linking)
    {
      hide Own;
      longer := Extend(start, schedule, Remove(pid), others);
      WriteFile(Absent);
      procs := procs[pid := Linking];
      assert Now() == Step(Play(start, schedule), Remove(pid));
      Interfere(others);
    }

    /** Links the new lock, which fails if there is a file; then reads whose it is. */
    method Publish(pid: int, others: seq<Action>, ghost start: State, ghost schedule: seq<Action>)
      returns (r: Outcome, ghost longer: seq<Action>)
      requires At(Now(), pid, Linking) && Now() == Play(start, schedule) && Others(others, pid)
      modifies this
      ensures Now() == Play(start, longer) && Own(longer, pid) == Own(schedule, pid) + [Link(pid)]
      ensures r.Acquired? == old(file).Absent? && !r.ForeignProduct?
      ensures At(Now(), pid, if r.Acquired? then Holding else Idle)
      ensures !r.Acquired? ==> r == if file.Lock? then Held(file.owner) else NotPublished
    {
      hide Own;
      longer := Extend(start, schedule, Link(pid), others);
      var linked := file.Absent?;
      if linked {
        WriteFile(Lock(pid, true));
      }
      procs := procs[pid := if linked then Holding else Idle];
      assert Now() == Step(Play(start, schedule), Link(pid));
      Interfere(others);
      r := if linked then Acquired else if file.Lock? then Held(file.owner) else NotPublished;
    }

    /** `acquire` after reading another's lock. */
    method TakeOver(pid: int, owner: int, rivals: seq<seq<Action>>, ghost start: State, ghost read: seq<Action>)
      returns (r: Outcome, ghost schedule: seq<Action>)
      requires At(Now(), pid, Examining(owner)) && owner != pid
      requires Now() == Play(start, read) && Own(read, pid) == [Read(pid)]
      requires |rivals| == 4 && forall i :: 0 <= i < |rivals| ==> Others(rivals[i], pid)
      modifies this
      ensures Now() == Play(start, schedule) && !r.ForeignProduct?
      ensures AcquireSteps(Lock(owner, true), Own(schedule, pid), pid)
      ensures At(Now(), pid, if r.Acquired? then Holding else Idle)
    {
      hide Play, Own, Step;
      var running;
      running, schedule := Judge(pid, owner, rivals[1], start, read);
      assert Own(schedule, pid) == [Read(pid), Probe(pid)];
      if running {
        return Held(owner), schedule;
      }
      schedule := Clear(pid, rivals[2], start, schedule);
      assert Own(schedule, pid) == [Read(pid), Probe(pid), Remove(pid)];
      r, schedule := Publish(pid, rivals[3], start, schedule);
    }

    /** `acquire` after reading no lock. */
    method TakeUp(pid: int, rivals: seq<seq<Action>>, ghost start: State, ghost read: seq<Action>)
      returns (r: Outcome, ghost schedule: seq<Action>)
      requires At(Now(), pid, Rechecking) && Now() == Play(start, read) && Own(read, pid) == [Read(pid)]
      requires |rivals| == 4 && forall i :: 0 <= i < |rivals| ==> Others(rivals[i], pid)
      modifies this
      ensures Now() == Play(start, schedule) && !r.ForeignProduct?
      ensures AfterLook(Own(schedule, pid), pid)
      ensures At(Now(), pid, if r.Acquired? then Holding else Idle)
    {
      hide Play, Own, Step;
      var found;
      found, schedule := Look(pid, rivals[1], start, read);
      assert Own(schedule, pid) == [Read(pid), Recheck(pid)];
      if found {
        schedule := Clear(pid, rivals[2], start, schedule);
        assert Own(schedule, pid) == [Read(pid), Recheck(pid), Remove(pid)];
      }
      r, schedule := Publish(pid, rivals[3], start, schedule);
    }

    /** `acquire`: its own steps, in this order and with the rivals' in between, make up the schedule that
        takes the directory to its new state; it returns the lock exactly when `pid` then holds. */
    method Acquire(pid: int, rivals: seq<seq<Action>>) returns (r: Outcome, ghost schedule: seq<Action>)
      requires At(Now(), pid, Idle)
      requires |rivals| == 4 && forall i :: 0 <= i < |rivals| ==> Others(rivals[i], pid)
      modifies this
      ensures Now() == Play(old(Now()), schedule)
      ensures AcquireSteps(old(file), Own(schedule, pid), pid)
      ensures At(Now(), pid, if r.Acquired? then Holding else Idle)
      ensures r.ForeignProduct? <==> old(file).Lock? && !old(file).ours
    {
      ghost var start := Now();
      var seen := file;
      PlayNothing(start);
      assert Own([], pid) == [];
      schedule := Extend(start, [], Read(pid), rivals[0]);
      assert Own(schedule, pid) == [Read(pid)] && Step(start, Read(pid)) == StepRead(start, pid);
      hide Play, Own, Step;
      if seen.Lock? && !seen.ours {
        Interfere(rivals[0]);
        return ForeignProduct, schedule;
      }
      if seen.Lock? && seen.owner == pid {
        procs := procs[pid := Holding];
        Interfere(rivals[0]);
        return Acquired, schedule;
      }
      if seen.Lock? {
        procs := procs[pid := Examining(seen.owner)];
        Interfere(rivals[0]);
        r, schedule := TakeOver(pid, seen.owner, rivals, start, schedule);
      } else {
        procs := procs[pid := Rechecking];
        Interfere(rivals[0]);
        r, schedule := TakeUp(pid, rivals, start, schedule);
      }
    }

    /** `heartbeat`: passes exactly when the file still names `pid`; losing it is fatal. */
    method Heartbeat(pid: int) returns (ok: bool)
      requires At(Now(), pid, Holding)
      modifies this
      ensures Now() == Step(old(Now()), Beat(pid)) && file == old(file)
      ensures ok <==> Names(file, pid)
      ensures At(Now(), pid, if ok then Holding else Stopping)
    {
      ok := file.Lock? && file.owner == pid;
      if ok {
        log := log + [Passed(pid)];
      } else {
        procs := procs[pid := Stopping];
      }
    }

    /** `release`: reads the file and, if it named `pid` then, removes what is there afterwards. */
    method Release(pid: int, rivals: seq<Action>) returns (ghost schedule: seq<Action>)
      requires At(Now(), pid, Holding) || At(Now(), pid, Stopping)
      requires Others(rivals, pid)
      modifies this
      ensures Now() == Play(old(Now()), schedule) && At(Now(), pid, Idle)
      ensures Own(schedule, pid) ==
              if Names(old(file), pid) then [ReleaseRead(pid), ReleaseRemove(pid)] else [ReleaseRead(pid)]
      ensures Names(old(file), pid) ==> file.Absent?
    {
      ghost var start := Now();
      PlayNothing(start);
      assert Own([], pid) == [];
      schedule := Extend(start, [], ReleaseRead(pid), rivals);
      hide Own;
      var mine := file.Lock? && file.owner == pid;
      procs := procs[pid := if mine then Removing else Idle];
      assert Now() == Step(start, ReleaseRead(pid));
      Interfere(rivals);
      hide Play;
      if mine {
        ghost var before := Now();
        schedule := Extend(start, schedule, ReleaseRemove(pid), []);
        WriteFile(Absent);
        procs := procs[pid := Idle];
        PlayNothing(Step(before, ReleaseRemove(pid)));
      }
    }
  }
}
