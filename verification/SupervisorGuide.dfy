/**
 What the supervisor must do next, said from its history alone
 (apps/daemon-rs/src/supervisor.rs:249-359): no field of the machine is read, only what it has done.
 */
module SupervisorGuide {
  import opened Arithmetic
  import opened Sequences
  import opened Supervisor

  // ---------------------------------------------------------------- more to read in a trace

  ghost predicate HasReturned(trace: seq<Effect>) {
    trace != [] && trace[|trace| - 1].Returned?
  }

  /** Until when a crash is being waited out, if it is. */
  ghost function Pausing(trace: seq<Effect>): Option<nat> {
    var n := |trace|;
    if n >= 2 && trace[n - 1].BackedOff? && trace[n - 2].Exited? then Some(trace[n - 2].at + trace[n - 1].delay) else None
  }

  /** Has a request of this kind been accepted since the last spawn? */
  ghost predicate Asked(trace: seq<Effect>, stop: bool) {
    trace != [] &&
    (var last := trace[|trace| - 1];
     (last.Accepted? && last.stop == stop) || (!last.Spawned? && Asked(trace[..|trace| - 1], stop)))
  }

  ghost function Spawns(trace: seq<Effect>): nat {
    if trace == [] then 0 else Spawns(trace[..|trace| - 1]) + if trace[|trace| - 1].Spawned? then 1 else 0
  }

  // ---------------------------------------------------------------- what is due

  /** After an exit: a stop ends the run, a restart goes on to spawn, a crash is waited out, and any other
      exit ends the run with its code. */
  ghost function DueAfterExit(trace: seq<Effect>, now: nat, code: Option<int>, signal: Option<nat>): seq<Effect> {
    if Asked(trace, true) then [Returned(Requested)]
    else if Asked(trace, false) then []
    else if (code.Some? && code.value != 0) || (signal.Some? && signal.value != 15) then
      var crashes := 1 + if now - SpawnedAt(trace) >= 60_000 then 0 else Streak(trace);
      [BackedOff(crashes, CrashDelay(crashes))]
    else [Returned(WorkerExited(if code.Some? then code.value else 1))]
  }

  ghost function DueFromWorker(trace: seq<Effect>, worker: nat, now: nat, choice: Choice): seq<Effect> {
    match choice
    case Ready(listen) => [Published(worker, "ws://" + listen + "/ws")]
    case RestartMessage => if Asked(trace, true) || Asked(trace, false) then [] else [Accepted(false, now)]
    case ShutdownMessage => if Asked(trace, true) then [] else [Accepted(true, now)]
    case StopRequest => if Asked(trace, true) then [] else [Accepted(true, now)]
    case GraceOver =>
      if Obeying(trace).Some? && now >= Obeying(trace).value + 10_000 then [Killed(now)] else []
    case Exiting(code, signal) => [Exited(worker, now, code, signal)] + DueAfterExit(trace, now, code, signal)
    case _ => []
  }

  ghost function Due(trace: seq<Effect>, now: nat, choice: Choice): seq<Effect> {
    if HasReturned(trace) then []
    else if Current(trace).Some? then DueFromWorker(trace, Current(trace).value, now, choice)
    else if Pausing(trace).Some? then
      if choice.DelayOver? && now >= Pausing(trace).value then [Resumed(now)]
      else if choice.StopRequest? then [Accepted(true, now), Returned(Requested)]
      else []
    else if choice == Spawning(true) then [Spawned(Spawns(trace) + 1, now)]
    else if choice == Spawning(false) then [Returned(WorkerExited(1))]
    else []
  }

  // ---------------------------------------------------------------- the machine does what is due

  /** What the machine's fields have to do with its trace. */
  ghost predicate GuideInv(s: State) {
    && (s.phase.Done? <==> HasReturned(s.trace))
    && (s.phase.Done? ==> s.trace[|s.trace| - 1].exit == s.phase.exit)
    && Pausing(s.trace) == (if s.phase.Waiting? then Some(s.phase.until) else None)
    && (s.phase.Up? ==> s.stop == Asked(s.trace, true) && s.restart == Asked(s.trace, false))
    && s.workers == Spawns(s.trace)
  }

  lemma GuideSnoc(trace: seq<Effect>, e: Effect)
    ensures HasReturned(trace + [e]) <==> e.Returned?
    ensures !e.BackedOff? ==> Pausing(trace + [e]) == None
    ensures e.BackedOff? && trace != [] && trace[|trace| - 1].Exited? ==>
              Pausing(trace + [e]) == Some(trace[|trace| - 1].at + e.delay)
    ensures forall stop :: Asked(trace + [e], stop) <==> (e.Accepted? && e.stop == stop) || (!e.Spawned? && Asked(trace, stop))
    ensures Spawns(trace + [e]) == Spawns(trace) + if e.Spawned? then 1 else 0
  {
    assert (trace + [e])[..|trace|] == trace;
  }

  lemma ExitIsGuided(s: State, code: Option<int>, signal: Option<nat>)
    requires StateInv(s) && GuideInv(s) && s.phase.Up?
    ensures var t := StepUp(s, Exiting(code, signal));
            GuideInv(t) && t.trace == s.trace + DueFromWorker(s.trace, s.workers, s.now, Exiting(code, signal))
  {
    hide TraceInv, Alive, Current, Announced, Obeying, SpawnedAt, Streak, StopAccepted, CrashDelay, Asked, Spawns, HasReturned, Pausing;
    var e := Exited(s.workers, s.now, code, signal);
    GuideSnoc(s.trace, e);
    var due := DueAfterExit(s.trace, s.now, code, signal);
    if due == [] {
      assert [e] + due == [e];
    } else {
      GuideSnoc(s.trace + [e], due[0]);
      TwoSteps(s.trace, e, due);
    }
  }

  lemma TwoSteps<T>(front: seq<T>, e: T, due: seq<T>)
    requires |due| == 1
    ensures front + ([e] + due) == front + [e] + [due[0]]
  {
  }

  lemma WorkerIsGuided(s: State, choice: Choice)
    requires StateInv(s) && GuideInv(s) && s.phase.Up?
    ensures var t := StepUp(s, choice);
            GuideInv(t) && t.trace == s.trace + DueFromWorker(s.trace, s.workers, s.now, choice)
  {
    if choice.Exiting? {
      ExitIsGuided(s, choice.code, choice.signal);
    } else {
      var due := DueFromWorker(s.trace, s.workers, s.now, choice);
      if due != [] {
        GuideSnoc(s.trace, due[0]);
      }
      hide TraceInv, Alive, Current, Announced, Obeying, SpawnedAt, Streak, StopAccepted, CrashDelay, Asked, Spawns, HasReturned, Pausing;
    }
  }

  lemma StartIsGuided(s: State, tick: Tick)
    requires StateInv(s) && GuideInv(s) && s.phase.Starting?
    ensures var t := Step(s, tick);
            GuideInv(t) && t.trace == s.trace + Due(s.trace, s.now + tick.delay, tick.choice)
  {
    hide TraceInv, Alive, Current, Announced, Obeying, SpawnedAt, Streak, StopAccepted, StepUp, Asked, Spawns, HasReturned, Pausing,
         DueFromWorker;
    var due := Due(s.trace, s.now + tick.delay, tick.choice);
    if due != [] {
      GuideSnoc(s.trace, due[0]);
    }
  }

  lemma WaitIsGuided(s: State, tick: Tick)
    requires StateInv(s) && GuideInv(s) && s.phase.Waiting?
    ensures var t := Step(s, tick);
            GuideInv(t) && t.trace == s.trace + Due(s.trace, s.now + tick.delay, tick.choice)
  {
    hide TraceInv, Alive, Current, Announced, Obeying, SpawnedAt, Streak, StopAccepted, StepUp, Asked, Spawns, HasReturned, Pausing,
         DueFromWorker;
    var now := s.now + tick.delay;
    if tick.choice.DelayOver? {
      GuideSnoc(s.trace, Resumed(now));
    } else if tick.choice.StopRequest? {
      GuideSnoc(s.trace, Accepted(true, now));
      GuideSnoc(s.trace + [Accepted(true, now)], Returned(Requested));
      TwoSteps(s.trace, Accepted(true, now), [Returned(Requested)]);
    }
  }

  lemma UpIsGuided(s: State, tick: Tick)
    requires StateInv(s) && GuideInv(s) && s.phase.Up?
    ensures var t := Step(s, tick);
            GuideInv(t) && t.trace == s.trace + Due(s.trace, s.now + tick.delay, tick.choice)
  {
    hide StateInv, GuideInv, StepUp, DueFromWorker, Current, HasReturned, Step, Due;
    var later := s.(now := s.now + tick.delay);
    LaterIsUp(s, tick.delay);
    StepIsUp(s, tick);
    WorkerDecides(s.trace, s.workers, later.now, tick.choice);
    WorkerIsGuided(later, tick.choice);
  }

  lemma StepIsUp(s: State, tick: Tick)
    requires s.phase.Up?
    ensures Step(s, tick) == StepUp(s.(now := s.now + tick.delay), tick.choice)
  {
    hide StepUp;
  }

  lemma WorkerDecides(trace: seq<Effect>, worker: nat, now: nat, choice: Choice)
    requires !HasReturned(trace) && Current(trace) == Some(worker)
    ensures Due(trace, now, choice) == DueFromWorker(trace, worker, now, choice)
  {
    hide DueFromWorker, HasReturned, Current;
  }

  lemma LaterIsUp(s: State, delay: nat)
    requires StateInv(s) && GuideInv(s) && s.phase.Up?
    ensures var later := s.(now := s.now + delay); StateInv(later) && GuideInv(later)
    ensures !HasReturned(s.trace) && Current(s.trace) == Some(s.workers)
  {
    hide TraceInv, Alive, Current, Announced, Obeying, SpawnedAt, Streak, StopAccepted, Asked, Spawns, HasReturned, Pausing;
  }

  lemma DoneIsGuided(s: State, tick: Tick)
    requires GuideInv(s) && s.phase.Done?
    ensures var t := Step(s, tick);
            GuideInv(t) && t.trace == s.trace + Due(s.trace, s.now + tick.delay, tick.choice)
  {
    hide StepUp, Asked, Spawns, Pausing, Current, DueFromWorker;
    assert s.trace + [] == s.trace;
  }

  lemma StepIsGuided(s: State, tick: Tick)
    requires StateInv(s) && GuideInv(s)
    ensures var t := Step(s, tick);
            && GuideInv(t) && t.now == s.now + tick.delay
            && t.trace == s.trace + Due(s.trace, s.now + tick.delay, tick.choice)
  {
    hide Step, Due, StateInv, GuideInv;
    StepKeepsTime(s, tick);
    match s.phase
    case Up => UpIsGuided(s, tick);
    case Starting => StartIsGuided(s, tick);
    case Waiting(_) => WaitIsGuided(s, tick);
    case Done(_) => DoneIsGuided(s, tick);
  }

  lemma StepKeepsTime(s: State, tick: Tick)
    ensures Step(s, tick).now == s.now + tick.delay
  {
    hide CrashDelay, WsUrl, Crashed;
  }

  /** The time of a run is the sum of its delays. */
  ghost function Elapsed(script: seq<Tick>): nat {
    if script == [] then 0 else Elapsed(script[..|script| - 1]) + script[|script| - 1].delay
  }

  lemma {:induction false} RunIsGuided(script: seq<Tick>)
    ensures var s := Play(INITIAL, script); StateInv(s) && GuideInv(s) && s.now == Elapsed(script)
  {
    if script == [] {
      InitialIsSafe();
      assert Play(INITIAL, script) == INITIAL;
    } else {
      hide Step, StateInv, GuideInv, Due, Play;
      var before, last := script[..|script| - 1], script[|script| - 1];
      assert script == before + [last];
      RunIsGuided(before);
      PlaySnoc(INITIAL, before, last);
      StepKeeps(Play(INITIAL, before), last);
      StepIsGuided(Play(INITIAL, before), last);
    }
  }

  lemma {:induction false} PlaySnoc(s: State, script: seq<Tick>, tick: Tick)
    ensures Play(s, script + [tick]) == Step(Play(s, script), tick)
    decreases |script|
  {
    hide Step;
    if script == [] {
      assert Play(s, [tick]) == Play(Step(s, tick), []);
    } else {
      assert (script + [tick])[1..] == script[1..] + [tick];
      PlaySnoc(Step(s, script[0]), script[1..], tick);
    }
  }

  /** At every point of every run, whatever the environment chooses next, the supervisor does exactly what
      its own history makes due, and its result is the one it returned last. */
  lemma SupervisorDoesWhatIsDue(script: seq<Tick>, tick: Tick)
    ensures var s, t := Play(INITIAL, script), Play(INITIAL, script + [tick]);
            && t.trace == s.trace + Due(s.trace, Elapsed(script) + tick.delay, tick.choice)
            && ExitOf(t.phase) == if HasReturned(t.trace) then Some(t.trace[|t.trace| - 1].exit) else None
  {
    hide Play, Step, StateInv, Due, Elapsed, Spawns, Asked, Pausing, Current;
    RunIsGuided(script);
    RunIsGuided(script + [tick]);
    PlaySnoc(INITIAL, script, tick);
    StepIsGuided(Play(INITIAL, script), tick);
  }

  // ---------------------------------------------------------------- what follows an exit

  /** The exit at `k` has its answer, by what was asked of the worker and how it exited. */
  ghost predicate Answered(trace: seq<Effect>, k: nat)
    requires k < |trace| && trace[k].Exited?
  {
    var before, code, signal := trace[..k], trace[k].code, trace[k].signal;
    if Asked(before, true) then k + 1 < |trace| && trace[k + 1] == Returned(Requested)
    else if Asked(before, false) then
      k + 1 < |trace| ==> trace[k + 1].Spawned? || trace[k + 1] == Returned(WorkerExited(1))
    else if (code.Some? && code.value != 0) || (signal.Some? && signal.value != 15) then
      k + 1 < |trace| && trace[k + 1].BackedOff?
    else k + 1 < |trace| && trace[k + 1] == Returned(WorkerExited(if code.Some? then code.value else 1))
  }

  lemma DueAnswers(trace: seq<Effect>, now: nat, choice: Choice)
    requires forall k :: 0 <= k < |trace| && trace[k].Exited? ==> Answered(trace, k)
    requires Current(trace).Some? ==> trace != [] && !trace[|trace| - 1].Exited?
    ensures var t := trace + Due(trace, now, choice);
            forall k :: 0 <= k < |t| && t[k].Exited? ==> Answered(t, k)
  {
    var due := Due(trace, now, choice);
    var t, n := trace + due, |trace|;
    hide Asked, CrashDelay, SpawnedAt, Streak, Obeying, Spawns, Current;
    forall k | 0 <= k < |t| && t[k].Exited?
      ensures Answered(t, k)
    {
      if k < n {
        assert t[..k] == trace[..k] && Answered(trace, k);
      } else {
        assert k == n && t[..k] == trace;
      }
    }
  }

  lemma CurrentIsNotGone(trace: seq<Effect>)
    ensures Current(trace).Some? ==> trace != [] && !trace[|trace| - 1].Exited?
  {
  }

  /** Over every run: an exit of a worker that was asked to stop ends the run as requested; of one asked to
      restart, it leads on to the next spawn; otherwise it is backed off exactly when its code is
      there and not 0 or its signal is there and not 15, and else ends the run with its code, or 1. */
  lemma {:induction false} ExitsAreAnswered(script: seq<Tick>)
    ensures var trace := Play(INITIAL, script).trace;
            forall k :: 0 <= k < |trace| && trace[k].Exited? ==> Answered(trace, k)
  {
    if script == [] {
      assert Play(INITIAL, script) == INITIAL;
    } else {
      var before, last := script[..|script| - 1], script[|script| - 1];
      assert script == before + [last];
      ExitsAreAnswered(before);
      SupervisorDoesWhatIsDue(before, last);
      hide Play, Due, Answered;
      CurrentIsNotGone(Play(INITIAL, before).trace);
      DueAnswers(Play(INITIAL, before).trace, Elapsed(before) + last.delay, last.choice);
    }
  }
}
