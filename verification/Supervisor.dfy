/**
 The worker supervisor (apps/daemon-rs/src/supervisor.rs:27-31, 84-90, 249-359). `select!` takes whichever
 branch the environment makes ready, so a run is driven by a script of such choices; a choice
 whose branch is not enabled changes nothing. Times are milliseconds and never decrease.
 */
module Supervisor {
  import opened Arithmetic
  import opened Sequences

  const TERMINATION_GRACE: nat := 10_000
  const BACKOFF_INITIAL: nat := 1_000
  const BACKOFF_MAX: nat := 30_000
  const BACKOFF_RESET_AFTER: nat := 60_000
  const SIGTERM: nat := 15

  datatype Exit = Requested | WorkerExited(code: int)

  /** One choice of the environment, `delay` after the previous one. */
  datatype Choice =
    | Spawning(ok: bool)
    | Exiting(code: Option<int>, signal: Option<nat>)
    | Ready(listen: string)
    | ListenFailed
    | RestartMessage
    | ShutdownMessage
    | StopRequest
    | GraceOver
    | DelayOver

  datatype Tick = Tick(delay: nat, choice: Choice)

  datatype Effect =
    | Spawned(worker: nat, at: nat)
    | Published(worker: nat, url: string)
    | Accepted(stop: bool, at: nat)
    | Killed(at: nat)
    | Exited(worker: nat, at: nat, code: Option<int>, signal: Option<nat>)
    | BackedOff(crashes: nat, delay: nat)
    | Resumed(at: nat)
    | Returned(exit: Exit)

  datatype Phase = Starting | Up | Waiting(until: nat) | Done(exit: Exit)

  datatype State = State(
    phase: Phase,
    now: nat,
    workers: nat,
    started: nat,
    crashes: nat,
    restart: bool,
    stop: bool,
    killAt: Option<nat>,
    upstream: Option<string>,
    trace: seq<Effect>)

  const INITIAL := State(Starting, 0, 0, 0, 0, false, false, None, None, [])

  // ---------------------------------------------------------------- the crash delay

  const U32_MAX: nat := 0xFFFF_FFFF

  function SaturatingPower(exponent: nat): (r: nat)
    ensures 1 <= r <= U32_MAX
  {
    if exponent == 0 then 1
    else
      var half := SaturatingPower(exponent - 1);
      if 2 * half > U32_MAX then U32_MAX else 2 * half
  }

  function CrashDelay(crashes: nat): nat {
    if crashes == 0 then 0
    else
      var delay := BACKOFF_INITIAL * SaturatingPower(crashes - 1);
      if delay < BACKOFF_MAX then delay else BACKOFF_MAX
  }

  /** The saturation never shows: the delay is min(2^(n-1), 30) seconds for every crash count. */
  lemma {:induction false} CrashDelayDoubles(crashes: nat)
    requires crashes >= 1
    ensures CrashDelay(crashes) ==
            if 1_000 * PowerOfTwo(crashes - 1) < 30_000 then 1_000 * PowerOfTwo(crashes - 1) else 30_000
    ensures CrashDelay(crashes) <= CrashDelay(crashes + 1) <= 30_000
    ensures PowerOfTwo(crashes - 1) <= U32_MAX ==> SaturatingPower(crashes - 1) == PowerOfTwo(crashes - 1)
    ensures PowerOfTwo(crashes - 1) > U32_MAX ==> SaturatingPower(crashes - 1) == U32_MAX
  {
    if crashes == 1 {
    } else {
      CrashDelayDoubles(crashes - 1);
    }
  }

  // ---------------------------------------------------------------- one step

  predicate Crashed(code: Option<int>, signal: Option<nat>) {
    (code.Some? && code.value != 0) || (signal.Some? && signal.value != SIGTERM)
  }

  function WsUrl(listen: string): string {
    "ws://" + listen + "/ws"
  }

  function Log(s: State, e: Effect): State {
    s.(trace := s.trace + [e])
  }

  function Return(s: State, exit: Exit): State {
    Log(s.(phase := Done(exit)), Returned(exit))
  }

  function AcceptStop(s: State): State {
    Log(s.(stop := true, killAt := if s.killAt.Some? then s.killAt else Some(s.now + TERMINATION_GRACE)),
        Accepted(true, s.now))
  }

  function BackOff(s: State): State {
    var crashes := 1 + if s.now - s.started >= BACKOFF_RESET_AFTER then 0 else s.crashes;
    var delay := CrashDelay(crashes);
    Log(s.(crashes := crashes, phase := Waiting(s.now + delay)), BackedOff(crashes, delay))
  }

  /** What follows once the worker is gone. */
  function AfterExit(s: State, code: Option<int>, signal: Option<nat>): State {
    if s.stop then Return(s, Requested)
    else if s.restart then s.(phase := Starting)
    else if !Crashed(code, signal) then Return(s, WorkerExited(if code.Some? then code.value else 1))
    else BackOff(s)
  }

  function StepUp(s: State, choice: Choice): State {
    match choice
    case Exiting(code, signal) => AfterExit(Log(s.(upstream := None), Exited(s.workers, s.now, code, signal)), code, signal)
    case Ready(listen) => Log(s.(crashes := 0, upstream := Some(WsUrl(listen))), Published(s.workers, WsUrl(listen)))
    case RestartMessage =>
      if s.restart || s.stop then s
      else Log(s.(restart := true, killAt := Some(s.now + TERMINATION_GRACE)), Accepted(false, s.now))
    case ShutdownMessage => if s.stop then s else AcceptStop(s)
    case StopRequest => if s.stop then s else AcceptStop(s)
    case GraceOver =>
      if s.killAt.Some? && s.now >= s.killAt.value then Log(s.(killAt := None), Killed(s.now)) else s
    case _ => s
  }

  function Step(s: State, tick: Tick): State {
    var s := s.(now := s.now + tick.delay);
    match s.phase
    case Starting =>
      if !tick.choice.Spawning? then s
      else if !tick.choice.ok then Return(s, WorkerExited(1))
      else
        Log(s.(phase := Up, workers := s.workers + 1, started := s.now, restart := false, stop := false, killAt := None),
            Spawned(s.workers + 1, s.now))
    case Up => StepUp(s, tick.choice)
    case Waiting(until) =>
      if tick.choice.DelayOver? && s.now >= until then Log(s.(phase := Starting), Resumed(s.now))
      else if tick.choice.StopRequest? then Return(Log(s, Accepted(true, s.now)), Requested)
      else s
    case Done(_) => s
  }

  function Play(s: State, script: seq<Tick>): State
    decreases |script|
  {
    if script == [] then s else Play(Step(s, script[0]), script[1..])
  }

  // ---------------------------------------------------------------- reading a trace

  /** Spawns that no exit has answered. */
  ghost function Alive(trace: seq<Effect>): int {
    if trace == [] then 0
    else
      var last := trace[|trace| - 1];
      Alive(trace[..|trace| - 1]) + (if last.Spawned? then 1 else if last.Exited? then -1 else 0)
  }

  /** The worker spawned last, if nothing has exited since. */
  ghost function Current(trace: seq<Effect>): Option<nat> {
    if trace == [] then None
    else
      var last := trace[|trace| - 1];
      if last.Spawned? then Some(last.worker)
      else if last.Exited? then None
      else Current(trace[..|trace| - 1])
  }

  /** What the current worker has announced itself, if anything. */
  ghost function Announced(trace: seq<Effect>): Option<string> {
    if trace == [] then None
    else
      var last := trace[|trace| - 1];
      if last.Published? && Current(trace[..|trace| - 1]) == Some(last.worker) then Some(last.url)
      else if last.Spawned? || last.Exited? then None
      else Announced(trace[..|trace| - 1])
  }

  /** When the request that the worker has yet to obey was accepted: the first one since it was
      spawned or last killed. */
  ghost function Obeying(trace: seq<Effect>): Option<nat> {
    if trace == [] then None
    else
      var last, before := trace[|trace| - 1], Obeying(trace[..|trace| - 1]);
      if last.Accepted? then (if before.Some? then before else Some(last.at))
      else if last.Spawned? || last.Killed? then None
      else before
  }

  /** When the last worker was spawned. */
  ghost function SpawnedAt(trace: seq<Effect>): nat {
    if trace == [] then 0
    else
      var last := trace[|trace| - 1];
      if last.Spawned? then last.at else SpawnedAt(trace[..|trace| - 1])
  }

  /** The crashes counted by the last backoff, unless a worker has become ready since. */
  ghost function Streak(trace: seq<Effect>): nat {
    if trace == [] then 0
    else
      var last := trace[|trace| - 1];
      if last.BackedOff? then last.crashes
      else if last.Published? then 0
      else Streak(trace[..|trace| - 1])
  }

  /** A backoff that may follow `trace`: the worker has just exited, the crash is one more in its streak
      (a new streak if the worker was up for a minute), and the delay is that streak's. */
  ghost predicate BackoffFits(trace: seq<Effect>, e: Effect)
    requires e.BackedOff?
  {
    && trace != [] && trace[|trace| - 1].Exited?
    && e.crashes == 1 + (if trace[|trace| - 1].at - SpawnedAt(trace) >= BACKOFF_RESET_AFTER then 0 else Streak(trace))
    && e.delay == CrashDelay(e.crashes)
  }

  ghost predicate StopAccepted(trace: seq<Effect>) {
    exists i :: 0 <= i < |trace| && trace[i].Accepted? && trace[i].stop
  }

  ghost predicate AtMostOneAlive(trace: seq<Effect>) {
    forall k :: 0 <= k <= |trace| ==> 0 <= Alive(trace[..k]) <= 1
  }

  ghost predicate StopIsFinal(trace: seq<Effect>) {
    forall i, j :: 0 <= i < j < |trace| && trace[i].Accepted? && trace[i].stop ==>
      !trace[j].Spawned? && (trace[j].Returned? ==> trace[j].exit == Requested)
  }

  ghost predicate KillsAreDue(trace: seq<Effect>) {
    forall k :: 0 <= k < |trace| && trace[k].Killed? ==>
      Obeying(trace[..k]).Some? && trace[k].at >= Obeying(trace[..k]).value + TERMINATION_GRACE
  }

  ghost predicate BackoffsDouble(trace: seq<Effect>) {
    forall k :: 0 <= k < |trace| && trace[k].BackedOff? ==> BackoffFits(trace[..k], trace[k])
  }

  ghost predicate TraceInv(trace: seq<Effect>) {
    AtMostOneAlive(trace) && StopIsFinal(trace) && KillsAreDue(trace) && BackoffsDouble(trace)
  }

  function Deadline(since: Option<nat>): Option<nat> {
    if since.None? then None else Some(since.value + TERMINATION_GRACE)
  }

  ghost predicate StateInv(s: State) {
    && TraceInv(s.trace)
    && s.started <= s.now && s.started == SpawnedAt(s.trace) && s.crashes == Streak(s.trace)
    && Alive(s.trace) == (if s.phase.Up? then 1 else 0)
    && Current(s.trace) == (if s.phase.Up? then Some(s.workers) else None)
    && s.upstream == Announced(s.trace)
    && (s.upstream.Some? ==> s.phase.Up?)
    && (s.phase.Up? ==> s.killAt == Deadline(Obeying(s.trace)))
    && (s.phase.Up? && !s.restart && !s.stop ==> s.killAt.None?)
    && (StopAccepted(s.trace) <==> (s.phase.Up? && s.stop) || (s.phase.Done? && s.phase.exit == Requested))
  }

  // ---------------------------------------------------------------- what every step keeps

  /** When an effect may follow a trace. */
  ghost predicate MayFollow(trace: seq<Effect>, e: Effect) {
    && (e.Spawned? ==> Alive(trace) == 0 && !StopAccepted(trace))
    && (e.Exited? ==> Alive(trace) == 1)
    && (e.Returned? && StopAccepted(trace) ==> e.exit == Requested)
    && (e.Killed? ==> Obeying(trace).Some? && e.at >= Obeying(trace).value + TERMINATION_GRACE)
    && (e.BackedOff? ==> BackoffFits(trace, e))
  }

  lemma ReadSnoc(trace: seq<Effect>, e: Effect)
    ensures Alive(trace + [e]) == Alive(trace) + (if e.Spawned? then 1 else if e.Exited? then -1 else 0)
    ensures Current(trace + [e]) == if e.Spawned? then Some(e.worker) else if e.Exited? then None else Current(trace)
    ensures Announced(trace + [e]) ==
            if e.Published? && Current(trace) == Some(e.worker) then Some(e.url) else if e.Spawned? || e.Exited? then None else Announced(trace)
    ensures Obeying(trace + [e]) ==
            if e.Accepted? then (if Obeying(trace).Some? then Obeying(trace) else Some(e.at))
            else if e.Spawned? || e.Killed? then None
            else Obeying(trace)
    ensures SpawnedAt(trace + [e]) == if e.Spawned? then e.at else SpawnedAt(trace)
    ensures Streak(trace + [e]) == if e.BackedOff? then e.crashes else if e.Published? then 0 else Streak(trace)
    ensures StopAccepted(trace + [e]) <==> StopAccepted(trace) || (e.Accepted? && e.stop)
  {
    var t := trace + [e];
    assert t[..|trace|] == trace;
    if StopAccepted(trace) {
      var i :| 0 <= i < |trace| && trace[i].Accepted? && trace[i].stop;
      assert t[i] == trace[i];
    }
    if e.Accepted? && e.stop {
      assert t[|trace|] == e;
    }
  }

  lemma AliveSnoc(trace: seq<Effect>, e: Effect)
    requires AtMostOneAlive(trace) && MayFollow(trace, e)
    ensures AtMostOneAlive(trace + [e])
  {
    var t := trace + [e];
    ReadSnoc(trace, e);
    hide Alive, Obeying, Current, Announced;
    assert trace[..|trace|] == trace;
    forall k | 0 <= k <= |t|
      ensures 0 <= Alive(t[..k]) <= 1
    {
      assert t[..k] == if k <= |trace| then trace[..k] else t;
    }
  }

  lemma StopSnoc(trace: seq<Effect>, e: Effect)
    requires StopIsFinal(trace) && MayFollow(trace, e)
    ensures StopIsFinal(trace + [e])
  {
    var t := trace + [e];
    forall i, j | 0 <= i < j < |t| && t[i].Accepted? && t[i].stop
      ensures !t[j].Spawned? && (t[j].Returned? ==> t[j].exit == Requested)
    {
      if j == |trace| {
        assert StopAccepted(trace) by { assert trace[i] == t[i]; }
      }
    }
  }

  lemma KillSnoc(trace: seq<Effect>, e: Effect)
    requires KillsAreDue(trace) && MayFollow(trace, e)
    ensures KillsAreDue(trace + [e])
  {
    hide Obeying;
    var t := trace + [e];
    assert t[..|trace|] == trace;
    forall k | 0 <= k < |t| && t[k].Killed?
      ensures Obeying(t[..k]).Some? && t[k].at >= Obeying(t[..k]).value + TERMINATION_GRACE
    {
      assert t[..k] == if k < |trace| then trace[..k] else trace;
    }
  }

  lemma BackoffSnoc(trace: seq<Effect>, e: Effect)
    requires BackoffsDouble(trace) && MayFollow(trace, e)
    ensures BackoffsDouble(trace + [e])
  {
    hide BackoffFits;
    var t := trace + [e];
    forall k | 0 <= k < |t| && t[k].BackedOff?
      ensures BackoffFits(t[..k], t[k])
    {
      assert t[..k] == if k < |trace| then trace[..k] else trace;
    }
  }

  lemma TraceSnoc(trace: seq<Effect>, e: Effect)
    requires TraceInv(trace) && MayFollow(trace, e)
    ensures TraceInv(trace + [e])
  {
    AliveSnoc(trace, e);
    StopSnoc(trace, e);
    KillSnoc(trace, e);
    BackoffSnoc(trace, e);
  }

  lemma LogKeeps(s: State, e: Effect)
    requires TraceInv(s.trace) && MayFollow(s.trace, e)
    ensures TraceInv(Log(s, e).trace)
  {
    TraceSnoc(s.trace, e);
  }

  lemma StepUpKeeps(s: State, choice: Choice)
    requires StateInv(s) && s.phase.Up?
    ensures StateInv(StepUp(s, choice))
  {
    hide TraceInv, Alive, Current, Announced, Obeying, SpawnedAt, Streak, StopAccepted, CrashDelay, WsUrl;
    match choice
    case Exiting(code, signal) => ExitKeeps(s, code, signal);
    case Ready(listen) =>
      ReadSnoc(s.trace, Published(s.workers, WsUrl(listen)));
      LogKeeps(s, Published(s.workers, WsUrl(listen)));
    case RestartMessage => ReadSnoc(s.trace, Accepted(false, s.now)); LogKeeps(s, Accepted(false, s.now));
    case ShutdownMessage => ReadSnoc(s.trace, Accepted(true, s.now)); LogKeeps(s, Accepted(true, s.now));
    case StopRequest => ReadSnoc(s.trace, Accepted(true, s.now)); LogKeeps(s, Accepted(true, s.now));
    case GraceOver =>
      if s.killAt.Some? && s.now >= s.killAt.value {
        ReadSnoc(s.trace, Killed(s.now));
        LogKeeps(s, Killed(s.now));
      }
    case _ =>
  }

  lemma ExitKeeps(s: State, code: Option<int>, signal: Option<nat>)
    requires StateInv(s) && s.phase.Up?
    ensures StateInv(AfterExit(Log(s.(upstream := None), Exited(s.workers, s.now, code, signal)), code, signal))
  {
    hide TraceInv, Alive, Current, Announced, Obeying, SpawnedAt, Streak, StopAccepted, CrashDelay;
    var gone := Log(s.(upstream := None), Exited(s.workers, s.now, code, signal));
    ReadSnoc(s.trace, Exited(s.workers, s.now, code, signal));
    LogKeeps(s, Exited(s.workers, s.now, code, signal));
    var after := AfterExit(gone, code, signal);
    if after.trace != gone.trace {
      var e := after.trace[|gone.trace|];
      ReadSnoc(gone.trace, e);
      LogKeeps(gone, e);
    }
  }

  lemma StepKeeps(s: State, tick: Tick)
    requires StateInv(s)
    ensures StateInv(Step(s, tick))
  {
    hide TraceInv, Alive, Current, Announced, Obeying, SpawnedAt, Streak, StopAccepted, StepUp;
    var later := s.(now := s.now + tick.delay);
    match s.phase
    case Up => StepUpKeeps(later, tick.choice);
    case Starting =>
      if tick.choice.Spawning? {
        var e := if tick.choice.ok then Spawned(s.workers + 1, later.now) else Returned(WorkerExited(1));
        ReadSnoc(s.trace, e);
        LogKeeps(later, e);
      }
    case Waiting(until) =>
      if tick.choice.DelayOver? && later.now >= until {
        ReadSnoc(s.trace, Resumed(later.now));
        LogKeeps(later, Resumed(later.now));
      } else if tick.choice.StopRequest? {
        var e := Accepted(true, later.now);
        ReadSnoc(s.trace, e);
        LogKeeps(later, e);
        ReadSnoc(s.trace + [e], Returned(Requested));
        LogKeeps(Log(later, e), Returned(Requested));
      }
    case Done(_) =>
  }

  lemma {:induction false} PlayKeeps(s: State, script: seq<Tick>)
    requires StateInv(s)
    ensures StateInv(Play(s, script))
    decreases |script|
  {
    hide StateInv, Step;
    if script == [] {
    } else {
      StepKeeps(s, script[0]);
      PlayKeeps(Step(s, script[0]), script[1..]);
    }
  }

  /** Over every run of the supervisor: at every point of the trace at most one worker is alive; the
      published upstream is what the live worker announced, and nothing once it exited; after a
      stop is accepted no worker is spawned and the only result is `Requested`; while a worker is
      up, its kill deadline is 10 s after the first request it has yet to obey, however many
      follow; no kill comes earlier; and each backoff counts one more crash in its streak. */
  lemma SupervisorIsSafe(script: seq<Tick>)
    ensures var s := Play(INITIAL, script);
            && AtMostOneAlive(s.trace)
            && s.upstream == Announced(s.trace)
            && (s.upstream.Some? ==> Current(s.trace) == Some(s.workers) && Alive(s.trace) == 1)
            && StopIsFinal(s.trace)
            && (s.phase.Up? ==> s.killAt == Deadline(Obeying(s.trace)))
            && KillsAreDue(s.trace)
            && BackoffsDouble(s.trace)
  {
    InitialIsSafe();
    PlayKeeps(INITIAL, script);
    hide Play, Alive, Current, Announced, Obeying, SpawnedAt, Streak;
  }

  lemma InitialIsSafe()
    ensures StateInv(INITIAL)
  {
  }

  // ---------------------------------------------------------------- the loop

  function ExitOf(phase: Phase): Option<Exit> {
    if phase.Done? then Some(phase.exit) else None
  }

  /** Phase 1 of `run`: the worker is up; wait for it to exit or for a request. */
  method Supervise(script: seq<Tick>, from: nat, at: nat, workers: nat, earlierCrashes: nat, effects: seq<Effect>)
    returns (i: nat, now: nat, gone: bool, code: Option<int>, signal: Option<nat>, crashes: nat, restart: bool, stop: bool,
             killAt: Option<nat>, upstream: Option<string>, trace: seq<Effect>)
    requires from <= |script|
    ensures from <= i <= |script| && at <= now && (gone || i == |script|)
    ensures var start := State(Up, at, workers, at, earlierCrashes, false, false, None, None, effects);
            var end := State(Up, now, workers, at, crashes, restart, stop, killAt, upstream, trace);
            Play(start, script[from..]) ==
            if gone then Play(AfterExit(Log(end.(upstream := None), Exited(workers, now, code, signal)), code, signal), script[i..]) else end
  {
    hide CrashDelay, WsUrl, Play, AfterExit;
    i, now, gone, code, signal, trace := from, at, false, None, None, effects;
    crashes, restart, stop, killAt, upstream := earlierCrashes, false, false, None, None;
    ghost var start := State(Up, at, workers, at, earlierCrashes, false, false, None, None, effects);
    ghost var s := start;
    while i < |script|
      invariant from <= i <= |script| && at <= now && !gone
      invariant Play(s, script[i..]) == Play(start, script[from..])
      invariant s == State(Up, now, workers, at, crashes, restart, stop, killAt, upstream, trace)
      decreases |script| - i
    {
      var next := script[i];
      s := Advance(s, script, i);
      i, now := i + 1, now + next.delay;
      match next.choice {
        case Exiting(c, g) =>
          gone, code, signal := true, c, g;
          return;
        case Ready(listen) =>
          crashes := 0;
          upstream := Some(WsUrl(listen));
          trace := trace + [Published(workers, WsUrl(listen))];
        case RestartMessage =>
          if !restart && !stop {
            restart, trace := true, trace + [Accepted(false, now)];
            killAt := Some(now + TERMINATION_GRACE);
          }
        case ShutdownMessage =>
          if !stop {
            stop, trace := true, trace + [Accepted(true, now)];
            killAt := if killAt.Some? then killAt else Some(now + TERMINATION_GRACE);
          }
        case StopRequest =>
          if !stop {
            stop, trace := true, trace + [Accepted(true, now)];
            killAt := if killAt.Some? then killAt else Some(now + TERMINATION_GRACE);
          }
        case GraceOver =>
          if killAt.Some? && now >= killAt.value {
            killAt, trace := None, trace + [Killed(now)];
          }
        case _ =>
      }
    }
    Ended(s, script, i);
  }

  /** Phase 2 of `run`: wait out the delay, or stop. */
  method WaitOut(script: seq<Tick>, from: nat, at: nat, until: nat, ghost before: State)
    returns (i: nat, now: nat, waiting: bool, stopped: bool)
    requires from <= |script|
    requires before.phase == Waiting(until) && before.now == at
    ensures from <= i <= |script| && at <= now && (waiting && !stopped ==> i == |script|)
    ensures stopped ==>
              Play(before, script[from..]) ==
              Play(Return(Log(before.(now := now), Accepted(true, now)), Requested), script[i..])
    ensures !stopped && !waiting ==>
              Play(before, script[from..]) == Play(Log(before.(phase := Starting, now := now), Resumed(now)), script[i..])
    ensures !stopped && waiting ==> Play(before, script[from..]) == before.(now := now)
  {
    hide CrashDelay, WsUrl, Play, StepUp, Return;
    i, now, waiting, stopped := from, at, true, false;
    ghost var s := before;
    while i < |script|
      invariant from <= i <= |script| && at <= now && waiting && !stopped
      invariant Play(s, script[i..]) == Play(before, script[from..])
      invariant s == before.(now := now)
      decreases |script| - i
    {
      var next := script[i];
      s := Advance(s, script, i);
      i, now := i + 1, now + next.delay;
      if next.choice.DelayOver? && now >= until {
        waiting := false;
        return;
      }
      if next.choice.StopRequest? {
        stopped := true;
        return;
      }
    }
    Ended(s, script, i);
  }

  /** `Supervisor::run` with its locals, driven by the script until it returns or the script ends. The
      result is the run of `Step`, so everything above holds of it. */
  method Run(script: seq<Tick>) returns (trace: seq<Effect>, upstream: Option<string>, exit: Option<Exit>)
    ensures trace == Play(INITIAL, script).trace && upstream == Play(INITIAL, script).upstream
    ensures exit == ExitOf(Play(INITIAL, script).phase)
  {
    hide CrashDelay, WsUrl, Play, StepUp;
    trace, upstream, exit := [], None, None;
    var i: nat, now: nat, workers: nat, started: nat, crashes: nat := 0, 0, 0, 0, 0;
    var restart, stop, killAt: Option<nat> := false, false, None;
    ghost var s := INITIAL;
    assert script[0..] == script;
    while i < |script|
      invariant 0 <= i <= |script| && Play(s, script[i..]) == Play(INITIAL, script)
      invariant started <= now && exit == None && upstream == None
      invariant s == State(Starting, now, workers, started, crashes, restart, stop, killAt, upstream, trace)
      decreases |script| - i
    {
      var tick := script[i];
      s := Advance(s, script, i);
      i, now := i + 1, now + tick.delay;
      if !tick.choice.Spawning? {
        continue;
      }
      if !tick.choice.ok {
        trace, exit := trace + [Returned(WorkerExited(1))], Some(WorkerExited(1));
        Finished(s, script[i..]);
        return;
      }
      workers, started := workers + 1, now;
      trace := trace + [Spawned(workers, now)];

      var gone, code, signal;
      i, now, gone, code, signal, crashes, restart, stop, killAt, upstream, trace :=
        Supervise(script, i, now, workers, crashes, trace);
      if !gone {
        return;
      }
      upstream, trace := None, trace + [Exited(workers, now, code, signal)];
      s := AfterExit(State(Up, now, workers, started, crashes, restart, stop, killAt, None, trace), code, signal);
      if stop {
        trace, exit := trace + [Returned(Requested)], Some(Requested);
        Finished(s, script[i..]);
        return;
      }
      if restart {
        continue;
      }
      if !Crashed(code, signal) {
        var result := WorkerExited(if code.Some? then code.value else 1);
        trace, exit := trace + [Returned(result)], Some(result);
        Finished(s, script[i..]);
        return;
      }
      if now - started >= BACKOFF_RESET_AFTER {
        crashes := 0;
      }
      crashes := crashes + 1;
      trace := trace + [BackedOff(crashes, CrashDelay(crashes))];
      ghost var before := s;
      var waiting, stopped;
      i, now, waiting, stopped := WaitOut(script, i, now, now + CrashDelay(crashes), before);
      if stopped {
        trace, exit := trace + [Accepted(true, now)] + [Returned(Requested)], Some(Requested);
        s := Return(Log(before.(now := now), Accepted(true, now)), Requested);
        Finished(s, script[i..]);
        return;
      }
      if waiting {
        return;
      }
      trace := trace + [Resumed(now)];
      s := Log(before.(phase := Starting, now := now), Resumed(now));
    }
    Ended(s, script, i);
  }

  lemma Ended(s: State, script: seq<Tick>, i: nat)
    requires i == |script|
    ensures Play(s, script[i..]) == s
  {
  }

  lemma Advance(s: State, script: seq<Tick>, i: nat) returns (next: State)
    requires i < |script|
    ensures next == Step(s, script[i]) && Play(next, script[i + 1..]) == Play(s, script[i..])
  {
    next := Step(s, script[i]);
    assert script[i..][1..] == script[i + 1..];
  }

  lemma {:induction false} Finished(s: State, script: seq<Tick>)
    requires s.phase.Done?
    ensures Play(s, script).trace == s.trace && Play(s, script).upstream == s.upstream
    ensures Play(s, script).phase == s.phase
    decreases |script|
  {
    if script == [] {
    } else {
      Finished(Step(s, script[0]), script[1..]);
    }
  }
}
