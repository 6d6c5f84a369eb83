/** Liveness: when a session is torn down, and which probes count towards it. */
module ClientLiveness {
  import opened Sequences
  import opened ClientState

  ghost function Advance(streak: nat, pulse: Pulse): nat {
    if pulse.Inbound? || pulse.Teardown? then 0
    else if pulse.Failed? && pulse.counted then streak + 1
    else streak
  }

  /** Counted failures since the last inbound traffic or teardown. */
  ghost function Streak(log: seq<Pulse>): nat {
    if log == [] then 0 else Advance(Streak(log[..|log| - 1]), log[|log| - 1])
  }

  ghost predicate Counts(p: Pulse) {
    p.Failed? && p.counted
  }

  /** Neither inbound traffic nor a teardown strictly between `i` and `j`. */
  ghost predicate Silent(log: seq<Pulse>, i: int, j: int)
    requires -1 <= i && j <= |log|
  {
    forall m :: i < m < j ==> !log[m].Inbound? && !log[m].Teardown?
  }

  /** The teardown at `k` follows the second counted failure of a streak. */
  ghost predicate Earned(log: seq<Pulse>, k: nat)
    requires k < |log|
  {
    k > 0 && Counts(log[k - 1]) && Streak(log[..k]) == 2
  }

  /** The counted failure at `k`, if the second of its streak, is followed by a teardown. */
  ghost predicate Answered(log: seq<Pulse>, k: nat)
    requires k < |log|
  {
    Streak(log[..k + 1]) >= 2 ==> k + 1 < |log| && log[k + 1].Teardown?
  }

  ghost predicate TeardownsInv(log: seq<Pulse>) {
    && (forall k :: 0 <= k < |log| && log[k].Teardown? ==> Earned(log, k))
    && (forall k :: 0 <= k < |log| && Counts(log[k]) ==> Answered(log, k))
  }

  ghost predicate ProbesInv(log: seq<Pulse>) {
    && (forall i, j :: 0 <= i < j < |log| && log[i].Started? && log[j].Started? ==> log[i].probe < log[j].probe)
    && (forall k :: 0 <= k < |log| && log[k].Failed? ==> Started(log[k].probe, log[k].counted) in log[..k])
  }

  ghost predicate PulsesInv(log: seq<Pulse>) {
    TeardownsInv(log) && ProbesInv(log)
  }

  ghost predicate LivenessInv(l: Liveness) {
    && PulsesInv(l.log)
    && l.failures == Streak(l.log) < LIVENESS_FAILURE_RECONNECT_THRESHOLD
    && (forall k :: 0 <= k < |l.log| && l.log[k].Started? ==> l.log[k].probe < l.started)
    && l.started == l.ended + (if l.probe.Some? then 1 else 0)
    && (l.probe.Some? ==> Started(l.probe.value.id, l.probe.value.drives) in l.log)
  }

  lemma StreakSnoc(log: seq<Pulse>, more: Pulse)
    ensures Streak(log + [more]) == Advance(Streak(log), more)
  {
    assert (log + [more])[..|log|] == log;
  }

  /** What is recorded stays as it was. */
  lemma Earlier(log: seq<Pulse>, more: seq<Pulse>, k: nat)
    requires k < |log|
    ensures Earned(log, k) ==> Earned(log + more, k)
    ensures Answered(log, k) && (Streak(log[..k + 1]) < 2 || k + 1 < |log|) ==> Answered(log + more, k)
  {
    assert (log + more)[..k] == log[..k];
    assert (log + more)[..k + 1] == log[..k + 1];
  }

  lemma TeardownsSnoc(log: seq<Pulse>, more: Pulse)
    requires TeardownsInv(log) && !more.Teardown? && (Counts(more) ==> Streak(log) == 0)
    requires Streak(log) < 2
    ensures TeardownsInv(log + [more])
  {
    hide Streak, Earned, Answered;
    var l := log + [more];
    StreakSnoc(log, more);
    forall k | 0 <= k < |l| && l[k].Teardown?
      ensures Earned(l, k)
    {
      Earlier(log, [more], k);
    }
    forall k | 0 <= k < |l| && Counts(l[k])
      ensures Answered(l, k)
    {
      if k < |log| {
        StillOpen(log, k);
        Earlier(log, [more], k);
      } else {
        LastAnswered(l);
      }
    }
  }

  lemma StillOpen(log: seq<Pulse>, k: nat)
    requires k < |log| && Answered(log, k) && Streak(log) < 2
    ensures Streak(log[..k + 1]) < 2 || k + 1 < |log|
  {
    assert log[..|log|] == log;
  }

  lemma LastAnswered(log: seq<Pulse>)
    requires log != [] && Streak(log) < 2
    ensures Answered(log, |log| - 1)
  {
    assert log[..|log|] == log;
  }

  /** The second counted failure and the teardown that follows it. */
  lemma TeardownsPair(log: seq<Pulse>, failure: Pulse)
    requires TeardownsInv(log) && Counts(failure) && Streak(log) == 1
    ensures TeardownsInv(log + [failure] + [Teardown])
    ensures Streak(log + [failure] + [Teardown]) == 0
  {
    hide Streak, Earned, Answered;
    var f := log + [failure];
    var l := f + [Teardown];
    StreakSnoc(log, failure);
    StreakSnoc(f, Teardown);
    assert l == log + [failure, Teardown];
    forall k | 0 <= k < |l| && l[k].Teardown?
      ensures Earned(l, k)
    {
      if k < |log| {
        Earlier(log, [failure, Teardown], k);
      } else {
        JustEarned(f);
      }
    }
    forall k | 0 <= k < |l| && Counts(l[k])
      ensures Answered(l, k)
    {
      if k < |log| {
        StillOpen(log, k);
        Earlier(log, [failure, Teardown], k);
      } else {
        JustEarned(f);
      }
    }
  }

  lemma JustEarned(log: seq<Pulse>)
    requires log != [] && Counts(log[|log| - 1]) && Streak(log) == 2
    ensures Earned(log + [Teardown], |log|) && Answered(log + [Teardown], |log| - 1)
  {
    assert (log + [Teardown])[..|log|] == log;
  }

  lemma ProbesSnoc(log: seq<Pulse>, more: Pulse)
    requires ProbesInv(log)
    requires more.Started? ==> forall k :: 0 <= k < |log| && log[k].Started? ==> log[k].probe < more.probe
    requires more.Failed? ==> Started(more.probe, more.counted) in log
    ensures ProbesInv(log + [more])
  {
    var l := log + [more];
    assert forall k :: 0 <= k <= |log| ==> l[..k] == log[..k];
  }

  lemma PulseSnoc(log: seq<Pulse>, more: Pulse)
    requires PulsesInv(log) && Streak(log) < 2
    requires !more.Teardown? && (Counts(more) ==> Streak(log) == 0)
    requires more.Started? ==> forall k :: 0 <= k < |log| && log[k].Started? ==> log[k].probe < more.probe
    requires more.Failed? ==> Started(more.probe, more.counted) in log
    ensures PulsesInv(log + [more])
    ensures Streak(log + [more]) == Advance(Streak(log), more)
  {
    hide TeardownsInv, ProbesInv, Streak;
    TeardownsSnoc(log, more);
    ProbesSnoc(log, more);
    StreakSnoc(log, more);
  }

  lemma TeardownSnoc(log: seq<Pulse>, probe: nat)
    requires PulsesInv(log) && Streak(log) == 1 && Started(probe, true) in log
    ensures PulsesInv(log + [Failed(probe, true)] + [Teardown])
    ensures Streak(log + [Failed(probe, true)] + [Teardown]) == 0
  {
    hide TeardownsInv, ProbesInv, Streak;
    TeardownsPair(log, Failed(probe, true));
    ProbesSnoc(log, Failed(probe, true));
    ProbesSnoc(log + [Failed(probe, true)], Teardown);
  }

  /** Everything a callback can do to the liveness fields; the heartbeat timer apart. */
  datatype Beat = Rest | Hear | HearEnd | End | Start(drives: bool) | StartFail(drives: bool) | Fail

  function FailLive(l: Liveness): Liveness {
    if l.probe.None? then l
    else
      var p := l.probe.value;
      var ended := EndProbe(l).(log := l.log + [Failed(p.id, p.drives)]);
      if !p.drives then ended
      else if l.failures + 1 < LIVENESS_FAILURE_RECONNECT_THRESHOLD then ended.(failures := l.failures + 1)
      else ended.(failures := 0, log := ended.log + [Teardown])
  }

  function Apply(l: Liveness, beat: Beat): Liveness {
    match beat
    case Rest => l
    case Hear => HearInbound(l)
    case HearEnd => EndProbe(HearInbound(l))
    case End => EndProbe(l)
    case Start(drives) => StartProbe(l, drives)
    case StartFail(drives) => FailLive(StartProbe(l, drives))
    case Fail => FailLive(l)
  }

  ghost predicate SameBeat(a: Liveness, b: Liveness) {
    a.(heartbeatTimer := b.heartbeatTimer) == b
  }

  lemma FailLiveKeeps(l: Liveness)
    requires LivenessInv(l)
    ensures LivenessInv(FailLive(l))
  {
    hide PulsesInv, Streak;
    if l.probe.Some? {
      if l.probe.value.drives && l.failures == 1 {
        SecondFailureKeeps(l);
      } else {
        SingleFailureKeeps(l);
      }
    }
  }

  lemma SecondFailureKeeps(l: Liveness)
    requires LivenessInv(l) && l.probe.Some? && l.probe.value.drives && l.failures == 1
    ensures LivenessInv(FailLive(l))
  {
    hide PulsesInv, Streak;
    TeardownSnoc(l.log, l.probe.value.id);
  }

  lemma SingleFailureKeeps(l: Liveness)
    requires LivenessInv(l) && l.probe.Some? && !(l.probe.value.drives && l.failures == 1)
    ensures LivenessInv(FailLive(l))
  {
    hide PulsesInv, Streak;
    PulseSnoc(l.log, Failed(l.probe.value.id, l.probe.value.drives));
  }

  lemma StartKeeps(l: Liveness, drives: bool)
    requires LivenessInv(l) && l.probe.None?
    ensures LivenessInv(StartProbe(l, drives))
  {
    hide PulsesInv, Streak;
    PulseSnoc(l.log, Started(l.started, drives));
  }

  lemma ApplyKeeps(l: Liveness, beat: Beat)
    requires LivenessInv(l)
    requires beat.Start? || beat.StartFail? ==> l.probe.None?
    ensures LivenessInv(Apply(l, beat))
  {
    hide PulsesInv, Streak, FailLive, StartProbe;
    match beat
    case Hear => PulseSnoc(l.log, Inbound);
    case HearEnd => PulseSnoc(l.log, Inbound);
    case Start(drives) => StartKeeps(l, drives);
    case StartFail(drives) => StartKeeps(l, drives); FailLiveKeeps(StartProbe(l, drives));
    case Fail => FailLiveKeeps(l);
    case _ =>
  }

  lemma FailBeats(s: Client)
    ensures SameBeat(FailProbe(s).live, FailLive(s.live))
  {
    hide SettleOpen, ClearWaiters, RejectQueue, Where, LoseConnection;
  }

  lemma PingBeat(s: Client, drives: bool, sendOk: bool) returns (beat: Beat)
    ensures SameBeat(SendPing(s, drives, sendOk).live, Apply(s.live, beat))
    ensures beat.Start? || beat.StartFail? ==> s.live.probe.None?
    ensures beat == Rest || beat == Start(drives) || beat == StartFail(drives)
  {
    hide FailLive, FailProbe;
    FailBeats(s.(live := StartProbe(s.live, drives)));
    beat := if !Live(s.conn) || s.live.probe.Some? then Rest else if sendOk then Start(drives) else StartFail(drives);
  }

  lemma OpenBeat(s: Client, factoryOk: bool)
    ensures var live := OpenConnection(s, factoryOk).live;
            SameBeat(live, s.live) || SameBeat(live, EndProbe(s.live))
  {
    hide ClearWaiters, RejectQueue, LoseConnection;
  }

  lemma ApiBeat(s: Client, call: ApiCall) returns (beat: Beat)
    ensures SameBeat(StepApi(s, call).live, Apply(s.live, beat))
    ensures beat.Start? || beat.StartFail? ==> s.live.probe.None?
  {
    hide SettleOpen, ClearWaiters, RejectQueue, Where, LoseConnection, SendPing, AddWaiter, CancelWait, Enlist, Delist, FailLive,
         SendMessage, MakeCall, ChangeSubscription, OpenConnection;
    match call
    case Connect(factoryOk) =>
      OpenBeat(NoteConnectCall(s), factoryOk);
      beat := if SameBeat(StepApi(s, call).live, s.live) then Rest else End;
    case EnsureConnected(factoryOk) =>
      OpenBeat(NoteConnectCall(s).(conn := NoteConnectCall(s).conn.(shouldReconnect := true)), factoryOk);
      beat := if SameBeat(StepApi(s, call).live, s.live) then Rest else End;
    case MeasureLatency(sendOk) => beat := PingBeat(s, false, sendOk);
    case _ => beat := if SameBeat(StepApi(s, call).live, s.live) then Rest else End;
  }

  lemma SessionBeat(s: Client, m: SessionMessage) returns (beat: Beat)
    ensures SameBeat(HandleSession(s, m).live, Apply(s.live, beat))
    ensures beat == Rest || beat == End
  {
    hide SettleOpen, ClearWaiters, RejectQueue, Where, LoseConnection, Flush, Resubscribe, FailLive;
    beat := if m.ServerInfo? && Mismatched(s.conn, m.serverId) then End else Rest;
  }

  lemma TransportBeat(s: Client, event: TransportEvent) returns (beat: Beat)
    ensures SameBeat(StepTransport(s, event).live, Apply(s.live, beat))
    ensures !beat.Start? && !beat.StartFail?
    ensures event.Received? && !event.frame.Invalid? ==> beat == Hear || beat == HearEnd
  {
    hide SettleOpen, ClearWaiters, RejectQueue, Where, LoseConnection, HandleSession, FailLive;
    match event
    case Received(Session(m)) =>
      var b := SessionBeat(s.(live := HearInbound(s.live)), m);
      beat := if b == End then HearEnd else Hear;
    case Received(FileFrame(Some(m))) =>
      var b := SessionBeat(s.(live := HearInbound(s.live)), m);
      beat := if b == End then HearEnd else Hear;
    case Received(Invalid(_)) => beat := Rest;
    case Received(Pong) => beat := HearEnd;
    case Received(_) => beat := Hear;
    case _ => beat := if SameBeat(StepTransport(s, event).live, s.live) then Rest else End;
  }

  lemma TimerBeat(s: Client, timer: TimerEvent) returns (beat: Beat)
    ensures SameBeat(StepTimer(s, timer).live, Apply(s.live, beat))
    ensures beat.Start? || beat.StartFail? ==> s.live.probe.None?
  {
    hide SettleOpen, ClearWaiters, RejectQueue, Where, LoseConnection, SendPing, FailProbe, FailLive;
    match timer
    case HeartbeatFire(sendOk) =>
      beat := Rest;
      if s.live.heartbeatTimer {
        beat := PingBeat(s.(live := s.live.(heartbeatTimer := false)), true, sendOk);
        StartFailSame(s.live, false);
      }
    case ProbeTimeout(id) =>
      FailBeats(s);
      beat := if s.live.probe.Some? && s.live.probe.value.id == id then Fail else Rest;
    case _ => beat := if SameBeat(StepTimer(s, timer).live, s.live) then Rest else End;
  }

  lemma StartFailSame(l: Liveness, timer: bool)
    ensures SameBeat(Apply(l.(heartbeatTimer := timer), StartFail(true)), Apply(l, StartFail(true)))
  {
  }

  lemma LivenessInvStep(s: Client, e: Event)
    requires LivenessInv(s.live)
    ensures LivenessInv(Step(s, e).live)
  {
    hide Apply, PulsesInv, Streak, StepApi, StepTransport, StepTimer;
    var beat;
    match e {
      case Api(call) => beat := ApiBeat(s, call);
      case Transport(event) => beat := TransportBeat(s, event);
      case Timer(timer) => beat := TimerBeat(s, timer);
    }
    ApplyKeeps(s.live, beat);
  }

  lemma {:induction false} LivenessInvRun(s: Client, events: seq<Event>)
    requires LivenessInv(s.live)
    ensures LivenessInv(Run(s, events).live)
  {
    hide LivenessInv, Step;
    if events == [] {
    } else {
      LivenessInvRun(s, events[..|events| - 1]);
      LivenessInvStep(Run(s, events[..|events| - 1]), events[|events| - 1]);
    }
  }

  /** A streak of `n` or more means `n` counted failures with no inbound traffic and no teardown after the first. */
  lemma {:induction false} StreakWitness(log: seq<Pulse>) returns (i: nat)
    requires Streak(log) >= 1
    ensures i < |log| && Counts(log[i]) && Streak(log[..i]) == Streak(log) - 1
    ensures forall k :: i < k < |log| ==> !log[k].Inbound? && !log[k].Teardown? && !Counts(log[k])
  {
    var front := log[..|log| - 1];
    if Counts(log[|log| - 1]) {
      i := |log| - 1;
    } else {
      i := StreakWitness(front);
      assert log[..i] == front[..i];
    }
  }

  /** Over every run: the counter is 0 or 1 between callbacks and at most one probe is outstanding. A
      teardown is preceded, with no inbound traffic and no other teardown in between, by two
      counted failures, the second immediately before it; conversely a counted failure that
      finds one such failure pending is followed by the teardown. A failure counts exactly
      when the one probe of that id was started by the heartbeat. */
  lemma TeardownNeedsTwoFailures(settings: Settings, enabled: bool, expected: Option<string>, events: seq<Event>)
    ensures var l := Run(NewClient(settings, enabled, expected), events).live;
            && l.failures <= 1
            && l.started == l.ended + (if l.probe.Some? then 1 else 0)
            && (forall k :: 0 <= k < |l.log| && l.log[k].Teardown? ==>
                  exists i :: 0 <= i < k - 1 && Counts(l.log[i]) && Counts(l.log[k - 1])
                              && Silent(l.log, i, k))
            && (forall i, j :: 0 <= i < j < |l.log| && Counts(l.log[i]) && Counts(l.log[j])
                               && Silent(l.log, i, j) ==>
                  j + 1 < |l.log| && l.log[j + 1].Teardown?)
            && (forall k, j :: 0 <= k < |l.log| && 0 <= j < |l.log| && l.log[k].Failed? && l.log[j].Started?
                               && l.log[j].probe == l.log[k].probe ==>
                  j < k && (l.log[k].counted <==> l.log[j].heartbeat))
  {
    var s := NewClient(settings, enabled, expected);
    LivenessInvRun(s, events);
    hide Run, Streak, TeardownsInv, ProbesInv;
    var log := Run(s, events).live.log;
    forall k | 0 <= k < |log| && log[k].Teardown?
      ensures exists i :: 0 <= i < k - 1 && Counts(log[i]) && Counts(log[k - 1]) && Silent(log, i, k)
    {
      var i := FirstOfTwo(log, k);
    }
    forall i, j | 0 <= i < j < |log| && Counts(log[i]) && Counts(log[j]) && Silent(log, i, j)
      ensures j + 1 < |log| && log[j + 1].Teardown?
    {
      SecondIsAnswered(log, i, j);
    }
    forall k, j | 0 <= k < |log| && 0 <= j < |log| && log[k].Failed? && log[j].Started? && log[j].probe == log[k].probe
      ensures j < k && (log[k].counted <==> log[j].heartbeat)
    {
      FailureHasItsProbe(log, j, k);
    }
  }

  lemma FailureHasItsProbe(log: seq<Pulse>, j: nat, k: nat)
    requires ProbesInv(log) && k < |log| && j < |log|
    requires log[k].Failed? && log[j].Started? && log[j].probe == log[k].probe
    ensures j < k && (log[k].counted <==> log[j].heartbeat)
  {
    var i :| 0 <= i < k && log[..k][i] == Started(log[k].probe, log[k].counted);
    assert log[i] == Started(log[k].probe, log[k].counted);
  }

  lemma FirstOfTwo(log: seq<Pulse>, k: nat) returns (i: nat)
    requires TeardownsInv(log) && k < |log| && log[k].Teardown?
    ensures 0 <= i < k - 1 && Counts(log[i]) && Counts(log[k - 1])
    ensures Silent(log, i, k)
  {
    assert Earned(log, k);
    var upto := log[..k - 1];
    assert log[..k][..k - 1] == upto;
    assert Streak(log[..k]) == Streak(upto) + 1;
    i := StreakWitness(upto);
    assert forall m :: 0 <= m < k - 1 ==> upto[m] == log[m];
  }

  lemma SecondIsAnswered(log: seq<Pulse>, i: nat, j: nat)
    requires TeardownsInv(log) && i < j < |log| && Counts(log[i]) && Counts(log[j]) && Silent(log, i, j)
    ensures j + 1 < |log| && log[j + 1].Teardown?
  {
    StreakLasts(log, i, j);
    assert log[..j + 1][..j] == log[..j];
    assert Answered(log, j);
  }

  lemma {:induction false} StreakLasts(log: seq<Pulse>, i: nat, j: nat)
    requires i < j < |log| && Counts(log[i])
    requires Silent(log, i, j)
    ensures Streak(log[..j]) >= 1
  {
    assert log[..j][..j - 1] == log[..j - 1];
    if i < j - 1 {
      StreakLasts(log, i, j - 1);
    }
  }
}
