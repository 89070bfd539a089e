/** Automatic recovery (supervisor/process_exit.rs, mod.rs): armed a bounded number of times,
    each time with the next delay, and armed indeed after every unexpected exit. */
module BoundedRecovery {
  import opened Records
  import opened Kernel
  import opened KernelFlow
  import opened ProcessGroup
  import opened ProcessIdentity
  import opened ManagedProcesses
  import opened SupervisorState
  import opened RuntimeDurability
  import opened Lifecycle
  import opened ProcessExit
  import opened Reattach
  import opened Agent

  const ATTEMPTS: nat := 5

  // ---------------------------------------------------------------- what code without a reset does

  /** The timer was set in between, with the delay of the last attempt counted. */
  predicate SetMeanwhile(s: Sup, t: Sup) {
    && t.nextRestart.Some? && 0 < t.attempt <= |RESTART_BACKOFF|
    && s.os.now + RESTART_BACKOFF[t.attempt - 1] <= t.nextRestart.value <= t.os.now + RESTART_BACKOFF[t.attempt - 1]
  }

  /** From `s` to `t` attempts were only counted, and a new timer belongs to the last of them. */
  predicate Climbs(s: Sup, t: Sup) {
    && Flows(s.os, t.os)
    && s.attempt <= t.attempt && (t.attempt != s.attempt ==> t.attempt <= |RESTART_BACKOFF|)
    && (t.nextRestart.Some? ==>
          (t.nextRestart == s.nextRestart && t.attempt == s.attempt) || (t.attempt > s.attempt && SetMeanwhile(s, t)))
  }

  lemma ClimbsTransitive(s: Sup, t: Sup, u: Sup)
    requires Climbs(s, t) && Climbs(t, u)
    ensures Climbs(s, u)
  {
    hide Flows;
    FlowsTransitive(s.os, t.os, u.os);
    NowFlows(s.os, t.os);
    NowFlows(t.os, u.os);
  }

  lemma NowFlows(w: World, v: World)
    requires Flows(w, v)
    ensures w.now <= v.now
  {
  }

  lemma FlowsSelf(w: World)
    ensures Flows(w, w)
  {
  }

  /** The recovery timer and the attempts are left alone. */
  predicate Leaves(s: Sup, t: Sup) {
    Flows(s.os, t.os) && t.attempt == s.attempt && t.nextRestart == s.nextRestart
  }

  lemma LeavesClimbs(s: Sup, t: Sup)
    requires Leaves(s, t)
    ensures Climbs(s, t)
  {
  }

  /** The same, but the timer may be disarmed. */
  predicate Disarms(s: Sup, t: Sup) {
    Flows(s.os, t.os) && t.attempt == s.attempt && (t.nextRestart.None? || t.nextRestart == s.nextRestart)
  }

  lemma DisarmsClimbs(s: Sup, t: Sup)
    requires Disarms(s, t)
    ensures Climbs(s, t)
  {
  }

  // ---------------------------------------------------------------- saves

  /** The notes of a save touch nothing but its own bookkeeping. */
  predicate NotesSave(s: Sup, t: Sup) {
    t == s.(os := t.os, reliable := t.reliable, retryPending := t.retryPending, stateError := t.stateError,
            retryAt := t.retryAt, clearRequested := t.clearRequested)
  }

  lemma PersistNotes(s: Sup)
    ensures NotesSave(s, PersistDetailed(s).0) && NotesSave(s, PersistRuntime(s).0)
  {
    hide Save;
  }

  lemma DetailedFails(s: Sup)
    ensures var (t, outcome) := PersistDetailed(s);
            && (s.loaded && outcome != Durable ==> t.retryPending && t.retryAt.Some?)
            && t.os.forks == s.os.forks && t.os.signals == s.os.signals
  {
  }

  lemma PersistFlows(s: Sup)
    ensures Flows(s.os, PersistDetailed(s).0.os) && Flows(s.os, PersistRuntime(s).0.os)
  {
    hide Save;
    SaveFlows(s.os, s.runtime);
  }

  lemma PersistLeaves(s: Sup)
    ensures Leaves(s, PersistDetailed(s).0) && Leaves(s, PersistRuntime(s).0)
    ensures NotesSave(s, PersistDetailed(s).0) && NotesSave(s, PersistRuntime(s).0)
  {
    hide PersistDetailed;
    hide PersistRuntime;
    hide Flows;
    PersistNotes(s);
    PersistFlows(s);
  }

  /** The same time, attempts and timer. */
  predicate Like(t: Sup, u: Sup) {
    u.os == t.os && u.attempt == t.attempt && u.nextRestart == t.nextRestart
  }

  lemma LikeLeaves(s: Sup, t: Sup, u: Sup)
    requires Leaves(s, t) && Like(t, u)
    ensures Leaves(s, u)
  {
    hide Flows;
  }

  lemma SelfLeaves(s: Sup)
    ensures Leaves(s, s)
  {
  }

  lemma PersistDesiredIs(s: Sup, desired: DesiredState, intent: Intent)
    ensures PersistDesired(s, desired, intent).0 == s || Like(PersistDetailed(Desiring(s, desired)).0, PersistDesired(s, desired, intent).0)
  {
    hide PersistDetailed;
    var u := PersistDesired(s, desired, intent).0;
    if s.loaded {
      var (t, outcome) := PersistDetailed(Desiring(s, desired));
      match outcome
      case Durable => assert u == Forgotten(t);
      case Failed => assert u == Restored(t, s.runtime);
      case Uncertain => assert u == HeldIntent(t, intent);
    } else {
      assert u == s;
    }
  }

  lemma PersistDesiredLeaves(s: Sup, desired: DesiredState, intent: Intent)
    ensures Leaves(s, PersistDesired(s, desired, intent).0)
  {
    hide PersistDetailed;
    hide PersistDesired;
    hide Flows;
    SelfLeaves(s);
    PersistDesiredIs(s, desired, intent);
    PersistLeaves(Desiring(s, desired));
  }

  lemma BeginLaunchIs(s: Sup, marker: Marker)
    ensures BeginLaunch(s, marker).0 == s || Like(PersistDetailed(Marking(s, marker)).0, BeginLaunch(s, marker).0)
  {
    hide PersistDetailed;
    var u := BeginLaunch(s, marker).0;
    if !s.loaded || !s.reliable || s.runtime.marker.Some? || s.clearRequested {
      assert u == s;
    } else {
      var (t, outcome) := PersistDetailed(Marking(s, marker));
      match outcome
      case Durable => assert u == t;
      case Failed => assert u == Restored(t, s.runtime);
      case Uncertain => assert u == ClearAsked(t);
    }
  }

  lemma BeginLaunchLeaves(s: Sup, marker: Marker)
    ensures Leaves(s, BeginLaunch(s, marker).0)
  {
    hide PersistDetailed;
    hide BeginLaunch;
    hide Flows;
    SelfLeaves(s);
    BeginLaunchIs(s, marker);
    PersistLeaves(Marking(s, marker));
  }

  lemma AbortLeaves(s: Sup)
    ensures Leaves(s, AbortLaunch(s).0)
  {
    hide PersistRuntime;
    hide Flows;
    FlowsSelf(s.os);
    PersistLeaves(s.(runtime := s.runtime.(marker := None), clearRequested := true));
  }

  lemma EmitLeaves(s: Sup, kind: NoticeKind)
    ensures var t := EmitNotification(s, kind);
            && Leaves(s, t) && t.recoveryIncident == s.recoveryIncident && t.server == s.server
            && (t.runtime.notice == Some(kind) || Kernel.Ask(s.os).1.fault)
            && t.runtime.desired == s.runtime.desired
  {
    hide PersistRuntime;
    hide Kernel.Ask;
    hide Flows;
    AskFlows(s.os);
    var v := Kernel.Ask(s.os).0;
    var n := Notified(s, v, kind);
    var t := PersistRuntime(n).0;
    PersistLeaves(n);
    EmitIs(s, kind);
    hide EmitNotification;
    hide PersistRuntime;
    FlowsTransitive(s.os, v, t.os);
  }

  lemma EmitIs(s: Sup, kind: NoticeKind)
    ensures EmitNotification(s, kind) ==
              (if Kernel.Ask(s.os).1.fault then s.(os := Kernel.Ask(s.os).0) else PersistRuntime(Notified(s, Kernel.Ask(s.os).0, kind)).0)
  {
    hide PersistRuntime;
    hide Kernel.Ask;
  }

  lemma RefreshLeaves(s: Sup)
    ensures Leaves(s, RefreshConfig(s))
  {
    hide Kernel.Ask;
    AskFlows(s.os);
  }

  // ---------------------------------------------------------------- scheduling

  /** The next attempt is counted and its timer set, or the last failure is told. */
  lemma ScheduleSets(s: Sup)
    ensures var t := ScheduleNextRestart(s);
            && Climbs(s, t)
            && (if s.attempt < ATTEMPTS then
                  t.attempt == s.attempt + 1 && t.nextRestart == Some(s.os.now + RESTART_BACKOFF[s.attempt])
                  && t.server == WaitingToRestart && t.os == s.os && t.recoveryIncident == s.recoveryIncident && t.runtime == s.runtime
                else FailsFinally(s, t))
  {
    hide FinishRecoveryFailure;
    hide FailsFinally;
    if s.attempt < ATTEMPTS {
      ArmedClimbs(s);
    } else {
      FinishClimbs(s);
    }
  }

  lemma ArmedClimbs(s: Sup)
    requires s.attempt < ATTEMPTS
    ensures Climbs(s, RestartArmed(s))
  {
    FlowsSelf(s.os);
    hide Flows;
  }

  /** Recovery has come to its end: the timer is off, and an incident that was on is told of,
      unless the event of the notice could not be made. */
  predicate FailsFinally(s: Sup, t: Sup) {
    && t.attempt == s.attempt && t.nextRestart.None? && t.server == ServerFailed && !t.recoveryIncident
    && (s.recoveryIncident ==> t.runtime.notice == Some(FinalFailure) || Kernel.Ask(s.os).1.fault)
  }

  lemma FinishClimbs(s: Sup)
    ensures var t := FinishRecoveryFailure(s); Climbs(s, t) && FailsFinally(s, t)
  {
    hide EmitNotification;
    hide Kernel.Ask;
    hide Flows;
    FlowsSelf(s.os);
    EmitLeaves(s.(nextRestart := None, server := ServerFailed, recoveryIncident := false), FinalFailure);
  }

  /** The waits for port and address, the process, and the counts of forks and signals. */
  predicate SameWait(s: Sup, t: Sup) {
    && t.nextPortRetry == s.nextPortRetry && t.portDeadline == s.portDeadline && t.networkDeadline == s.networkDeadline
    && t.pendingTrigger == s.pendingTrigger && t.process == s.process && t.os.forks == s.os.forks && t.os.signals == s.os.signals
  }

  lemma AskCounts(w: World)
    ensures Kernel.Ask(w).0.forks == w.forks && Kernel.Ask(w).0.signals == w.signals
  {
  }

  lemma SaveCounts(s: Sup)
    ensures PersistRuntime(s).0.os.forks == s.os.forks && PersistRuntime(s).0.os.signals == s.os.signals
  {
  }

  lemma EmitWaits(s: Sup, kind: NoticeKind)
    ensures SameWait(s, EmitNotification(s, kind))
  {
    EmitIs(s, kind);
    hide EmitNotification;
    hide PersistRuntime;
    hide Kernel.Ask;
    AskCounts(s.os);
    var n := Notified(s, Kernel.Ask(s.os).0, kind);
    PersistNotes(n);
    SaveCounts(n);
  }

  lemma ScheduleWaits(s: Sup)
    ensures SameWait(s, FinishRecoveryFailure(s)) && SameWait(s, ScheduleNextRestart(s))
  {
    hide EmitNotification;
    EmitWaits(s.(nextRestart := None, server := ServerFailed, recoveryIncident := false), FinalFailure);
    if s.attempt < ATTEMPTS { assert SameWait(s, RestartArmed(s)); }
  }

  // ---------------------------------------------------------------- starting

  lemma GiveUpClimbs(s: Sup, trigger: Trigger, kind: ErrorKind)
    ensures Climbs(s, GiveUpStart(s, trigger, kind))
  {
    hide ScheduleNextRestart;
    hide FinishRecoveryFailure;
    hide SetMeanwhile;
    var t := GivenUp(s);
    LeavesClimbs(s, t);
    ScheduleSets(t);
    FinishClimbs(t);
    if trigger == Recovery { ClimbsTransitive(s, t, GiveUpStart(s, trigger, kind)); }
  }

  lemma RefusalClimbs(s: Sup, trigger: Trigger, kind: ErrorKind)
    ensures Climbs(s, AfterRefusal(s, trigger, kind))
  {
    hide GiveUpStart;
    GiveUpClimbs(s, trigger, kind);
    LeavesClimbs(s, PortRetrying(s));
    LeavesClimbs(s, NetworkRetrying(s, trigger));
  }

  lemma FinishStartClimbs(s: Sup, trigger: Trigger, config: Config, result: SpawnResult)
    ensures Climbs(s, FinishStart(s, trigger, config, result))
  {
    hide PersistRuntime;
    hide AbortLaunch;
    hide AfterRefusal;
    match result
    case Started(m) =>
      PersistLeaves(s.(runtime := s.runtime.(process := Some(m.Rec()), marker := None), clearRequested := true, process := Some(m)));
    case Survivor(m) =>
      PersistLeaves(s.(runtime := s.runtime.(process := Some(m.Rec()), marker := None), clearRequested := true, process := Some(m)));
    case NotStarted(kind) =>
      AbortLeaves(s);
      var t := AbortLaunch(s).0;
      LeavesClimbs(s, t);
      RefusalClimbs(t, trigger, kind);
      ClimbsTransitive(s, t, AfterRefusal(t, trigger, kind));
      LeavesClimbs(s, GivenUp(t));
  }

  lemma LaunchClimbs(s: Sup, trigger: Trigger, config: Config)
    ensures Climbs(s, Lifecycle.Launch(s, trigger, config))
  {
    hide BeginLaunch;
    hide Spawn;
    hide FinishStart;
    hide SetMeanwhile;
    var marker := Marker(config.executable, config.fingerprint);
    BeginLaunchLeaves(s, marker);
    var (t, marked) := BeginLaunch(s, marker);
    if marked {
      SpawnFlows(t.os, config, t.runtime);
      var (v, result) := Spawn(t.os, config, t.runtime);
      var u := t.(os := v);
      FlowsTransitive(s.os, t.os, v);
      LeavesClimbs(s, u);
      FinishStartClimbs(u, trigger, config, result);
      ClimbsTransitive(s, u, FinishStart(u, trigger, config, result));
    } else {
      LeavesClimbs(s, MarkerRefused(t, trigger));
    }
  }

  lemma RefusedClimbs(s: Sup, trigger: Trigger)
    ensures Climbs(s, StartRefusedNow(s, trigger))
  {
    hide ScheduleNextRestart;
    hide SetMeanwhile;
    var t := s.(server := ServerFailed);
    LeavesClimbs(s, t);
    ScheduleSets(t);
    if trigger == Recovery { ClimbsTransitive(s, t, ScheduleNextRestart(t)); }
  }

  lemma StartClimbs(s: Sup, trigger: Trigger)
    ensures Climbs(s, StartNow(s, trigger))
  {
    hide RefreshConfig;
    hide Lifecycle.Launch;
    hide StartRefusedNow;
    hide Climbs;
    var r := RuntimeStateReady(s).0;
    LeavesClimbs(s, DeferConvergence(r, StartLater(trigger)).(server := ServerFailed));
    var t := RefreshConfig(r);
    RefreshLeaves(r);
    LeavesClimbs(s, t);
    RefusedClimbs(t, trigger);
    ClimbsTransitive(s, t, StartRefusedNow(t, trigger));
    if t.latest.Some? {
      LaunchClimbs(t, trigger, t.latest.value);
      ClimbsTransitive(s, t, Lifecycle.Launch(t, trigger, t.latest.value));
    }
  }

  // ---------------------------------------------------------------- stopping

  lemma SignalLeaves(s: Sup, restarting: bool)
    requires s.process.Some?
    ensures Leaves(s, SignalStop(s, restarting))
  {
    hide SignalManaged;
    SignalFlows(s.os, s.process.value, Terminate, StopRequest);
  }

  lemma BeginStopClimbs(s: Sup, restarting: bool)
    ensures Climbs(s, BeginStop(s, restarting))
  {
    hide StartNow;
    hide SignalStop;
    hide Climbs;
    hide Flows;
    FlowsSelf(s.os);
    StartClimbs(s, AfterStop);
    if s.process.Some? {
      SignalLeaves(s, restarting);
      LeavesClimbs(s, SignalStop(s, restarting));
    }
    LeavesClimbs(s, StopLaterOn(s, restarting));
    LeavesClimbs(s, s.(server := ServerFailed));
    LeavesClimbs(s, s.(server := ServerStopped));
  }

  lemma ForceStopLeaves(s: Sup)
    ensures Leaves(s, ForceStop(s).0)
  {
    hide SignalManaged;
    hide Flows;
    FlowsSelf(s.os);
    var t := ForceStop(s).0;
    if !StoppingNow(s) || s.process.None? {
      assert t == s;
    } else {
      SignalFlows(s.os, s.process.value, Kill, ForceRequest);
      var (v, sent) := SignalManaged(s.os, s.process.value, Kill, ForceRequest);
      assert t == s.(os := v, server := if sent then Stopping else s.server, stopDeadline := if sent then None else s.stopDeadline);
    }
  }

  lemma ContinueLeaves(s: Sup)
    ensures Leaves(s, ContinueStop(s).0)
  {
    FlowsSelf(s.os);
    hide Flows;
    var t := ContinueStop(s).0;
    if s.server != StopTimedOut { assert t == s; } else { assert t == s.(server := Stopping, stopDeadline := Some(s.os.now + GRACEFUL_STOP)); }
  }

  lemma ApplyStopClimbs(s: Sup)
    ensures Climbs(s, ApplyStop(s).0)
  {
    hide BeginStop;
    hide Climbs;
    var t := Cancelled(s, s.attempt, false, false);
    DisarmsClimbs(s, t);
    BeginStopClimbs(t, false);
    ClimbsTransitive(s, t, BeginStop(t, false));
  }

  lemma StopRequestClimbs(s: Sup)
    ensures Climbs(s, Request(s, StopIntent).0)
  {
    hide PersistDesired;
    hide ApplyStop;
    hide Climbs;
    PersistDesiredLeaves(s, Stopped, StopIntent);
    var t := PersistDesired(s, Stopped, StopIntent).0;
    LeavesClimbs(s, t);
    ApplyStopClimbs(t);
    ClimbsTransitive(s, t, ApplyStop(t).0);
  }

  // ---------------------------------------------------------------- exits

  lemma StopFinishedClimbs(s: Sup)
    ensures Climbs(s, StopFinished(s))
  {
    hide ScheduleNextRestart;
    hide StartNow;
    hide Climbs;
    DisarmsClimbs(s, s.(groupRecovery := false, restartAfterStop := false, nextRestart := None, server := ServerStopped));
    LeavesClimbs(s, s.(server := ServerStopped));
    var a := s.(groupRecovery := false);
    LeavesClimbs(s, a);
    ScheduleSets(a);
    ClimbsTransitive(s, a, ScheduleNextRestart(a));
    var b := s.(restartAfterStop := false);
    LeavesClimbs(s, b);
    StartClimbs(b, AfterStop);
    ClimbsTransitive(s, b, StartNow(b, AfterStop));
  }

  lemma BeginRecoveryClimbs(s: Sup)
    ensures Climbs(s, BeginRecovery(s))
  {
    hide ScheduleNextRestart;
    hide EmitNotification;
    hide Climbs;
    var a := s.(recoveryIncident := true);
    EmitLeaves(a, Failure);
    var b := if s.recoveryIncident then s else EmitNotification(a, Failure);
    LeavesClimbs(s, b);
    ScheduleSets(b);
    ClimbsTransitive(s, b, ScheduleNextRestart(b));
  }

  lemma ResumeClimbs(s: Sup, note: ExitNote)
    ensures Climbs(s, ResumeAfterExit(s, note))
  {
    hide StopFinished;
    hide BeginRecovery;
    hide Climbs;
    StopFinishedClimbs(s);
    BeginRecoveryClimbs(s);
    LeavesClimbs(s, s.(server := ServerStopped));
  }

  lemma UnverifiedClimbs(s: Sup, r: Record)
    ensures Climbs(s, MarkUnverified(s, r)) && MarkUnverified(s, r).unverified
  {
    hide PersistRuntime;
    hide Climbs;
    PersistLeaves(Unverified(s, r));
    UnverifiedStays(Unverified(s, r));
    LeavesClimbs(s, MarkUnverified(s, r));
  }

  lemma UnverifiedStays(s: Sup)
    ensures PersistRuntime(s).0.unverified == s.unverified && PersistRuntime(s).0.pendingExit == s.pendingExit
  {
  }

  lemma CompleteExitClimbs(s: Sup, note: ExitNote)
    ensures Climbs(s, CompleteExit(s, note))
  {
    hide PersistDetailed;
    hide ResumeAfterExit;
    hide Climbs;
    PersistLeaves(Cleared(s));
    var t := PersistDetailed(Cleared(s)).0;
    DisarmsClimbs(s, t);
    DisarmsClimbs(s, KeptRecord(t, LastRecord(s)));
    DisarmsClimbs(s, HeldExit(t, note));
    ResumeClimbs(t, note);
    ClimbsTransitive(s, t, ResumeAfterExit(t, note));
  }

  lemma LoseIdentityClimbs(s: Sup)
    ensures Climbs(s, LoseIdentity(s))
  {
    hide MarkUnverified;
    hide Climbs;
    if s.process.Some? {
      var t := Unidentified(s, s.process.value);
      DisarmsClimbs(s, t);
      UnverifiedClimbs(t, Disowned(s.process.value.Rec()));
      ClimbsTransitive(s, t, LoseIdentity(s));
    } else {
      LeavesClimbs(s, s);
    }
  }

  lemma LoseLeaderClimbs(s: Sup, record: Record)
    ensures Climbs(s, LoseLeader(s, record))
  {
    hide MarkUnverified;
    hide Climbs;
    DisarmsClimbs(s, Abandoned(s));
    UnverifiedClimbs(Abandoned(s), Disowned(record));
    ClimbsTransitive(s, Abandoned(s), LoseLeader(s, record));
  }

  lemma AwaitClimbs(s: Sup, explicitStop: bool)
    requires s.process.Some?
    ensures Climbs(s, AwaitGroup(s, explicitStop))
  {
    hide PersistRuntime;
    hide Climbs;
    var a := Awaiting(s, explicitStop);
    var b := s.(stopDeadline := None, server := ServerFailed);
    assert Like(s, a) && Like(s, b);
    hide Awaiting;
    PersistLeaves(a);
    PersistLeaves(b);
    SelfLeaves(s);
    hide Flows;
    var t := AwaitGroup(s, explicitStop);
    assert t == a || t == PersistRuntime(a).0 || t == PersistRuntime(b).0;
    hide AwaitGroup;
    LeavesClimbs(s, t);
  }

  lemma HandleExitClimbs(s: Sup, note: ExitNote)
    ensures Climbs(s, HandleExit(s, note))
  {
    hide CompleteExit;
    hide LoseIdentity;
    hide LoseLeader;
    hide ObserveMembers;
    hide Climbs;
    LoseIdentityClimbs(s);
    CompleteExitClimbs(s, note);
    if s.process.Some? {
      var record := s.process.value.Rec();
      ObserveFlows(s.os, record.group, None);
      var t := s.(os := ObserveAttached(s.os, record).0);
      LeavesClimbs(s, t);
      CompleteExitClimbs(t, note);
      ClimbsTransitive(s, t, CompleteExit(t, note));
      LoseLeaderClimbs(t, record);
      ClimbsTransitive(s, t, LoseLeader(t, record));
    }
  }

  lemma ObserveExitClimbs(s: Sup)
    ensures Climbs(s, ObserveExit(s))
  {
    hide PollExit;
    hide AwaitGroup;
    hide HandleExit;
    hide Climbs;
    LeavesClimbs(s, s);
    if s.process.Some? {
      PollExitFlows(s.os, s.process.value);
      var (v, m, poll) := PollExit(s.os, s.process.value);
      var t := Reseen(s, v, m);
      DisarmsClimbs(s, t);
      AwaitClimbs(t, StoppingNow(s));
      ClimbsTransitive(s, t, AwaitGroup(t, StoppingNow(s)));
      if poll.Gone? {
        HandleExitClimbs(t, ExitNote(StoppingNow(s), poll.reason));
        ClimbsTransitive(s, t, HandleExit(t, ExitNote(StoppingNow(s), poll.reason)));
      }
    }
  }

  lemma UpgradeClimbs(s: Sup)
    ensures Climbs(s, UpgradeIdentity(s).0)
  {
    hide ConfirmIdentity;
    hide PersistRuntime;
    hide Climbs;
    LeavesClimbs(s, s);
    if s.process.Some? {
      ConfirmFlows(s.os, s.process.value);
      var (v, m, upgraded) := ConfirmIdentity(s.os, s.process.value);
      DisarmsClimbs(s, Reseen(s, v, m));
      var t := Rerecorded(s, v, m);
      DisarmsClimbs(s, t);
      PersistLeaves(t);
      LeavesClimbs(t, SaveIdentity(t).0);
      ClimbsTransitive(s, t, SaveIdentity(t).0);
    }
  }

  lemma PollClimbs(s: Sup)
    ensures Climbs(s, PollProcess(s))
  {
    hide UpgradeIdentity;
    hide ObserveExit;
    hide Climbs;
    UpgradeClimbs(s);
    var t := UpgradeIdentity(s).0;
    ObserveExitClimbs(t);
    ClimbsTransitive(s, t, ObserveExit(t));
  }

  // ---------------------------------------------------------------- deferred actions

  lemma RetrySaveClimbs(s: Sup)
    ensures Climbs(s, RetrySave(s).0) && RetrySave(s).0.pendingIntent == s.pendingIntent && RetrySave(s).0.ledger == s.ledger
  {
    hide PersistDetailed;
    hide Climbs;
    var a := s.(retryAt := None);
    PersistLeaves(a);
    var t := PersistDetailed(a).0;
    LeavesClimbs(s, t);
    PersistLeaves(MarkerTakenBack(t));
    var u := PersistDetailed(MarkerTakenBack(t)).0;
    LeavesClimbs(t, u);
    ClimbsTransitive(s, t, u);
  }

  lemma ConvergenceClimbs(s: Sup)
    ensures Climbs(s, ResumeConvergence(s))
  {
    hide StartNow;
    hide BeginStop;
    hide Climbs;
    SelfLeaves(s);
    LeavesClimbs(s, s);
    if DurableNow(s) && s.pendingConvergence.Some? {
      var t := ConvergenceTaken(s);
      JudgedLeaves(s);
      LeavesClimbs(s, t);
      match s.pendingConvergence.value.what
      case StartLater(trigger) =>
        StartClimbs(t, trigger);
        ClimbsTransitive(s, t, StartNow(t, trigger));
      case StopLater =>
        BeginStopClimbs(t, false);
        ClimbsTransitive(s, t, BeginStop(t, false));
        LeavesClimbs(s, t.(server := ServerStopped));
    }
  }

  lemma JudgedLeaves(s: Sup)
    ensures Flows(s.os, Judged(s))
  {
  }

  /** What a due retry carries out is not a start or a restart. */
  predicate NoStartDeferred(s: Sup) {
    s.pendingIntent.Some? ==> s.pendingIntent.value.what == StopIntent
  }

  lemma DeferredClimbs(s: Sup)
    requires NoStartDeferred(s)
    ensures Climbs(s, ResumeDeferred(s))
  {
    hide ApplyStop;
    hide ApplyStart;
    hide ApplyRestart;
    hide ResumeAfterExit;
    hide ResumeConvergence;
    hide Climbs;
    JudgedLeaves(s);
    if s.pendingIntent.Some? {
      var t := IntentTaken(s);
      LeavesClimbs(s, t);
      ApplyStopClimbs(t);
      ClimbsTransitive(s, t, ApplyStop(t).0);
    } else if s.pendingExit.Some? {
      var t := ExitTaken(s);
      LeavesClimbs(s, t);
      ResumeClimbs(t, s.pendingExit.value.what);
      ClimbsTransitive(s, t, ResumeAfterExit(t, s.pendingExit.value.what));
    } else {
      ConvergenceClimbs(s);
    }
  }

  /** A start or restart that waited is carried out by this retry. */
  predicate StartsDeferred(s: Sup, now: nat) {
    !NoStartDeferred(s) && RetryDue(s, now) && RetrySave(s).1 == Durable
  }

  lemma RetryClimbs(s: Sup, now: nat)
    requires !StartsDeferred(s, now)
    ensures Climbs(s, RetryIfDue(s, now))
  {
    hide RetrySave;
    hide ResumeDeferred;
    hide Climbs;
    SelfLeaves(s);
    LeavesClimbs(s, s);
    if RetryDue(s, now) {
      RetrySaveClimbs(s);
      var (t, outcome) := RetrySave(s);
      if outcome == Durable {
        DeferredClimbs(t);
        ClimbsTransitive(s, t, ResumeDeferred(t));
      }
    }
  }

  // ---------------------------------------------------------------- the rest of a tick

  /** The recheck of an unverified record that is due ends it, so that the agent starts over. */
  predicate GivesUpRecord(s: Sup, now: nat) {
    s.unverified && s.process.None? && Due(s.unverifiedAt, now) && !CheckUnverified(s, now).unverified
  }

  lemma DiscardIs(s: Sup)
    ensures Like(PersistDetailed(Discarded(s)).0, DiscardStale(s).0)
    ensures DiscardStale(s).1 ==> DiscardStale(s).0 == PersistDetailed(Discarded(s)).0
  {
    hide PersistDetailed;
    var (t, outcome) := PersistDetailed(Discarded(s));
    var u := DiscardStale(s).0;
    match outcome
    case Durable => assert u == t;
    case Failed => assert u == KeptUnverified(t, s.runtime.process);
    case Uncertain => assert u == DiscardLater(t);
  }

  lemma DiscardLeaves(s: Sup)
    ensures Leaves(s, DiscardStale(s).0)
    ensures DiscardStale(s).1 ==> !DiscardStale(s).0.unverified
  {
    hide PersistDetailed;
    hide DiscardStale;
    hide Flows;
    PersistLeaves(Discarded(s));
    DiscardIs(s);
  }

  lemma CheckRecordClimbs(s: Sup, r: Record)
    requires CheckRecord(s, r).unverified
    ensures Climbs(s, CheckRecord(s, r))
  {
    hide Inspect;
    hide ObserveMembers;
    hide EndUnverified;
    hide Climbs;
    var (v, identity) := Inspect(s.os, r);
    InspectFlows(s.os, r);
    LeavesClimbs(s, s.(os := v));
    ObserveFlows(v, r.group, None);
    var u := ObserveAttached(v, r).0;
    FlowsTransitive(s.os, v, u);
    var t := s.(os := u);
    LeavesClimbs(s, t);
    if identity.Missing? && ObserveAttached(v, r).1 == Empty {
      EndClimbs(t);
      ClimbsTransitive(s, t, EndUnverified(t));
    }
  }

  lemma InspectFlows(w: World, r: Record)
    ensures Flows(w, Inspect(w, r).0)
  {
    hide TakeSnapshot;
    SnapshotFlows(w, r.pid);
  }

  lemma EndClimbs(s: Sup)
    requires EndUnverified(s).unverified
    ensures Climbs(s, EndUnverified(s))
  {
    hide DiscardStale;
    hide Converge;
    hide Climbs;
    DiscardLeaves(s);
    var (t, gone) := DiscardStale(s);
    LeavesClimbs(s, t);
    ConvergeStays(t);
  }

  lemma ConvergeStays(s: Sup)
    ensures Stays(s, Converge(s))
  {
    hide StartNow;
    var trigger := if s.restartAfterStop then AfterStop else Cold;
    var a := s.(restartAfterStop := false, attempt := 0, nextRestart := None);
    StartStays(a, trigger);
    assert StartCleanly(s, trigger) == StartNow(a, trigger);
    hide StartCleanly;
    assert Stays(s, s.(server := ServerStopped));
  }

  /** The mark of an unverified record is left alone, and so are the deferred intent and exit and
      the list of the deferred actions that were carried out. */
  predicate Stays(s: Sup, t: Sup) {
    && t.unverified == s.unverified && t.ledger.ran == s.ledger.ran
    && t.pendingIntent == s.pendingIntent && t.pendingExit == s.pendingExit
  }

  /** No start touches any of them. */
  lemma StartStays(s: Sup, trigger: Trigger)
    ensures Stays(s, StartNow(s, trigger))
  {
    hide RefreshConfig;
    hide Lifecycle.Launch;
    hide StartRefusedNow;
    var r := RuntimeStateReady(s).0;
    var t := RefreshConfig(r);
    RefreshStays(r);
    RefusedStays(t, trigger);
    if t.latest.Some? { LaunchStays(t, trigger, t.latest.value); }
  }

  lemma RefreshStays(s: Sup)
    ensures Stays(s, RefreshConfig(s))
  {
    hide Kernel.Ask;
  }

  lemma EmitStays(s: Sup, kind: NoticeKind)
    ensures Stays(s, EmitNotification(s, kind))
  {
    EmitIs(s, kind);
    hide EmitNotification;
    hide PersistRuntime;
    hide Kernel.Ask;
    PersistNotes(Notified(s, Kernel.Ask(s.os).0, kind));
  }

  lemma FinishStays(s: Sup)
    ensures Stays(s, FinishRecoveryFailure(s))
  {
    hide EmitNotification;
    EmitStays(s.(nextRestart := None, server := ServerFailed, recoveryIncident := false), FinalFailure);
  }

  lemma ScheduleStays(s: Sup)
    ensures Stays(s, ScheduleNextRestart(s))
  {
    hide FinishRecoveryFailure;
    FinishStays(s);
    if s.attempt < |RESTART_BACKOFF| { assert Stays(s, RestartArmed(s)); }
  }

  lemma RefusedStays(s: Sup, trigger: Trigger)
    ensures Stays(s, StartRefusedNow(s, trigger))
  {
    hide ScheduleNextRestart;
    ScheduleStays(s.(server := ServerFailed));
  }

  lemma LaunchStays(s: Sup, trigger: Trigger, config: Config)
    ensures Stays(s, Lifecycle.Launch(s, trigger, config))
  {
    hide BeginLaunch;
    hide Spawn;
    hide FinishStart;
    var marker := Marker(config.executable, config.fingerprint);
    BeginLaunchStays(s, marker);
    var (t, marked) := BeginLaunch(s, marker);
    var (v, result) := Spawn(t.os, config, t.runtime);
    FinishStartStays(t.(os := v), trigger, config, result);
  }

  lemma BeginLaunchStays(s: Sup, marker: Marker)
    ensures Stays(s, BeginLaunch(s, marker).0)
  {
    hide PersistDetailed;
    PersistNotes(Marking(s, marker));
    var u := BeginLaunch(s, marker).0;
    if !s.loaded || !s.reliable || s.runtime.marker.Some? || s.clearRequested {
      assert u == s;
    } else {
      var (t, outcome) := PersistDetailed(Marking(s, marker));
      match outcome
      case Durable => assert u == t;
      case Failed => assert u == Restored(t, s.runtime);
      case Uncertain => assert u == ClearAsked(t);
    }
  }

  lemma CommitStays(s: Sup, m: Managed)
    ensures Stays(s, CommitSpawned(s, m).0)
  {
    hide PersistRuntime;
    PersistNotes(s.(runtime := s.runtime.(process := Some(m.Rec()), marker := None), clearRequested := true, process := Some(m)));
  }

  lemma AbortStays(s: Sup)
    ensures Stays(s, AbortLaunch(s).0)
  {
    hide PersistRuntime;
    PersistNotes(s.(runtime := s.runtime.(marker := None), clearRequested := true));
  }

  lemma RefusalStays(s: Sup, trigger: Trigger, kind: ErrorKind)
    ensures Stays(s, AfterRefusal(s, trigger, kind))
  {
    hide ScheduleNextRestart;
    hide FinishRecoveryFailure;
    var t := GivenUp(s);
    ScheduleStays(t);
    FinishStays(t);
    assert Stays(s, t) && Stays(s, PortRetrying(s)) && Stays(s, NetworkRetrying(s, trigger));
    hide GivenUp;
    hide PortRetrying;
    hide NetworkRetrying;
  }

  lemma FinishStartStays(s: Sup, trigger: Trigger, config: Config, result: SpawnResult)
    ensures Stays(s, FinishStart(s, trigger, config, result))
  {
    hide CommitSpawned;
    hide AbortLaunch;
    hide AfterRefusal;
    match result
    case Started(m) => CommitStays(s, m);
    case Survivor(m) => CommitStays(s, m);
    case NotStarted(kind) =>
      AbortStays(s);
      RefusalStays(AbortLaunch(s).0, trigger, kind);
  }

  lemma FireUnverifiedClimbs(s: Sup, now: nat)
    requires !GivesUpRecord(s, now)
    ensures Climbs(s, FireUnverified(s, now))
  {
    hide CheckRecord;
    hide Climbs;
    SelfLeaves(s);
    LeavesClimbs(s, s);
    var t := s.(unverifiedAt := Some(now + UNVERIFIED_CHECK));
    LeavesClimbs(s, t);
    if s.unverified && s.process.None? && Due(s.unverifiedAt, now) && s.runtime.process.Some? {
      CheckRecordClimbs(t, s.runtime.process.value);
      ClimbsTransitive(s, t, CheckRecord(t, s.runtime.process.value));
    }
  }

  lemma TimersClimb(s: Sup, now: nat)
    requires !GivesUpRecord(s, now)
    ensures Climbs(s, FireTimers(s, now))
  {
    hide FireUnverified;
    hide StartNow;
    hide Climbs;
    FireUnverifiedClimbs(s, now);
    var a := FireUnverified(s, now);
    var b := ExpireStop(a, now);
    SelfLeaves(a);
    LeavesClimbs(a, b);
    ClimbsTransitive(s, a, b);
    var c := FireRestart(b, now);
    FireRestartClimbs(b, now);
    ClimbsTransitive(s, b, c);
    FirePortClimbs(c, now);
    ClimbsTransitive(s, c, FirePortRetry(c, now));
  }

  lemma FireRestartClimbs(s: Sup, now: nat)
    ensures Climbs(s, FireRestart(s, now))
  {
    hide StartNow;
    hide Climbs;
    SelfLeaves(s);
    LeavesClimbs(s, s);
    FlowsSelf(s.os);
    var t := s.(nextRestart := None);
    DisarmsClimbs(s, t);
    StartClimbs(t, Recovery);
    ClimbsTransitive(s, t, StartNow(t, Recovery));
  }

  lemma FirePortClimbs(s: Sup, now: nat)
    ensures Climbs(s, FirePortRetry(s, now))
  {
    hide StartNow;
    hide Climbs;
    SelfLeaves(s);
    LeavesClimbs(s, s);
    var t := s.(nextPortRetry := None, pendingTrigger := None);
    LeavesClimbs(s, t);
    var trigger := if s.pendingTrigger.Some? then s.pendingTrigger.value else AfterStop;
    StartClimbs(t, trigger);
    ClimbsTransitive(s, t, StartNow(t, trigger));
  }

  lemma ReloadClimbs(s: Sup, at: nat)
    ensures Climbs(s, ReadConfig(s, at))
  {
    hide RefreshConfig;
    hide Climbs;
    RefreshLeaves(s);
    LeavesClimbs(s, ReadConfig(s, at));
  }

  lemma ReloadNowClimbs(s: Sup)
    ensures Climbs(s, ReloadConfig(s))
  {
    hide ReadConfig;
    hide Climbs;
    ReloadClimbs(s, RefreshConfig(s).os.now);
  }

  lemma RecordVersionLeaves(s: Sup, version: nat)
    ensures Leaves(s, RecordVersion(s, version).0)
  {
    hide PersistRuntime;
    hide Flows;
    FlowsSelf(s.os);
    if s.process.Some? {
      var m := s.process.value.WithRunningVersion(version);
      PersistLeaves(s.(process := Some(m), runtime := s.runtime.(process := Some(m.Rec()))));
    }
  }

  lemma LeavesTransitive(s: Sup, t: Sup, u: Sup)
    requires Leaves(s, t) && Leaves(t, u)
    ensures Leaves(s, u)
  {
    hide Flows;
    FlowsTransitive(s.os, t.os, u.os);
  }

  lemma HealthyLeaves(s: Sup, version: nat)
    ensures Leaves(s, HealthyAnswer(s, version))
  {
    hide RecordVersion;
    hide Recover;
    hide Flows;
    SelfLeaves(s);
    var t := HealthNoted(s, version);
    RecordVersionLeaves(t, version);
    var (u, saved) := if s.runningVersion == Some(version) then (t, true) else RecordVersion(t, version);
    RecoverLeaves(u);
    FlowsTransitive(s.os, u.os, Recover(u).os);
  }

  lemma RecoverLeaves(s: Sup)
    ensures Leaves(s, Recover(s))
  {
    hide EmitNotification;
    SelfLeaves(s);
    hide Flows;
    EmitLeaves(s.(recoveryIncident := false, healthIncident := false), Recovered);
  }

  lemma UnhealthyLeaves(s: Sup, now: nat)
    ensures Leaves(s, UnhealthyAnswer(s, now))
  {
    hide EmitNotification;
    hide Flows;
    FlowsSelf(s.os);
    EmitLeaves(UnhealthNoted(s, now), Failure);
  }

  lemma UnstaleLeaves(s: Sup, r: Record, version: nat, config: Config, now: nat)
    ensures Leaves(s, Unstale(s, r, version, config, now))
  {
    hide PersistRuntime;
    hide Flows;
    PersistLeaves(s.(process := Some(Attached(r)), runtime := s.runtime.(process := Some(r)), runningVersion := Some(version),
                     active := Some(config), stale := false, server := ServerHealthy, started := Some(now)));
  }

  lemma StaleHealthLeaves(s: Sup, now: nat, verdict: HealthVerdict)
    ensures Leaves(s, ApplyStaleHealth(s, now, verdict))
  {
    hide Inspect;
    hide Unstale;
    hide Flows;
    FlowsSelf(s.os);
    if verdict.Healthy? && s.process.Some? && s.latest.Some? && s.process.value.Rec().fingerprint == s.latest.value.fingerprint {
      var r, config := s.process.value.Rec(), s.latest.value;
      InspectFlows(s.os, r);
      var t := s.(os := Inspect(s.os, r).0);
      UnstaleLeaves(t, Refreshed(r, verdict.version, config), verdict.version, config, now);
      LeavesTransitive(s, t, Unstale(t, Refreshed(r, verdict.version, config), verdict.version, config, now));
    }
  }

  lemma HealthLeaves(s: Sup, now: nat, verdict: HealthVerdict)
    ensures Leaves(s, HealthAnswer(s, now, verdict))
  {
    hide ApplyStaleHealth;
    hide HealthyAnswer;
    hide UnhealthyAnswer;
    hide Flows;
    FlowsSelf(s.os);
    var t := RuntimeStateReady(s).0;
    StaleHealthLeaves(t, now, verdict);
    if verdict.Healthy? { HealthyLeaves(t, verdict.version); }
    UnhealthyLeaves(t, now);
  }

  lemma VersionLeaves(s: Sup, version: nat)
    ensures Leaves(s, ApplyVersion(s, version))
  {
    hide RecordVersion;
    hide Flows;
    FlowsSelf(s.os);
    RecordVersionLeaves(Versioned(s, version), version);
  }

  /** A process has run long enough when the tick comes to its end. */
  predicate Forgives(s: Sup, now: nat) {
    s.process.Some? && s.started.Some? && now >= s.started.value + STABLE_RUN
  }

  /** The state in which a tick looks whether to forgive. */
  function Served(s: Sup, now: nat, arrivals: Arrivals): Sup {
    TakeCredential(
      TakeVersion(CheckHealthDue(TakeHealth(RecheckConfig(s, now), now, arrivals.health), arrivals.healthDue), arrivals.version),
      arrivals.password, arrivals.credential)
  }

  lemma TakeHealthLeaves(s: Sup, now: nat, health: Option<HealthVerdict>)
    ensures Leaves(s, TakeHealth(s, now, health))
  {
    hide HealthAnswer;
    hide Leaves;
    SelfLeaves(s);
    if health.Some? { HealthLeaves(s, now, health.value); }
  }

  lemma CheckDueLeaves(s: Sup, due: bool)
    ensures Leaves(s, CheckHealthDue(s, due))
  {
    FlowsSelf(s.os);
    hide Flows;
  }

  lemma TakeVersionLeaves(s: Sup, version: Option<nat>)
    ensures Leaves(s, TakeVersion(s, version))
  {
    hide ApplyVersion;
    hide Leaves;
    SelfLeaves(s);
    if version.Some? { VersionLeaves(s, version.value); }
  }

  lemma CredentialLeaves(s: Sup, credential: Option<CredentialState>)
    ensures Leaves(s, TakeCredential(s, None, credential))
  {
    FlowsSelf(s.os);
    hide Flows;
    assert TakeCredential(s, None, credential) == CredentialNoted(s, credential);
  }

  lemma RecheckClimbs(s: Sup, now: nat)
    ensures Climbs(s, RecheckConfig(s, now))
  {
    hide ReadConfig;
    hide Climbs;
    SelfLeaves(s);
    LeavesClimbs(s, s);
    ReloadClimbs(s, now);
  }

  lemma ServedClimbs(s: Sup, now: nat, arrivals: Arrivals)
    requires arrivals.password.None?
    ensures Climbs(s, Served(s, now, arrivals))
  {
    hide RecheckConfig;
    hide TakeHealth;
    hide CheckHealthDue;
    hide TakeVersion;
    hide TakeCredential;
    hide Climbs;
    hide Leaves;
    RecheckClimbs(s, now);
    var a := RecheckConfig(s, now);
    var b := TakeHealth(a, now, arrivals.health);
    TakeHealthLeaves(a, now, arrivals.health);
    var c := CheckHealthDue(b, arrivals.healthDue);
    CheckDueLeaves(b, arrivals.healthDue);
    LeavesTransitive(a, b, c);
    var d := TakeVersion(c, arrivals.version);
    TakeVersionLeaves(c, arrivals.version);
    LeavesTransitive(a, c, d);
    var e := TakeCredential(d, None, arrivals.credential);
    CredentialLeaves(d, arrivals.credential);
    LeavesTransitive(a, d, e);
    LeavesClimbs(a, e);
    ClimbsTransitive(s, a, e);
  }

  lemma ArrivalsClimb(s: Sup, now: nat, arrivals: Arrivals)
    requires arrivals.password.None? && !Forgives(Served(s, now, arrivals), now)
    ensures Climbs(s, TakeArrivals(s, now, arrivals))
  {
    hide Climbs;
    ServedClimbs(s, now, arrivals);
    var e := Served(s, now, arrivals);
    assert TakeArrivals(s, now, arrivals) == ForgiveAttempts(e, now);
    hide Served;
    hide TakeArrivals;
    assert ForgiveAttempts(e, now) == e;
  }
}
