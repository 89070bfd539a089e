/** Starting and stopping keep the invariant. The launch transaction is the heart of it: a
    fork happens only where no leader is alive and every image a crash could expose carries
    the launch marker. */
module LifecycleSafety {
  import opened Records
  import opened Kernel
  import opened ProcessGroup
  import opened ProcessCleanup
  import opened ManagedProcesses
  import opened SupervisorState
  import opened RuntimeDurability
  import opened SupervisorSafety
  import opened Lifecycle

  // ---------------------------------------------------------------- small steps

  lemma NoticeKeeps(s: Sup, kind: NoticeKind)
    requires Inv(s)
    ensures Edits(s, s.(runtime := s.runtime.(notice := Some(kind))))
  {
    hide WorldOk;
    hide ManagedOk;
  }

  lemma NotifiedKeeps(s: Sup, v: World, kind: NoticeKind)
    ensures Notified(s, v, kind).process == s.process && Notified(s, v, kind).unverified == s.unverified
  {
  }

  lemma PersistKeepsProcess(s: Sup)
    ensures PersistRuntime(s).0.process == s.process && PersistRuntime(s).0.unverified == s.unverified
  {
    hide PersistRuntime;
    hide SavedOnly;
    PersistRuntimeFrame(s);
    SavedFrame(s, PersistRuntime(s).0);
  }

  lemma EmitKeepsProcess(s: Sup, kind: NoticeKind)
    ensures EmitNotification(s, kind).process == s.process && EmitNotification(s, kind).unverified == s.unverified
  {
    hide Ask;
    hide PersistRuntime;
    hide Notified;
    NotifiedKeeps(s, Ask(s.os).0, kind);
    PersistKeepsProcess(Notified(s, Ask(s.os).0, kind));
  }

  lemma NotifiedMoves(s: Sup, v: World, kind: NoticeKind)
    requires Inv(s) && OnlyLooked(s.os, v)
    ensures Calm(s, s.(os := v)) && Edits(s, Notified(s, v, kind))
  {
    hide Inv;
    hide Calm;
    hide Edits;
    hide OnlyLooked;
    LookMoves(s, v);
    var a := s.(os := v);
    CalmInv(s, a);
    NoticeKeeps(a, kind);
    CalmEdits(s, a, a.(runtime := a.runtime.(notice := Some(kind))));
  }

  lemma EmitSafe(s: Sup, kind: NoticeKind)
    requires Inv(s)
    ensures Calm(s, EmitNotification(s, kind))
  {
    hide Inv;
    hide Calm;
    hide Edits;
    hide WorldOk;
    hide OnlyLooked;
    hide PersistRuntime;
    hide Ask;
    hide Notified;
    AskKeeps(s.os) by { InvParts(s); }
    NotifiedMoves(s, Ask(s.os).0, kind);
    SaveAfter(s, Notified(s, Ask(s.os).0, kind));
  }

  // ---------------------------------------------------------------- pure changes of memory

  /** A change of memory that the invariant looks at only for its start timers, for waiting
      actions it drops and for a retry of the save it asks for. */
  ghost predicate Arms(s: Sup, t: Sup) {
    && t.os == s.os && t.runtime == s.runtime && t.loaded == s.loaded && t.reliable == s.reliable
    && t.clearRequested == s.clearRequested && t.process == s.process && t.unverified == s.unverified
    && (s.retryPending ==> t.retryPending) && (t.stale ==> s.stale)
    && (t.pendingExit == s.pendingExit || t.pendingExit.None?)
    && Accounts(s, t)
  }

  /** Moreover, no start timer is armed. */
  ghost predicate Steady(s: Sup, t: Sup) {
    && Arms(s, t)
    && (t.nextRestart == s.nextRestart || t.nextRestart.None?)
    && (t.nextPortRetry == s.nextPortRetry || t.nextPortRetry.None?)
  }

  /** Moreover, no start is asked for. */
  ghost predicate Calmer(s: Sup, t: Sup) {
    && Steady(s, t)
    && (t.pendingIntent == s.pendingIntent || t.pendingIntent.None? || t.pendingIntent.value.what == StopIntent)
    && (t.restartAfterStop ==> s.restartAfterStop)
  }

  lemma SteadySafe(s: Sup, t: Sup)
    requires Inv(s) && Steady(s, t)
    ensures Steps(s, t)
  {
    hide WorldOk;
    hide ManagedOk;
    hide RuntimeOk;
  }

  lemma CalmerSafe(s: Sup, t: Sup)
    requires Inv(s) && Calmer(s, t)
    ensures Calm(s, t)
  {
    hide WorldOk;
    hide ManagedOk;
    hide RuntimeOk;
  }

  lemma FinishRecoverySafe(s: Sup)
    requires Inv(s)
    ensures Calm(s, FinishRecoveryFailure(s))
  {
    hide Inv;
    hide Calm;
    hide EmitNotification;
    var t := s.(nextRestart := None, server := ServerFailed, recoveryIncident := false);
    CalmerSafe(s, t);
    CalmInv(s, t);
    EmitSafe(t, FinalFailure);
    CalmTransitive(s, t, EmitNotification(t, FinalFailure));
  }

  /** Nothing is running and nothing unverified is recorded: a start may be tried. */
  ghost predicate Idle(s: Sup) {
    Inv(s) && (s.os.dead || (s.process.None? && !s.unverified))
  }

  lemma ScheduleRestartSafe(s: Sup)
    requires Idle(s)
    ensures Steps(s, ScheduleNextRestart(s))
  {
    hide WorldOk;
    hide ManagedOk;
    hide RuntimeOk;
    hide FinishRecoveryFailure;
    FinishRecoverySafe(s);
  }

  // ---------------------------------------------------------------- the launch transaction

  lemma RefreshSafe(s: Sup)
    requires Inv(s)
    ensures Calm(s, RefreshConfig(s))
  {
    hide Inv;
    hide Calm;
    hide WorldOk;
    hide OnlyLooked;
    hide Ask;
    AskKeeps(s.os) by { InvParts(s); }
    var a := s.(os := Ask(s.os).0);
    LookMoves(s, Ask(s.os).0);
    CalmInv(s, a);
    CalmerSafe(a, RefreshConfig(s));
    CalmTransitive(s, a, RefreshConfig(s));
  }

  /** A start refused because the saved state is not durable, with or without a retry. */
  lemma NotReadySafe(s: Sup, convergence: Convergence)
    requires Inv(s)
    ensures Calm(s, DeferConvergence(RuntimeStateReady(s).0, convergence).(server := ServerFailed))
  {
    hide Inv;
    hide Calm;
    RebookedAccounts(s, DeferConvergence(RuntimeStateReady(s).0, convergence).(server := ServerFailed));
    CalmerSafe(s, DeferConvergence(RuntimeStateReady(s).0, convergence).(server := ServerFailed));
  }

  lemma ReadySafe(s: Sup)
    requires Inv(s)
    ensures Calm(s, RuntimeStateReady(s).0)
  {
    hide Inv;
    hide Calm;
    CalmerSafe(s, RuntimeStateReady(s).0);
  }

  /** A launch marker that is durably on disk, with nothing alive beside it. */
  ghost predicate Marked(s: Sup) {
    && WorldOk(s.os) && !s.os.dead
    && s.loaded && s.os.readable && s.reliable && !s.retryPending && s.pendingExit.None?
    && s.process.None? && !s.unverified && !s.stale && s.os.children == {} && NoLeader(s.os)
    && s.runtime.marker.Some? && s.runtime.process.None? && s.os.images == {s.runtime}
  }

  /** What comes of an attempt to mark a launch: only a durable marker lets it go on. */
  ghost predicate LaunchBegun(s: Sup, t: Sup, marked: bool) {
    if marked then
      !s.os.dead && s.loaded && s.runtime.marker.None? && Marked(t) && Accounts(s, t)
    else Steps(s, t)
  }

  lemma MarkerMoves(s: Sup, t: Sup, marker: Marker)
    requires Idle(s) && s.loaded && s.reliable && s.runtime.marker.None? && !s.clearRequested
    requires t == s.(runtime := s.runtime.(marker := Some(marker)))
    ensures Inv(t) && (!s.os.dead ==> NoLeader(s.os) && s.pendingExit.None? && s.runtime.process.None?)
  {
    hide WorldOk;
    hide ManagedOk;
  }

  /** A save of a changed memory that definitely failed, with the change taken back. */
  lemma TakenBack(s: Sup, a: Sup, t: Sup, u: Sup)
    requires Inv(s) && a == s.(runtime := a.runtime) && Saved(a, t, Failed) && s.loaded
    requires u == t.(runtime := s.runtime)
    ensures Calm(s, u)
  {
    hide WorldOk;
    hide ManagedOk;
    hide RuntimeOk;
    hide Stays;
    MemoryStays(s, t.os);
    StaysFacts(s.os, t.os);
  }

  /** `begin_launch`. */
  lemma BeginLaunchSafe(s: Sup, marker: Marker)
    requires Idle(s)
    ensures LaunchBegun(s, BeginLaunch(s, marker).0, BeginLaunch(s, marker).1)
  {
    hide Inv;
    hide Calm;
    hide Steps;
    hide Saved;
    hide WorldOk;
    hide PersistDetailed;
    hide Marked;
    if s.loaded && s.reliable && s.runtime.marker.None? && !s.clearRequested {
      var a := s.(runtime := s.runtime.(marker := Some(marker)));
      MarkerMoves(s, a, marker);
      PersistDetailedSafe(a) by { EvidencePart(a); InvParts(a); }
      var (t, outcome) := PersistDetailed(a);
      match outcome
      case Durable => MarkedAfter(s, a, t);
      case Failed =>
        TakenBack(s, a, t, t.(runtime := s.runtime));
        CalmInv(s, t.(runtime := s.runtime));
      case Uncertain => UncertainMarker(s, a, marker);
    } else {
      CalmerSafe(s, s);
      CalmInv(s, s);
    }
  }

  lemma MarkedAfter(s: Sup, a: Sup, t: Sup)
    requires Idle(s) && Inv(a) && a == s.(runtime := a.runtime) && Saved(a, t, Durable)
    requires a.runtime.marker.Some? && s.runtime.marker.None?
    requires !s.os.dead ==> a.runtime.process.None? && NoLeader(s.os) && s.pendingExit.None?
    ensures LaunchBegun(s, t, true)
  {
    hide WorldOk;
    hide RuntimeOk;
    StaysFacts(s.os, t.os);
    NoLeaderStays(s.os, t.os);
  }

  lemma UncertainMarker(s: Sup, a: Sup, marker: Marker)
    requires Idle(s) && s.loaded && s.reliable && s.runtime.marker.None? && !s.clearRequested
    requires a == s.(runtime := s.runtime.(marker := Some(marker))) && PersistDetailed(a).1 == Uncertain
    ensures Steps(s, PersistDetailed(a).0.(clearRequested := true))
  {
    hide WorldOk;
    hide ManagedOk;
    hide Stays;
    hide PersistDetailed;
    hide RuntimeOk;
    MarkerMoves(s, a, marker);
    PersistDetailedSafe(a);
    PersistDetailedInv(a);
    StaysFacts(s.os, PersistDetailed(a).0.os);
  }

  // ---------------------------------------------------------------- after the spawn attempt

  /** The marker is still in memory; the world holds the spawned child, or nothing. */
  ghost predicate AfterSpawn(s: Sup, r: SpawnResult) {
    && WorldOk(s.os)
    && (!s.os.dead ==>
          && s.loaded && s.os.readable && s.reliable && s.pendingExit.None? && s.process.None? && !s.unverified && !s.stale
          && s.runtime.process.None?
          && match r
             case NotStarted(_) => s.os.children == {} && NoLeader(s.os)
             case Started(m) => m.Child? && ManagedOk(m, s.os) && OnlyLeader(s.os, m.Pid()) && RecordOk(m.Rec(), s.os.trusted)
             case Survivor(m) => m.Child? && ManagedOk(m, s.os) && OnlyLeader(s.os, m.Pid()) && RecordOk(m.Rec(), s.os.trusted))
  }

  /** The end of a launch: whatever became of it, invariant and gate hold. */
  ghost predicate Finished(s: Sup, t: Sup) {
    Inv(t) && Gate(t) && Accounts(s, t) && t.loaded == s.loaded
  }

  lemma FinishedSteps(s: Sup, t: Sup, u: Sup)
    requires Finished(s, t) && Steps(t, u)
    ensures Finished(s, u)
  {
    hide Inv;
  }

  lemma SpawnAfterMarker(s: Sup, config: Config)
    requires Marked(s)
    ensures Spawn(s.os, config, s.runtime).0.barred == s.os.barred
    ensures AfterSpawn(s.(os := Spawn(s.os, config, s.runtime).0), Spawn(s.os, config, s.runtime).1)
  {
    hide WorldOk;
    hide Spawn;
    hide ManagedOk;
    hide NoLeader;
    SpawnSafe(s.os, config, s.runtime);
  }

  lemma CommittedInv(s: Sup, m: Managed, t: Sup)
    requires AfterSpawn(s, Started(m)) || AfterSpawn(s, Survivor(m))
    requires t == s.(runtime := s.runtime.(process := Some(m.Rec()), marker := None), clearRequested := true, process := Some(m))
    ensures Inv(t)
  {
    if !s.os.dead {
      var pid := m.Pid();
      forall l | Lives(s.os.leaders, s.os.procs, l) ensures Shows(t.runtime, l) {
        assert l.0 == pid;
      }
    }
  }

  lemma CommitSafe(s: Sup, m: Managed)
    requires AfterSpawn(s, Started(m)) || AfterSpawn(s, Survivor(m))
    ensures Finished(s, CommitSpawned(s, m).0)
  {
    hide Inv;
    hide Gate;
    hide AfterSpawn;
    hide PersistRuntime;
    hide Stays;
    hide Rests;
    var t := s.(runtime := s.runtime.(process := Some(m.Rec()), marker := None), clearRequested := true, process := Some(m));
    CommittedInv(s, m, t);
    PersistRuntimeSafe(t);
  }

  lemma AbortedInv(s: Sup, kind: ErrorKind, t: Sup)
    requires AfterSpawn(s, NotStarted(kind))
    requires t == s.(runtime := s.runtime.(marker := None), clearRequested := true)
    ensures Inv(t)
  {
  }

  /** Nothing was spawned, and the marker is taken out of memory whether or not that could
      be saved. */
  lemma AbortSafe(s: Sup, kind: ErrorKind)
    requires AfterSpawn(s, NotStarted(kind)) && s.runtime.marker.Some?
    ensures Finished(s, AbortLaunch(s).0) && Idle(AbortLaunch(s).0)
  {
    hide Inv;
    hide Gate;
    hide PersistRuntime;
    hide WorldOk;
    hide Rests;
    hide Stays;
    var t := s.(runtime := s.runtime.(marker := None), clearRequested := true);
    AbortedInv(s, kind, t);
    PersistRuntimeSafe(t);
    StaysFacts(t.os, PersistRuntime(t).0.os);
  }

  lemma ArmsSafe(s: Sup, t: Sup)
    requires Idle(s) && Arms(s, t)
    ensures Steps(s, t) && Idle(t)
  {
    hide WorldOk;
    hide ManagedOk;
    hide RuntimeOk;
  }

  lemma RefusalArms(s: Sup, trigger: Trigger, kind: ErrorKind)
    requires Idle(s)
    ensures Steps(s, AfterRefusal(s, trigger, kind))
  {
    hide Idle;
    hide Steps;
    hide ScheduleNextRestart;
    hide FinishRecoveryFailure;
    if kind == AddrInUse && trigger == AfterStop && s.os.now < PortDeadline(s) {
      ArmsSafe(s, PortRetrying(s));
    } else if kind == AddrNotAvailable && s.os.now < NetworkDeadline(s) {
      ArmsSafe(s, NetworkRetrying(s, trigger));
    } else {
      GivenUpSafe(s, trigger, kind);
    }
  }

  lemma GivenUpSafe(s: Sup, trigger: Trigger, kind: ErrorKind)
    requires Idle(s)
    ensures Steps(s, GiveUpStart(s, trigger, kind))
  {
    hide Idle;
    hide Steps;
    hide ScheduleNextRestart;
    hide FinishRecoveryFailure;
    var u := GivenUp(s);
    ArmsSafe(s, u);
    ScheduleRestartSafe(u);
    FinishRecoverySafe(u) by { IdleInv(u); }
    CalmInv(u, FinishRecoveryFailure(u));
    if trigger == Recovery {
      StepsTransitive(s, u, ScheduleNextRestart(u));
      StepsTransitive(s, u, FinishRecoveryFailure(u));
    }
  }

  lemma IdleInv(s: Sup)
    requires Idle(s)
    ensures Inv(s)
  {
  }

  lemma FinishStartSafe(s: Sup, trigger: Trigger, config: Config, result: SpawnResult)
    requires AfterSpawn(s, result) && s.runtime.marker.Some?
    ensures Finished(s, FinishStart(s, trigger, config, result))
  {
    hide AfterSpawn;
    hide Finished;
    hide CommitSpawned;
    hide AbortLaunch;
    hide AfterRefusal;
    hide Steps;
    match result
    case Started(m) =>
      CommitSafe(s, m);
      Afterwards(s, CommitSpawned(s, m).0, FinishStart(s, trigger, config, result));
    case Survivor(m) =>
      CommitSafe(s, m);
      Afterwards(s, CommitSpawned(s, m).0, FinishStart(s, trigger, config, result));
    case NotStarted(kind) =>
      AbortSafe(s, kind);
      var (t, saved) := AbortLaunch(s);
      if saved {
        RefusalArms(t, trigger, kind);
        FinishedSteps(s, t, AfterRefusal(t, trigger, kind));
      } else {
        Afterwards(s, t, GivenUp(t));
      }
  }

  lemma Afterwards(s: Sup, t: Sup, u: Sup)
    requires Finished(s, t) && Calmer(t, u)
    ensures Finished(s, u)
  {
    hide Inv;
    CalmerSafe(t, u);
    CalmInv(t, u);
    FinishedSteps(s, t, u);
  }

  lemma LaunchedSteps(s: Sup, t: Sup, a: Sup, u: Sup)
    requires LaunchBegun(s, t, true) && Finished(a, u) && a == t.(os := a.os) && a.os.barred == t.os.barred
    ensures Steps(s, u)
  {
    hide Inv;
    MarkedFacts(t);
    assert BooksOf(a) == BooksOf(t);
    FollowsTransitive(BooksOf(s), BooksOf(t), BooksOf(u));
    hide Marked;
  }

  lemma MarkedFacts(s: Sup)
    requires Marked(s)
    ensures s.runtime.marker.Some? && s.loaded
  {
  }

  lemma MarkedLaunchSafe(s: Sup, t: Sup, trigger: Trigger, config: Config)
    requires LaunchBegun(s, t, true)
    ensures var (v, result) := Spawn(t.os, config, t.runtime); Steps(s, FinishStart(t.(os := v), trigger, config, result))
  {
    hide Steps;
    hide Finished;
    hide Spawn;
    hide FinishStart;
    hide AfterSpawn;
    MarkedFacts(t);
    hide Marked;
    SpawnAfterMarker(t, config);
    var (v, result) := Spawn(t.os, config, t.runtime);
    FinishStartSafe(t.(os := v), trigger, config, result);
    LaunchedSteps(s, t, t.(os := v), FinishStart(t.(os := v), trigger, config, result));
  }

  lemma LaunchSafe(s: Sup, trigger: Trigger, config: Config)
    requires Idle(s)
    ensures Steps(s, Lifecycle.Launch(s, trigger, config))
  {
    hide Idle;
    hide Steps;
    hide LaunchBegun;
    hide BeginLaunch;
    hide Spawn;
    hide FinishStart;
    hide MarkerRefused;
    var marker := Marker(config.executable, config.fingerprint);
    BeginLaunchSafe(s, marker);
    var (t, marked) := BeginLaunch(s, marker);
    if marked { MarkedLaunchSafe(s, t, trigger, config); } else { MarkerRefusedSafe(s, t, trigger); }
  }

  lemma MarkerRefusedSafe(s: Sup, t: Sup, trigger: Trigger)
    requires LaunchBegun(s, t, false)
    ensures Steps(s, MarkerRefused(t, trigger))
  {
    hide Inv;
    hide Steps;
    StepsInv(s, t);
    RebookedAccounts(t, MarkerRefused(t, trigger));
    CalmerSafe(t, MarkerRefused(t, trigger));
    CalmInv(t, MarkerRefused(t, trigger));
    StepsTransitive(s, t, MarkerRefused(t, trigger));
  }

  // ---------------------------------------------------------------- starting

  lemma RefusedNowSafe(s: Sup, trigger: Trigger)
    requires Idle(s)
    ensures Steps(s, StartRefusedNow(s, trigger))
  {
    hide Inv;
    hide Steps;
    hide ScheduleNextRestart;
    var t := s.(server := ServerFailed);
    CalmerSafe(s, t);
    CalmInv(s, t);
    if trigger == Recovery {
      ScheduleRestartSafe(t);
      StepsTransitive(s, t, ScheduleNextRestart(t));
    }
  }

  lemma ReadyStartSafe(s: Sup, trigger: Trigger)
    requires Idle(s)
    ensures var t := RefreshConfig(s);
            && Steps(s, t) && Steps(s, StartRefusedNow(t, trigger))
            && (t.latest.Some? ==> Steps(s, Lifecycle.Launch(t, trigger, t.latest.value)))
  {
    hide Inv;
    hide Steps;
    hide StartRefusedNow;
    hide Lifecycle.Launch;
    hide Ask;
    RefreshSafe(s);
    var t := RefreshConfig(s);
    CalmInv(s, t);
    RefusedNowSafe(t, trigger);
    StepsTransitive(s, t, StartRefusedNow(t, trigger));
    if t.latest.Some? {
      LaunchSafe(t, trigger, t.latest.value);
      StepsTransitive(s, t, Lifecycle.Launch(t, trigger, t.latest.value));
    }
  }

  /** `start_now` wherever it is reached: with no process and nothing unverified, it keeps the
      invariant, so no second instance is ever forked. */
  lemma StartNowSafe(s: Sup, trigger: Trigger)
    requires Idle(s)
    ensures Steps(s, StartNow(s, trigger))
  {
    hide Inv;
    hide Steps;
    hide RefreshConfig;
    hide StartRefusedNow;
    hide Lifecycle.Launch;
    hide DeferConvergence;
    var r := RuntimeStateReady(s).0;
    if RuntimeStateReady(s).1 {
      ReadySafe(s);
      CalmInv(s, r);
      ReadyStartSafe(r, trigger);
      var t := RefreshConfig(r);
      if t.latest.Some? && t.credential != AccessPending {
        StepsTransitive(s, r, Lifecycle.Launch(t, trigger, t.latest.value));
      } else {
        StepsTransitive(s, r, t);
        StepsTransitive(s, r, StartRefusedNow(t, trigger));
      }
    } else {
      NotReadySafe(s, StartLater(trigger));
      CalmInv(s, DeferConvergence(r, StartLater(trigger)).(server := ServerFailed));
    }
  }

  // ---------------------------------------------------------------- stopping

  lemma DeferIntentSafe(s: Sup, t: Sup, intent: Intent)
    requires Inv(s) && t == s.(server := ServerFailed)
    ensures Steps(s, DeferIntent(t, intent)) && (intent == StopIntent ==> Calm(s, DeferIntent(t, intent)))
  {
    hide Inv;
    hide Calm;
    hide Steps;
    RebookedAccounts(s, DeferIntent(t, intent));
    SteadySafe(s, DeferIntent(t, intent));
    if intent == StopIntent { CalmerSafe(s, DeferIntent(t, intent)); }
  }

  lemma DeferConvergenceSafe(s: Sup, t: Sup, convergence: Convergence)
    requires Inv(s) && t == s.(server := ServerFailed)
    ensures Calm(s, DeferConvergence(t, convergence))
  {
    hide Inv;
    hide Calm;
    RebookedAccounts(s, DeferConvergence(t, convergence));
    CalmerSafe(s, DeferConvergence(t, convergence));
  }

  lemma StopLaterSafe(s: Sup, restarting: bool)
    requires Inv(s)
    ensures Steps(s, StopLaterOn(s, restarting)) && (!restarting ==> Calm(s, StopLaterOn(s, restarting)))
  {
    hide Inv;
    hide Calm;
    hide Steps;
    hide DeferIntent;
    hide DeferConvergence;
    var t := s.(server := ServerFailed);
    var later := if restarting then StartLater(AfterStop) else StopLater;
    CalmerSafe(s, t);
    CalmInv(s, t);
    DeferIntentSafe(s, t, if restarting then RestartIntent else StopIntent);
    DeferConvergenceSafe(s, t, later);
    CalmInv(s, DeferConvergence(t, later));
  }

  /** The world after a signal to the supervised process. */
  lemma SignaledSafe(s: Sup, signal: Signal, cause: Cause)
    requires Inv(s) && s.process.Some? && (cause == StopRequest || cause == ForceRequest)
    requires signal == Kill ==> cause == ForceRequest
    ensures Calm(s, s.(os := SignalManaged(s.os, s.process.value, signal, cause).0))
  {
    hide WorldOk;
    hide ManagedOk;
    hide SignalManaged;
    SignalManagedSafe(s.os, s.process.value, signal, cause);
  }

  lemma SignalStopSafe(s: Sup, restarting: bool)
    requires Inv(s) && s.process.Some?
    ensures Steps(s, SignalStop(s, restarting)) && (!restarting ==> Calm(s, SignalStop(s, restarting)))
  {
    hide Inv;
    hide SignalManaged;
    hide Steps;
    hide Calm;
    SignaledSafe(s, Terminate, StopRequest);
    var v := SignalManaged(s.os, s.process.value, Terminate, StopRequest).0;
    CalmInv(s, s.(os := v));
    SteadySafe(s.(os := v), SignalStop(s, restarting));
    StepsTransitive(s, s.(os := v), SignalStop(s, restarting));
    if !restarting {
      CalmerSafe(s.(os := v), SignalStop(s, restarting));
      CalmTransitive(s, s.(os := v), SignalStop(s, restarting));
    }
  }

  lemma BeginStopSafe(s: Sup, restarting: bool)
    requires Inv(s)
    ensures Steps(s, BeginStop(s, restarting)) && (!restarting ==> Calm(s, BeginStop(s, restarting)))
  {
    hide Inv;
    hide StopLaterOn;
    hide SignalStop;
    hide StartNow;
    hide Steps;
    hide Calm;
    if s.runtime.marker.Some? || s.clearRequested {
      StopLaterSafe(s, restarting);
    } else if s.process.Some? {
      SignalStopSafe(s, restarting);
    } else if s.unverified {
      CalmerSafe(s, s.(server := ServerFailed));
      CalmInv(s, s.(server := ServerFailed));
    } else if restarting {
      StartNowSafe(s, AfterStop);
    } else {
      CalmerSafe(s, s.(server := ServerStopped));
      CalmInv(s, s.(server := ServerStopped));
    }
  }

  lemma ForceStopSafe(s: Sup)
    requires Inv(s)
    ensures Calm(s, ForceStop(s).0)
  {
    hide Inv;
    hide SignalManaged;
    hide Calm;
    if StoppingNow(s) && s.process.Some? {
      SignaledSafe(s, Kill, ForceRequest);
      var v := SignalManaged(s.os, s.process.value, Kill, ForceRequest).0;
      CalmInv(s, s.(os := v));
      CalmerSafe(s.(os := v), ForceStop(s).0);
      CalmTransitive(s, s.(os := v), ForceStop(s).0);
    } else {
      CalmerSafe(s, s);
    }
  }

  // ---------------------------------------------------------------- commands

  lemma StartAfreshSafe(s: Sup, c: Sup)
    requires c == s.(pendingExit := None) && Inv(c) && s.process.None? && !s.unverified
    ensures Steps(c, StartAfresh(s))
  {
    hide Inv;
    hide Steps;
    hide StartNow;
    var u := Cancelled(s, 0, s.restartAfterStop, s.groupRecovery);
    RebookedAccounts(c, u);
    SteadySafe(c, u);
    StepsInv(c, u);
    StartNowSafe(u, Cold);
    StepsTransitive(c, u, StartNow(u, Cold));
  }

  lemma ApplyStartSafe(s: Sup, c: Sup)
    requires c == s.(pendingExit := None) && Inv(c)
    ensures Steps(c, ApplyStart(s).0)
  {
    hide Inv;
    hide Steps;
    hide StartAfresh;
    if s.process.Some? {
      RebookedAccounts(c, s.(pendingExit := None, pendingConvergence := None));
      SteadySafe(c, s.(pendingExit := None, pendingConvergence := None));
    } else if StartRefused(s) {
      RebookedAccounts(c, s.(pendingExit := None, pendingConvergence := None, server := ServerFailed));
      SteadySafe(c, s.(pendingExit := None, pendingConvergence := None, server := ServerFailed));
    } else {
      StartAfreshSafe(s, c);
    }
  }

  lemma ApplyStopSafe(s: Sup, c: Sup)
    requires c == s.(pendingExit := None) && Inv(c)
    ensures Calm(c, ApplyStop(s).0)
  {
    hide Inv;
    hide Calm;
    hide BeginStop;
    var t := Cancelled(s, s.attempt, false, false);
    RebookedAccounts(c, t);
    CalmerSafe(c, t);
    CalmInv(c, t);
    BeginStopSafe(t, false);
    CalmTransitive(c, t, BeginStop(t, false));
  }

  lemma RestartAfreshSafe(s: Sup, c: Sup)
    requires c == s.(pendingExit := None) && Inv(c) && !StartRefused(s)
    ensures Steps(c, RestartAfresh(s).0)
  {
    hide Inv;
    hide Steps;
    hide Calm;
    hide BeginStop;
    hide StartNow;
    var t := Cancelled(s, 0, s.process.Some?, false);
    RebookedAccounts(c, t);
    SteadySafe(c, t);
    StepsInv(c, t);
    if t.process.Some? {
      BeginStopSafe(t, true);
      StepsTransitive(c, t, BeginStop(t, true));
    } else {
      StartNowSafe(t, AfterStop);
      StepsTransitive(c, t, StartNow(t, AfterStop));
    }
  }

  lemma ApplyRestartSafe(s: Sup, c: Sup)
    requires c == s.(pendingExit := None) && Inv(c)
    ensures Steps(c, ApplyRestart(s).0)
  {
    hide Inv;
    hide Steps;
    hide RestartAfresh;
    if StartRefused(s) {
      RebookedAccounts(c, Cancelled(s, 0, false, false).(server := ServerFailed));
      SteadySafe(c, Cancelled(s, 0, false, false).(server := ServerFailed));
    } else {
      RestartAfreshSafe(s, c);
    }
  }

  lemma ApplyIntentSafe(s: Sup, c: Sup, intent: Intent)
    requires c == s.(pendingExit := None) && Inv(c)
    ensures Steps(c, ApplyIntent(s, intent)) && (intent == StopIntent ==> Calm(c, ApplyIntent(s, intent)))
  {
    hide Inv;
    hide Steps;
    hide Calm;
    hide ApplyStart;
    hide ApplyStop;
    hide ApplyRestart;
    match intent
    case StartIntent => ApplyStartSafe(s, c);
    case StopIntent =>
      ApplyStopSafe(s, c);
      CalmInv(c, ApplyStop(s).0);
    case RestartIntent => ApplyRestartSafe(s, c);
  }

  // ---------------------------------------------------------------- the desired state

  /** What comes of `persist_desired_state`. */
  ghost predicate Desired(s: Sup, t: Sup, desired: DesiredState, saved: bool) {
    && (saved ==>
          && Steps(s, t.(pendingExit := None)) && (desired == Stopped ==> Calm(s, t.(pendingExit := None)))
          && !t.os.dead && s.loaded
          && t.os.images == {t.runtime} && t.runtime.desired == desired && t.os.forks == s.os.forks
          && t.pendingIntent.None? && t.pendingConvergence.None?)
    && (!saved ==> Steps(s, t) && (desired == Stopped ==> Calm(s, t)))
  }

  lemma DesireMoves(s: Sup, t: Sup, desired: DesiredState)
    requires Inv(s) && t == s.(runtime := s.runtime.(desired := desired))
    ensures Moves(s, t) && (desired == Stopped ==> Rests(s, t))
  {
    hide WorldOk;
    hide ManagedOk;
  }

  lemma PersistDesiredSafe(s: Sup, desired: DesiredState, intent: Intent)
    requires Inv(s) && (desired == Stopped ==> intent == StopIntent)
    ensures var (t, saved) := PersistDesired(s, desired, intent); Desired(s, t, desired, saved)
  {
    hide Inv;
    hide Moves;
    hide Steps;
    hide Rests;
    hide Saved;
    hide Calm;
    hide WorldOk;
    hide PersistDetailed;
    if s.loaded {
      var a := s.(runtime := s.runtime.(desired := desired));
      DesireMoves(s, a, desired);
      MovesInvFact(s, a);
      PersistDetailedSafe(a) by { EvidencePart(a); InvParts(a); }
      var (t, outcome) := PersistDetailed(a);
      match outcome
      case Durable => DesiredDurable(s, a, desired);
      case Failed =>
        TakenBack(s, a, t, t.(runtime := s.runtime));
        CalmInv(s, t.(runtime := s.runtime));
      case Uncertain => DesiredUncertain(s, a, desired, intent);
    } else {
      CalmerSafe(s, s);
      CalmInv(s, s);
    }
  }

  lemma MovesInvFact(s: Sup, t: Sup)
    requires Moves(s, t)
    ensures Inv(t) && t.loaded == s.loaded
  {
    hide Inv;
  }

  lemma DesiredDurable(s: Sup, a: Sup, desired: DesiredState)
    requires Inv(s) && s.loaded && a == s.(runtime := s.runtime.(desired := desired)) && PersistDetailed(a).1 == Durable
    requires Moves(s, a)
    ensures Desired(s, Forgotten(PersistDetailed(a).0), desired, true)
  {
    hide Inv;
    hide Moves;
    hide Rests;
    hide Steps;
    hide Calm;
    hide PersistDetailed;
    hide Stays;
    MovesInvFact(s, a);
    PersistDetailedSafe(a) by { EvidencePart(a); InvParts(a); }
    var t := PersistDetailed(a).0;
    StaysFacts(a.os, t.os);
    var c := t.(pendingExit := None);
    DurableSteps(s, a);
    StepsInv(s, c);
    var u := Forgotten(t);
    CalmerSafe(c, u.(pendingExit := None));
    CalmInv(c, u.(pendingExit := None));
    StepsTransitive(s, c, u.(pendingExit := None));
    if desired == Stopped {
      DesireMoves(s, a, desired);
      DurableRests(s, a);
      CalmTransitive(s, c, u.(pendingExit := None));
    }
  }

  lemma DurableSteps(s: Sup, a: Sup)
    requires Moves(s, a) && PersistDetailed(a).1 == Durable
    ensures Steps(s, PersistDetailed(a).0.(pendingExit := None))
  {
    hide WorldOk;
    hide MemoryOk;
    hide PersistDetailed;
    var t := PersistDetailed(a).0;
    PersistDetailedSafe(a) by { EvidencePart(a); }
    PersistDetailedInv(a);
    StaysFacts(a.os, t.os);
    RebookedAccounts(a, t.(pendingExit := None));
    AccountsTransitive(s, a, t.(pendingExit := None));
    hide Stays;
  }

  lemma DurableRests(s: Sup, a: Sup)
    requires Edits(s, a) && PersistDetailed(a).1 == Durable
    ensures Calm(s, PersistDetailed(a).0.(pendingExit := None))
    ensures !s.os.dead
  {
    hide PersistDetailed;
    hide Inv;
    hide Stays;
    hide Steps;
    DurableSteps(s, a);
    PersistDetailedSafe(a) by { EvidencePart(a); InvParts(a); }
    StaysFacts(a.os, PersistDetailed(a).0.os);
  }

  lemma DesiredUncertain(s: Sup, a: Sup, desired: DesiredState, intent: Intent)
    requires Inv(s) && s.loaded && a == s.(runtime := s.runtime.(desired := desired)) && PersistDetailed(a).1 == Uncertain
    requires desired == Stopped ==> intent == StopIntent
    ensures var t := PersistDetailed(a).0;
            Desired(s, t.(pendingIntent := Some(Put(intent, t.ledger.next)), pendingConvergence := None, ledger := t.ledger.PutOff()), desired, false)
  {
    hide WorldOk;
    hide MemoryOk;
    hide Stays;
    hide PersistDetailed;
    DesireMoves(s, a, desired);
    var t := PersistDetailed(a).0;
    PersistDetailedSafe(a) by { EvidencePart(a); }
    PersistDetailedInv(a);
    StaysFacts(a.os, t.os);
    var u := t.(pendingIntent := Some(Put(intent, t.ledger.next)), pendingConvergence := None, ledger := t.ledger.PutOff());
    RebookedAccounts(t, u);
    RebookedAccounts(s, u);
    assert Inv(u) by { SteadySafe(t, u); }
  }

  /** Every explicit command keeps the invariant; a Stop cannot cause a start. */
  lemma RequestSafe(s: Sup, intent: Intent)
    requires Inv(s)
    ensures Steps(s, Request(s, intent).0) && (intent == StopIntent ==> Calm(s, Request(s, intent).0))
  {
    hide Inv;
    hide Steps;
    hide Calm;
    hide PersistDesired;
    hide ApplyStart;
    hide ApplyStop;
    hide ApplyRestart;
    var desired := if intent == StopIntent then Stopped else Running;
    PersistDesiredSafe(s, desired, intent);
    var (t, saved) := PersistDesired(s, desired, intent);
    if saved {
      var c := t.(pendingExit := None);
      StepsInv(s, c);
      ApplyIntentSafe(t, c, intent);
      StepsTransitive(s, c, ApplyIntent(t, intent));
      if intent == StopIntent { CalmTransitive(s, c, ApplyIntent(t, intent)); }
    }
  }

  /** An explicit Stop whose desired state was saved durably leaves nothing that asks for a
      start, in memory or on disk, and launches nothing itself. */
  lemma StopComesToRest(s: Sup)
    requires Inv(s) && PersistDesired(s, Stopped, StopIntent).1
    ensures AtRest(Request(s, StopIntent).0) && Request(s, StopIntent).0.os.forks == s.os.forks
  {
    hide Inv;
    hide Steps;
    hide PersistDesired;
    hide BeginStop;
    PersistDesiredSafe(s, Stopped, StopIntent);
    var t := PersistDesired(s, Stopped, StopIntent).0;
    var u := Cancelled(t, t.attempt, false, false);
    StepsInv(s, t.(pendingExit := None));
    CalmerSafe(t.(pendingExit := None), u);
    CalmInv(t.(pendingExit := None), u);
    BeginStopSafe(u, false);
  }
}
