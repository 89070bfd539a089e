/** The supervisor as the agent runs it: an object whose methods update its fields step by
    step, with early returns and one save after another. Each method computes exactly the
    function of the same name, on which modules SupervisorSafety to AgentTheorems prove what
    the source promises. Fields of the source that belong together are one value here. */
module Supervisors {
  import opened Records
  import opened Kernel
  import opened ProcessGroup
  import opened ProcessIdentity
  import opened ProcessCleanup
  import opened ManagedProcesses
  import opened SupervisorState
  import D = RuntimeDurability
  import L = Lifecycle
  import X = ProcessExit
  import R = Reattach
  import opened ReattachPolicy
  import A = Agent

  datatype Durability = Durability(
    loaded: bool, reliable: bool, retryPending: bool, retryAt: Option<nat>, stateError: bool, clearRequested: bool)

  datatype Deferred = Deferred(
    exit: Option<Put<ExitNote>>, intent: Option<Put<Intent>>, convergence: Option<Put<Convergence>>)

  datatype Configs = Configs(
    latest: Option<Config>, active: Option<Config>, credential: CredentialState, reading: bool, stale: bool, checkedAt: nat)

  datatype Phase = Phase(
    server: ServerState, runningVersion: Option<nat>, started: Option<nat>, stopDeadline: Option<nat>,
    restartAfterStop: bool, groupRecovery: bool)

  datatype Attempts = Attempts(
    nextRestart: Option<nat>, nextPortRetry: Option<nat>, portDeadline: Option<nat>, networkDeadline: Option<nat>,
    pendingTrigger: Option<Trigger>, attempt: nat, incident: bool, healthIncident: bool, healthFailures: nat)

  datatype Suspicion = Suspicion(unverified: bool, checkAt: Option<nat>)

  class Supervisor {
    var os: World
    var runtime: Runtime
    var durability: Durability
    var deferred: Deferred
    var process: Option<Managed>
    var configs: Configs
    var phase: Phase
    var recovery: Attempts
    var suspicion: Suspicion
    var ledger: Ledger  // the monitor's count of deferred actions

    function View(): Sup
      reads this
    {
      Sup(os, runtime, durability.loaded, durability.reliable, durability.retryPending, durability.retryAt,
          durability.stateError, durability.clearRequested, deferred.exit, deferred.intent, deferred.convergence, process,
          configs.latest, configs.active, configs.credential, configs.reading, phase.server, phase.runningVersion,
          phase.started, phase.stopDeadline, phase.restartAfterStop, phase.groupRecovery, recovery.nextRestart,
          recovery.nextPortRetry, recovery.portDeadline, recovery.networkDeadline, recovery.pendingTrigger, recovery.attempt,
          recovery.incident, recovery.healthIncident, recovery.healthFailures, suspicion.unverified, suspicion.checkAt,
          configs.stale, configs.checkedAt, ledger)
    }

    // ------------------------------------------------------------ persistence

    method NoteDurable()
      modifies `durability
      ensures View() == D.Noted(old(View()), os, Durable)
    {
      durability := durability.(stateError := false, reliable := true, retryPending := false, retryAt := None);
      if runtime.marker.None? {
        durability := durability.(clearRequested := false);
      }
    }

    method RecordRuntimeStateFailure(outcome: SaveOutcome)
      requires outcome != Durable
      modifies `durability
      ensures View() == D.Noted(old(View()), os, outcome)
    {
      durability := durability.(reliable := false, retryPending := true, retryAt := Some(os.now + RUNTIME_STATE_RETRY),
                                stateError := true);
    }

    method PersistRuntimeDetailed() returns (outcome: SaveOutcome)
      modifies this
      ensures (View(), outcome) == D.PersistDetailed(old(View()))
    {
      hide Save;
      if !durability.loaded {
        return Failed;
      }
      var (v, result) := Save(os, runtime);
      os, outcome := v, result;
      if outcome == Durable {
        NoteDurable();
      } else {
        RecordRuntimeStateFailure(outcome);
      }
    }

    method PersistRuntime() returns (saved: bool)
      modifies this
      ensures (View(), saved) == D.PersistRuntime(old(View()))
    {
      hide D.PersistDetailed;
      if durability.retryPending {
        return false;
      }
      var outcome := PersistRuntimeDetailed();
      saved := outcome == Durable;
    }

    method SetDesired(desired: DesiredState)
      modifies `runtime
      ensures View() == D.Desiring(old(View()), desired)
    {
      runtime := runtime.(desired := desired);
      assert View() == old(View()).(runtime := runtime);
    }

    method SetMarker(marker: Marker)
      modifies `runtime
      ensures View() == D.Marking(old(View()), marker)
    {
      runtime := runtime.(marker := Some(marker));
      assert View() == old(View()).(runtime := runtime);
    }

    /** A definite failure left the old file: the change of memory is taken back. */
    method TakeBack(previous: Runtime)
      modifies `runtime
      ensures View() == D.Restored(old(View()), previous)
    {
      runtime := previous;
      assert View() == old(View()).(runtime := previous);
    }

    method ForgetDeferred()
      modifies `deferred
      ensures View() == D.Forgotten(old(View()))
    {
      deferred := deferred.(intent := None, convergence := None);
    }

    method HoldIntent(intent: Intent)
      modifies `deferred, `ledger
      ensures View() == D.HeldIntent(old(View()), intent)
    {
      deferred := deferred.(intent := Some(Put(intent, ledger.next)), convergence := None);
      ledger := ledger.PutOff();
    }

    method PersistDesiredState(desired: DesiredState, intent: Intent) returns (saved: bool)
      modifies this
      ensures (View(), saved) == D.PersistDesired(old(View()), desired, intent)
    {
      hide D.PersistDetailed;
      hide D.Desiring;
      hide D.Restored;
      hide D.HeldIntent;
      hide D.Forgotten;
      if !durability.loaded {
        return false;
      }
      var previous := runtime;
      SetDesired(desired);
      var outcome := PersistRuntimeDetailed();
      match outcome {
        case Durable => ForgetDeferred();
        case Failed => TakeBack(previous);
        case Uncertain => HoldIntent(intent);
      }
      saved := outcome == Durable;
    }

    method RuntimeStateReady() returns (ready: bool)
      modifies `durability
      ensures (View(), ready) == D.RuntimeStateReady(old(View()))
    {
      if durability.stateError {
        return false;
      }
      if runtime.marker.None? && !durability.clearRequested && durability.loaded && durability.reliable {
        return true;
      }
      durability := durability.(stateError := true);
      ready := false;
    }

    method DeferDurableConvergence(convergence: Convergence)
      modifies this
      ensures View() == D.DeferConvergence(old(View()), convergence)
    {
      var scheduled := durability.retryPending && durability.retryAt.Some?;
      if durability.clearRequested || scheduled {
        deferred := deferred.(convergence := Some(Put(convergence, ledger.next)));
        durability := durability.(retryPending := true, retryAt := Some(os.now + RUNTIME_STATE_RETRY));
        ledger := ledger.PutOff();
      }
    }

    method DeferLifecycleIntent(intent: Intent)
      modifies this
      ensures View() == D.DeferIntent(old(View()), intent)
    {
      if durability.clearRequested {
        deferred := deferred.(intent := Some(Put(intent, ledger.next)));
        durability := durability.(retryPending := true, retryAt := Some(os.now + RUNTIME_STATE_RETRY));
        ledger := ledger.PutOff();
      }
    }

    // ------------------------------------------------------------ launch transaction

    method RequestClear()
      modifies `durability
      ensures View() == D.ClearAsked(old(View()))
    {
      durability := durability.(clearRequested := true);
    }

    method BeginLaunch(marker: Marker) returns (marked: bool)
      modifies this
      ensures (View(), marked) == D.BeginLaunch(old(View()), marker)
    {
      hide D.PersistDetailed;
      hide D.Marking;
      hide D.Restored;
      hide D.ClearAsked;
      if !durability.loaded || !durability.reliable || runtime.marker.Some? || durability.clearRequested {
        return false;
      }
      var previous := runtime;
      SetMarker(marker);
      var outcome := PersistRuntimeDetailed();
      match outcome {
        case Durable =>
        case Failed => TakeBack(previous);
        case Uncertain => RequestClear();
      }
      marked := outcome == Durable;
    }

    method CommitSpawnedProcess(m: Managed) returns (saved: bool)
      modifies this
      ensures (View(), saved) == D.CommitSpawned(old(View()), m)
    {
      hide D.PersistRuntime;
      runtime := runtime.(process := Some(m.Rec()), marker := None);
      durability := durability.(clearRequested := true);
      process := Some(m);
      saved := PersistRuntime();
    }

    method AbortLaunch() returns (saved: bool)
      modifies this
      ensures (View(), saved) == D.AbortLaunch(old(View()))
    {
      hide D.PersistRuntime;
      if runtime.marker.None? && !durability.clearRequested {
        return true;
      }
      runtime := runtime.(marker := None);
      durability := durability.(clearRequested := true);
      saved := PersistRuntime();
    }

    // ------------------------------------------------------------ bounded recovery

    method Notify(v: World, kind: NoticeKind)
      modifies `os, `runtime
      ensures View() == L.Notified(old(View()), v, kind)
    {
      os := v;
      runtime := runtime.(notice := Some(kind));
    }

    method EmitNotification(kind: NoticeKind)
      modifies this
      ensures View() == L.EmitNotification(old(View()), kind)
    {
      hide Kernel.Ask;
      hide D.PersistRuntime;
      hide L.Notified;
      var (v, c) := Kernel.Ask(os);
      if c.fault {
        os := v;
      } else {
        Notify(v, kind);
        var saved := PersistRuntime();
      }
    }

    method FinishRecoveryFailure()
      modifies this
      ensures View() == L.FinishRecoveryFailure(old(View()))
    {
      hide L.EmitNotification;
      var tell := recovery.incident;
      recovery := recovery.(nextRestart := None, incident := false);
      phase := phase.(server := ServerFailed);
      if tell {
        EmitNotification(FinalFailure);
      }
    }

    method ArmRestart()
      requires recovery.attempt < |RESTART_BACKOFF|
      modifies `recovery, `phase
      ensures View() == L.RestartArmed(old(View()))
    {
      var delay := RESTART_BACKOFF[recovery.attempt];
      recovery := recovery.(attempt := recovery.attempt + 1, nextRestart := Some(os.now + delay));
      phase := phase.(server := WaitingToRestart);
    }

    method ScheduleNextRestart()
      modifies this
      ensures View() == L.ScheduleNextRestart(old(View()))
    {
      hide L.FinishRecoveryFailure;
      hide L.RestartArmed;
      if recovery.attempt >= |RESTART_BACKOFF| {
        FinishRecoveryFailure();
      } else {
        ArmRestart();
      }
    }

    // ------------------------------------------------------------ starting

    method RefreshConfig()
      modifies `os, `configs
      ensures View() == L.RefreshConfig(old(View()))
    {
      hide Kernel.Ask;
      var (v, c) := Kernel.Ask(os);
      os := v;
      configs := configs.(credential := c.credential, reading := c.reading);
      match c.config {
        case Some(config) =>
          configs := configs.(latest := Some(config), stale := configs.stale && runtime.process.Some? && process.Some?);
        case None =>
          if process.None? {
            configs := configs.(latest := None);
          }
      }
    }

    method SetWorld(v: World)
      modifies `os
      ensures View() == old(View()).(os := v)
    {
      os := v;
    }

    method SetServer(state: ServerState)
      modifies `phase
      ensures View() == old(View()).(server := state)
    {
      phase := phase.(server := state);
    }

    method GiveUp()
      modifies `recovery, `phase
      ensures View() == L.GivenUp(old(View()))
    {
      recovery := recovery.(nextPortRetry := None, portDeadline := None, networkDeadline := None, pendingTrigger := None);
      phase := phase.(server := ServerFailed);
    }

    method GiveUpStart(trigger: Trigger, kind: ErrorKind)
      modifies this
      ensures View() == L.GiveUpStart(old(View()), trigger, kind)
    {
      hide L.ScheduleNextRestart;
      hide L.FinishRecoveryFailure;
      hide L.GivenUp;
      GiveUp();
      if trigger == Trigger.Recovery {
        if kind != AddrInUse {
          ScheduleNextRestart();
        } else {
          FinishRecoveryFailure();
        }
      }
    }

    /** The deadline is set even when it has passed already. */
    method SchedulePortReleaseRetry() returns (scheduled: bool)
      modifies `recovery, `phase
      ensures scheduled == (os.now < L.PortDeadline(old(View())))
      ensures View() == if scheduled then L.PortRetrying(old(View())) else old(View()).(portDeadline := Some(L.PortDeadline(old(View()))))
    {
      var deadline := if recovery.portDeadline.Some? then recovery.portDeadline.value else os.now + PORT_RELEASE_BUDGET;
      recovery := recovery.(portDeadline := Some(deadline));
      if os.now >= deadline {
        return false;
      }
      recovery := recovery.(nextPortRetry := Some(os.now + PORT_RELEASE_RETRY));
      phase := phase.(server := WaitingToRestart);
      scheduled := true;
    }

    method ScheduleNetworkWaitRetry(trigger: Trigger) returns (scheduled: bool)
      modifies `recovery, `phase
      ensures scheduled == (os.now < L.NetworkDeadline(old(View())))
      ensures View() == if scheduled then L.NetworkRetrying(old(View()), trigger)
                        else old(View()).(networkDeadline := Some(L.NetworkDeadline(old(View()))))
    {
      var deadline := if recovery.networkDeadline.Some? then recovery.networkDeadline.value else os.now + NETWORK_WAIT_BUDGET;
      recovery := recovery.(networkDeadline := Some(deadline));
      if os.now >= deadline {
        return false;
      }
      recovery := recovery.(pendingTrigger := Some(trigger), nextPortRetry := Some(os.now + PORT_RELEASE_RETRY));
      phase := phase.(server := WaitingToRestart);
      scheduled := true;
    }

    method AfterRefusal(trigger: Trigger, kind: ErrorKind)
      modifies this
      ensures View() == L.AfterRefusal(old(View()), trigger, kind)
    {
      hide L.GiveUpStart;
      hide L.PortDeadline;
      hide L.NetworkDeadline;
      hide L.PortRetrying;
      hide L.NetworkRetrying;
      ghost var s := View();
      if kind == AddrInUse && trigger == AfterStop {
        GiveUpForgets(s, trigger, kind);
        var scheduled := SchedulePortReleaseRetry();
        if scheduled {
          return;
        }
      } else if kind == AddrNotAvailable {
        GiveUpForgets(s, trigger, kind);
        var scheduled := ScheduleNetworkWaitRetry(trigger);
        if scheduled {
          return;
        }
      }
      GiveUpStart(trigger, kind);
    }

    // ------------------------------------------------------------ the launch

    method NoteStarted(config: Config, saved: bool)
      modifies `configs, `phase, `recovery
      ensures View() == L.RunningNow(old(View()), config, saved)
    {
      configs := configs.(active := Some(config));
      phase := phase.(runningVersion := None, server := Starting, started := Some(os.now), groupRecovery := false);
      recovery := recovery.(healthFailures := 0, nextPortRetry := None, portDeadline := None, networkDeadline := None,
                            pendingTrigger := None);
      if !saved {
        phase := phase.(server := ServerFailed);
      }
    }

    method NoteSurvivor()
      modifies `configs, `phase
      ensures View() == L.SurvivingNow(old(View()))
    {
      configs := configs.(active := None);
      phase := phase.(server := ServerFailed, started := Some(os.now));
    }

    method FinishStart(trigger: Trigger, config: Config, result: SpawnResult)
      modifies this
      ensures View() == L.FinishStart(old(View()), trigger, config, result)
    {
      hide D.CommitSpawned;
      hide D.AbortLaunch;
      hide L.AfterRefusal;
      hide L.RunningNow;
      hide L.SurvivingNow;
      hide L.GivenUp;
      match result {
        case Started(m) =>
          var saved := CommitSpawnedProcess(m);
          NoteStarted(config, saved);
        case Survivor(m) =>
          var saved := CommitSpawnedProcess(m);
          NoteSurvivor();
        case NotStarted(kind) =>
          var saved := AbortLaunch();
          if saved {
            AfterRefusal(trigger, kind);
          } else {
            GiveUp();
          }
      }
    }

    method RefuseMarker(trigger: Trigger)
      modifies `deferred, `phase, `ledger
      ensures View() == L.MarkerRefused(old(View()), trigger)
    {
      if runtime.marker.Some? && durability.clearRequested && durability.retryPending {
        deferred := deferred.(convergence := Some(Put(StartLater(trigger), ledger.next)));
        ledger := ledger.PutOff();
      }
      phase := phase.(server := ServerFailed);
    }

    method Launch(trigger: Trigger, config: Config)
      modifies this
      ensures View() == L.Launch(old(View()), trigger, config)
    {
      hide D.BeginLaunch;
      hide ManagedProcesses.Spawn;
      hide L.FinishStart;
      hide L.MarkerRefused;
      var marked := BeginLaunch(Marker(config.executable, config.fingerprint));
      if !marked {
        RefuseMarker(trigger);
        return;
      }
      var (v, result) := ManagedProcesses.Spawn(os, config, runtime);
      SetWorld(v);
      FinishStart(trigger, config, result);
    }

    method RefuseStart(trigger: Trigger)
      modifies this
      ensures View() == L.StartRefusedNow(old(View()), trigger)
    {
      hide L.ScheduleNextRestart;
      SetServer(ServerFailed);
      if trigger == Trigger.Recovery {
        ScheduleNextRestart();
      }
    }

    method StartNow(trigger: Trigger)
      modifies this
      ensures View() == L.StartNow(old(View()), trigger)
    {
      hide D.RuntimeStateReady;
      hide D.DeferConvergence;
      hide L.RefreshConfig;
      hide L.StartRefusedNow;
      hide L.Launch;
      var ready := RuntimeStateReady();
      if !ready {
        DeferDurableConvergence(StartLater(trigger));
        SetServer(ServerFailed);
        return;
      }
      RefreshConfig();
      if configs.latest.None? {
        RefuseStart(trigger);
      } else if configs.credential == AccessPending {
        if !configs.reading {
          RefuseStart(trigger);
        }
      } else {
        Launch(trigger, configs.latest.value);
      }
    }

    // ------------------------------------------------------------ stopping

    method SignalStop(restarting: bool)
      requires process.Some?
      modifies `os, `phase
      ensures View() == L.SignalStop(old(View()), restarting)
    {
      hide ManagedProcesses.SignalManaged;
      var (v, sent) := ManagedProcesses.SignalManaged(os, process.value, Terminate, StopRequest);
      os := v;
      if sent {
        phase := phase.(server := Stopping, stopDeadline := Some(os.now + GRACEFUL_STOP), restartAfterStop := restarting);
      } else {
        phase := phase.(server := ServerFailed);
      }
    }

    method StopLater(restarting: bool)
      modifies this
      ensures View() == L.StopLaterOn(old(View()), restarting)
    {
      hide D.DeferIntent;
      hide D.DeferConvergence;
      SetServer(ServerFailed);
      if process.Some? {
        DeferLifecycleIntent(if restarting then RestartIntent else StopIntent);
      } else if durability.clearRequested {
        DeferDurableConvergence(if restarting then StartLater(AfterStop) else Convergence.StopLater);
      }
    }

    method BeginStop(restarting: bool)
      modifies this
      ensures View() == L.BeginStop(old(View()), restarting)
    {
      hide L.StopLaterOn;
      hide L.SignalStop;
      hide L.StartNow;
      if runtime.marker.Some? || durability.clearRequested {
        StopLater(restarting);
      } else if process.Some? {
        SignalStop(restarting);
      } else if suspicion.unverified {
        SetServer(ServerFailed);
      } else if restarting {
        StartNow(AfterStop);
      } else {
        SetServer(ServerStopped);
      }
    }

    method ContinueStop() returns (ok: bool)
      modifies `phase
      ensures (View(), ok) == L.ContinueStop(old(View()))
    {
      if phase.server != StopTimedOut {
        return false;
      }
      phase := phase.(server := Stopping, stopDeadline := Some(os.now + GRACEFUL_STOP));
      ok := true;
    }

    method ForceStop() returns (ok: bool)
      modifies `os, `phase
      ensures (View(), ok) == L.ForceStop(old(View()))
    {
      hide ManagedProcesses.SignalManaged;
      if (phase.server != Stopping && phase.server != StopTimedOut) || process.None? {
        return false;
      }
      var (v, sent) := ManagedProcesses.SignalManaged(os, process.value, Kill, ForceRequest);
      os := v;
      if sent {
        phase := phase.(server := Stopping, stopDeadline := None);
      }
      ok := sent;
    }

    // ------------------------------------------------------------ commands

    method Cancel(attempt: nat, restarting: bool, groupRecovery: bool)
      modifies `deferred, `recovery, `phase
      ensures View() == L.Cancelled(old(View()), attempt, restarting, groupRecovery)
    {
      deferred := deferred.(exit := None, convergence := None);
      recovery := recovery.(nextRestart := None, nextPortRetry := None, portDeadline := None, networkDeadline := None,
                            pendingTrigger := None, attempt := attempt);
      phase := phase.(restartAfterStop := restarting, groupRecovery := groupRecovery);
    }

    method ForgetExit()
      modifies `deferred
      ensures View() == old(View()).(pendingExit := None, pendingConvergence := None)
    {
      deferred := deferred.(exit := None, convergence := None);
    }

    method ApplyStart() returns (ok: bool)
      modifies this
      ensures (View(), ok) == L.ApplyStart(old(View()))
    {
      hide L.StartNow;
      hide L.Cancelled;
      if process.Some? {
        ForgetExit();
        return true;
      }
      if suspicion.unverified || configs.credential == AccessPending {
        ForgetExit();
        phase := phase.(server := ServerFailed);
        return false;
      }
      Cancel(0, phase.restartAfterStop, phase.groupRecovery);
      StartNow(Cold);
      ok := !durability.stateError;
    }

    method ApplyStop() returns (ok: bool)
      modifies this
      ensures (View(), ok) == L.ApplyStop(old(View()))
    {
      hide L.BeginStop;
      hide L.Cancelled;
      Cancel(recovery.attempt, false, false);
      BeginStop(false);
      ok := !(runtime.marker.Some? || durability.clearRequested);
    }

    method RestartAfresh() returns (ok: bool)
      modifies this
      ensures (View(), ok) == L.RestartAfresh(old(View()))
    {
      hide L.BeginStop;
      hide L.StartNow;
      hide L.Cancelled;
      var supervised := process.Some?;
      Cancel(0, supervised, false);
      assert L.Cancelled(old(View()), 0, supervised, false).process == old(View()).process by { CancelKeeps(old(View()), supervised); }
      if supervised {
        BeginStop(true);
        ok := true;
      } else {
        StartNow(AfterStop);
        ok := !durability.stateError;
      }
    }

    method ApplyRestart() returns (ok: bool)
      modifies this
      ensures (View(), ok) == L.ApplyRestart(old(View()))
    {
      hide L.RestartAfresh;
      hide L.Cancelled;
      if (suspicion.unverified && process.None?) || configs.credential == AccessPending {
        Cancel(0, false, false);
        SetServer(ServerFailed);
        return false;
      }
      ok := RestartAfresh();
    }

    method ApplyIntent(intent: Intent) returns (ok: bool)
      modifies this
      ensures View() == L.ApplyIntent(old(View()), intent)
      ensures ok == match intent
                    case StartIntent => L.ApplyStart(old(View())).1
                    case StopIntent => L.ApplyStop(old(View())).1
                    case RestartIntent => L.ApplyRestart(old(View())).1
    {
      hide L.ApplyStart;
      hide L.ApplyStop;
      hide L.ApplyRestart;
      match intent {
        case StartIntent => ok := ApplyStart();
        case StopIntent => ok := ApplyStop();
        case RestartIntent => ok := ApplyRestart();
      }
    }

    /** `request_start`, `request_stop`, `request_restart`. */
    method Request(intent: Intent) returns (ok: bool)
      modifies this
      ensures (View(), ok) == L.Request(old(View()), intent)
    {
      hide D.PersistDesired;
      hide L.ApplyStart;
      hide L.ApplyStop;
      hide L.ApplyRestart;
      var saved := PersistDesiredState(if intent == StopIntent then Stopped else Running, intent);
      if !saved {
        return false;
      }
      ok := ApplyIntent(intent);
    }

    // ------------------------------------------------------------ after an exit

    method RecoverAfterCleanup()
      modifies this
      ensures View() == X.RecoverAfterCleanup(old(View()))
    {
      hide L.ScheduleNextRestart;
      phase := phase.(groupRecovery := false);
      ScheduleNextRestart();
    }

    method RestartAfterStop()
      modifies this
      ensures View() == X.RestartAfterStop(old(View()))
    {
      hide L.StartNow;
      phase := phase.(restartAfterStop := false);
      StartNow(AfterStop);
    }

    method StopFinished()
      modifies this
      ensures View() == X.StopFinished(old(View()))
    {
      hide X.RecoverAfterCleanup;
      hide X.RestartAfterStop;
      if runtime.desired == Stopped {
        recovery := recovery.(nextRestart := None);
        phase := phase.(groupRecovery := false, restartAfterStop := false, server := ServerStopped);
      } else if phase.groupRecovery {
        RecoverAfterCleanup();
      } else if phase.restartAfterStop {
        RestartAfterStop();
      } else {
        SetServer(ServerStopped);
      }
    }

    method BeginRecovery()
      modifies this
      ensures View() == X.BeginRecovery(old(View()))
    {
      hide L.EmitNotification;
      hide L.ScheduleNextRestart;
      if !recovery.incident {
        recovery := recovery.(incident := true);
        EmitNotification(Failure);
      }
      ScheduleNextRestart();
    }

    method ResumeAfterExit(note: ExitNote)
      modifies this
      ensures View() == X.ResumeAfterExit(old(View()), note)
    {
      hide X.StopFinished;
      hide X.BeginRecovery;
      if note.explicitStop {
        StopFinished();
      } else if runtime.desired == Running {
        BeginRecovery();
      } else {
        SetServer(ServerStopped);
      }
    }

    method Distrust(r: Record)
      modifies `runtime, `suspicion, `phase
      ensures View() == X.Unverified(old(View()), r)
    {
      runtime := runtime.(process := Some(r));
      suspicion := Suspicion(true, Some(os.now + UNVERIFIED_CHECK));
      phase := phase.(server := ServerFailed);
    }

    method MarkUnverified(r: Record)
      modifies this
      ensures View() == X.MarkUnverified(old(View()), r)
    {
      hide X.Unverified;
      hide D.PersistRuntime;
      Distrust(r);
      var saved := PersistRuntime();
    }

    // ------------------------------------------------------------ polling

    method See(v: World, m: Managed)
      modifies `os, `process
      ensures View() == X.Reseen(old(View()), v, m)
    {
      os := v;
      process := Some(m);
    }

    method SeeAndRecord(v: World, m: Managed)
      modifies `os, `process, `runtime
      ensures View() == X.Rerecorded(old(View()), v, m)
    {
      os := v;
      process := Some(m);
      runtime := runtime.(process := Some(m.Rec()));
    }

    method SaveIdentity() returns (saved: bool)
      modifies this
      ensures (View(), saved) == X.SaveIdentity(old(View()))
    {
      hide D.PersistRuntime;
      saved := PersistRuntime();
      if !saved {
        SetServer(ServerFailed);
      }
    }

    method UpgradeUnconfirmedIdentity() returns (ok: bool)
      modifies this
      ensures (View(), ok) == X.UpgradeIdentity(old(View()))
    {
      hide ManagedProcesses.ConfirmIdentity;
      hide X.SaveIdentity;
      hide X.Reseen;
      hide X.Rerecorded;
      if process.None? {
        return true;
      }
      var (v, m, upgraded) := ManagedProcesses.ConfirmIdentity(os, process.value);
      if !upgraded {
        See(v, m);
        return true;
      }
      SeeAndRecord(v, m);
      ok := SaveIdentity();
    }

    method Await(explicitStop: bool)
      modifies `phase
      ensures View() == X.Awaiting(old(View()), explicitStop)
    {
      if !explicitStop && !phase.groupRecovery {
        phase := phase.(groupRecovery := true, restartAfterStop := false);
      }
      if phase.server != Stopping && phase.server != StopTimedOut {
        phase := phase.(server := Stopping, stopDeadline := Some(os.now + GRACEFUL_STOP));
      }
    }

    method AwaitAuthorized(explicitStop: bool)
      modifies this
      ensures View() == X.AwaitAuthorized(old(View()), explicitStop)
    {
      hide X.Awaiting;
      hide D.PersistRuntime;
      var stopping := phase.server == Stopping || phase.server == StopTimedOut;
      Await(explicitStop);
      if !stopping {
        var saved := PersistRuntime();
      }
    }

    method AwaitGroup(explicitStop: bool)
      requires process.Some?
      modifies this
      ensures View() == X.AwaitGroup(old(View()), explicitStop)
    {
      hide X.AwaitAuthorized;
      hide D.PersistRuntime;
      if process.value.PendingGroupAuthorized() {
        AwaitAuthorized(explicitStop);
        return;
      }
      FailStop();
      var saved := PersistRuntime();
    }

    method FailStop()
      modifies `phase
      ensures View() == old(View()).(stopDeadline := None, server := ServerFailed)
    {
      phase := phase.(stopDeadline := None, server := ServerFailed);
    }

    method Abandon()
      modifies `process, `configs, `phase, `recovery
      ensures View() == X.Abandoned(old(View()))
    {
      process := None;
      configs := configs.(active := None, stale := false);
      phase := phase.(runningVersion := None, stopDeadline := None, started := None, restartAfterStop := false,
                      groupRecovery := false);
      recovery := recovery.(nextRestart := None);
    }

    method LoseIdentity()
      modifies this
      ensures View() == X.LoseIdentity(old(View()))
    {
      hide X.MarkUnverified;
      hide X.Unidentified;
      if process.None? {
        return;
      }
      var record := process.value.Rec();
      Unidentify();
      MarkUnverified(X.Disowned(record));
    }

    method Unidentify()
      requires process.Some?
      modifies `os, `process, `configs, `phase
      ensures View() == X.Unidentified(old(View()), old(process).value)
    {
      match process.value {
        case Child(o) =>
          os := NoteRefusal(os, o.pid);
          process := Some(Child(o.(identityFailed := true)));
        case Attached(_) =>
          process := None;
      }
      configs := configs.(active := None, stale := false);
      phase := phase.(runningVersion := None);
    }

    method ClearLive()
      modifies `process, `configs, `phase, `suspicion, `runtime
      ensures View() == X.Cleared(old(View()))
    {
      runtime := runtime.(process := None);
      process := None;
      configs := configs.(active := None, stale := false);
      phase := phase.(runningVersion := None, stopDeadline := None, started := None);
      suspicion := Suspicion(false, None);
    }

    method Block()
      modifies `recovery, `phase
      ensures View() == old(View()).(nextRestart := None, nextPortRetry := None, portDeadline := None, pendingTrigger := None,
                                     server := ServerFailed)
    {
      recovery := recovery.(nextRestart := None, nextPortRetry := None, portDeadline := None, pendingTrigger := None);
      phase := phase.(server := ServerFailed);
    }

    method KeepRecord(record: Option<Record>)
      modifies `recovery, `phase, `runtime, `suspicion
      ensures View() == X.KeptRecord(old(View()), record)
    {
      runtime := runtime.(process := record);
      suspicion := Suspicion(true, Some(os.now + UNVERIFIED_CHECK));
      Block();
    }

    method HoldExit(note: ExitNote)
      modifies `recovery, `phase, `deferred, `ledger
      ensures View() == X.HeldExit(old(View()), note)
    {
      deferred := deferred.(exit := Some(Put(note, ledger.next)));
      ledger := ledger.PutOff();
      Block();
    }

    method CompleteExit(note: ExitNote)
      modifies this
      ensures View() == X.CompleteExit(old(View()), note)
    {
      hide X.Cleared;
      hide D.PersistDetailed;
      hide X.KeptRecord;
      hide X.HeldExit;
      hide X.ResumeAfterExit;
      var record := if runtime.process.Some? then runtime.process
                    else if process.Some? then Some(process.value.Rec()) else None;
      ClearLive();
      var outcome := PersistRuntimeDetailed();
      match outcome {
        case Durable => ResumeAfterExit(note);
        case Failed => KeepRecord(record);
        case Uncertain => HoldExit(note);
      }
    }

    method HandleExit(note: ExitNote)
      modifies this
      ensures View() == X.HandleExit(old(View()), note)
    {
      hide X.LoseIdentity;
      hide X.CompleteExit;
      hide X.LoseLeader;
      hide ProcessGroup.ObserveMembers;
      if note.reason == IdentityChanged {
        LoseIdentity();
      } else if note.reason == Disappeared && process.Some? && process.value.Attached? {
        var record := process.value.Rec();
        var (v, seen) := ProcessGroup.ObserveAttached(os, record);
        SetWorld(v);
        if seen == Empty {
          CompleteExit(note);
        } else {
          LoseLeader(record);
        }
      } else {
        CompleteExit(note);
      }
    }

    method LoseLeader(record: Record)
      modifies this
      ensures View() == X.LoseLeader(old(View()), record)
    {
      hide X.Abandoned;
      hide X.MarkUnverified;
      Abandon();
      MarkUnverified(X.Disowned(record));
    }

    method ObserveExit()
      modifies this
      ensures View() == X.ObserveExit(old(View()))
    {
      hide ManagedProcesses.PollExit;
      hide X.Reseen;
      hide X.AwaitGroup;
      hide X.HandleExit;
      if process.None? {
        return;
      }
      var explicitStop := phase.server == Stopping || phase.server == StopTimedOut;
      var (v, m, poll) := ManagedProcesses.PollExit(os, process.value);
      See(v, m);
      assert process == Some(m) by { ReseenProcess(old(View()), v, m); }
      if m.PendingGroupExit() {
        AwaitGroup(explicitStop);
      } else if poll.Gone? {
        HandleExit(ExitNote(explicitStop, poll.reason));
      }
    }

    method PollProcess()
      modifies this
      ensures View() == X.PollProcess(old(View()))
    {
      hide X.UpgradeIdentity;
      hide X.ObserveExit;
      var ok := UpgradeUnconfirmedIdentity();
      if ok {
        ObserveExit();
      }
    }

    // ------------------------------------------------------------ deferred actions

    method StopNow()
      modifies this
      ensures View() == X.StopNow(old(View()))
    {
      hide L.BeginStop;
      if process.Some? {
        BeginStop(false);
      } else {
        SetServer(ServerStopped);
      }
    }

    method TakeConvergence()
      requires deferred.convergence.Some?
      modifies `os, `deferred, `ledger
      ensures View() == X.ConvergenceTaken(old(View()))
    {
      os := Judged(View());
      ledger := ledger.CarryOut(deferred.convergence.value.ticket);
      deferred := deferred.(convergence := None);
    }

    method ResumePendingDurableConvergence()
      modifies this
      ensures View() == X.ResumeConvergence(old(View()))
    {
      hide X.ConvergenceTaken;
      hide L.StartNow;
      hide X.StopNow;
      if !durability.loaded || !durability.reliable || durability.retryPending || runtime.marker.Some? ||
         durability.clearRequested || deferred.convergence.None? {
        return;
      }
      var convergence := deferred.convergence.value.what;
      TakeConvergence();
      match convergence {
        case StartLater(trigger) =>
          if runtime.desired == Running && process.None? && !suspicion.unverified {
            StartNow(trigger);
          }
        case StopLater =>
          if runtime.desired == Stopped && !suspicion.unverified {
            StopNow();
          }
      }
    }

    method TakeIntent()
      requires deferred.intent.Some?
      modifies `os, `deferred, `ledger
      ensures View() == X.IntentTaken(old(View()))
    {
      os := Judged(View());
      ledger := ledger.CarryOut(deferred.intent.value.ticket);
      deferred := deferred.(intent := None, exit := None);
    }

    method TakeExit()
      requires deferred.exit.Some?
      modifies `os, `deferred, `ledger
      ensures View() == X.ExitTaken(old(View()))
    {
      os := Judged(View());
      ledger := ledger.CarryOut(deferred.exit.value.ticket);
      deferred := deferred.(exit := None);
    }

    method ResumeDeferred()
      modifies this
      ensures View() == X.ResumeDeferred(old(View()))
    {
      hide X.IntentTaken;
      hide X.ExitTaken;
      hide L.ApplyIntent;
      hide X.ResumeAfterExit;
      hide X.ResumeConvergence;
      if deferred.intent.Some? {
        var intent := deferred.intent.value.what;
        TakeIntent();
        var ok := ApplyIntent(intent);
      } else if deferred.exit.Some? {
        var note := deferred.exit.value.what;
        TakeExit();
        ResumeAfterExit(note);
      } else {
        ResumePendingDurableConvergence();
      }
    }

    method TakeRetry()
      modifies `durability
      ensures View() == old(View()).(retryAt := None)
    {
      durability := durability.(retryAt := None);
    }

    method ClearMarker()
      modifies `runtime
      ensures View() == X.MarkerTakenBack(old(View()))
    {
      runtime := runtime.(marker := None);
    }

    method RetrySave() returns (outcome: SaveOutcome)
      modifies this
      ensures (View(), outcome) == X.RetrySave(old(View()))
    {
      hide D.PersistDetailed;
      hide X.MarkerTakenBack;
      TakeRetry();
      outcome := PersistRuntimeDetailed();
      if outcome == Durable && durability.clearRequested && runtime.marker.Some? {
        ClearMarker();
        outcome := PersistRuntimeDetailed();
      }
    }

    method RetryRuntimeStateIfDue(now: nat)
      modifies this
      ensures View() == X.RetryIfDue(old(View()), now)
    {
      hide X.RetrySave;
      hide X.ResumeDeferred;
      if !durability.loaded || !durability.retryPending || !(durability.retryAt.Some? && now >= durability.retryAt.value) {
        return;
      }
      var outcome := RetrySave();
      if outcome == Durable {
        ResumeDeferred();
      }
    }

    // ------------------------------------------------------------ reattachment

    method Discard()
      modifies `runtime, `suspicion
      ensures View() == R.Discarded(old(View()))
    {
      runtime := runtime.(process := None);
      suspicion := Suspicion(false, None);
    }

    method KeepUnverified(record: Option<Record>)
      modifies `runtime, `suspicion, `phase
      ensures View() == R.KeptUnverified(old(View()), record)
    {
      runtime := runtime.(process := record);
      suspicion := Suspicion(true, Some(os.now + UNVERIFIED_CHECK));
      phase := phase.(server := ServerFailed);
    }

    method DiscardLater()
      modifies `deferred, `phase, `ledger
      ensures View() == R.DiscardLater(old(View()))
    {
      deferred := deferred.(convergence := Some(Put(
        if runtime.desired == Running then StartLater(if phase.restartAfterStop then AfterStop else Cold)
        else Convergence.StopLater, ledger.next)));
      ledger := ledger.PutOff();
      phase := phase.(server := ServerFailed);
    }

    method DiscardStaleProcessRecord() returns (gone: bool)
      modifies this
      ensures (View(), gone) == R.DiscardStale(old(View()))
    {
      hide D.PersistDetailed;
      hide R.Discarded;
      hide R.KeptUnverified;
      hide R.DiscardLater;
      var previous := runtime.process;
      Discard();
      var outcome := PersistRuntimeDetailed();
      match outcome {
        case Durable =>
        case Failed => KeepUnverified(previous);
        case Uncertain => DiscardLater();
      }
      gone := outcome == Durable;
    }

    method AttachUnconfirmedProcess(r: Record)
      modifies this
      ensures View() == R.AttachUnconfirmed(old(View()), r)
    {
      hide D.PersistRuntime;
      process := Some(Attached(r));
      runtime := runtime.(process := Some(r));
      suspicion := Suspicion(true, Some(os.now + UNVERIFIED_CHECK));
      phase := phase.(server := ServerFailed);
      var saved := PersistRuntime();
    }

    /** A save without which an attachment counts as failed. */
    method PersistOrFail()
      modifies this
      ensures View() == R.FailUnless(D.PersistRuntime(old(View())))
    {
      hide D.PersistRuntime;
      var saved := PersistRuntime();
      if !saved {
        SetServer(ServerFailed);
      }
    }

    method AttachStaleConfigProcess(r: Record)
      modifies this
      ensures View() == R.AttachStale(old(View()), r)
    {
      hide D.PersistRuntime;
      hide R.FailUnless;
      process := Some(Attached(r));
      runtime := runtime.(process := Some(r));
      configs := configs.(active := None, stale := true);
      phase := phase.(server := ServerUnhealthy);
      PersistOrFail();
    }

    method AttachHealthy(r: Record, version: nat, config: Config)
      modifies this
      ensures View() == R.AttachHealthy(old(View()), r, version, config)
    {
      hide D.PersistRuntime;
      hide R.FailUnless;
      process := Some(Attached(r));
      runtime := runtime.(process := Some(r));
      configs := configs.(active := Some(config));
      phase := phase.(runningVersion := Some(version), server := ServerHealthy, started := Some(os.now));
      PersistOrFail();
    }

    method FinishReadopt(r: Record, action: FinalAction)
      modifies this
      ensures View() == R.FinishReadopt(old(View()), r, action)
    {
      hide R.AttachHealthy;
      hide R.DiscardStale;
      hide X.MarkUnverified;
      hide R.AttachUnconfirmed;
      match action {
        case FinalReattach(version, config) => AttachHealthy(R.Refreshed(r, version, config), version, config);
        case FinalDiscard => var gone := DiscardStaleProcessRecord();
        case FinalUnverified => MarkUnverified(r);
        case FinalUnconfirmed => AttachUnconfirmedProcess(r);
      }
    }

    method CheckAndReadopt(r: Record, config: Config)
      modifies this
      ensures View() == R.CheckAndReadopt(old(View()), r, config)
    {
      hide Kernel.Ask;
      hide ProcessIdentity.Inspect;
      hide R.FinishReadopt;
      var (v, c) := Kernel.Ask(os);
      var (u, again) := ProcessIdentity.Inspect(v, r);
      SetWorld(u);
      FinishReadopt(r, DecideAfterHealth(again, c.health, config));
    }

    method Readopt(r: Record, identity: Identity)
      modifies this
      ensures View() == R.Readopt(old(View()), r, identity)
    {
      hide R.CheckAndReadopt;
      hide R.DiscardStale;
      hide X.MarkUnverified;
      hide R.AttachUnconfirmed;
      hide R.AttachStale;
      var matches := configs.latest.Some? && configs.latest.value.fingerprint == r.fingerprint;
      match DecideInitial(r.unconfirmed, identity, configs.latest, matches) {
        case InitialDiscard => var gone := DiscardStaleProcessRecord();
        case InitialUnverified => MarkUnverified(r);
        case InitialUnconfirmed => AttachUnconfirmedProcess(r);
        case InitialStale => AttachStaleConfigProcess(r);
        case NeedsHealth(config) => CheckAndReadopt(r, config);
      }
    }

    method TryReattach(r: Record)
      modifies this
      ensures View() == R.TryReattach(old(View()), r)
    {
      hide ProcessIdentity.Inspect;
      hide ProcessGroup.ObserveMembers;
      hide R.Readopt;
      hide X.MarkUnverified;
      var (v, identity) := ProcessIdentity.Inspect(os, r);
      if !identity.Missing? {
        SetWorld(v);
        Readopt(r, identity);
        return;
      }
      var (u, seen) := ProcessGroup.ObserveAttached(v, r);
      SetWorld(u);
      if seen == Empty {
        Readopt(r, Missing);
      } else {
        MarkUnverified(r);
      }
    }

    method StartCleanly(trigger: Trigger)
      modifies this
      ensures View() == R.StartCleanly(old(View()), trigger)
    {
      hide L.StartNow;
      phase := phase.(restartAfterStop := false);
      recovery := recovery.(attempt := 0, nextRestart := None);
      StartNow(trigger);
    }

    method EndUnverified()
      modifies this
      ensures View() == R.EndUnverified(old(View()))
    {
      hide R.DiscardStale;
      hide R.StartCleanly;
      var gone := DiscardStaleProcessRecord();
      if !gone {
        return;
      }
      if phase.restartAfterStop {
        StartCleanly(AfterStop);
      } else if runtime.desired == Running {
        StartCleanly(Cold);
      } else {
        SetServer(ServerStopped);
      }
    }

    method CheckRecord(r: Record)
      modifies this
      ensures View() == R.CheckRecord(old(View()), r)
    {
      hide ProcessIdentity.Inspect;
      hide ProcessGroup.ObserveMembers;
      hide R.EndUnverified;
      var (v, identity) := ProcessIdentity.Inspect(os, r);
      if !identity.Missing? {
        SetWorld(v);
        return;
      }
      var (u, seen) := ProcessGroup.ObserveAttached(v, r);
      SetWorld(u);
      if seen == Empty {
        EndUnverified();
      }
    }

    method CheckUnverifiedProcess(now: nat)
      modifies this
      ensures View() == R.CheckUnverified(old(View()), now)
    {
      hide R.CheckRecord;
      suspicion := suspicion.(checkAt := Some(now + UNVERIFIED_CHECK));
      if runtime.process.Some? {
        CheckRecord(runtime.process.value);
      }
    }

    // ------------------------------------------------------------ boot

    /** `Supervisor::with_options` on a readable or an unreadable state file. */
    constructor (w: World, readable: bool, image: Runtime, group: nat, script: seq<Choice>)
      ensures View() == A.Start(w, readable, image, group, script)
    {
      hide Kernel.Ask;
      hide A.ConvergeBoot;
      hide A.Recall;
      var (v, c) := Kernel.Ask(A.Reborn(w, readable, group, script));
      os := v;
      runtime := if readable then image else DefaultRuntime;
      durability := Durability(readable, readable, false, None, !readable, false);
      deferred := Deferred(None, None, None);
      process := None;
      configs := Configs(c.config, None, c.credential, c.reading, false, v.now);
      phase := Phase(ServerStopped, None, None, None, false, false);
      recovery := Attempts(None, None, None, None, None, 0, false, false, 0);
      suspicion := Suspicion(false, None);
      ledger := Ledger(0, []);
      new;
      if readable && image.marker.None? {
        Recall();
        ConvergeBoot();
      } else {
        durability := durability.(stateError := true);
        phase := phase.(server := ServerFailed);
      }
    }

    method Recall()
      modifies this
      ensures View() == A.Recall(old(View()))
    {
      hide R.TryReattach;
      if runtime.process.Some? {
        TryReattach(runtime.process.value);
      }
    }

    method PrepareBootSave()
      modifies `runtime, `deferred, `ledger
      ensures View() == A.BootSave(old(View()))
    {
      runtime := runtime.(process := None);
      if deferred.convergence.None? {
        deferred := deferred.(convergence := Some(
          Put(if runtime.desired == Running then StartLater(Cold) else Convergence.StopLater, ledger.next)));
        ledger := ledger.PutOff();
      }
    }

    method ConvergeSaved()
      modifies this
      ensures View() == A.ConvergeSaved(old(View()))
    {
      hide A.BootSave;
      hide D.PersistDetailed;
      hide X.ResumeConvergence;
      PrepareBootSave();
      var outcome := PersistRuntimeDetailed();
      if outcome == Durable {
        ResumePendingDurableConvergence();
      } else {
        SetServer(ServerFailed);
      }
    }

    method ConvergeBoot()
      modifies this
      ensures View() == A.ConvergeBoot(old(View()))
    {
      hide A.ConvergeSaved;
      hide L.BeginStop;
      if process.None? && !suspicion.unverified {
        ConvergeSaved();
      } else if process.Some? && runtime.desired == Stopped {
        BeginStop(false);
      }
    }

    // ------------------------------------------------------------ worker results

    method RecordVersion(version: nat) returns (saved: bool)
      modifies this
      ensures (View(), saved) == R.RecordVersion(old(View()), version)
    {
      hide D.PersistRuntime;
      if process.None? {
        return true;
      }
      process := Some(process.value.WithRunningVersion(version));
      runtime := runtime.(process := Some(process.value.Rec()));
      saved := PersistRuntime();
    }

    method Recover()
      modifies this
      ensures View() == R.Recover(old(View()))
    {
      hide L.EmitNotification;
      if recovery.incident || recovery.healthIncident {
        recovery := recovery.(incident := false, healthIncident := false);
        EmitNotification(Recovered);
      }
    }

    method NoteHealthy(version: nat) returns (changed: bool)
      modifies `phase, `recovery
      ensures View() == R.HealthNoted(old(View()), version) && changed == (old(phase).runningVersion != Some(version))
    {
      changed := phase.runningVersion != Some(version);
      phase := phase.(server := ServerHealthy, runningVersion := Some(version));
      recovery := recovery.(healthFailures := 0);
    }

    method HealthyAnswer(version: nat)
      modifies this
      ensures View() == R.HealthyAnswer(old(View()), version)
    {
      hide R.HealthNoted;
      hide R.RecordVersion;
      hide R.Recover;
      var changed := NoteHealthy(version);
      var saved := true;
      if changed {
        saved := RecordVersion(version);
      }
      if saved {
        Recover();
      } else {
        SetServer(ServerFailed);
      }
    }

    method NoteUnhealthy(now: nat) returns (tell: bool)
      modifies `phase, `recovery
      ensures View() == R.UnhealthNoted(old(View()), now) && tell == R.TellUnhealthy(old(View()), now)
    {
      recovery := recovery.(healthFailures := recovery.healthFailures + 1);
      if phase.started.Some? && now < phase.started.value + STARTUP_HEALTH_ALLOWANCE && phase.server == Starting {
        return false;
      }
      phase := phase.(server := ServerUnhealthy);
      tell := recovery.healthFailures >= 3 && !recovery.healthIncident;
      if tell {
        recovery := recovery.(healthIncident := true);
      }
    }

    method UnhealthyAnswer(now: nat)
      modifies this
      ensures View() == R.UnhealthyAnswer(old(View()), now)
    {
      hide R.UnhealthNoted;
      hide R.TellUnhealthy;
      hide L.EmitNotification;
      var tell := NoteUnhealthy(now);
      if tell {
        EmitNotification(Failure);
      }
    }

    method Unstale(r: Record, version: nat, config: Config, now: nat)
      modifies this
      ensures View() == R.Unstale(old(View()), r, version, config, now)
    {
      hide D.PersistRuntime;
      hide R.FailUnless;
      process := Some(Attached(r));
      runtime := runtime.(process := Some(r));
      configs := configs.(active := Some(config), stale := false);
      phase := phase.(runningVersion := Some(version), server := ServerHealthy, started := Some(now));
      PersistOrFail();
    }

    method ApplyStaleHealth(now: nat, verdict: HealthVerdict)
      modifies this
      ensures View() == R.ApplyStaleHealth(old(View()), now, verdict)
    {
      hide ProcessIdentity.Inspect;
      hide R.Unstale;
      if !verdict.Healthy? || process.None? || configs.latest.None? {
        return;
      }
      var r := process.value.Rec();
      var config := configs.latest.value;
      if r.fingerprint != config.fingerprint {
        return;
      }
      var (v, identity) := ProcessIdentity.Inspect(os, r);
      SetWorld(v);
      if identity == Present(Match) || identity == Present(ExecutableVanished) {
        Unstale(R.Refreshed(r, verdict.version, config), verdict.version, config, now);
      }
    }

    method HealthAnswer(now: nat, verdict: HealthVerdict)
      modifies this
      ensures View() == R.HealthAnswer(old(View()), now, verdict)
    {
      hide D.RuntimeStateReady;
      hide R.ApplyStaleHealth;
      hide R.HealthyAnswer;
      hide R.UnhealthyAnswer;
      var ready := RuntimeStateReady();
      if !ready || phase.server == Stopping || phase.server == StopTimedOut || process.None? {
        return;
      }
      if configs.active.None? && configs.stale {
        ApplyStaleHealth(now, verdict);
      } else if configs.active.Some? {
        match verdict {
          case Healthy(version) => HealthyAnswer(version);
          case _ => UnhealthyAnswer(now);
        }
      }
    }

    method ApplyInstalledVersion(version: nat)
      modifies this
      ensures View() == R.ApplyVersion(old(View()), version)
    {
      hide R.RecordVersion;
      if phase.runningVersion.None? {
        phase := phase.(runningVersion := Some(version));
      }
      if process.None? || process.value.Rec().runningVersion.Some? {
        return;
      }
      var saved := RecordVersion(version);
      if !saved {
        SetServer(ServerFailed);
      }
    }

    method ResumeStart()
      modifies this
      ensures View() == R.ResumeStart(old(View()))
    {
      hide L.StartNow;
      recovery := recovery.(attempt := 0, nextRestart := None, nextPortRetry := None, portDeadline := None,
                            networkDeadline := None, pendingTrigger := None);
      StartNow(Cold);
    }

    method RecheckStale()
      modifies `configs
      ensures View() == R.RecheckStale(old(View()))
    {
      if runtime.process.None? || process.None? {
        configs := configs.(stale := false);
      }
    }

    method PasswordApplied(fingerprint: nat)
      modifies this
      ensures View() == R.PasswordApplied(old(View()), fingerprint)
    {
      hide R.ResumeStart;
      hide R.RecheckStale;
      configs := configs.(credential := Available, reading := false, latest := R.WithPassword(View(), fingerprint));
      if process.None? && !suspicion.unverified && runtime.desired == Running {
        ResumeStart();
      }
      RecheckStale();
    }

    // ------------------------------------------------------------ ticks

    method ReadConfig(at: nat)
      modifies this
      ensures View() == A.ReadConfig(old(View()), at)
    {
      hide L.RefreshConfig;
      RefreshConfig();
      configs := configs.(checkedAt := at);
    }

    method ReloadConfig()
      modifies this
      ensures View() == A.ReloadConfig(old(View()))
    {
      hide L.RefreshConfig;
      RefreshConfig();
      configs := configs.(checkedAt := os.now);
    }

    method FireTimers(now: nat)
      modifies this
      ensures View() == A.FireTimers(old(View()), now)
    {
      hide R.CheckUnverified;
      hide A.ExpireStop;
      hide A.FireRestart;
      hide A.FirePortRetry;
      if suspicion.unverified && process.None? && Due(suspicion.checkAt, now) {
        CheckUnverifiedProcess(now);
      }
      ExpireStop(now);
      FireRestart(now);
      FirePortRetry(now);
    }

    method ExpireStop(now: nat)
      modifies `phase
      ensures View() == A.ExpireStop(old(View()), now)
    {
      if phase.server == Stopping && Due(phase.stopDeadline, now) {
        phase := phase.(server := StopTimedOut, stopDeadline := None);
      }
    }

    method FireRestart(now: nat)
      modifies this
      ensures View() == A.FireRestart(old(View()), now)
    {
      hide L.StartNow;
      if Due(recovery.nextRestart, now) && process.None? {
        recovery := recovery.(nextRestart := None);
        StartNow(Trigger.Recovery);
      }
    }

    method FirePortRetry(now: nat)
      modifies this
      ensures View() == A.FirePortRetry(old(View()), now)
    {
      hide L.StartNow;
      if Due(recovery.nextPortRetry, now) && process.None? {
        var trigger := if recovery.pendingTrigger.Some? then recovery.pendingTrigger.value else AfterStop;
        recovery := recovery.(nextPortRetry := None, pendingTrigger := None);
        StartNow(trigger);
      }
    }

    method TakeHealth(now: nat, arrivals: A.Arrivals)
      modifies this
      ensures View() == A.CheckHealthDue(A.TakeHealth(A.RecheckConfig(old(View()), now), now, arrivals.health), arrivals.healthDue)
    {
      hide A.ReadConfig;
      hide R.HealthAnswer;
      hide D.RuntimeStateReady;
      if now >= configs.checkedAt + CONFIG_RECHECK {
        ReadConfig(now);
      }
      if arrivals.health.Some? {
        HealthAnswer(now, arrivals.health.value);
      }
      if process.Some? && phase.server != Stopping && phase.server != StopTimedOut && arrivals.healthDue {
        var ready := RuntimeStateReady();
      }
    }

    method TakeCredential(password: Option<nat>, credential: Option<CredentialState>)
      modifies this
      ensures View() == A.TakeCredential(old(View()), password, credential)
    {
      hide R.PasswordApplied;
      if password.Some? {
        PasswordApplied(password.value);
      } else if credential.Some? {
        configs := configs.(credential := credential.value, reading := false);
      }
    }

    method ForgiveAttempts(now: nat)
      modifies `recovery
      ensures View() == A.ForgiveAttempts(old(View()), now)
    {
      if process.Some? && phase.started.Some? && now >= phase.started.value + STABLE_RUN {
        recovery := recovery.(attempt := 0);
      }
    }

    method TakeArrivals(now: nat, arrivals: A.Arrivals)
      modifies this
      ensures View() == A.TakeArrivals(old(View()), now, arrivals)
    {
      hide A.CheckHealthDue;
      hide A.TakeHealth;
      hide A.RecheckConfig;
      hide R.ApplyVersion;
      hide A.TakeCredential;
      hide A.ForgiveAttempts;
      TakeHealth(now, arrivals);
      if arrivals.version.Some? {
        ApplyInstalledVersion(arrivals.version.value);
      }
      TakeCredential(arrivals.password, arrivals.credential);
      ForgiveAttempts(now);
    }

    method Tick(arrivals: A.Arrivals)
      modifies this
      ensures View() == A.TickOnce(old(View()), arrivals)
    {
      hide X.RetryIfDue;
      hide X.PollProcess;
      hide A.FireTimers;
      hide A.TakeArrivals;
      var now := os.now;
      RetryRuntimeStateIfDue(now);
      PollProcess();
      FireTimers(now);
      TakeArrivals(now, arrivals);
    }

    method Handle(command: A.Command) returns (ok: bool)
      modifies this
      ensures (View(), ok) == A.HandleCommand(old(View()), command)
    {
      hide L.Request;
      hide L.ContinueStop;
      hide L.ForceStop;
      match command {
        case Status => ok := true;
        case Act(intent) => ok := Request(intent);
        case ContinueStopping => ok := ContinueStop();
        case ForceStopping => ok := ForceStop();
        case Credentials(state, reading, fingerprint) =>
          configs := configs.(credential := state, reading := reading, latest := R.WithPassword(View(), fingerprint));
          ok := true;
      }
    }
  }


  lemma ReseenProcess(s: Sup, v: World, m: Managed)
    ensures X.Reseen(s, v, m).process == Some(m)
  {
  }

  lemma CancelKeeps(s: Sup, restarting: bool)
    ensures L.Cancelled(s, 0, restarting, false).process == s.process
  {
  }

  /** A deadline that has passed is forgotten with the other retry timers. */
  lemma GiveUpForgets(s: Sup, trigger: Trigger, kind: ErrorKind)
    ensures L.GiveUpStart(s.(portDeadline := Some(L.PortDeadline(s))), trigger, kind) == L.GiveUpStart(s, trigger, kind)
    ensures L.GiveUpStart(s.(networkDeadline := Some(L.NetworkDeadline(s))), trigger, kind) == L.GiveUpStart(s, trigger, kind)
  {
    hide L.ScheduleNextRestart;
    hide L.FinishRecoveryFailure;
    hide L.GivenUp;
    GivenUpForgetsPort(s, Some(L.PortDeadline(s)));
    GivenUpForgetsNetwork(s, Some(L.NetworkDeadline(s)));
  }

  lemma GivenUpForgetsPort(s: Sup, deadline: Option<nat>)
    ensures L.GivenUp(s.(portDeadline := deadline)) == L.GivenUp(s)
  {
  }

  lemma GivenUpForgetsNetwork(s: Sup, deadline: Option<nat>)
    ensures L.GivenUp(s.(networkDeadline := deadline)) == L.GivenUp(s)
  {
  }
}
