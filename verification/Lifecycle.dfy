/** Commands, starts and stops (supervisor/lifecycle.rs, and from process_exit.rs the
    scheduling of bounded recovery). */
module Lifecycle {
  import opened Records
  import opened Kernel
  import opened ProcessCleanup
  import opened ManagedProcesses
  import opened SupervisorState
  import opened RuntimeDurability

  // ---------------------------------------------------------------- bounded recovery

  function Notified(s: Sup, v: World, kind: NoticeKind): Sup {
    s.(os := v, runtime := s.runtime.(notice := Some(kind)))
  }

  /** `emit_notification`; the random event ID may fail. */
  function EmitNotification(s: Sup, kind: NoticeKind): Sup {
    var (v, c) := Ask(s.os);
    if c.fault then s.(os := v) else PersistRuntime(Notified(s, v, kind)).0
  }

  /** `finish_recovery_failure`. */
  function FinishRecoveryFailure(s: Sup): Sup {
    var t := s.(nextRestart := None, server := ServerFailed, recoveryIncident := false);
    if s.recoveryIncident then EmitNotification(t, FinalFailure) else t
  }

  function RestartArmed(s: Sup): Sup
    requires s.attempt < |RESTART_BACKOFF|
  {
    s.(nextRestart := Some(s.os.now + RESTART_BACKOFF[s.attempt]), attempt := s.attempt + 1, server := WaitingToRestart)
  }

  /** `schedule_next_restart`. */
  function ScheduleNextRestart(s: Sup): Sup {
    if s.attempt >= |RESTART_BACKOFF| then FinishRecoveryFailure(s)
    else RestartArmed(s)
  }

  // ---------------------------------------------------------------- starting

  /** `refresh_config` with the Keychain merge behind it, and the stale-attachment recheck. A
      configuration that cannot be loaded is kept only for a running process. */
  function RefreshConfig(s: Sup): Sup {
    var (v, c) := Ask(s.os);
    s.(os := v, credential := c.credential, reading := c.reading,
       latest := if c.config.Some? then c.config else if s.process.None? then None else s.latest,
       stale := s.stale && (c.config.None? || (s.runtime.process.Some? && s.process.Some?)))
  }

  function PortDeadline(s: Sup): nat {
    if s.portDeadline.Some? then s.portDeadline.value else s.os.now + PORT_RELEASE_BUDGET
  }

  function NetworkDeadline(s: Sup): nat {
    if s.networkDeadline.Some? then s.networkDeadline.value else s.os.now + NETWORK_WAIT_BUDGET
  }

  /** A start that ends without a process, with its retry timers. */
  function GivenUp(s: Sup): Sup {
    s.(server := ServerFailed, nextPortRetry := None, portDeadline := None, networkDeadline := None, pendingTrigger := None)
  }

  /** `schedule_port_release_retry`, within its budget. */
  function PortRetrying(s: Sup): Sup {
    s.(portDeadline := Some(PortDeadline(s)), nextPortRetry := Some(s.os.now + PORT_RELEASE_RETRY), server := WaitingToRestart)
  }

  /** `schedule_network_wait_retry`, within its budget. */
  function NetworkRetrying(s: Sup, trigger: Trigger): Sup {
    s.(networkDeadline := Some(NetworkDeadline(s)), nextPortRetry := Some(s.os.now + PORT_RELEASE_RETRY),
       pendingTrigger := Some(trigger), server := WaitingToRestart)
  }

  /** A start that failed for good: bounded recovery goes on, unless a foreign process holds
      the endpoint. */
  function GiveUpStart(s: Sup, trigger: Trigger, kind: ErrorKind): Sup {
    var t := GivenUp(s);
    if trigger != Recovery then t
    else if kind != AddrInUse then ScheduleNextRestart(t)
    else FinishRecoveryFailure(t)
  }

  /** After a spawn that left no process: a bounded wait for the port
      (`schedule_port_release_retry`) or the address (`schedule_network_wait_retry`), or the
      end of this start. */
  function AfterRefusal(s: Sup, trigger: Trigger, kind: ErrorKind): Sup {
    if kind == AddrInUse && trigger == AfterStop && s.os.now < PortDeadline(s) then
      PortRetrying(s)
    else if kind == AddrNotAvailable && s.os.now < NetworkDeadline(s) then
      NetworkRetrying(s, trigger)
    else GiveUpStart(s, trigger, kind)
  }

  /** A started process is supervised, whether or not its record could be saved. */
  function RunningNow(s: Sup, config: Config, saved: bool): Sup {
    s.(active := Some(config), runningVersion := None, server := if saved then Starting else ServerFailed,
       healthFailures := 0, started := Some(s.os.now), groupRecovery := false,
       nextPortRetry := None, portDeadline := None, networkDeadline := None, pendingTrigger := None)
  }

  function SurvivingNow(s: Sup): Sup {
    s.(active := None, server := ServerFailed, started := Some(s.os.now))
  }

  /** `start_now` after the spawn attempt. */
  function FinishStart(s: Sup, trigger: Trigger, config: Config, result: SpawnResult): Sup {
    match result
    case Started(m) =>
      var (t, saved) := CommitSpawned(s, m);
      RunningNow(t, config, saved)
    case Survivor(m) =>
      var (t, saved) := CommitSpawned(s, m);
      SurvivingNow(t)
    case NotStarted(kind) =>
      var (t, saved) := AbortLaunch(s);
      if saved then AfterRefusal(t, trigger, kind) else GivenUp(t)
  }

  /** `start_now` when the launch marker could not be made durable. */
  function MarkerRefused(s: Sup, trigger: Trigger): Sup {
    var later := s.runtime.marker.Some? && s.clearRequested && s.retryPending;
    s.(server := ServerFailed,
       pendingConvergence := if later then Some(Put(StartLater(trigger), s.ledger.next)) else s.pendingConvergence,
       ledger := if later then s.ledger.PutOff() else s.ledger)
  }

  /** `start_now` from the launch marker on. */
  function Launch(s: Sup, trigger: Trigger, config: Config): Sup {
    var (t, marked) := BeginLaunch(s, Marker(config.executable, config.fingerprint));
    if !marked then MarkerRefused(t, trigger)
    else
      var (v, result) := Spawn(t.os, config, t.runtime);
      FinishStart(t.(os := v), trigger, config, result)
  }

  /** `start_now` without a usable configuration or password: bounded recovery goes on. */
  function StartRefusedNow(s: Sup, trigger: Trigger): Sup {
    var t := s.(server := ServerFailed);
    if trigger == Recovery then ScheduleNextRestart(t) else t
  }

  /** `start_now`. */
  function StartNow(s: Sup, trigger: Trigger): Sup {
    var (r, ready) := RuntimeStateReady(s);
    if !ready then DeferConvergence(r, StartLater(trigger)).(server := ServerFailed)
    else
      var t := RefreshConfig(r);
      if t.latest.None? then StartRefusedNow(t, trigger)
      else if t.credential == AccessPending then (if t.reading then t else StartRefusedNow(t, trigger))
      else Launch(t, trigger, t.latest.value)
  }

  // ---------------------------------------------------------------- stopping

  /** `begin_stop` while a launch transaction is unfinished: nothing is signaled. */
  function StopLaterOn(s: Sup, restarting: bool): Sup {
    var t := s.(server := ServerFailed);
    if s.process.Some? then DeferIntent(t, if restarting then RestartIntent else StopIntent)
    else if s.clearRequested then DeferConvergence(t, if restarting then StartLater(AfterStop) else StopLater)
    else t
  }

  /** `begin_stop` on the supervised process. */
  function SignalStop(s: Sup, restarting: bool): Sup
    requires s.process.Some?
  {
    var (v, sent) := SignalManaged(s.os, s.process.value, Terminate, StopRequest);
    s.(os := v, server := if sent then Stopping else ServerFailed,
       stopDeadline := if sent then Some(v.now + GRACEFUL_STOP) else s.stopDeadline,
       restartAfterStop := if sent then restarting else s.restartAfterStop)
  }

  /** `begin_stop`. */
  function BeginStop(s: Sup, restarting: bool): Sup {
    if s.runtime.marker.Some? || s.clearRequested then StopLaterOn(s, restarting)
    else if s.process.Some? then SignalStop(s, restarting)
    else if s.unverified then s.(server := ServerFailed)
    else if restarting then StartNow(s, AfterStop)
    else s.(server := ServerStopped)
  }

  /** `continue_stop`. */
  function ContinueStop(s: Sup): (r: (Sup, bool)) {
    if s.server != StopTimedOut then (s, false)
    else (s.(server := Stopping, stopDeadline := Some(s.os.now + GRACEFUL_STOP)), true)
  }

  /** `force_stop`. */
  function ForceStop(s: Sup): (r: (Sup, bool)) {
    if !StoppingNow(s) || s.process.None? then (s, false)
    else
      var (v, sent) := SignalManaged(s.os, s.process.value, Kill, ForceRequest);
      (s.(os := v, server := if sent then Stopping else s.server, stopDeadline := if sent then None else s.stopDeadline), sent)
  }

  // ---------------------------------------------------------------- commands

  /** `start_refusal`. */
  predicate StartRefused(s: Sup) {
    (s.unverified && s.process.None?) || s.credential == AccessPending
  }

  /** What every explicit command cancels: the older deferred actions and the armed timers. */
  function Cancelled(s: Sup, attempt: nat, restarting: bool, recovery: bool): Sup {
    s.(pendingExit := None, pendingConvergence := None, nextRestart := None, nextPortRetry := None, portDeadline := None,
       networkDeadline := None, pendingTrigger := None, attempt := attempt, restartAfterStop := restarting,
       groupRecovery := recovery)
  }

  function StartAfresh(s: Sup): Sup {
    StartNow(Cancelled(s, 0, s.restartAfterStop, s.groupRecovery), Cold)
  }

  /** `apply_start`. */
  function ApplyStart(s: Sup): (r: (Sup, bool)) {
    if s.process.Some? then (s.(pendingExit := None, pendingConvergence := None), true)
    else if StartRefused(s) then (s.(pendingExit := None, pendingConvergence := None, server := ServerFailed), false)
    else (StartAfresh(s), !StartAfresh(s).stateError)
  }

  /** `apply_stop`. */
  function ApplyStop(s: Sup): (r: (Sup, bool)) {
    var t := BeginStop(Cancelled(s, s.attempt, false, false), false);
    (t, !(t.runtime.marker.Some? || t.clearRequested))
  }

  function RestartAfresh(s: Sup): (r: (Sup, bool)) {
    var t := Cancelled(s, 0, s.process.Some?, false);
    if t.process.Some? then (BeginStop(t, true), true)
    else
      var u := StartNow(t, AfterStop);
      (u, !u.stateError)
  }

  /** `apply_restart`. */
  function ApplyRestart(s: Sup): (r: (Sup, bool)) {
    if StartRefused(s) then (Cancelled(s, 0, false, false).(server := ServerFailed), false)
    else RestartAfresh(s)
  }

  function ApplyIntent(s: Sup, intent: Intent): Sup {
    match intent
    case StartIntent => ApplyStart(s).0
    case StopIntent => ApplyStop(s).0
    case RestartIntent => ApplyRestart(s).0
  }

  /** `request_start`, `request_stop`, `request_restart`. */
  function Request(s: Sup, intent: Intent): (r: (Sup, bool)) {
    var (t, saved) := PersistDesired(s, if intent == StopIntent then Stopped else Running, intent);
    if !saved then (t, false)
    else match intent
      case StartIntent => ApplyStart(t)
      case StopIntent => ApplyStop(t)
      case RestartIntent => ApplyRestart(t)
  }
}
