/** Adopting or giving up a recorded process (supervisor/reattach.rs), and the results of
    the background workers that touch the process record (health.rs, version.rs). */
module Reattach {
  import opened Records
  import opened Kernel
  import opened ProcessGroup
  import opened ProcessIdentity
  import opened ManagedProcesses
  import opened SupervisorState
  import opened RuntimeDurability
  import opened Lifecycle
  import opened ProcessExit
  import opened ReattachPolicy

  /** `discard_stale_process_record` before its save. */
  function Discarded(s: Sup): Sup {
    s.(runtime := s.runtime.(process := None), unverified := false, unverifiedAt := None)
  }

  /** `discard_stale_process_record` when the record is still on disk. */
  function KeptUnverified(s: Sup, record: Option<Record>): Sup {
    s.(runtime := s.runtime.(process := record), unverified := true,
       unverifiedAt := Some(s.os.now + UNVERIFIED_CHECK), server := ServerFailed)
  }

  /** `discard_stale_process_record` when the record may still be on disk. */
  function DiscardLater(s: Sup): Sup {
    var later := if s.runtime.desired == Running then StartLater(if s.restartAfterStop then AfterStop else Cold) else StopLater;
    s.(pendingConvergence := Some(Put(later, s.ledger.next)), ledger := s.ledger.PutOff(), server := ServerFailed)
  }

  /** `discard_stale_process_record`. */
  function DiscardStale(s: Sup): (r: (Sup, bool)) {
    var (t, outcome) := PersistDetailed(Discarded(s));
    match outcome
    case Durable => (t, true)
    case Failed => (KeptUnverified(t, s.runtime.process), false)
    case Uncertain => (DiscardLater(t), false)
  }

  /** `attach_unconfirmed_process`. */
  function AttachUnconfirmed(s: Sup, r: Record): Sup {
    PersistRuntime(s.(process := Some(Attached(r)), runtime := s.runtime.(process := Some(r)), unverified := true,
                      unverifiedAt := Some(s.os.now + UNVERIFIED_CHECK), server := ServerFailed)).0
  }

  function FailUnless(r: (Sup, bool)): Sup {
    r.0.(server := if r.1 then r.0.server else ServerFailed)
  }

  /** `attach_stale_config_process`. */
  function AttachStale(s: Sup, r: Record): Sup {
    FailUnless(PersistRuntime(s.(process := Some(Attached(r)), runtime := s.runtime.(process := Some(r)), active := None,
                                 stale := true, server := ServerUnhealthy)))
  }

  /** The success block of `try_reattach`, on the record brought up to date. */
  function AttachHealthy(s: Sup, r: Record, version: nat, config: Config): Sup {
    FailUnless(PersistRuntime(s.(process := Some(Attached(r)), runtime := s.runtime.(process := Some(r)),
                                 runningVersion := Some(version), active := Some(config), server := ServerHealthy,
                                 started := Some(s.os.now))))
  }

  function Refreshed(r: Record, version: nat, config: Config): Record {
    r.(runningVersion := Some(version), fingerprint := config.fingerprint)
  }

  /** `try_reattach` after the health check and the second inspection. */
  function FinishReadopt(s: Sup, r: Record, action: FinalAction): Sup {
    match action
    case FinalReattach(version, config) => AttachHealthy(s, Refreshed(r, version, config), version, config)
    case FinalDiscard => DiscardStale(s).0
    case FinalUnverified => MarkUnverified(s, r)
    case FinalUnconfirmed => AttachUnconfirmed(s, r)
  }

  function CheckAndReadopt(s: Sup, r: Record, config: Config): Sup {
    var (v, c) := Ask(s.os);
    var (u, again) := Inspect(v, r);
    FinishReadopt(s.(os := u), r, DecideAfterHealth(again, c.health, config))
  }

  /** `try_reattach` after the first inspection. */
  function Readopt(s: Sup, r: Record, identity: Identity): Sup {
    var matches := s.latest.Some? && s.latest.value.fingerprint == r.fingerprint;
    match DecideInitial(r.unconfirmed, identity, s.latest, matches)
    case InitialDiscard => DiscardStale(s).0
    case InitialUnverified => MarkUnverified(s, r)
    case InitialUnconfirmed => AttachUnconfirmed(s, r)
    case InitialStale => AttachStale(s, r)
    case NeedsHealth(config) => CheckAndReadopt(s, r, config)
  }

  /** `try_reattach`. */
  function TryReattach(s: Sup, r: Record): Sup {
    var (v, identity) := Inspect(s.os, r);
    if !identity.Missing? then Readopt(s.(os := v), r, identity)
    else
      var (u, seen) := ObserveAttached(v, r);
      if seen == Empty then Readopt(s.(os := u), r, Missing) else MarkUnverified(s.(os := u), r)
  }

  function StartCleanly(s: Sup, trigger: Trigger): Sup {
    StartNow(s.(restartAfterStop := false, attempt := 0, nextRestart := None), trigger)
  }

  /** What becomes of the agent once an unverified record could be discarded. */
  function Converge(s: Sup): Sup {
    if s.restartAfterStop || s.runtime.desired == Running
    then StartCleanly(s, if s.restartAfterStop then AfterStop else Cold)
    else s.(server := ServerStopped)
  }

  /** The record of an unverified process whose leader is missing and whose group is empty. */
  function EndUnverified(s: Sup): Sup {
    var (t, gone) := DiscardStale(s);
    if gone then Converge(t) else t
  }

  /** `check_unverified_process` on a record: only a missing leader with an empty group ends
      the block. */
  function CheckRecord(s: Sup, r: Record): Sup {
    var (v, identity) := Inspect(s.os, r);
    if !identity.Missing? then s.(os := v)
    else
      var (u, seen) := ObserveAttached(v, r);
      if seen == Empty then EndUnverified(s.(os := u)) else s.(os := u)
  }

  /** `check_unverified_process`. */
  function CheckUnverified(s: Sup, now: nat): Sup {
    var t := s.(unverifiedAt := Some(now + UNVERIFIED_CHECK));
    if t.runtime.process.Some? then CheckRecord(t, t.runtime.process.value) else t
  }

  // ---------------------------------------------------------------- worker results

  /** A running version recorded for the supervised process. */
  function RecordVersion(s: Sup, version: nat): (r: (Sup, bool)) {
    if s.process.None? then (s, true)
    else
      var m := s.process.value.WithRunningVersion(version);
      PersistRuntime(s.(process := Some(m), runtime := s.runtime.(process := Some(m.Rec()))))
  }

  /** An end of an incident is told once. */
  function Recover(s: Sup): Sup {
    if s.recoveryIncident || s.healthIncident
    then EmitNotification(s.(recoveryIncident := false, healthIncident := false), Recovered) else s
  }

  function HealthNoted(s: Sup, version: nat): Sup {
    s.(server := ServerHealthy, healthFailures := 0, runningVersion := Some(version))
  }

  function HealthyAnswer(s: Sup, version: nat): Sup {
    var t := HealthNoted(s, version);
    var (u, saved) := if s.runningVersion == Some(version) then (t, true) else RecordVersion(t, version);
    if saved then Recover(u) else u.(server := ServerFailed)
  }

  predicate StillStarting(s: Sup, now: nat) {
    s.started.Some? && now < s.started.value + STARTUP_HEALTH_ALLOWANCE && s.server == Starting
  }

  predicate TellUnhealthy(s: Sup, now: nat) {
    !StillStarting(s, now) && s.healthFailures + 1 >= 3 && !s.healthIncident
  }

  function UnhealthNoted(s: Sup, now: nat): Sup {
    s.(healthFailures := s.healthFailures + 1, server := if StillStarting(s, now) then s.server else ServerUnhealthy,
       healthIncident := s.healthIncident || TellUnhealthy(s, now))
  }

  function UnhealthyAnswer(s: Sup, now: nat): Sup {
    var t := UnhealthNoted(s, now);
    if TellUnhealthy(s, now) then EmitNotification(t, Failure) else t
  }

  /** `apply_health_result`. */
  function ApplyHealth(s: Sup, now: nat, verdict: HealthVerdict): Sup {
    if verdict.Healthy? then HealthyAnswer(s, verdict.version) else UnhealthyAnswer(s, now)
  }

  /** `apply_stale_health_result`. */
  function ApplyStaleHealth(s: Sup, now: nat, verdict: HealthVerdict): Sup {
    if !verdict.Healthy? || s.process.None? || s.latest.None? then s
    else
      var r := s.process.value.Rec();
      var config := s.latest.value;
      if r.fingerprint != config.fingerprint then s
      else
        var (v, identity) := Inspect(s.os, r);
        var t := s.(os := v);
        if identity == Present(Match) || identity == Present(ExecutableVanished)
        then Unstale(t, Refreshed(r, verdict.version, config), verdict.version, config, now) else t
  }

  /** A stale attachment whose configuration fits again. */
  function Unstale(s: Sup, r: Record, version: nat, config: Config, now: nat): Sup {
    FailUnless(PersistRuntime(s.(process := Some(Attached(r)), runtime := s.runtime.(process := Some(r)),
                                 runningVersion := Some(version), active := Some(config), stale := false,
                                 server := ServerHealthy, started := Some(now))))
  }

  /** `poll_health_check` once a completed answer has passed the currentness key. */
  function HealthAnswer(s: Sup, now: nat, verdict: HealthVerdict): Sup {
    var (t, ready) := RuntimeStateReady(s);
    if !ready || StoppingNow(t) || t.process.None? then t
    else if t.active.None? && t.stale then ApplyStaleHealth(t, now, verdict)
    else if t.active.Some? then ApplyHealth(t, now, verdict)
    else t
  }

  function Versioned(s: Sup, version: nat): Sup {
    s.(runningVersion := if s.runningVersion.None? then Some(version) else s.runningVersion)
  }

  /** `apply_installed_version`. */
  function ApplyVersion(s: Sup, version: nat): Sup {
    var t := Versioned(s, version);
    if t.process.None? || t.process.value.Rec().runningVersion.Some? then t
    else FailUnless(RecordVersion(t, version))
  }

  function ResumeStart(s: Sup): Sup {
    StartNow(s.(attempt := 0, nextRestart := None, nextPortRetry := None, portDeadline := None, networkDeadline := None,
                pendingTrigger := None), Cold)
  }

  /** `recheck_stale_process`, as far as it decides that nothing is stale. */
  function RecheckStale(s: Sup): Sup {
    s.(stale := s.stale && s.runtime.process.Some? && s.process.Some?)
  }

  /** The configuration in memory with another password; only its fingerprint tells. */
  function WithPassword(s: Sup, fingerprint: nat): Option<Config> {
    if s.latest.Some? then Some(s.latest.value.(fingerprint := fingerprint)) else None
  }

  /** `poll_credential_refresh` of the supervisor, after a found password was applied: a
      start that waited for it is resumed. */
  function PasswordApplied(s: Sup, fingerprint: nat): Sup {
    var t := s.(credential := Available, reading := false, latest := WithPassword(s, fingerprint));
    RecheckStale(if t.process.None? && !t.unverified && t.runtime.desired == Running then ResumeStart(t) else t)
  }
}
