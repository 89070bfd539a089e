/** Exit observation and what follows it (supervisor/process_exit.rs, and from
    runtime_durability.rs the retry that resumes what was deferred). */
module ProcessExit {
  import opened Records
  import opened Kernel
  import opened ProcessGroup
  import opened ProcessIdentity
  import opened ProcessCleanup
  import opened ManagedProcesses
  import opened SupervisorState
  import opened RuntimeDurability
  import opened Lifecycle

  function RecoverAfterCleanup(s: Sup): Sup {
    ScheduleNextRestart(s.(groupRecovery := false))
  }

  function RestartAfterStop(s: Sup): Sup {
    StartNow(s.(restartAfterStop := false), AfterStop)
  }

  /** An explicit stop has come to its end. */
  function StopFinished(s: Sup): Sup {
    if s.runtime.desired == Stopped then
      s.(groupRecovery := false, restartAfterStop := false, nextRestart := None, server := ServerStopped)
    else if s.groupRecovery then RecoverAfterCleanup(s)
    else if s.restartAfterStop then RestartAfterStop(s)
    else s.(server := ServerStopped)
  }

  /** The process has gone by itself. */
  function BeginRecovery(s: Sup): Sup {
    ScheduleNextRestart(if s.recoveryIncident then s else EmitNotification(s.(recoveryIncident := true), Failure))
  }

  /** `resume_after_process_exit`. */
  function ResumeAfterExit(s: Sup, note: ExitNote): Sup {
    if note.explicitStop then StopFinished(s)
    else if s.runtime.desired == Running then BeginRecovery(s)
    else s.(server := ServerStopped)
  }

  function Unverified(s: Sup, r: Record): Sup {
    s.(runtime := s.runtime.(process := Some(r)), unverified := true,
       unverifiedAt := Some(s.os.now + UNVERIFIED_CHECK), server := ServerFailed)
  }

  /** `mark_unverified_process`: the record stays as evidence and authorizes nothing. */
  function MarkUnverified(s: Sup, r: Record): Sup {
    PersistRuntime(Unverified(s, r)).0
  }

  function Disowned(r: Record): Record {
    r.(unconfirmed := true, start := 0)
  }

  /** The process as it is seen now. */
  function Reseen(s: Sup, v: World, m: Managed): Sup {
    s.(os := v, process := Some(m))
  }

  /** The same, also in the record. */
  function Rerecorded(s: Sup, v: World, m: Managed): Sup {
    s.(os := v, process := Some(m), runtime := s.runtime.(process := Some(m.Rec())))
  }

  /** A save without which the agent counts as failed. */
  function SaveIdentity(s: Sup): (r: (Sup, bool)) {
    var (t, saved) := PersistRuntime(s);
    if saved then (t, true) else (t.(server := ServerFailed), false)
  }

  /** `upgrade_unconfirmed_identity`: false when the upgrade could not be persisted. */
  function UpgradeIdentity(s: Sup): (r: (Sup, bool)) {
    if s.process.None? then (s, true)
    else
      var (v, m, upgraded) := ConfirmIdentity(s.os, s.process.value);
      if upgraded then SaveIdentity(Rerecorded(s, v, m)) else (Reseen(s, v, m), true)
  }

  function Awaiting(s: Sup, explicitStop: bool): Sup {
    var recovering := !explicitStop && !s.groupRecovery;
    s.(groupRecovery := s.groupRecovery || recovering, restartAfterStop := s.restartAfterStop && !recovering,
       server := if StoppingNow(s) then s.server else Stopping,
       stopDeadline := if StoppingNow(s) then s.stopDeadline else Some(s.os.now + GRACEFUL_STOP))
  }

  /** A group that is waited for without an explicit stop is an automatic recovery; in any
      case the graceful-stop clock runs. */
  function AwaitAuthorized(s: Sup, explicitStop: bool): Sup {
    var t := Awaiting(s, explicitStop);
    if StoppingNow(s) then t else PersistRuntime(t).0
  }

  /** `handle_pending_group_cleanup` for a leader that is gone and a group that is not. */
  function AwaitGroup(s: Sup, explicitStop: bool): Sup
    requires s.process.Some?
  {
    if s.process.value.PendingGroupAuthorized() then AwaitAuthorized(s, explicitStop)
    else PersistRuntime(s.(stopDeadline := None, server := ServerFailed)).0
  }

  function Abandoned(s: Sup): Sup {
    s.(process := None, active := None, stale := false, runningVersion := None, stopDeadline := None,
       started := None, restartAfterStop := false, groupRecovery := false, nextRestart := None)
  }

  /** `handle_attached_leader_disappearance`, when the group is not known to be empty. */
  function LoseLeader(s: Sup, record: Record): Sup {
    MarkUnverified(Abandoned(s), Disowned(record))
  }

  /** `handle_identity_changed`. */
  function LoseIdentity(s: Sup): Sup {
    if s.process.None? then s
    else
      MarkUnverified(Unidentified(s, s.process.value), Disowned(s.process.value.Rec()))
  }

  /** An owned child stays for its reaping; an attached process is let go. */
  function Unidentified(s: Sup, m: Managed): Sup {
    var (v, failed) := MarkIdentityFailed(s.os, m);
    s.(os := v, process := if m.Child? then Some(failed) else None, active := None, stale := false, runningVersion := None)
  }

  /** `clear_live_process_state`, and the record taken out of memory. */
  function Cleared(s: Sup): Sup {
    s.(process := None, active := None, stale := false, runningVersion := None, stopDeadline := None, started := None,
       unverified := false, unverifiedAt := None, runtime := s.runtime.(process := None))
  }

  /** `clear_process_record_durably` when the record is still on disk. */
  function KeptRecord(s: Sup, record: Option<Record>): Sup {
    s.(runtime := s.runtime.(process := record), unverified := true, unverifiedAt := Some(s.os.now + UNVERIFIED_CHECK),
       nextRestart := None, nextPortRetry := None, portDeadline := None, pendingTrigger := None, server := ServerFailed)
  }

  /** `clear_process_record_durably` when the record may still be on disk. */
  function HeldExit(s: Sup, note: ExitNote): Sup {
    s.(pendingExit := Some(Put(note, s.ledger.next)), ledger := s.ledger.PutOff(),
       nextRestart := None, nextPortRetry := None, portDeadline := None, pendingTrigger := None, server := ServerFailed)
  }

  function LastRecord(s: Sup): Option<Record> {
    if s.runtime.process.Some? then s.runtime.process
    else if s.process.Some? then Some(s.process.value.Rec()) else None
  }

  /** `complete_process_exit`. */
  function CompleteExit(s: Sup, note: ExitNote): Sup {
    var (t, outcome) := PersistDetailed(Cleared(s));
    match outcome
    case Durable => ResumeAfterExit(t, note)
    case Failed => KeptRecord(t, LastRecord(s))
    case Uncertain => HeldExit(t, note)
  }

  /** `poll_process` once the exit is known and no group is waited for. */
  function HandleExit(s: Sup, note: ExitNote): Sup {
    if note.reason == IdentityChanged then LoseIdentity(s)
    else if note.reason == Disappeared && s.process.Some? && s.process.value.Attached? then
      var record := s.process.value.Rec();
      var (v, seen) := ObserveAttached(s.os, record);
      if seen == Empty then CompleteExit(s.(os := v), note) else LoseLeader(s.(os := v), record)
    else CompleteExit(s, note)
  }

  /** `poll_process` once the identity needs no upgrade. */
  function ObserveExit(s: Sup): Sup {
    if s.process.None? then s
    else
      var (v, m, poll) := PollExit(s.os, s.process.value);
      var t := Reseen(s, v, m);
      if m.PendingGroupExit() then AwaitGroup(t, StoppingNow(s))
      else if poll.Gone? then HandleExit(t, ExitNote(StoppingNow(s), poll.reason))
      else t
  }

  /** `poll_process`. */
  function PollProcess(s: Sup): Sup {
    var (t, upgraded) := UpgradeIdentity(s);
    if upgraded then ObserveExit(t) else t
  }

  // ---------------------------------------------------------------- deferred actions

  /** The only image a crash could expose is the memory, and no launch is unfinished. */
  predicate DurableNow(s: Sup) {
    s.loaded && s.reliable && !s.retryPending && s.runtime.marker.None? && !s.clearRequested
  }

  /** The state in which a deferred convergence is carried out. */
  function ConvergenceTaken(s: Sup): Sup
    requires s.pendingConvergence.Some?
  {
    s.(pendingConvergence := None, os := Judged(s), ledger := s.ledger.CarryOut(s.pendingConvergence.value.ticket))
  }

  /** A deferred stop, once durable. */
  function StopNow(s: Sup): Sup {
    if s.process.Some? then BeginStop(s, false) else s.(server := ServerStopped)
  }

  /** `resume_pending_durable_convergence`. */
  function ResumeConvergence(s: Sup): Sup {
    if !DurableNow(s) || s.pendingConvergence.None? then s
    else
      var t := ConvergenceTaken(s);
      match s.pendingConvergence.value.what
      case StartLater(trigger) =>
        if t.runtime.desired == Running && t.process.None? && !t.unverified then StartNow(t, trigger) else t
      case StopLater =>
        if t.runtime.desired == Stopped && !t.unverified then StopNow(t) else t
  }

  /** The state in which a deferred command is carried out. */
  function IntentTaken(s: Sup): Sup
    requires s.pendingIntent.Some?
  {
    s.(pendingIntent := None, pendingExit := None, os := Judged(s), ledger := s.ledger.CarryOut(s.pendingIntent.value.ticket))
  }

  /** The state in which a held exit is completed. */
  function ExitTaken(s: Sup): Sup
    requires s.pendingExit.Some?
  {
    s.(pendingExit := None, os := Judged(s), ledger := s.ledger.CarryOut(s.pendingExit.value.ticket))
  }

  /** What `retry_runtime_state_if_due` runs once the state is durable. */
  function ResumeDeferred(s: Sup): Sup {
    if s.pendingIntent.Some? then ApplyIntent(IntentTaken(s), s.pendingIntent.value.what)
    else if s.pendingExit.Some? then ResumeAfterExit(ExitTaken(s), s.pendingExit.value.what)
    else ResumeConvergence(s)
  }

  function MarkerTakenBack(s: Sup): Sup {
    s.(runtime := s.runtime.(marker := None))
  }

  /** The saves of `retry_runtime_state_if_due`: once a marker whose own save was uncertain is
      durable, it is taken back by a second save. */
  function RetrySave(s: Sup): (r: (Sup, SaveOutcome)) {
    var (t, outcome) := PersistDetailed(s.(retryAt := None));
    if outcome == Durable && t.clearRequested && t.runtime.marker.Some?
    then PersistDetailed(MarkerTakenBack(t))
    else (t, outcome)
  }

  predicate RetryDue(s: Sup, now: nat) {
    s.loaded && s.retryPending && Due(s.retryAt, now)
  }

  /** `retry_runtime_state_if_due`. */
  function RetryIfDue(s: Sup, now: nat): Sup {
    if !RetryDue(s, now) then s
    else
      var (t, outcome) := RetrySave(s);
      if outcome == Durable then ResumeDeferred(t) else t
  }
}
