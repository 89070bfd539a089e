/** The three-way save and what waits for it (supervisor/runtime_durability.rs,
    supervisor/launch_transaction.rs). */
module RuntimeDurability {
  import opened Records
  import opened Kernel
  import opened ManagedProcesses
  import opened SupervisorState

  /** What the three outcomes of a save leave in memory (`record_runtime_state_failure` for
      the last two). */
  function Noted(s: Sup, v: World, outcome: SaveOutcome): Sup {
    var durable := outcome == Durable;
    s.(os := v, reliable := durable, retryPending := !durable, stateError := !durable,
       retryAt := if durable then None else Some(v.now + RUNTIME_STATE_RETRY),
       clearRequested := s.clearRequested && (durable ==> s.runtime.marker.Some?))
  }

  /** `persist_runtime_detailed`. */
  function PersistDetailed(s: Sup): (r: (Sup, SaveOutcome)) {
    if !s.loaded then (s, Failed)
    else
      var (v, outcome) := Save(s.os, s.runtime);
      (Noted(s, v, outcome), outcome)
  }

  /** `persist_runtime`: metadata never uses up the retry of a failed lifecycle write. */
  function PersistRuntime(s: Sup): (r: (Sup, bool)) {
    if s.retryPending then (s, false)
    else
      var (t, outcome) := PersistDetailed(s);
      (t, outcome == Durable)
  }

  function Desiring(s: Sup, desired: DesiredState): Sup {
    s.(runtime := s.runtime.(desired := desired))
  }

  /** An explicit command supersedes what older ones put off. */
  function Forgotten(s: Sup): Sup {
    s.(pendingIntent := None, pendingConvergence := None)
  }

  /** A definite failure left the old file: the change of memory is taken back. */
  function Restored(s: Sup, previous: Runtime): Sup {
    s.(runtime := previous)
  }

  /** The command may be on disk already: it waits for a durable retry. */
  function HeldIntent(s: Sup, intent: Intent): Sup {
    s.(pendingIntent := Some(Put(intent, s.ledger.next)), pendingConvergence := None, ledger := s.ledger.PutOff())
  }

  /** `persist_desired_state`: the boundary every explicit command crosses. */
  function PersistDesired(s: Sup, desired: DesiredState, intent: Intent): (r: (Sup, bool)) {
    if !s.loaded then (s, false)
    else
      var (t, outcome) := PersistDetailed(Desiring(s, desired));
      match outcome
      case Durable => (Forgotten(t), true)
      case Failed => (Restored(t, s.runtime), false)
      case Uncertain => (HeldIntent(t, intent), false)
  }

  /** `runtime_state_ready`: what blocks a start is also shown as the state error. */
  function RuntimeStateReady(s: Sup): (r: (Sup, bool)) {
    var ready := !s.stateError && s.runtime.marker.None? && !s.clearRequested && s.loaded && s.reliable;
    (s.(stateError := !ready), ready)
  }

  /** `defer_durable_convergence`. */
  function DeferConvergence(s: Sup, convergence: Convergence): Sup {
    var defer := s.clearRequested || (s.retryPending && s.retryAt.Some?);
    s.(pendingConvergence := if defer then Some(Put(convergence, s.ledger.next)) else s.pendingConvergence,
       retryPending := s.retryPending || defer,
       retryAt := if defer then Some(s.os.now + RUNTIME_STATE_RETRY) else s.retryAt,
       ledger := if defer then s.ledger.PutOff() else s.ledger)
  }

  /** `defer_lifecycle_intent`. */
  function DeferIntent(s: Sup, intent: Intent): Sup {
    var defer := s.clearRequested;
    s.(pendingIntent := if defer then Some(Put(intent, s.ledger.next)) else s.pendingIntent,
       retryPending := s.retryPending || defer,
       retryAt := if defer then Some(s.os.now + RUNTIME_STATE_RETRY) else s.retryAt,
       ledger := if defer then s.ledger.PutOff() else s.ledger)
  }

  // ---------------------------------------------------------------- launch transaction

  function Marking(s: Sup, marker: Marker): Sup {
    s.(runtime := s.runtime.(marker := Some(marker)))
  }

  /** The marker may be on disk already: it is to be taken back once it is durable. */
  function ClearAsked(s: Sup): Sup {
    s.(clearRequested := true)
  }

  /** `begin_launch`. */
  function BeginLaunch(s: Sup, marker: Marker): (r: (Sup, bool)) {
    if !s.loaded || !s.reliable || s.runtime.marker.Some? || s.clearRequested then (s, false)
    else
      var (t, outcome) := PersistDetailed(Marking(s, marker));
      match outcome
      case Durable => (t, true)
      case Failed => (Restored(t, s.runtime), false)
      case Uncertain => (ClearAsked(t), false)
  }

  /** `commit_spawned_process`. */
  function CommitSpawned(s: Sup, m: Managed): (r: (Sup, bool)) {
    PersistRuntime(s.(runtime := s.runtime.(process := Some(m.Rec()), marker := None), clearRequested := true, process := Some(m)))
  }

  /** `abort_launch`. */
  function AbortLaunch(s: Sup): (r: (Sup, bool)) {
    if s.runtime.marker.None? && !s.clearRequested then (s, true)
    else PersistRuntime(s.(runtime := s.runtime.(marker := None), clearRequested := true))
  }
}
