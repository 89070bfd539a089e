/** The memory of the agent's supervisor (supervisor/mod.rs), with the world it runs in. */
module SupervisorState {
  import opened Records
  import opened Kernel
  import opened ManagedProcesses

  /** Milliseconds. */
  const RUNTIME_STATE_RETRY: nat := 1000
  const GRACEFUL_STOP: nat := 15000
  const STARTUP_HEALTH_ALLOWANCE: nat := 15000
  const STABLE_RUN: nat := 300000
  const UNVERIFIED_CHECK: nat := 3000
  const PORT_RELEASE_RETRY: nat := 250
  const PORT_RELEASE_BUDGET: nat := 10000
  const NETWORK_WAIT_BUDGET: nat := 60000
  const CONFIG_RECHECK: nat := 60000
  const RESTART_BACKOFF: seq<nat> := [1000, 2000, 5000, 15000, 30000]

  datatype ServerState =
    | ServerStopped | Starting | ServerHealthy | ServerUnhealthy
    | Stopping | StopTimedOut | WaitingToRestart | ServerFailed

  datatype Trigger = Cold | Recovery | AfterStop

  datatype Intent = StartIntent | StopIntent | RestartIntent

  datatype Convergence = StartLater(trigger: Trigger) | StopLater

  datatype ExitNote = ExitNote(explicitStop: bool, reason: ExitReason)

  /** An action that waits, with the ticket it was put off under. */
  datatype Put<T> = Put(what: T, ticket: nat)

  /** The monitor's books: every action put off gets the `next` ticket, and `ran` lists the
      tickets of those carried out from where they were put off. */
  datatype Ledger = Ledger(next: nat, ran: seq<nat>) {
    function PutOff(): Ledger { this.(next := next + 1) }
    function CarryOut(ticket: nat): Ledger { this.(ran := ran + [ticket]) }
  }

  datatype Sup = Sup(
    os: World,
    runtime: Runtime,
    loaded: bool,
    reliable: bool,
    retryPending: bool,
    retryAt: Option<nat>,
    stateError: bool,
    clearRequested: bool,
    pendingExit: Option<Put<ExitNote>>,
    pendingIntent: Option<Put<Intent>>,
    pendingConvergence: Option<Put<Convergence>>,
    process: Option<Managed>,
    latest: Option<Config>,
    active: Option<Config>,
    credential: CredentialState,
    reading: bool,
    server: ServerState,
    runningVersion: Option<nat>,
    started: Option<nat>,
    stopDeadline: Option<nat>,
    restartAfterStop: bool,
    groupRecovery: bool,
    nextRestart: Option<nat>,
    nextPortRetry: Option<nat>,
    portDeadline: Option<nat>,
    networkDeadline: Option<nat>,
    pendingTrigger: Option<Trigger>,
    attempt: nat,
    recoveryIncident: bool,
    healthIncident: bool,
    healthFailures: nat,
    unverified: bool,
    unverifiedAt: Option<nat>,
    stale: bool,
    configCheckedAt: nat,
    ledger: Ledger)

  predicate Due(at: Option<nat>, now: nat) {
    at.Some? && now >= at.value
  }

  predicate StoppingNow(s: Sup) {
    s.server == Stopping || s.server == StopTimedOut
  }

  function Ticket<T>(slot: Option<Put<T>>): Option<nat> {
    if slot.Some? then Some(slot.value.ticket) else None
  }

  /** The world as a deferred action is carried out: the monitor objects unless a durable save
      has just made the memory the only image a crash could expose. */
  function Judged(s: Sup): World {
    if s.os.dead then s.os
    else Blame(s.os, !s.reliable || s.retryPending || s.os.images != {s.runtime}, EarlyDeferred)
  }
}
