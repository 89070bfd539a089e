# OpenCodeServer: the crash-safe protocols, modelled and proved

OpenCodeServer keeps one OpenCode server running on a Mac. A Rust agent supervises the process; a
Swift menu-bar app edits the configuration, keeps the password in the Keychain and registers the
agent with Service Management. Every decision of either crosses a file whose write may fail, may be
uncertain, or may be cut short by a crash. This project models those protocols and proves what they
promise over whole runs. `dafny verify dfyconfig.toml` checks it.

## The agent

`Kernel` is the world: a process table in which PIDs are reused only after reaping, and the set of
state-file images a crash could still expose. A durable save leaves one image, an uncertain save adds
one, a failed save leaves the set alone; `StateFile` derives this from the single file operations. A
script resolves everything the agent does not control, before every kernel call, and may kill the agent
at any of them. A monitor records ten kinds of fault at the very call that commits one.

`RuntimeDurability`, `Lifecycle`, `ProcessExit`, `ReattachPolicy`, `Reattach` and `Agent` say what one
step of the supervisor does, on top of the signal-authority layer (`ProcessIdentity`, `ProcessGroup`,
`ProcessCleanup`, `ManagedProcesses`). The objects that do it in place are the classes of
`Supervisors`, `OwnedChildren` and `SupervisedProcess`: each method is proved to end in exactly the
state those functions give. `SupervisorSafety` holds the invariant; `LifecycleSafety`, `ExitSafety`,
`ReattachSafety` and `AgentSafety` carry it through every operation: a lemma `...Safe` says that one
operation keeps the invariant (no fault, evidence of every live leader), the durability gate, the books
on deferred actions and, where no start can come of it, a rest. `AgentTheorems` states the results: a
single instance, crash evidence, no fault in any run, stop finality, the durability gate and one-shot
deferred actions, ticket by ticket. `AgentMarkers` and `MarkerReboots` say how long a launch marker
blocks, `AgentRefusals` how long a refusal to signal lasts.

Those theorems say what the agent never does; the other half says what it achieves. `RecoveryTheorems`
(on `BoundedRecovery` and `KernelFlow`) bounds automatic recovery over whole runs and shows that every
unexpected exit, once its record is cleared durably, arms it or ends in the final notice; attempts are counted in memory, so a new agent
process starts with all of them. `AgentProgress` follows start, Stop, Restart, Force Stop, exits and the
recovery timer, `GroupProgress` a group that outlives its leader, `AgentResumption` the actions put off and
the starts refused by the endpoint, `ReattachProgress` a boot over a recorded process, `HealthProgress` the
notices of health; `TickProgress` says the same of whole ticks. These lemmas are about a world in which every
call succeeds (each says which), and otherwise hold for every configuration, process, listing and moment;
`ProgressWorlds` exhibits a state for each of their situations.
`UnsureProcesses` says what the agent does with a process it cannot be sure of and with what it could not
save; like `AgentResumption.RetryCarriesOut` and all of `RecoveryTheorems` it holds in every world.

## Credentials

`Credentials` is the agent's side: one read at a time, a removal barrier, a budget for automatic reads.
`StartCredentials` ties it to the fork: what OpenCode may be started with. `CredentialOffers` says when a
password is available, when a read is dispatched and what every notice and answer leaves.

The app's side moves a password to a new Keychain account across three stores that cannot be updated
together: configuration file, Keychain and journal. `CredentialJournal` is the journal,
`MigrationSave` the transaction, `MigrationRecovery` the reconciler, `MutationCoordinator` the delivery
of notices, each with its class. `MigrationWorld` puts them beside the three stores, cut at every
single effect, with crashes, launches, same-account saves, acknowledgements and edits by others in
any order; `MigrationSafety` proves that no active item is lost, that a record disappears only when the
move is undone or complete, and exactly when a recovery converges; `MigrationEdits` traces every removal
of a named item by a transaction to an edit under it. `MigrationMoves` says exactly when a save carries a
move through, what each failing answer leaves, and that a crash at any point leaves all or nothing;
`NoticeDelivery` that every notice reaches an agent that applies what it is told.

## Smaller protocols

`IpcFraming` and `IpcConnections` (non-blocking framing refines whole-message parsing; no event reaches a
connection that reuses a descriptor), `IpcSubscriptions` (a connection becomes a subscription exactly when
it asked for one and got its answer), `Registration`, `RegistrationController` and `RegistrationSafety`
(bounded attempts that no crash at any write regains), `RegistrationProgress` (what each launch begins,
resumes or leaves alone, and how an upgrade replaces the old registration), `HealthGuard` (no A, B, A confusion, numbered
requests) and `Fingerprint` (an injective encoding).

## Where the source differs from its promise

Each of these is a lemma with the exact condition under which the source does keep the promise.

- Durability gate: after a boot that finds a launch marker while another image is still possible, the
  agent calls its state reliable although a crash could expose the other image
  (`AgentSafety.GateFailsAfterBoot`, `AgentSafety.GateAfterBoot`). That agent launches and signals nothing
  (`AgentMarkers.InheritedMarkerHolds`); the agents after it do neither exactly when every image is marked
  (`MarkerReboots.MarkerOutlivesReboots`).
- Refused signals: a refusal is kept in memory only. It survives every restart exactly when no image that
  is possible as the agent goes down holds a confirmed record of the leader
  (`AgentRefusals.RefusalSurvivesExactly`). A late installed-version answer writes such a record back, over
  one that was marked unconfirmed (rust/src/supervisor/version.rs:275-293): `AgentRefusals.RefusalForgotten`.
- Health results: once the generation counter saturates, A, B, A passes (`HealthGuard.SaturatedGuardFails`);
  `HealthGuard.GuardIsExact` gives the exact number of visits.
- Credential notices: a read in flight at a change notice may apply the password just replaced, and one in
  flight at a removal comes back once a change notice lowers the barrier. Over whole runs both are excluded
  exactly when no read was in flight (`Credentials.ChangeIsExact`, `Credentials.RemovalIsExact`); of the very
  next answer `Credentials.NoticeIsExact` and `Credentials.RemovedPasswordReturns` say it by account.
- Account migration: `KeychainStore.create` never touches an existing item, but a crash before its answer
  makes recovery delete that item (`MigrationSafety.CrashRemovesForeignItem`;
  `MigrationSafety.RecoveryConverges` says when). Only recovery, not the transaction, reads the
  configuration again before it deletes (`MigrationSafety.TransactionTrustsSettings`,
  `MigrationEdits.RemovalNeedsEdit`).
- Waiting actions: the operations that lift the last block throw when their write is uncertain, after the
  file has changed, and then nobody starts the waiting actions; turning a migration into a mere cleanup
  starts them in no case. `MutationCoordinator.StrandsExactly` lists these events exactly; they are what
  breaks the order of actions (`MutationCoordinator.OrderKept`, `MutationCoordinator.StrandingBreaksOrder`).
- Repairs: the completion of a repair is never called exactly when a removal or another repair comes while
  it waits for the agent or for its next attempt (`RegistrationSafety.DropsExactly`, kept by
  `RegistrationSafety.StepKeeps`).

## Assumptions

- A pair of PID and start time never repeats, an unreaped child keeps its PID, and a process keeps its
  effective user. A child never gets PID 0 or 1.
- A crash of the app leaves in the preferences what was synchronized last or some write since.
- "No such process" means that the leader is gone.
- One agent and one app run at a time, and nobody else writes the state file, the journal or the preferences.
- A failed rename changed nothing; a failed Keychain creation created nothing. A failed deletion may have
  happened.
- Crashes of the app leave the visible file system and the Keychain as they are. Somebody else may change
  the configuration at any moment, but not between recovery's last look and the deletion that follows at once.
- An unregistration completion fires at most once.

## Model

| member | source | states |
|---|---|---|
| AgentTheorems.NoFaultInAnyRun | rust/src/supervisor/mod.rs:342-487 | Over every run (boots, crashes at any kernel call, commands, ticks, exits, any save outcome) none of the ten rules is ever broken: no second instance, no launch without a durable marker, no write over an unreadable file, no signal to a foreign or own group, to one refused by this agent, or to one refused earlier that no image vouched for at a boot, no SIGKILL without Force Stop, no second automatic SIGTERM after one exit, no early reaping, no deferred action before a durable save |
| AgentTheorems.SingleInstance | rust/src/supervisor/lifecycle.rs:241-416 | At most one OpenCode leader forked by this product is alive at any moment of any run |
| AgentTheorems.CrashEvidence | rust/src/supervisor/launch_transaction.rs:10-58 | While a leader lives, every state-file image a crash could expose carries a launch marker or a record with its PID |
| AgentTheorems.DurabilityGate | rust/src/supervisor/runtime_durability.rs:17-140 | Loaded, reliable and no retry pending imply that the only possible crash image is the memory, after every event of a lifetime whose boot did not inherit a marker from several images |
| AgentTheorems.GateKept | rust/src/supervisor/runtime_durability.rs:27-58 | No event of a living agent opens the gate on anything but the memory |
| AgentSafety.GateAfterBoot | rust/src/supervisor/mod.rs:342-387 | Exactly when the gate holds right after a boot: unless a marker was inherited from one of several images |
| AgentSafety.GateFailsAfterBoot | rust/src/supervisor/mod.rs:374-387 | Refutes the gate without that condition: an uncertain marker save, a crash, a boot that finds the marker |
| AgentTheorems.UnreadableStaysUntouched | rust/src/supervisor/runtime_durability.rs:27-58 | An agent that could not load its state never writes the file, never launches and never signals |
| AgentTheorems.StopIsFinal | rust/src/supervisor/lifecycle.rs:54-76 | After a Stop whose desired state was saved durably nothing (ticks, exits, retries, worker results, crashes, reboots) launches OpenCode until a Start or Restart |
| AgentTheorems.RestKept | rust/src/supervisor/process_exit.rs:268-305 | The resting state that makes a Stop final survives every event, boots included |
| LifecycleSafety.StopComesToRest | rust/src/supervisor/lifecycle.rs:59-76 | A durable Stop itself launches nothing and leaves nothing in memory or on disk that asks for a start |
| AgentTheorems.DeferredAtMostOnce | rust/src/supervisor/runtime_durability.rs:146-236 | Each deferred exit, intent and convergence has a ticket of its own; in every lifetime no ticket is carried out twice, and none that waits was carried out or waits in two places |
| AgentTheorems.CancelledNeverRuns | rust/src/supervisor/runtime_durability.rs:75-110 | A ticket that neither waits nor was carried out (cancelled, or overwritten by a newer one) is never carried out later in that lifetime, and one that was is never carried out again |
| AgentTheorems.BooksGrow | rust/src/supervisor/runtime_durability.rs:146-236 | Over a lifetime carried-out tickets are only appended, and each appended one waited before or was given out since |
| AgentTheorems.NewerCommandCancels | rust/src/supervisor/runtime_durability.rs:75-110 | A command whose desired state is saved durably has the same result whatever older deferred exit, intent or convergence was waiting |
| AgentMarkers.InheritedMarkerHolds | rust/src/supervisor/mod.rs:374-387 | An agent that found a launch marker at boot launches nothing and signals nothing for as long as it lives, whatever other images a crash could expose |
| AgentMarkers.InheritedMarkerBlocks | rust/src/supervisor/mod.rs:374-387 | With a marker on every image, the block lasts through every later run, boots included, and every image stays marked |
| MarkerReboots.MarkerOutlivesReboots | rust/src/supervisor/mod.rs:374-387 | Exactly when the block of an inherited marker lasts through every run, boots included: when every image a crash could expose is marked |
| AgentMarkers.UncertainMarkerNeedsTwoSaves | rust/src/supervisor/launch_transaction.rs:10-33 | After an uncertain marker save, any run of that agent that launches or signals anything has a point at which the marked state was the only possible image and, at the same event or a later one, a point at which an unmarked state was |
| AgentMarkers.StuckNeedsSave | rust/src/supervisor/runtime_durability.rs:203-222 | The same from the point where only the second of these saves is missing |
| AgentMarkers.UnwindingRetry | rust/src/supervisor/runtime_durability.rs:203-222 | One retry of that unwinding: if it reports success the unmarked memory is the only image; if only its first save was durable the agent is stuck, having launched and signaled nothing |
| AgentRefusals.RefusalSurvivesExactly | rust/src/supervisor/process_exit.rs:156-190 | Exactly when no later agent ever signals the group of a living leader to which signals were refused: when no image possible as the agent goes down holds a confirmed record of it |
| AgentRefusals.BarredForGood | rust/src/supervisor/process_exit.rs:156-190 | A refused leader that no image vouched for at a boot is never signaled by any later agent |
| AgentRefusals.RefusalForgotten | rust/src/supervisor/version.rs:275-293 | The other case happens: a durable version answer copies the live record over the disowned one, and after a restart the group is signaled |
| AgentSafety.FreshOk | rust/src/supervisor/mod.rs:247-341 | What a new agent process reads at boot satisfies the invariant, whichever possible image it finds |
| AgentSafety.StartSafe | rust/src/supervisor/mod.rs:247-387 | The whole boot keeps the invariant, balances deferred actions and keeps a resting agent at rest |
| AgentSafety.TickSafe | rust/src/supervisor/mod.rs:436-487 | A tick in any state, with any worker answers, keeps the invariant |
| AgentSafety.EventSafe | rust/src/supervisor/mod.rs:393-487 | Every event keeps the invariant and the gate; only a start command can end a rest |
| AgentSafety.RunSafe | rust/src/supervisor/mod.rs:393-487 | The invariant holds after every run |
| SupervisorSafety.PersistDetailedSafe | rust/src/supervisor/runtime_durability.rs:27-58 | For each outcome of a save exactly the images that remain possible (the memory, the old ones, both), and the flags that open or close the gate; a live leader loses no evidence |
| SupervisorSafety.PersistRuntimeSafe | rust/src/supervisor/runtime_durability.rs:17-25 | A save reported as done left one possible image, the memory |
| LifecycleSafety.StartNowSafe | rust/src/supervisor/lifecycle.rs:241-416 | With no process and nothing unverified, a start attempt keeps the invariant through refusal, marker, spawn, commit and abort, so a fork is never a second instance |
| LifecycleSafety.BeginLaunchSafe | rust/src/supervisor/launch_transaction.rs:10-33 | A launch that may go on has its marker as the only possible image; one that may not leaves nothing to launch |
| LifecycleSafety.UncertainMarker | rust/src/supervisor/launch_transaction.rs:10-33 | Asking for the marker to be cleared after its save was uncertain keeps the invariant, the gate and the books (what stays blocked is stated by `AgentMarkers.UncertainMarkerNeedsTwoSaves`) |
| LifecycleSafety.CommitSafe | rust/src/supervisor/launch_transaction.rs:40-46 | Committing a started or a surviving child never loses its evidence, even if the save fails |
| LifecycleSafety.AbortSafe | rust/src/supervisor/launch_transaction.rs:51-58 | Aborting leaves no leader and no marker in memory, saved or not |
| LifecycleSafety.RequestSafe | rust/src/supervisor/lifecycle.rs:25-113 | Start, Stop and Restart keep the invariant; a Stop cannot cause a launch |
| LifecycleSafety.BeginStopSafe | rust/src/supervisor/lifecycle.rs:129-201 | Stopping signals only an authorized group; without a restart it launches nothing |
| LifecycleSafety.ForceStopSafe | rust/src/supervisor/lifecycle.rs:216-239 | Force Stop keeps the invariant (no fault, so no refused or foreign group is signaled), the gate, the books and a rest |
| LifecycleSafety.ScheduleRestartSafe | rust/src/supervisor/process_exit.rs:307-330 | Scheduling a restart, or giving up, keeps the invariant |
| ExitSafety.PollProcessSafe | rust/src/supervisor/process_exit.rs:11-190 | One supervision poll keeps the invariant for every exit, disappearance, identity change and pending cleanup |
| ExitSafety.UpgradeSafe | rust/src/supervisor/process_exit.rs:34-56 | Upgrading an unconfirmed identity never makes a record speak of another process |
| ExitSafety.ClearRecordSafe | rust/src/supervisor/process_exit.rs:226-266 | The record is cleared only when its leader is gone; a clear that is not durable holds the exit back |
| ExitSafety.CompleteExitSafe | rust/src/supervisor/process_exit.rs:192-211 | A completed exit keeps the invariant whatever comes of clearing the record |
| ExitSafety.LoseLeaderSafe | rust/src/supervisor/process_exit.rs:113-152 | An attached leader that vanished with members left becomes unverified, never forgotten |
| ExitSafety.LoseIdentitySafe | rust/src/supervisor/process_exit.rs:156-190 | Giving up a child whose identity changed keeps the invariant, the gate, the books and a rest, and the evidence of that child |
| ExitSafety.ResumeSafe | rust/src/supervisor/process_exit.rs:268-305 | What follows an exit starts OpenCode only when nothing lives and running is desired |
| ExitSafety.RetryIfDueSafe | rust/src/supervisor/runtime_durability.rs:203-236 | A due retry releases deferred actions only after a durable save |
| ExitSafety.ResumeConvergenceSafe | rust/src/supervisor/runtime_durability.rs:167-201 | Carrying out a pending convergence just after a durable save keeps the invariant, the gate, a rest and the books: its ticket is carried out only if it waited, and waits no more |
| ReattachSafety.TryReattachSafe | rust/src/supervisor/reattach.rs:9-133 | Whatever inspection, health and group observation say of a recorded process, it ends attached, unverified, or gone and cleared; never forgotten while alive |
| ReattachSafety.TryReattachSettled | rust/src/supervisor/reattach.rs:9-133 | Every way of dealing with a recorded process ends in a save, so the durability gate holds after it |
| ReattachSafety.DiscardSafe | rust/src/supervisor/reattach.rs:135-185 | A stale record is discarded only when no leader of it lives |
| ReattachSafety.CheckUnverifiedSafe | rust/src/supervisor/reattach.rs:192-227 | Rechecking an unverified record starts nothing while it may be alive |
| ReattachSafety.AttachHealthySafe | rust/src/supervisor/reattach.rs:9-133 | Adopting a healthy process keeps its identity and its evidence |
| ReattachSafety.AttachUnconfirmedSafe | rust/src/supervisor/reattach.rs:251-272 | Adopting an unproven process authorizes no start |
| ReattachSafety.AttachStaleSafe | rust/src/supervisor/reattach.rs:286-308 | Adopting a process of another configuration keeps its evidence |
| ReattachSafety.HealthAnswerSafe | rust/src/supervisor/health.rs:126-280 | A health answer keeps the invariant, restarts included |
| ReattachSafety.ApplyVersionSafe | rust/src/supervisor/version.rs:275-293 | An installed-version answer keeps the invariant |
| Supervisors.Supervisor.constructor | rust/src/supervisor/mod.rs:247-387 | New state, and answer if there is one, are `Agent.Start` of the old state: the boot |
| Supervisors.Supervisor.PersistRuntimeDetailed | rust/src/supervisor/runtime_durability.rs:27-58 | New state, and answer if there is one, are `RuntimeDurability.PersistDetailed` of the old state: a save and its bookkeeping |
| Supervisors.Supervisor.PersistRuntime | rust/src/supervisor/runtime_durability.rs:17-25 | New state, and answer if there is one, are `RuntimeDurability.PersistRuntime` of the old state: a save that must be durable |
| Supervisors.Supervisor.PersistDesiredState | rust/src/supervisor/runtime_durability.rs:75-110 | New state, and answer if there is one, are `RuntimeDurability.PersistDesired` of the old state: saving a desired state, taking it back, or deferring it |
| Supervisors.Supervisor.RuntimeStateReady | rust/src/supervisor/runtime_durability.rs:120-140 | New state, and answer if there is one, are `RuntimeDurability.RuntimeStateReady` of the old state: the readiness check |
| Supervisors.Supervisor.ResumePendingDurableConvergence | rust/src/supervisor/runtime_durability.rs:167-201 | New state, and answer if there is one, are `ProcessExit.ResumeConvergence` of the old state: the one-shot convergence |
| Supervisors.Supervisor.RetryRuntimeStateIfDue | rust/src/supervisor/runtime_durability.rs:203-236 | New state, and answer if there is one, are `ProcessExit.RetryIfDue` of the old state: the retry and what it releases |
| Supervisors.Supervisor.BeginLaunch | rust/src/supervisor/launch_transaction.rs:10-33 | New state, and answer if there is one, are `RuntimeDurability.BeginLaunch` of the old state: the first phase of a launch |
| Supervisors.Supervisor.CommitSpawnedProcess | rust/src/supervisor/launch_transaction.rs:40-46 | New state, and answer if there is one, are `RuntimeDurability.CommitSpawned` of the old state: the second phase |
| Supervisors.Supervisor.AbortLaunch | rust/src/supervisor/launch_transaction.rs:51-58 | New state, and answer if there is one, are `RuntimeDurability.AbortLaunch` of the old state: the abort |
| Supervisors.Supervisor.StartNow | rust/src/supervisor/lifecycle.rs:241-416 | New state, and answer if there is one, are `Lifecycle.StartNow` of the old state: a start attempt |
| Supervisors.Supervisor.SchedulePortReleaseRetry | rust/src/supervisor/lifecycle.rs:423-440 | Answers whether the port deadline lies ahead, and then leaves `Lifecycle.PortRetrying` of the old state; otherwise only the deadline is set |
| Supervisors.Supervisor.ScheduleNetworkWaitRetry | rust/src/supervisor/lifecycle.rs:447-465 | Answers whether the network deadline lies ahead, and then leaves `Lifecycle.NetworkRetrying` of the old state; otherwise only the deadline is set |
| Supervisors.Supervisor.BeginStop | rust/src/supervisor/lifecycle.rs:129-201 | New state, and answer if there is one, are `Lifecycle.BeginStop` of the old state: the begin of a stop |
| Supervisors.Supervisor.ContinueStop | rust/src/supervisor/lifecycle.rs:203-214 | New state, and answer if there is one, are `Lifecycle.ContinueStop` of the old state: waiting longer |
| Supervisors.Supervisor.ForceStop | rust/src/supervisor/lifecycle.rs:216-239 | New state, and answer if there is one, are `Lifecycle.ForceStop` of the old state: a forced stop |
| Supervisors.Supervisor.ApplyStart | rust/src/supervisor/lifecycle.rs:30-52 | New state, and answer if there is one, are `Lifecycle.ApplyStart` of the old state: an accepted Start |
| Supervisors.Supervisor.ApplyStop | rust/src/supervisor/lifecycle.rs:59-76 | New state, and answer if there is one, are `Lifecycle.ApplyStop` of the old state: an accepted Stop |
| Supervisors.Supervisor.ApplyRestart | rust/src/supervisor/lifecycle.rs:83-113 | New state, and answer if there is one, are `Lifecycle.ApplyRestart` of the old state: an accepted Restart |
| Supervisors.Supervisor.Request | rust/src/supervisor/lifecycle.rs:25-113 | New state, and answer if there is one, are `Lifecycle.Request` of the old state: a command |
| Supervisors.Supervisor.PollProcess | rust/src/supervisor/process_exit.rs:11-69 | New state, and answer if there is one, are `ProcessExit.PollProcess` of the old state: a supervision poll |
| Supervisors.Supervisor.CompleteExit | rust/src/supervisor/process_exit.rs:192-211 | New state, and answer if there is one, are `ProcessExit.CompleteExit` of the old state: a completed exit |
| Supervisors.Supervisor.ResumeAfterExit | rust/src/supervisor/process_exit.rs:268-305 | New state, and answer if there is one, are `ProcessExit.ResumeAfterExit` of the old state: what follows an exit |
| Supervisors.Supervisor.ScheduleNextRestart | rust/src/supervisor/process_exit.rs:307-330 | New state, and answer if there is one, are `Lifecycle.ScheduleNextRestart` of the old state: the next attempt, whose count, delay and end `RecoveryTheorems` states |
| Supervisors.Supervisor.FinishRecoveryFailure | rust/src/supervisor/process_exit.rs:332-350 | New state, and answer if there is one, are `Lifecycle.FinishRecoveryFailure` of the old state: giving up |
| Supervisors.Supervisor.TryReattach | rust/src/supervisor/reattach.rs:9-133 | New state, and answer if there is one, are `Reattach.TryReattach` of the old state: reattachment |
| Supervisors.Supervisor.DiscardStaleProcessRecord | rust/src/supervisor/reattach.rs:135-185 | New state, and answer if there is one, are `Reattach.DiscardStale` of the old state: discarding a record |
| Supervisors.Supervisor.CheckUnverifiedProcess | rust/src/supervisor/reattach.rs:192-227 | New state, and answer if there is one, are `Reattach.CheckUnverified` of the old state: the recheck of an unverified record |
| Supervisors.Supervisor.MarkUnverified | rust/src/supervisor/reattach.rs:229-249 | New state, and answer if there is one, are `ProcessExit.MarkUnverified` of the old state: marking a record unverified |
| Supervisors.Supervisor.HealthAnswer | rust/src/supervisor/health.rs:126-280 | New state, and answer if there is one, are `Reattach.HealthAnswer` of the old state: a health answer |
| Supervisors.Supervisor.ApplyInstalledVersion | rust/src/supervisor/version.rs:275-293 | New state, and answer if there is one, are `Reattach.ApplyVersion` of the old state: a version answer |
| Supervisors.Supervisor.EmitNotification | rust/src/supervisor/mod.rs:752-776 | New state, and answer if there is one, are `Lifecycle.EmitNotification` of the old state: a pending notice |
| Supervisors.Supervisor.Tick | rust/src/supervisor/mod.rs:436-487 | New state, and answer if there is one, are `Agent.TickOnce` of the old state: a tick |
| Supervisors.Supervisor.Handle | rust/src/supervisor/mod.rs:393-434 | New state, and answer if there is one, are `Agent.HandleCommand` of the old state: a command of any kind |
| Kernel.SettleKeeps | rust/src/process_group.rs:46-118 | Whatever the environment does between two kernel calls, an unreaped child pins its PID, and no dead leader comes back |
| ProcessGroup.ScanMembers | rust/src/process_group.rs:120-157 | The scanning loop answers empty, members or unknown exactly as the recursive reading of the listing does, and stops at the first member it cannot trust |
| ProcessGroup.SignalOwnedSafe | rust/src/process_group.rs:46-118 | A signal to the group of an unreaped, unrefused child breaks no rule |
| ProcessGroup.SendSafe | rust/src/process.rs:385-425 | A signal breaks no rule if its group is pinned by an unreaped child or was identified in the call just before |
| ProcessIdentity.InspectSound | rust/src/process.rs:464-479 | Inspection never takes a live leader for a missing or a different process |
| ProcessIdentity.OwnedIdentityKeeps | rust/src/process.rs:636-646 | Checking an owned child only looks |
| ProcessCleanup.PollOwnedSafe | rust/src/process_cleanup.rs:64-123 | A poll of an owned child breaks no rule; a reported exit means its leader was reaped after its exit and its empty group were seen |
| ProcessCleanup.PollIdentityFailedSafe | rust/src/process_cleanup.rs:131-156 | A child whose identity failed is never signaled again |
| ProcessCleanup.PollPendingSafe | rust/src/process_cleanup.rs:158-195 | A pending group gets at most one SIGTERM, and none after a refusal |
| ProcessCleanup.ShutdownSafe | rust/src/process_cleanup.rs:197-274 | The bounded shutdown of an unregistered child ends with it reaped or still owned |
| OwnedChildren.OwnedChild.Poll | rust/src/process_cleanup.rs:64-123 | World, child and answer are `PollOwned` of the old ones |
| OwnedChildren.OwnedChild.PollFailedIdentity | rust/src/process_cleanup.rs:131-156 | World, child and answer are `PollIdentityFailed` of the old ones |
| OwnedChildren.OwnedChild.PollPending | rust/src/process_cleanup.rs:158-195 | World, child and answer are `PollPendingGroup` of the old ones |
| OwnedChildren.OwnedChild.Shutdown | rust/src/process_cleanup.rs:197-274 | The loop up to the deadline gives world and outcome of the recursive `ShutdownUnregistered` |
| ManagedProcesses.PollExitSafe | rust/src/process.rs:352-375 | An exit other than a changed identity means that no leader with that PID lives |
| ManagedProcesses.SignalManagedSafe | rust/src/process.rs:385-425 | Every commanded signal goes to a leader of this product, owned or just identified |
| ManagedProcesses.ConfirmSafe | rust/src/process.rs:437-461 | A confirmed identity is that of the owned child |
| ManagedProcesses.ForkSafe | rust/src/process.rs:160-187 | Forking with no leader alive and the marker durable breaks no rule |
| ManagedProcesses.SpawnSafe | rust/src/process.rs:160-218 | Every outcome of a spawn accounts for the child: started, surviving under supervision, or reaped |
| ManagedProcesses.TerminateSafe | rust/src/process.rs:231-277 | A child that could not be confirmed is reaped or kept under supervision |
| SupervisedProcess.ManagedProcess.PollExit | rust/src/process.rs:352-375 | World, process (record and flags) and answer are `PollExit` of the old ones |
| SupervisedProcess.ManagedProcess.SendSignal | rust/src/process.rs:377-425 | World and answer are `SignalManaged` of the old ones; the process is unchanged |
| SupervisedProcess.ManagedProcess.ConfirmUnconfirmedIdentity | rust/src/process.rs:437-461 | World, process and answer are `ConfirmIdentity` of the old ones |
| SupervisedProcess.ManagedProcess.MarkIdentityFailed | rust/src/process.rs:343-350 | World and process are `MarkIdentityFailed` of the old ones |
| SupervisedProcess.WaitForFreshChild | rust/src/process.rs:511-570 | The bounded confirmation loop equals its recursive definition |
| StateFile.StateStore.WriteAtomically | rust/src/runtime_state.rs:348-414 | From the single file operations: whatever fails and wherever the agent dies, the file is an old image or the whole new one, and the three outcomes say exactly which images remain possible |
| Fingerprint.CanonicalInjective | rust/src/config_fingerprint.rs:173-199 | Two configurations feed the same bytes only if schema, host, port, user name, password, mDNS flag and executable all agree |
| Fingerprint.HexRoundTrip | rust/src/config_fingerprint.rs:201-231 | Decoding the text of a tag gives the tag |
| Fingerprint.DecodedText | rust/src/config_fingerprint.rs:211-231 | Only the text of a tag, in either letter case, decodes to it |
| Fingerprint.MacInput.UpdateCanonicalConfig | rust/src/config_fingerprint.rs:173-199 | The bytes fed in order are the canonical encoding |
| Fingerprint.EncodeHexLoop | rust/src/config_fingerprint.rs:201-209 | The loop produces the text of the round trip |
| Fingerprint.DecodeHexLoop | rust/src/config_fingerprint.rs:211-222 | The loop accepts and produces exactly what the round trip does |
| HealthGuard.AppliedOnlyUnchanged | rust/src/supervisor/health.rs:22-121 | Below saturation an applied result saw one basis at every synchronisation from its dispatch to its application |
| HealthGuard.GuardIsExact | rust/src/supervisor/health.rs:61-121 | Exactly, from a fresh agent: every applied result saw one basis from its dispatch to its application in all runs of n visits, if and only if n is less than the largest generation plus two |
| HealthGuard.SaturatedGuardFails | rust/src/supervisor/health.rs:61-69 | From any idle guard that the next change brings to saturation, an answer for an earlier A passes after A, B, A |
| HealthGuard.AppliedAtMostOnce | rust/src/supervisor/health_worker.rs:101-195 | Requests are numbered; over every run applied results have strictly growing numbers, all smaller than that of the request in flight, so none is applied twice and none out of order |
| HealthGuard.HealthCoordinator.SyncHealthGeneration | rust/src/supervisor/health.rs:61-69 | New state is `Sync` of the old one: the generation grows exactly when the basis changes, up to saturation |
| HealthGuard.HealthCoordinator.DispatchHealthCheck | rust/src/supervisor/health.rs:72-91 | New state is `DispatchCheck` of the old one; a dispatch is answered only when none was in flight |
| HealthGuard.HealthCoordinator.PollHealthCheck | rust/src/supervisor/health.rs:95-121 | New state is `PollCheck` of the old one; a verdict is answered exactly when a result was applied |
| IpcFraming.FramingRefinesParsing | rust/src/ipc.rs:109-200 | For every stream and every split into reads the reader dispatches what the joined bytes ask for |
| IpcFraming.SplitIndependent | rust/src/ipc.rs:109-200 | Two splits of one stream dispatch the same action |
| IpcFraming.ParseStable | rust/src/ipc.rs:109-200 | Bytes after the decision change nothing |
| IpcFraming.DecidedAtLimit | rust/src/ipc.rs:17-27 | A stream is decided exactly when it holds a line feed or reaches the limit |
| IpcFraming.EncodedIsOneLine | rust/src/ipc.rs:564-579 | An encoded response is one message of the same framing |
| IpcConnections.NoStaleEvent | rust/src/bin/agent.rs:141-182 | Through a whole batch every descriptor belongs to the connection that held it at the start, or to none |
| IpcConnections.MaintainValid | rust/src/ipc.rs:342-365 | After maintenance the listener is enabled exactly when fewer than 16 handshakes are pending |
| IpcConnections.PromoteValid | rust/src/ipc.rs:254-340 | Promotion to subscriber follows the last byte of the response and respects the bound |
| IpcConnections.AdvanceWriteValid | rust/src/ipc.rs:254-340 | Written bytes are always a prefix of the response |
| IpcConnections.LoopSafe | rust/src/bin/agent.rs:78-183 | Over every sequence of turns the table bounds, the listener state, the framing and the response prefixes hold |
| IpcConnections.ServedRightOnce | rust/src/ipc.rs:109-252 | Each connection is served at most once, with the action its bytes parse to |
| IpcConnections.RetainQuiet | rust/src/ipc.rs:473-484 | The retain loop drops exactly the subscriber that sent or closed, and keeps the order |
| IpcConnections.RetainWritten | rust/src/ipc.rs:464-472 | The broadcast loop keeps exactly the subscribers that took the line |
| IpcConnections.IpcServer.HandlePendingReadable | rust/src/ipc.rs:109-200 | Table and action are `HandleReadable` of the old table |
| IpcConnections.IpcServer.Respond | rust/src/ipc.rs:202-237 | The table is `QueueResponse` of the old one |
| IpcConnections.IpcServer.HandlePendingWritable | rust/src/ipc.rs:239-340 | The table is `AdvanceWrite` of the old one |
| IpcConnections.IpcServer.MaintainTable | rust/src/ipc.rs:342-365 | Table and answer are `Maintain` of the old table |
| IpcConnections.IpcServer.AcceptConnections | rust/src/ipc.rs:367-424 | The loop gives the table of the recursive `AcceptAll` |
| IpcConnections.IpcServer.Broadcast | rust/src/ipc.rs:464-472 | Only the subscribers change: the loop keeps `KeepWritten` of them |
| IpcConnections.IpcServer.DispatchBatch | rust/src/bin/agent.rs:141-182 | The loop gives the table of the recursive `HandleBatch`, of which `IpcSubscriptions` says what each event subscribes, and says whether the listener was in the batch |
| Credentials.PasswordProvenance | rust/src/supervisor/credential.rs:549-628 | A held password came from a successful read for its own account and stays empty while the removal barrier is up |
| Credentials.NoSilentDowngrade | rust/src/supervisor/credential.rs:163-258 | One merge: refused, or a password read for this very account, or none because this probe found none |
| StartCredentials.ForkNeedsCredential | rust/src/supervisor/lifecycle.rs:241-330 | A start that forks OpenCode was not refused, launches the configuration of its own reload, and has a password read for its account with no notice outstanding, or none because its own probe found none |
| Credentials.AutomaticReadBudget | rust/src/supervisor/credential.rs:308-337 | Per account at most one automatic read more than passwords were applied; every dispatch is explicit, marked or automatic; at most one read in flight |
| Credentials.CurrentWhenQuiet | rust/src/supervisor/credential.rs:392-438 | If no read was in flight at any change notice, an available password was read after the last one |
| Credentials.NoticeIsExact | rust/src/supervisor/credential.rs:392-409 | Exactly when the next read is current after a change notice: unless a read for the configured account was in flight |
| Credentials.RemovedPasswordReturns | rust/src/supervisor/credential.rs:392-438 | Exactly when a removal, a change notice and one answer bring back a password read before the removal: when the read in flight at the removal was for the configured account |
| Credentials.RemovalIsExact | rust/src/supervisor/credential.rs:392-438 | Over whole runs of a fresh agent: after a removal no older password is ever held again in any run, if and only if no read was in flight at the removal; and never in a run without a change notice |
| Credentials.ChangeIsExact | rust/src/supervisor/credential.rs:392-409 | Over whole runs of a fresh agent: after a change notice no older password is ever available in any run, if and only if no read was in flight at the notice |
| Credentials.CredentialController.MergeCredentials | rust/src/supervisor/credential.rs:163-258 | New state is `Merge` of the old one: the password carried over only within the account, offered exactly as `CredentialOffers.ReloadOffers` states |
| Credentials.CredentialController.MarkCredentialChanged | rust/src/supervisor/credential.rs:392-409 | New state is `MarkChanged` of the old one: barrier down, password stale, one automatic read or the marker cleared |
| Credentials.CredentialController.MarkCredentialRemoved | rust/src/supervisor/credential.rs:422-438 | New state is `MarkRemoved` of the old one: barrier up, password gone, marker cleared |
| Credentials.CredentialController.RequestCredentialRefresh | rust/src/supervisor/credential.rs:466-509 | New state is `RequestRefresh` of the old one: the barrier falls only if no read is in flight |
| Credentials.CredentialController.DispatchAutomaticRead | rust/src/supervisor/credential.rs:325-337 | New state is `DispatchAutomatic` of the old one: at most once for each account |
| Credentials.CredentialController.PollCredentialRefresh | rust/src/supervisor/credential.rs:511-547 | New state is `Poll` of the old one: the read ends, and its answer is applied once |
| Credentials.CredentialController.ApplyCredentialRead | rust/src/supervisor/credential.rs:549-628 | New state is `ApplyRead` of the old one, and the answer is true exactly when a password was applied: never behind the barrier or for another account |
| Credentials.CredentialController.RecordCredentialGrant | rust/src/credential_grant.rs:123-152 | New state is `RecordGrant` of the old one: account, build and team, unless the write fails |
| Credentials.CredentialController.ClearCredentialGrant | rust/src/credential_grant.rs:157-167 | New state is `ClearGrant` of the old one: another account's marker is left alone |
| Credentials.CredentialController.TeamEvidenceMatches | rust/src/credential_grant.rs:107-116 | True exactly when the marker names this account and this build's own team |
| CredentialJournal.OperationKeepsNotices | swift/Sources/OpenCodeServer/CredentialMutationJournal.swift:101-298 | No operation drops a pending notice: it leaves by its own acknowledgement or for a younger one; generations stay distinct |
| CredentialJournal.NoticeOutlivesRun | swift/Sources/OpenCodeServer/CredentialMutationJournal.swift:101-298 | Over every run, reopenings included, a notice no older stays pending until one no older is acknowledged |
| CredentialJournal.CredentialMutationJournal.constructor | swift/Sources/OpenCodeServer/CredentialMutationJournal.swift:71-118 | Memory and visible file agree at every return, errors included, and both are the visible journal with an undecided notice replayed as `changed` |
| CredentialJournal.CredentialMutationJournal.Persist | swift/Sources/OpenCodeServer/CredentialMutationJournal.swift:313-380 | Renamed and flushed, nothing visible, or renamed and reported uncertain |
| CredentialJournal.CredentialMutationJournal.RestoreOrRetain | swift/Sources/OpenCodeServer/CredentialMutationJournal.swift:300-311 | Only an uncertain write keeps the new state |
| CredentialJournal.CredentialMutationJournal.HasUnacknowledgedMutation | swift/Sources/OpenCodeServer/CredentialMutationJournal.swift:122-128 | Everything but a settled cleanup of the old account blocks |
| CredentialJournal.CredentialMutationJournal.Stage | swift/Sources/OpenCodeServer/CredentialMutationJournal.swift:130-152 | Memory and visible file agree at every return, errors included, and both are what a staged notice plans, or the old state |
| CredentialJournal.CredentialMutationJournal.StageMigration | swift/Sources/OpenCodeServer/CredentialMutationJournal.swift:154-179 | Memory and visible file agree at every return, errors included, and both are what a staged migration plans, or the old state |
| CredentialJournal.CredentialMutationJournal.SetMigrationPhase | swift/Sources/OpenCodeServer/CredentialMutationJournal.swift:181-198 | Memory and visible file agree at every return, errors included, and both are what the phase change plans, or the old state |
| CredentialJournal.CredentialMutationJournal.CommitMigration | swift/Sources/OpenCodeServer/CredentialMutationJournal.swift:200-224 | Memory and visible file agree at every return, errors included, and both are notice and cleanup intent in one write, or the old state |
| CredentialJournal.CredentialMutationJournal.CompleteMigration | swift/Sources/OpenCodeServer/CredentialMutationJournal.swift:226-237 | Memory and visible file agree at every return, errors included, and both are without the record, or the old state |
| CredentialJournal.CredentialMutationJournal.RollbackMigration | swift/Sources/OpenCodeServer/CredentialMutationJournal.swift:239-248 | Memory and visible file agree at every return, errors included, and both are without the record, or the old state |
| CredentialJournal.CredentialMutationJournal.Commit | swift/Sources/OpenCodeServer/CredentialMutationJournal.swift:250-266 | Memory and visible file agree at every return, errors included, and both are what the committed notice plans, or the old state |
| CredentialJournal.CredentialMutationJournal.Rollback | swift/Sources/OpenCodeServer/CredentialMutationJournal.swift:268-277 | Memory and visible file agree at every return, errors included, and both are without the staged notice, or the old state |
| CredentialJournal.CredentialMutationJournal.Acknowledge | swift/Sources/OpenCodeServer/CredentialMutationJournal.swift:279-298 | Memory and visible file agree at every return, errors included, and both are the next notice in line, or the old state |
| MigrationSafety.MigrationSafe | swift/Sources/OpenCodeServer/CredentialMigrationSaveTransaction.swift:27-281 | After any events, crashes at every point included: recovery never removes the item of the account the configuration names, a transaction only for the user or under somebody else's edit; a record disappears only when the move is undone, or done and announced |
| MigrationSafety.StepKeeps | swift/Sources/OpenCodeServer/CredentialMigrationRecovery.swift:125-214 | Every step of transactions, recovery, delivery, launches, crashes and edits keeps the migration invariant |
| MigrationSafety.RecoveryConverges | swift/Sources/OpenCodeServer/CredentialMigrationRecoveryCleanup.swift:8-261 | An undisturbed recovery clears the record exactly when the configuration names the old account with no notice for the new one, or the new account with its item and no notice for another; and says which item is then gone |
| MigrationSafety.CrashRemovesForeignItem | swift/Sources/OpenCodeServer/CredentialMigrationRecovery.swift:52-61 | A crash between staging and creation makes recovery remove an item the migration never created |
| MigrationSafety.TransactionTrustsSettings | swift/Sources/OpenCodeServer/CredentialMigrationSaveTransaction.swift:176-215 | Exactly when the transaction's own deletion hits the named account: when the configuration was turned back under it |
| MigrationEdits.RemovalNeedsEdit | swift/Sources/OpenCodeServer/CredentialMigrationSaveTransaction.swift:108-232 | From any first launch on: when a transaction removes the item of the named account, the run holds an edit of the configuration under that very transaction, and if it is the old item, one after the transaction had saved |
| MigrationSave.CredentialMigrationSaveTransaction.Start | swift/Sources/OpenCodeServer/CredentialMigrationSaveTransaction.swift:27-62 | Journal and next callback are those of `BeginMove`: nothing without an old account, else the staged record |
| MigrationSave.CredentialMigrationSaveTransaction.FinishCreate | swift/Sources/OpenCodeServer/CredentialMigrationSaveTransaction.swift:64-106 | Journal and next callback are those of the crash-separated steps in this order: roll back a failed creation, mark ready, save, mark saved, commit; `MigrationMoves.MoveLeaves` states what they achieve |
| MigrationSave.CredentialMigrationSaveTransaction.FinishInspection | swift/Sources/OpenCodeServer/CredentialMigrationSaveTransaction.swift:108-174 | Journal and next callback are those of the crash-separated steps in this order: decide on what the file holds, roll back, mark the cleanup, mark saved, commit |
| MigrationSave.CredentialMigrationSaveTransaction.CommitConfiguration | swift/Sources/OpenCodeServer/CredentialMigrationSaveTransaction.swift:176-215 | Journal and next callback are those of marking saved and then committing; an error in between stops |
| MigrationSave.CredentialMigrationSaveTransaction.FinishOldDeletion | swift/Sources/OpenCodeServer/CredentialMigrationSaveTransaction.swift:195-232 | Journal and next callback are those of noting the deletion and then completing the move |
| MigrationSave.CredentialMigrationSaveTransaction.Rollback | swift/Sources/OpenCodeServer/CredentialMigrationSaveTransaction.swift:234-248 | Journal and next callback are those of removing the record |
| MigrationSave.CredentialMigrationSaveTransaction.RemoveInactiveNew | swift/Sources/OpenCodeServer/CredentialMigrationSaveTransaction.swift:250-263 | Journal and next callback are those of marking the cleanup of the new item before deleting it |
| MigrationSave.CredentialMigrationSaveTransaction.FinishNewDeletion | swift/Sources/OpenCodeServer/CredentialMigrationSaveTransaction.swift:264-281 | Journal and next callback are those of noting the deletion and then rolling back |
| MigrationRecovery.CredentialMigrationReconciler.Recover | swift/Sources/OpenCodeServer/CredentialMigrationRecovery.swift:125-131 | One recovery at a time, on the record of the journal |
| MigrationRecovery.CredentialMigrationReconciler.Finish | swift/Sources/OpenCodeServer/CredentialMigrationRecovery.swift:174-214 | Journal and next callback are those of the decision, the notice and the end of the record, one write each, in this order |
| MigrationRecovery.CredentialMigrationReconciler.DiscardIntent | swift/Sources/OpenCodeServer/CredentialMigrationRecoveryCleanup.swift:8-20 | Journal and next callback are those of discarding the record |
| MigrationRecovery.CredentialMigrationReconciler.RemoveInactiveNewItem | swift/Sources/OpenCodeServer/CredentialMigrationRecoveryCleanup.swift:22-53 | Journal and next callback are those of marking the cleanup of the new item before removing it |
| MigrationRecovery.CredentialMigrationReconciler.UseNew | swift/Sources/OpenCodeServer/CredentialMigrationRecoveryCleanup.swift:79-157 | Journal and next callback are those of choosing the new account, the notice and the end of the record, in this order |
| MigrationRecovery.CredentialMigrationReconciler.FinishUseNewValidation | swift/Sources/OpenCodeServer/CredentialMigrationRecoveryCleanup.swift:159-193 | Journal and next callback are those of the second look at the configuration, the decision, the notice and the end of the record, in this order |
| MigrationRecovery.CredentialMigrationReconciler.RetryRecoveryDecision | swift/Sources/OpenCodeServer/CredentialMigrationRecoveryCleanup.swift:195-225 | Journal and next callback are those of deciding once more on the account read again, the notice and the end of the record, in this order |
| MigrationRecovery.CredentialMigrationReconciler.FinishInactiveNewCleanup | swift/Sources/OpenCodeServer/CredentialMigrationRecoveryCleanup.swift:55-77 | Journal and next callback are those of noting the removal of the new item and ending the record |
| MigrationRecovery.CredentialMigrationReconciler.FinishInactiveOldCleanup | swift/Sources/OpenCodeServer/CredentialMigrationRecoveryCleanup.swift:238-259 | Journal and next callback are those of noting the removal of the old item and ending the record |
| MutationCoordinator.CoordinatorSafe | swift/Sources/OpenCodeServer/CredentialMutationCoordinator.swift:294-403 | Over every run no accepted action is lost or run twice, each starts only when nothing waits, one notice at a time goes to an agent of its account, and a notice is cleared only by the answer that proves it applied |
| MutationCoordinator.StrandsExactly | swift/Sources/OpenCodeServer/CredentialMutationCoordinator.swift:254-308 | For every event and write: afterwards actions wait although nothing blocks, exactly when an uncertain acknowledgement, rollback or completion lifts the last block, or a phase change to cleanup of the old account does |
| MutationCoordinator.OrderKept | swift/Sources/OpenCodeServer/CredentialMutationCoordinator.swift:315-403 | Over every run in which nothing is stranded, accepted actions start in the order they were asked for and wait only while something blocks |
| MutationCoordinator.StrandingBreaksOrder | swift/Sources/OpenCodeServer/CredentialMutationCoordinator.swift:315-327 | One event and the next request: the order is kept if and only if the event strands nothing |
| MutationCoordinator.StrandedActionIsOvertaken | swift/Sources/OpenCodeServer/CredentialMutationCoordinator.swift:315-327 | A run in which that happens: the later action runs and the earlier one waits |
| MutationCoordinator.CredentialMutationCoordinator.AttemptDelivery | swift/Sources/OpenCodeServer/CredentialMutationCoordinator.swift:340-355 | New state is `Attempt` of the old one: the pending notice goes out only if none is under way and the agent runs its account |
| MutationCoordinator.CredentialMutationCoordinator.FinishDelivery | swift/Sources/OpenCodeServer/CredentialMutationCoordinator.swift:357-392 | New state is the step `Answered`: the notice is acknowledged only by an answer that proves it, and waiting actions start only if the write succeeded |
| MutationCoordinator.CredentialMutationCoordinator.DrainDeferredActionsIfReady | swift/Sources/OpenCodeServer/CredentialMutationCoordinator.swift:398-403 | New state is `Drain` of the old one: the loop runs every waiting action once, in order, or none |
| MutationCoordinator.CredentialMutationCoordinator.PerformAfterAcknowledgement | swift/Sources/OpenCodeServer/CredentialMutationCoordinator.swift:315-327 | New state is the step `Submit`: the action runs at once or joins the end of the queue |
| MutationCoordinator.CredentialMutationCoordinator.Observe | swift/Sources/OpenCodeServer/CredentialMutationCoordinator.swift:310-313 | New state is the step `Observe`: the newest status, and a delivery if it allows one |
| MutationCoordinator.CredentialMutationCoordinator.Commit | swift/Sources/OpenCodeServer/CredentialMutationCoordinator.swift:294-302 | New state is `MutateJournal` of the operation the outcome stands for: a notice, or a rollback when nothing changed |
| MutationCoordinator.CredentialMutationCoordinator.Rollback | swift/Sources/OpenCodeServer/CredentialMutationCoordinator.swift:304-308 | New state is `MutateJournal` of the rollback: waiting actions start unless the write threw |
| MutationCoordinator.CredentialMutationCoordinator.CommitMigration | swift/Sources/OpenCodeServer/CredentialMutationCoordinator.swift:254-258 | New state is `MutateJournal` of the commit: a delivery follows unless the write threw |
| MutationCoordinator.CredentialMutationCoordinator.CompleteMigration | swift/Sources/OpenCodeServer/CredentialMutationCoordinator.swift:260-264 | New state is `MutateJournal` of the completion: waiting actions start unless the write threw |
| MutationCoordinator.CredentialMutationCoordinator.RollbackMigration | swift/Sources/OpenCodeServer/CredentialMutationCoordinator.swift:266-270 | New state is `MutateJournal` of the rollback: waiting actions start unless the write threw |
| RegistrationSafety.RegistrationSafe | swift/Sources/OpenCodeServer/OpenCodeServerAgentRegistrationController+Registration.swift:25-318 | After any launches, crashes at any write of any run, callbacks, statuses and requests: the persisted transaction is the live one; one launch calls register at most once per attempt; and the next step, wherever the process dies in it, writes no unproven version, restarts no attempt and accounts for every repair |
| RegistrationSafety.RegistrationEnds | swift/Sources/OpenCodeServer/OpenCodeServerAgentRegistrationController+Verification.swift:8-106 | Left to its callbacks, in any order and with any answers, the phase changes at most 210 times |
| RegistrationSafety.ActiveMovesOn | swift/Sources/OpenCodeServer/OpenCodeServerAgentRegistrationController+Registration.swift:141-256 | While the phase is active its callback is outstanding, and firing it uses up measure |
| RegistrationSafety.UnawaitedIgnored | swift/Sources/OpenCodeServer/OpenCodeServerAgentRegistrationController+Registration.swift:210-218 | A callback the phase does not wait for changes nothing, although one of them never looks at the phase |
| RegistrationSafety.RelaunchResumes | swift/Sources/OpenCodeServer/OpenCodeServerAgentRegistrationController+Lifecycle.swift:7-99 | A crash at any write of any run but a repair or a removal: the transaction is found cleared, or its record is of this attempt or a later one and the next launch of the build goes on with that attempt, ends it, or keeps it while approval is missing |
| RegistrationSafety.RecordResumes | swift/Sources/OpenCodeServer/OpenCodeServerAgentRegistrationController+Lifecycle.swift:7-99 | Any record a launch accepts, however it came about, is resumed at its own attempt, ended, or kept while approval is missing |
| RegistrationSafety.AttemptsNeverRegained | swift/Sources/OpenCodeServer/ServiceRegistrationTransaction.swift:117-136 | However often the app crashes, at whatever write, and is launched again, a used attempt stays used until the transaction ends |
| RegistrationSafety.StepKeeps | swift/Sources/OpenCodeServer/OpenCodeServerAgentRegistrationController+Lifecycle.swift:101-196 | Every event keeps the registration invariant; a repair is dropped without an answer exactly when a removal or another repair comes while it waits |
| RegistrationController.OpenCodeServerAgentRegistrationController.constructor | swift/Sources/OpenCodeServer/OpenCodeServerAgentRegistrationController.swift:77-104 | A fresh controller holds the preferences and nothing else |
| RegistrationController.OpenCodeServerAgentRegistrationController.Bootstrap | swift/Sources/OpenCodeServer/OpenCodeServerAgentRegistrationController+Lifecycle.swift:7-99 | New state is `Registration.Bootstrap` of the old one: resume, begin, replace, leave alone or fail closed, exactly when `RegistrationProgress` says |
| RegistrationController.OpenCodeServerAgentRegistrationController.Register | swift/Sources/OpenCodeServer/OpenCodeServerAgentRegistrationController+Lifecycle.swift:132-158 | New state is `RequestRegistration` of the old one: nothing when enabled or unapproved |
| RegistrationController.OpenCodeServerAgentRegistrationController.Repair | swift/Sources/OpenCodeServer/OpenCodeServerAgentRegistrationController+Lifecycle.swift:160-188 | New state is `Registration.Repair` of the old one: refused while a run of effects is under way, else begun afresh |
| RegistrationController.OpenCodeServerAgentRegistrationController.Cancel | swift/Sources/OpenCodeServer/OpenCodeServerAgentRegistrationController+Lifecycle.swift:190-196 | New state is `Registration.Cancel` of the old one: a new generation, the record cleared, a waiting repair dropped |
| RegistrationController.OpenCodeServerAgentRegistrationController.ObserveReachability | swift/Sources/OpenCodeServer/OpenCodeServerAgentRegistrationController+Lifecycle.swift:101-130 | New state is `Registration.ObserveReachability` of the old one: only the expected build completes |
| RegistrationController.OpenCodeServerAgentRegistrationController.Complete | swift/Sources/OpenCodeServer/OpenCodeServerAgentRegistrationController+Verification.swift:98-106 | New state is `Registration.Complete` of the old one: version set, record cleared, repair answered, in this order of writes |
| RegistrationController.OpenCodeServerAgentRegistrationController.FailWith | swift/Sources/OpenCodeServer/OpenCodeServerAgentRegistrationController+Verification.swift:108-116 | New state is `Fail` of the old one: record cleared first, then the phase, then the answer |
| RegistrationController.OpenCodeServerAgentRegistrationController.Resume | swift/Sources/OpenCodeServer/OpenCodeServerAgentRegistrationController+Registration.swift:25-63 | New state is `Registration.Resume` of the old one: the recovery action for stage and status, at the recorded attempt |
| RegistrationController.OpenCodeServerAgentRegistrationController.StartReplacement | swift/Sources/OpenCodeServer/OpenCodeServerAgentRegistrationController+Registration.swift:105-139 | New state is `Registration.StartReplacement` of the old one: the record is written before the unregistration |
| RegistrationController.OpenCodeServerAgentRegistrationController.HandleUnregistration | swift/Sources/OpenCodeServer/OpenCodeServerAgentRegistrationController+Registration.swift:141-166 | New state is `Registration.HandleUnregistration` of the old one: ignored unless it is the awaited one |
| RegistrationController.OpenCodeServerAgentRegistrationController.WaitForUnregistered | swift/Sources/OpenCodeServer/OpenCodeServerAgentRegistrationController+Registration.swift:168-219 | New state is `Registration.WaitForUnregistered` of the old one: recorded on the first check only |
| RegistrationController.OpenCodeServerAgentRegistrationController.ScheduleRegistration | swift/Sources/OpenCodeServer/OpenCodeServerAgentRegistrationController+Registration.swift:221-256 | New state is `Registration.ScheduleRegistration` of the old one: recorded before the settle delay |
| RegistrationController.OpenCodeServerAgentRegistrationController.PerformRegistration | swift/Sources/OpenCodeServer/OpenCodeServerAgentRegistrationController+Registration.swift:258-318 | New state is `Registration.PerformRegistration` of the old one: recorded before and after the call of register |
| RegistrationController.OpenCodeServerAgentRegistrationController.WaitForIPC | swift/Sources/OpenCodeServer/OpenCodeServerAgentRegistrationController+Verification.swift:8-49 | New state is `Registration.WaitForIPC` of the old one: after the last check an initial registration fails, others are retried |
| RegistrationController.OpenCodeServerAgentRegistrationController.ScheduleRetry | swift/Sources/OpenCodeServer/OpenCodeServerAgentRegistrationController+Verification.swift:51-96 | New state is `Registration.ScheduleRetry` of the old one: the next attempt is recorded, or the last one fails |
| RegistrationController.OpenCodeServerAgentRegistrationController.Fire | swift/Sources/OpenCodeServer/OpenCodeServerAgentRegistrationController+Registration.swift:210-255 | New state is `Registration.Fire` of the old one: the closure is used up, and does nothing unless its generation and phase still hold |
| BoundedRecovery.ScheduleSets | rust/src/supervisor/process_exit.rs:307-350 | With attempts left one is counted and its delay armed from now; without, the timer is off, the server failed and an incident that was on is told as final, unless its event could not be made |
| RecoveryTheorems.RecoveryIsBounded | rust/src/supervisor/process_exit.rs:307-330 | Over every run without a reset (start, restart, applied password, stable run, ended unverified record) the armings of recovery, counted event by event, are at most the attempts that are left |
| RecoveryTheorems.ArmingWaits | rust/src/supervisor/process_exit.rs:307-330 | Every event that arms recovery counts an attempt, and its timer is the delay of that attempt (1, 2, 5, 15, 30 s) from a moment within the event |
| RecoveryTheorems.AttemptsBounded | rust/src/supervisor/process_exit.rs:307-330 | Over every run, resets and boots included, no more attempts are ever counted than there are delays |
| RecoveryTheorems.UnexpectedExitRecovers | rust/src/supervisor/process_exit.rs:192-305 | Whenever an exit that nobody asked for is seen and its record cleared durably: with attempts left recovery is armed with the next delay, counted and its incident on; with none left no timer, a failed server and the final notice |
| RecoveryTheorems.DeferredExitRecovers | rust/src/supervisor/runtime_durability.rs:203-236 | The same for an exit that had to wait for its save, as soon as a retry is durable |
| AgentProgress.StartRuns | rust/src/supervisor/lifecycle.rs:241-416 | A start with nothing in its way and every call succeeding forks once, in the configuration just loaded, and leaves the record of that child as the only crash image |
| AgentProgress.StopCommand | rust/src/supervisor/lifecycle.rs:54-76 | Stop of a running process: one SIGTERM to its group, the graceful clock runs, the desired state on disk is Stopped, everything put off is gone |
| AgentProgress.RestartCommand | rust/src/supervisor/lifecycle.rs:78-113 | Restart of a running process: the same signal and clock, and the restart is remembered; attempts start anew |
| AgentProgress.StartCommand | rust/src/supervisor/lifecycle.rs:25-52 | Start of a running process signals and forks nothing and drops what was put off |
| AgentProgress.ForceCommand | rust/src/supervisor/lifecycle.rs:203-239 | After a stop that took too long: Force Stop kills the group and its clock stops; Continue restarts the clock and nothing else |
| AgentProgress.StopExpires | rust/src/supervisor/mod.rs:436-487 | For every supervised process: the timers of a tick turn a stop past its deadline into one that waits for the user, and do nothing else |
| AgentProgress.ExitCompletes | rust/src/supervisor/process_exit.rs:192-266 | The poll after an exit with an empty group reaps the child, clears its record durably and goes on with what the exit means |
| AgentProgress.StopEnds | rust/src/supervisor/process_exit.rs:268-305 | The exit after a Stop ends in Stopped: no process in memory or on disk, no timer, no fork, no signal |
| AgentProgress.RestartRuns | rust/src/supervisor/process_exit.rs:268-305 | The exit after a Restart forks once and OpenCode runs again, as the only crash image says |
| AgentProgress.RecoveryRuns | rust/src/supervisor/mod.rs:436-487 | When the recovery timer is due it fires once and OpenCode runs again, with the attempts counted as they were |
| AgentProgress.PasswordRuns | rust/src/supervisor/credential.rs:675-701 | A start that waited for the password runs OpenCode as soon as the password is applied |
| GroupProgress.ExitAsksGroup | rust/src/process_cleanup.rs:64-129 | For every listing: the poll that sees a leader exit sends its group one SIGTERM exactly if somebody else in it lives, and otherwise reaps the leader |
| GroupProgress.GroupIsAwaited | rust/src/process_cleanup.rs:158-195 | Every later poll sends nothing; it reaps the leader exactly when nobody in the listing lives |
| GroupProgress.ExitAwaitsGroup | rust/src/supervisor/process_exit.rs:71-111 | The supervisor then waits: within the stop that is under way, or, if nobody asked for one, with a stop of its own after which it recovers; nothing is forked |
| GroupProgress.GroupEnds | rust/src/supervisor/process_exit.rs:11-111 | When the group is empty the wait ends: the child is reaped and its exit completed as the end of a stop |
| AgentResumption.RetryCarriesOut | rust/src/supervisor/runtime_durability.rs:203-236 | For every state: a due retry whose save is durable carries out exactly one ticket, a command before an exit before a convergence, if one waits; any other retry carries out none and all of them go on waiting |
| AgentResumption.DeferredStartRuns | rust/src/supervisor/lifecycle.rs:115-127 | A Start that waited for its save runs OpenCode in the retry that is durable |
| AgentResumption.DeferredStopAsks | rust/src/supervisor/lifecycle.rs:115-127 | A Stop or Restart that waited asks the process to end in the retry that is durable, the one without and the other with a restart to follow |
| AgentResumption.DeferredConvergenceRuns | rust/src/supervisor/runtime_durability.rs:167-201 | A start the agent itself put off runs OpenCode in the retry that is durable, if Running is still wanted |
| AgentResumption.StartRefused | rust/src/supervisor/lifecycle.rs:351-466 | A start that the endpoint refuses forks and signals nothing, and afterwards waits or gives up exactly as endpoint, trigger and budgets say |
| AgentResumption.PortRetry | rust/src/supervisor/lifecycle.rs:423-466 | A due retry of a refused start runs OpenCode if the endpoint is free by now, and otherwise waits on within the same budget, and not beyond it |
| ReattachProgress.ReattachReadopts | rust/src/supervisor/reattach.rs:9-133 | For every record, process table, configuration and health answer, which of five ends a record comes to: discarded exactly when its process is gone or its PID reused, adopted exactly when it is that process, in the present configuration and healthy; nothing is forked or signaled |
| ReattachProgress.BootReadopts | rust/src/supervisor/mod.rs:342-387 | The same at boot, with Running wanted; the state file then says what the memory says and nothing else |
| ReattachProgress.BootStops | rust/src/supervisor/mod.rs:374-387 | At boot with Stopped wanted a process that is still there gets one SIGTERM, unless the record stays unverified; nothing is forked |
| ReattachProgress.BootConverges | rust/src/supervisor/mod.rs:342-373 | A boot that finds no living process runs OpenCode, once, if Running is wanted, and comes to rest otherwise; the old record is gone |
| ReattachProgress.UnverifiedEnds | rust/src/supervisor/reattach.rs:192-227 | Once the process of an unverified record is gone, the next check drops the record, and OpenCode runs again if that is wanted |
| HealthProgress.FailuresAreTold | rust/src/supervisor/health.rs:177-234 | After any number of failed answers in a row the failure was told exactly if there were three, and once |
| HealthProgress.HealthyRecovers | rust/src/supervisor/health.rs:132-176 | A healthy answer ends every incident: healthy, counter 0, version on disk, and the recovery told exactly if a failure was |
| HealthProgress.FailureCounts | rust/src/supervisor/health.rs:177-234 | A failed answer is counted, and changes the server state outside the startup allowance only |
| CredentialOffers.ReloadOffers | rust/src/supervisor/credential.rs:163-258 | After a reload a password is available if and only if the probe found the item, no change is outstanding and a non-empty password of this account was held; there is none if and only if the probe found none; marker and barrier afterwards |
| CredentialOffers.ReloadReads | rust/src/supervisor/credential.rs:163-337 | When a reload dispatches a read and on what ground: item there, nothing held or outstanding, no read under way; marker of this build, else marker of this team once for each account |
| CredentialOffers.UnreadableReload | rust/src/supervisor/mod.rs:729-750 | A configuration that cannot be loaded leaves everything but the configuration, which only a running process keeps |
| CredentialOffers.ChangeNotice | rust/src/supervisor/credential.rs:392-420 | A change notice lowers the barrier, withdraws the password from later starts, starts at most the one read of a team marker and clears any other marker of the account |
| CredentialOffers.RemovalNotice | rust/src/supervisor/credential.rs:422-441 | A removal raises the barrier, forgets password and marker and reads nothing |
| CredentialOffers.RequestReads | rust/src/supervisor/credential.rs:466-509 | The user's request reads the configured account at once unless a read is under way, and only then lowers the barrier |
| CredentialOffers.AnswerApplies | rust/src/supervisor/credential.rs:549-628 | What every answer leaves in state, password, marker, staleness and budget, when it counts and when it does not |
| CredentialOffers.AppliedPasswordIsOffered | rust/src/supervisor/credential.rs:163-258 | Over every run: from an applied read until the next notice, account change or lost item, every reload that finds the item is Available with that very password |
| CredentialOffers.MarkerBringsPassword | rust/src/supervisor/credential.rs:163-337 | From a fresh agent with a marker of its build or team: reload, answer, reload end with the password available |
| CredentialOffers.RequestBringsPassword | rust/src/supervisor/credential.rs:466-628 | Without a marker nothing is read until the user asks; then the same |
| IpcSubscriptions.SubscriptionsWereAsked | rust/src/ipc.rs:202-340 | Over every run of the loop: a promoted connection was served Subscribe and nothing else and had sent its whole response, every subscriber was promoted, and no request stays without a response |
| IpcSubscriptions.EventSubscribesExactly | rust/src/ipc.rs:202-340 | At every point of every run: an event promotes exactly the connection whose Subscribe response it completes in time with both watches set, as a subscriber exactly if there is room; any other promotes none |
| IpcSubscriptions.EveryCompletionSubscribes | rust/src/bin/agent.rs:141-208 | Over every run as many connections were promoted as events completed a Subscribe response |
| IpcSubscriptions.Welcomed | rust/src/bin/agent.rs:141-208 | End to end, for any first request: accept, read, answer, write; it is served once and becomes the one subscriber exactly if it is Subscribe |
| RegistrationProgress.LaunchLeavesAlone | swift/Sources/OpenCodeServer/OpenCodeServerAgentRegistrationController+Lifecycle.swift:7-99 | A launch leaves the controller as it found it if and only if approval is required, or the service is enabled with no record and this build proven last |
| RegistrationProgress.LaunchFailsClosed | swift/Sources/OpenCodeServer/OpenCodeServerAgentRegistrationController+Lifecycle.swift:7-37 | A corrupt record, or one out of range, fails closed: nothing is written or begun |
| RegistrationProgress.LaunchBegins | swift/Sources/OpenCodeServer/OpenCodeServerAgentRegistrationController+Lifecycle.swift:39-99 | With no record or a stale one a launch begins: its first write is attempt 0 of an initial registration or an upgrade, by record and status, unregistering exactly when the service is still enabled; what follows if that write is not synchronized |
| RegistrationProgress.LaunchResumes | swift/Sources/OpenCodeServer/OpenCodeServerAgentRegistrationController+Lifecycle.swift:7-37 | A usable record of this build is resumed from its stage |
| RegistrationProgress.AwaitedLeads | swift/Sources/OpenCodeServer/OpenCodeServerAgentRegistrationController+Registration.swift:105-318 | In every reachable state: where the awaited callback leads, for every phase and answer, and when it calls the service |
| RegistrationProgress.StatusProves | swift/Sources/OpenCodeServer/OpenCodeServerAgentRegistrationController+Lifecycle.swift:101-130 | A status proves the registration exactly when it names the awaited build of an enabled service; any other changes nothing |
| RegistrationProgress.RepairBegins | swift/Sources/OpenCodeServer/OpenCodeServerAgentRegistrationController+Lifecycle.swift:160-188 | When a repair is refused, when it needs approval, and where it begins anew |
| RegistrationProgress.UpgradeCompletes | swift/Sources/OpenCodeServer/OpenCodeServerAgentRegistrationController+Registration.swift:105-318 | An app of another build, through unregistration, registration and proof: the new build is recorded, registered once, no record left |
| MigrationMoves.MoveLeaves | swift/Sources/OpenCodeServer/CredentialMigrationSaveTransaction.swift:27-281 | For every sequence of answers: an undisturbed move ends, and configuration, items and journal are exactly what its first failing answer accounts for |
| MigrationMoves.MoveSucceedsExactly | swift/Sources/OpenCodeServer/CredentialMigrationSaveTransaction.swift:27-281 | It ends with the new configuration, the new item, the old item gone, no record and one notice for the new account if and only if creation, writes, save and deletion succeed |
| MigrationMoves.MoveRefused | swift/Sources/OpenCodeServer/CredentialMigrationSaveTransaction.swift:27-62 | In any other state at rest a move is refused and nothing is written |
| MigrationMoves.MoveIsAtomic | swift/Sources/OpenCodeServer/CredentialMigrationSaveTransaction.swift:27-281 | Wherever in its run the app dies: after recovery either the old configuration and item are untouched and the new item gone, or the new configuration has its item and the old item is gone; no other item is touched |
| MigrationMoves.RegularSaveLeaves | swift/Sources/OpenCodeServer/CredentialMutationCoordinator.swift:230-308 | A save that keeps the account leaves exactly the stores and the notice its Keychain outcome and its writes account for |
| NoticeDelivery.ObservedIsSent | swift/Sources/OpenCodeServer/CredentialMutationCoordinator.swift:310-355 | A pending notice is under way as soon as a status shows its account, and never twice |
| NoticeDelivery.CommittedIsSent | swift/Sources/OpenCodeServer/CredentialMutationCoordinator.swift:294-355 | The notice of a save is under way at once, if nothing else is and the agent runs its account |
| NoticeDelivery.AppliedIsCleared | swift/Sources/OpenCodeServer/CredentialMutationCoordinator.swift:357-403 | The answer to the pending notice clears it, brings the staged one forward and starts what waited as soon as nothing blocks |
| NoticeDelivery.NoticesAreDelivered | swift/Sources/OpenCodeServer/CredentialMutationCoordinator.swift:310-403 | From any state of any run, three rounds at most with an agent that applies its notices leave none pending, staged or under way, and every waiting action has run, in order, unless an account move goes on |
| RecoveryTheorems.RefusedStartGoesOn | rust/src/supervisor/lifecycle.rs:258-284 | For every state: a recovery start that finds no configuration or no password counts as failed, so the next delay is armed or recovery ends; any other start ends there; nothing is forked |
| AgentResumption.UnsavedCommand | rust/src/supervisor/runtime_durability.rs:75-110 | For every state: a command whose save failed changes nothing but the notes of the save; one whose save is uncertain waits, alone, and nothing is signaled or forked for it |
| AgentResumption.UncertainLaunchWaits | rust/src/supervisor/lifecycle.rs:286-304 | A launch whose marker save is uncertain forks nothing and puts this very start off |
| AgentResumption.UnwoundLaunchRuns | rust/src/supervisor/runtime_durability.rs:203-236 | The retry takes that marker back by a second save, and then runs OpenCode |
| UnsureProcesses.ChangedIdentityBlocks | rust/src/supervisor/process_exit.rs:156-190 | For every state: a PID that belongs to somebody else leaves a disowned record that blocks every start; an owned child is kept for its reaping, an adopted process let go, nothing signaled or forked |
| UnsureProcesses.LostLeaderBlocks | rust/src/supervisor/process_exit.rs:113-154 | For every state: an adopted leader that is gone while its group is not known to be empty leaves such a record, no process and no timer |
| UnsureProcesses.UnverifiedStaysWatched | rust/src/supervisor/reattach.rs:192-227 | A check that does not end an unverified record always sets the next one |
| UnsureProcesses.UnsavedExit | rust/src/supervisor/process_exit.rs:192-266 | For every state: if the record of an exited process could not be cleared it stays and blocks; if that is uncertain the very exit waits for a durable retry |
| UnsureProcesses.UnsavedDiscard | rust/src/supervisor/reattach.rs:135-190 | For every state: the same for a stale record, whose convergence is put off |
| UnsureProcesses.UnsavedBoot | rust/src/supervisor/mod.rs:342-373 | A boot that cannot save does nothing yet, and puts off what was last asked for |
| TickProgress.TickRecovers | rust/src/supervisor/mod.rs:436-487 | The whole tick that finds the recovery timer due ends with OpenCode running, forked once, and the timer off |
| TickProgress.TickRetriesPort | rust/src/supervisor/mod.rs:436-487 | So does the tick that finds the retry of a refused start due, once the endpoint is free |
| TickProgress.TickEndsUnverified | rust/src/supervisor/mod.rs:436-487 | So does the tick that finds the process of an unverified record gone, with Running wanted |
| TickProgress.TickRunsDeferredStart | rust/src/supervisor/mod.rs:436-487 | So does the tick whose retry makes a waiting Start durable |
| TickProgress.TickRestarts | rust/src/supervisor/mod.rs:436-487 | So does the tick that sees the exit after a Restart |
| TickProgress.TickTakesPassword | rust/src/supervisor/mod.rs:436-487 | So does the tick in which the password arrives, with Running wanted |
| TickProgress.TickExpiresStop | rust/src/supervisor/mod.rs:436-487 | The first tick after the deadline of a stop leaves it waiting for the user, and signals nothing |
| TickProgress.TickHearsHealthy | rust/src/supervisor/mod.rs:436-487 | A healthy answer that came in counts by the end of the tick: healthy, version on disk, recovery told if a failure was |
| TickProgress.TickHearsFailure | rust/src/supervisor/mod.rs:436-487 | A failed answer is counted by the end of the tick, and told if it is the third |
| TickProgress.TickRecordsVersion | rust/src/supervisor/version.rs:275-293 | A version that came in for a process without one is on disk by the end of the tick |
| TickProgress.PollConfirms | rust/src/supervisor/process_exit.rs:11-56 | The first poll that can read the identity of an unconfirmed child completes its record, on disk too |
| HealthProgress.HealthyAgain | rust/src/supervisor/health.rs:132-176 | The same for a version already on disk: only a notice is written, if there is one to tell |
| HealthGuard.UndisturbedIsApplied | rust/src/supervisor/health.rs:72-124 | For every guard without a request under way: a request is made, and its answer is applied, once, if nothing changes in between |
| IpcSubscriptions.MaintainExpires | rust/src/ipc.rs:342-365 | Maintenance closes exactly the connections whose time is over, keeps the others as they are, and with no arrival changes only the listener, which is then enabled exactly when there is room |
| IpcSubscriptions.ArrivalsAreTaken | rust/src/ipc.rs:367-424 | Of arrivals under descriptors that are not open, exactly as many as there is room for become connections, in their order; none of the old ones changes |
| RegistrationProgress.RequestBegins | swift/Sources/OpenCodeServer/OpenCodeServerAgentRegistrationController+Lifecycle.swift:132-158 | For every state: what the Settings checkbox begins, resumes, fails closed or leaves alone, by status, record and phase |
| RegistrationProgress.RemovalEnds | swift/Sources/OpenCodeServer/OpenCodeServerAgentRegistrationController+Lifecycle.swift:190-196 | A removal ends in rest with no record, and no outstanding callback does anything after it |
| ReattachProgress.StaleIsAdopted | rust/src/supervisor/health.rs:236-281 | A stale attachment is adopted by the first healthy answer after its configuration fits and it is that very process; no other answer changes anything |
| TickProgress.TickReadsConfig | rust/src/supervisor/mod.rs:436-507 | A tick a minute after the last reading of the configuration reads it again |
| NoticeDelivery.ReopenedIsSent | swift/Sources/OpenCodeServer/CredentialMutationCoordinator.swift:142-178 | A journal that opens at last is used, and its notice is under way if the agent runs that account |
| CredentialOffers.NoAnswer | rust/src/supervisor/credential.rs:511-547 | A worker that died frees the slot and changes nothing else; one that has not answered changes nothing |

## Left out

- Sockets, kqueue, libproc, waitid, Security.framework, Service Management and the property-list and JSON codecs: their answers are parameters, a script, or an arbitrary decoding function.
- HMAC: only the bytes it authenticates are modelled, not the tag.
- Text shown to the user: log lines, `last_error`, `health_state`, status rows, event identifiers, notices' wording and the label of the registration status.
- The status and the action capabilities the agent reports: they only read the state the theorems are about.
- Wall-clock times: one monotone clock per world; deadlines are integers, and delays of the registration scheduler are left to the order in which callbacks fire.
- The installed-version query and its cleanup: only its answer reaches the model.
- The health probe's cadence and backoff, and the probes behind the stale-process recheck: whether a check is due is an input.
- Lossy conversion of executable paths to text: a number stands for each canonical path, and each configuration is compared by its fingerprint.
- The text format of the grant marker, and permission, ownership and size checks of private files: a file is readable or not.
- The latches that keep overdue log lines from repeating.
- Growth of the group-listing buffer: a listing is any sequence of PIDs, or an error.
- The rest of the agent's event loop (watched PID, heartbeat, signals, configuration watch): only its batch dispatch and its calls into supervisor and server.
- AppKit, the Settings window and Full Disk Access: the model has the rules by which Settings starts a save, and Settings always passes the account the saved configuration names.
- Durable ordering between configuration and Keychain across a power loss: the migration theorems speak of crashes of the app.
- Stop finality from a Stop whose own write was uncertain: the images then still differ in the desired state.
- Registration outside /Applications, and the separate login item.
- Supervisors.Supervisor: fields the source keeps apart (durability flags, deferred actions, configurations, timers) are grouped into a few values, so updates of one group are one assignment.
- Agent.Step: a crash inside a step is the script's; from the crash on, the rest of the step has no effect on the world.
- MigrationWorld.Step: password values are not modelled, so an update of an item changes nothing but its notice; effects that one run on the main actor performs in a row may be separated by other events, which only adds runs.
- Registration.Fire: an outstanding closure may fire at any time, also one whose delay has not passed.
- CredentialJournal.NoticeOutlivesRun: speaks of pending notices; a staged notice that no save concluded may be replaced by a later one of the same kind.
- AgentProgress.StartRuns: like the other lemmas of the progress modules of the agent, about calls that succeed; what failed and uncertain calls lead to is said by the `...Safe` lemmas, `UnsureProcesses`, `AgentResumption.RetryCarriesOut`, `AgentResumption.UnsavedCommand` and `RecoveryTheorems`.
