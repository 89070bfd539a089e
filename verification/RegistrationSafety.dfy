/** What every run of the registration controller keeps: it ends, a relaunch gains no
    attempts, and only a proven build is written down. */
module RegistrationSafety {
  import opened Records
  import opened Registration

  predicate Active(p: Phase) {
    !p.Idle? && !p.Failed?
  }

  /** How many effective callbacks can still follow. */
  const ROUND: nat := 70

  function Rank(p: Phase): nat {
    match p
    case Idle => 0
    case Failed(_) => 0
    case AwaitingIPC(_, _, _, checks) => 1 + checks
    case AwaitingRegistration(_, _, _) => 17
    case AwaitingUnregistered(_, _, _, checks) => 18 + checks
    case Unregistering(_, _, _) => 69
    case RetryScheduled(_, _, _) => 70
  }

  function Fuel(p: Phase): int {
    if !Active(p) then 0 else (MAXIMUM_ATTEMPTS - 1 - p.attempt) * ROUND + Rank(p)
  }

  // ---------------------------------------------------------------- the invariant

  predicate StageFits(p: Phase, stage: Stage) {
    match p
    case Unregistering(_, _, _) => stage.StageUnregistering?
    case AwaitingUnregistered(_, _, _, _) => stage.StageUnregistered?
    case AwaitingRegistration(_, _, _) => stage.StageRegistration?
    case AwaitingIPC(_, _, _, _) => stage.StageIPC? || stage.StageRegistration?
    case RetryScheduled(_, _, _) => stage.StageRetry?
    case _ => false
  }

  /** The preferences hold the live transaction: version, purpose, attempt and a stage that
      leads back to the live phase. */
  predicate Persisted(c: Controller) {
    Active(c.phase) ==>
      && c.phase.version == c.bundle
      && c.phase.attempt < MAXIMUM_ATTEMPTS
      && c.store.Saved?
      && c.store.version == c.bundle
      && c.store.purpose == c.phase.purpose
      && c.store.attempt == c.phase.attempt
      && StageFits(c.phase, c.store.stage)
  }

  predicate ChecksOk(p: Phase) {
    && (p.AwaitingUnregistered? ==> 0 < p.checks <= UNREGISTRATION_CHECKS)
    && (p.AwaitingIPC? ==> 0 < p.checks <= COLD_CHECKS)
  }

  /** The one callback the phase waits for. */
  function Expected(c: Controller): Option<Callback> {
    match c.phase
    case Unregistering(_, purpose, attempt) => Some(OnUnregistered(purpose, attempt))
    case AwaitingUnregistered(_, purpose, attempt, checks) => Some(OnCheck(c.generation, purpose, attempt, checks))
    case AwaitingRegistration(_, purpose, attempt) => Some(OnRegister(c.generation, purpose, attempt))
    case AwaitingIPC(_, purpose, attempt, checks) => Some(OnVerify(c.generation, purpose, attempt, checks))
    case RetryScheduled(_, purpose, attempt) => Some(OnRetry(c.generation, purpose, attempt))
    case _ => None
  }

  /** Every outstanding timer of this generation is the one the phase waits for. */
  ghost predicate TimersOk(c: Controller) {
    forall t :: t in c.callbacks && !t.OnUnregistered? ==>
      && t.generation <= c.generation
      && (t.generation == c.generation ==> Expected(c) == Some(t) && c.callbacks[t] == 1)
  }

  /** An active phase always has its callback outstanding. */
  predicate Awaited(c: Controller) {
    Active(c.phase) ==> Expected(c).Some? && Expected(c).value in c.callbacks
  }

  predicate BudgetOk(c: Controller) {
    if Active(c.phase) then
      c.history.started <= c.phase.attempt
      && c.history.started + c.history.registers <= c.phase.attempt + (if c.phase.AwaitingIPC? then 1 else 0)
    else c.history.started + c.history.registers <= MAXIMUM_ATTEMPTS
  }

  predicate RepairOk(c: Controller) {
    c.repair.Some? ==> Active(c.phase)
  }

  /** A failed controller keeps no transaction that could be resumed. */
  predicate FailureOk(c: Controller) {
    c.phase.Failed? ==> !LookUp(c).LookupValid?
  }

  /** Only a cleared transaction may still be lost or come back in a crash: one that stands was
      synchronized. */
  predicate ExposedOk(c: Controller) {
    Prefs(c) in c.history.exposed && (!c.store.Missing? ==> c.history.exposed == {Prefs(c)})
  }

  ghost predicate Inv(c: Controller) {
    && Persisted(c) && ChecksOk(c.phase) && TimersOk(c) && Awaited(c) && BudgetOk(c) && RepairOk(c) && FailureOk(c)
    && ExposedOk(c)
  }

  // ---------------------------------------------------------------- what a crash can leave

  /** A record of this build, at this attempt or a later one. */
  predicate AtLeast(bundle: nat, attempt: int, t: Stored) {
    t.Saved? && t.version == bundle && attempt <= t.attempt < MAXIMUM_ATTEMPTS
  }

  /** What a crash can leave afterwards it could leave before, or it was written meanwhile, and
      with the same registered version. */
  ghost predicate Lasting(c: Controller, after: Controller) {
    && c.history.written <= after.history.written
    && (forall p | p in after.history.exposed :: p in c.history.exposed || p in after.history.written)
    && (forall p | p in after.history.written :: p in c.history.written || p.registeredVersion == c.registeredVersion)
  }

  /** Every write ends the transaction or keeps it at this attempt or a later one. */
  ghost predicate Onward(c: Controller, attempt: int, after: Controller) {
    forall p | p in after.history.written ::
      p in c.history.written || p.transaction.Missing? || AtLeast(c.bundle, attempt, p.transaction)
  }

  lemma LastingTransitive(c: Controller, d: Controller, after: Controller)
    requires Lasting(c, d) && Lasting(d, after) && c.registeredVersion == d.registeredVersion
    ensures Lasting(c, after)
  {
  }

  lemma OnwardTransitive(c: Controller, d: Controller, attempt: int, after: Controller)
    requires Onward(c, attempt, d) && Onward(d, attempt, after) && c.bundle == d.bundle
    ensures Onward(c, attempt, after)
  {
  }

  // ---------------------------------------------------------------- the building blocks

  /** No timer of this generation is outstanding. */
  ghost predicate Free(c: Controller) {
    forall t :: t in c.callbacks && !t.OnUnregistered? ==> t.generation < c.generation
  }

  predicate Allowed(c: Controller, attempt: nat) {
    attempt < MAXIMUM_ATTEMPTS && c.history.started <= attempt && c.history.started + c.history.registers <= attempt
  }

  /** Every repair request is answered, dropped or still waiting. */
  function ClaimsOf(answered: seq<nat>, dropped: seq<nat>, repair: Option<nat>): multiset<nat> {
    multiset(answered) + multiset(dropped) + (if repair.Some? then multiset{repair.value} else multiset{})
  }

  function Claims(c: Controller): multiset<nat> {
    ClaimsOf(c.history.answered, c.history.dropped, c.repair)
  }

  /** What a block leaves: the invariant, no more fuel than `fuel`, the attempt or a later one,
      and everything it may not touch. */
  ghost predicate Leaves(c: Controller, purpose: Purpose, attempt: nat, fuel: int, after: Controller) {
    && Inv(after)
    && Fuel(after.phase) <= fuel
    && (Active(after.phase) ==> after.phase.purpose == purpose && after.phase.attempt >= attempt)
    && (Active(after.phase) || after.store.Missing?)
    && after.bundle == c.bundle && after.generation == c.generation
    && after.registeredVersion == c.registeredVersion
    && Claims(after) == Claims(c)
    && after.history.dropped == c.history.dropped
    && Lasting(c, after) && Onward(c, attempt, after)
  }

  function Base(attempt: nat): int {
    (MAXIMUM_ATTEMPTS - 1 - attempt) * ROUND
  }

  lemma AnswerClaims(answered: seq<nat>, dropped: seq<nat>, id: nat)
    ensures ClaimsOf(answered + [id], dropped, None) == ClaimsOf(answered, dropped, Some(id))
  {
    assert multiset(answered + [id]) == multiset(answered) + multiset{id};
  }

  lemma FailLeaves(c: Controller, purpose: Purpose, attempt: nat)
    requires Free(c) && attempt < MAXIMUM_ATTEMPTS && c.history.started + c.history.registers <= MAXIMUM_ATTEMPTS
    ensures Leaves(c, purpose, attempt, Base(attempt), Fail(c))
    ensures !Active(Fail(c).phase)
  {
    hide ClaimsOf;
    if c.repair.Some? {
      AnswerClaims(c.history.answered, c.history.dropped, c.repair.value);
    }
  }

  /** A block that ends by waiting for its callback. */
  ghost predicate Waits(c: Controller, purpose: Purpose, attempt: nat, d: Controller) {
    && Active(d.phase) && Persisted(d) && ChecksOk(d.phase) && BudgetOk(d) && ExposedOk(d)
    && Lasting(c, d) && Onward(c, attempt, d)
    && d.callbacks == c.callbacks + multiset{Expected(d).value}
    && d.generation == c.generation && d.bundle == c.bundle && d.registeredVersion == c.registeredVersion
    && d.repair == c.repair && d.history.answered == c.history.answered && d.history.dropped == c.history.dropped
    && d.phase.purpose == purpose && d.phase.attempt >= attempt
  }

  lemma WaitsLeaves(c: Controller, purpose: Purpose, attempt: nat, fuel: int, d: Controller)
    requires Free(c) && Waits(c, purpose, attempt, d) && Fuel(d.phase) <= fuel
    ensures Leaves(c, purpose, attempt, fuel, d)
  {
    hide ClaimsOf;
  }

  /** Less fuel, the same start: what a block passes on from the block it ends with. */
  lemma LeavesFrom(c: Controller, from: Controller, purpose: Purpose, attempt: nat, fuel: int, more: int, after: Controller)
    requires Leaves(from, purpose, attempt, fuel, after) && fuel <= more
    requires c.bundle == from.bundle && c.generation == from.generation && c.registeredVersion == from.registeredVersion
    requires c.repair == from.repair
    requires c.history.answered == from.history.answered && c.history.dropped == from.history.dropped
    requires Lasting(c, from) && Onward(c, attempt, from)
    ensures Leaves(c, purpose, attempt, more, after)
  {
    hide Inv;
    hide Fuel;
    hide ClaimsOf;
    hide Lasting;
    hide Onward;
    LastingTransitive(c, from, after);
    OnwardTransitive(c, from, attempt, after);
  }

  lemma SameLasting(c: Controller, d: Controller, attempt: int)
    requires d.history.written == c.history.written && d.history.exposed == c.history.exposed
    ensures Lasting(c, d) && Onward(c, attempt, d)
  {
  }

  /** Scheduling a closure touches no preferences. */
  lemma ScheduledLasting(c: Controller, d: Controller, callback: Callback, attempt: int)
    requires Lasting(c, d) && Onward(c, attempt, d)
    ensures Lasting(c, Schedule(d, callback)) && Onward(c, attempt, Schedule(d, callback))
    ensures ExposedOk(d) ==> ExposedOk(Schedule(d, callback))
  {
  }

  /** A record of the transaction itself is such a write. */
  lemma PersistOnward(c: Controller, d: Controller, stage: Stage, purpose: Purpose, least: nat, attempt: nat, saved: bool)
    requires least <= attempt < MAXIMUM_ATTEMPTS
    requires c.bundle == d.bundle && c.registeredVersion == d.registeredVersion
    requires Lasting(c, d) && Onward(c, least, d)
    ensures var e := Persist(d, stage, purpose, attempt, saved);
            Lasting(c, e) && Onward(c, least, e) && (saved ==> ExposedOk(e))
  {
  }

  lemma ScheduleRetryLeaves(c: Controller, purpose: Purpose, completed: nat, saved: bool)
    requires Free(c) && completed < MAXIMUM_ATTEMPTS
    requires c.history.started <= completed && c.history.started + c.history.registers <= completed + 1
    ensures Leaves(c, purpose, completed, Base(completed), ScheduleRetry(c, purpose, completed, saved))
  {
    hide Fail;
    hide Leaves;
    hide Lasting;
    hide Onward;
    SameLasting(c, c, completed);
    FailLeaves(c, purpose, completed);
    if completed + 1 < MAXIMUM_ATTEMPTS {
      var waiting := c.(phase := RetryScheduled(c.bundle, purpose, completed + 1));
      var recorded := Persist(waiting, StageRetry, purpose, completed + 1, saved);
      SameLasting(c, waiting, completed);
      PersistOnward(c, waiting, StageRetry, purpose, completed, completed + 1, saved);
      if saved {
        ScheduledLasting(c, recorded, OnRetry(c.generation, purpose, completed + 1), completed);
        WaitsLeaves(c, purpose, completed, Base(completed), ScheduleRetry(c, purpose, completed, saved));
      } else {
        FailLeaves(recorded, purpose, completed);
        LeavesFrom(c, recorded, purpose, completed, Base(completed), Base(completed), Fail(recorded));
      }
    }
  }

  ghost predicate Stands(c: Controller, purpose: Purpose, attempt: nat) {
    && ExposedOk(c)
    && (|| c.store == Saved(c.bundle, purpose, StageIPC, attempt)
        || c.store == Saved(c.bundle, purpose, StageRegistration, attempt))
  }

  lemma WaitForIPCLeaves(c: Controller, purpose: Purpose, attempt: nat, checks: nat, saved: bool)
    requires Free(c) && checks <= COLD_CHECKS && attempt < MAXIMUM_ATTEMPTS
    requires c.history.started <= attempt && c.history.started + c.history.registers <= attempt + 1
    requires Stands(c, purpose, attempt)
    ensures Leaves(c, purpose, attempt, Base(attempt) + checks + 1, WaitForIPC(c, purpose, attempt, checks, saved))
    ensures checks > 0 ==> WaitForIPC(c, purpose, attempt, checks, saved).phase
                           == AwaitingIPC(c.bundle, purpose, attempt, checks)
  {
    hide Fail;
    hide Leaves;
    hide Lasting;
    hide Onward;
    hide ScheduleRetry;
    var waiting := c.(phase := AwaitingIPC(c.bundle, purpose, attempt, checks));
    var after := WaitForIPC(c, purpose, attempt, checks, saved);
    SameLasting(c, waiting, attempt);
    if checks > 0 {
      ScheduledLasting(c, waiting, OnVerify(c.generation, purpose, attempt, checks), attempt);
      WaitsLeaves(c, purpose, attempt, Base(attempt) + checks + 1, after);
    } else if purpose.InitialRegistration? {
      FailLeaves(waiting, purpose, attempt);
      LeavesFrom(c, waiting, purpose, attempt, Base(attempt), Base(attempt) + 1, after);
    } else {
      ScheduleRetryLeaves(waiting, purpose, attempt, saved);
      LeavesFrom(c, waiting, purpose, attempt, Base(attempt), Base(attempt) + 1, after);
    }
  }

  /** The attempt of an active phase. */
  predicate At(c: Controller, attempt: nat) {
    Active(c.phase) ==> c.phase.attempt == attempt
  }

  lemma BeginAwaitingIPCLeaves(c: Controller, purpose: Purpose, attempt: nat, a: Answers)
    requires Free(c) && attempt < MAXIMUM_ATTEMPTS
    requires c.history.started <= attempt && c.history.started + c.history.registers <= attempt + 1
    requires Stands(c, purpose, attempt)
    ensures Leaves(c, purpose, attempt, Base(attempt) + 16, BeginAwaitingIPC(c, purpose, attempt, a))
    ensures At(BeginAwaitingIPC(c, purpose, attempt, a), attempt)
  {
    hide Leaves;
    hide Lasting;
    hide Onward;
    hide WaitForIPC;
    var checks := if a.cold then COLD_CHECKS else INTERACTIVE_CHECKS;
    SameLasting(c, c, attempt);
    WaitForIPCLeaves(c, purpose, attempt, checks, a.saved);
    LeavesFrom(c, c, purpose, attempt, Base(attempt) + checks + 1, Base(attempt) + 16, WaitForIPC(c, purpose, attempt, checks, a.saved));
  }

  /** The block ends because it could not go on, or its record was not acknowledged. */
  lemma EndsLeaves(c: Controller, d: Controller, purpose: Purpose, attempt: nat, fuel: int)
    requires Free(c) && Allowed(c, attempt) && Base(attempt) <= fuel
    requires d.callbacks == c.callbacks && d.generation == c.generation && d.bundle == c.bundle
    requires d.registeredVersion == c.registeredVersion && d.repair == c.repair
    requires d.history.started == c.history.started && d.history.registers <= c.history.registers + 1
    requires d.history.answered == c.history.answered && d.history.dropped == c.history.dropped
    requires Lasting(c, d) && Onward(c, attempt, d)
    ensures Leaves(c, purpose, attempt, fuel, Fail(d)) && !Active(Fail(d).phase)
  {
    hide Fail;
    hide Leaves;
    hide Lasting;
    hide Onward;
    FailLeaves(d, purpose, attempt);
    LeavesFrom(c, d, purpose, attempt, Base(attempt), fuel, Fail(d));
  }

  lemma PerformLeaves(c: Controller, purpose: Purpose, attempt: nat, a: Answers)
    requires Free(c) && Allowed(c, attempt)
    ensures Leaves(c, purpose, attempt, Base(attempt) + 16, PerformRegistration(c, purpose, attempt, a))
    ensures At(PerformRegistration(c, purpose, attempt, a), attempt)
  {
    hide Fail;
    hide BeginAwaitingIPC;
    hide Leaves;
    hide Lasting;
    hide Onward;
    var after := PerformRegistration(c, purpose, attempt, a);
    var waiting := c.(phase := AwaitingRegistration(c.bundle, purpose, attempt));
    SameLasting(c, waiting, attempt);
    PersistOnward(c, waiting, StageRegistration, purpose, attempt, attempt, a.saved);
    var recorded := Persist(waiting, StageRegistration, purpose, attempt, a.saved);
    var called := Registered(recorded);
    SameLasting(recorded, called, attempt);
    LastingTransitive(c, recorded, called);
    OnwardTransitive(c, recorded, attempt, called);
    PersistOnward(c, called, StageIPC, purpose, attempt, attempt, a.savedAgain);
    var proven := Persist(called, StageIPC, purpose, attempt, a.savedAgain);
    if !a.saved {
      EndsLeaves(c, recorded, purpose, attempt, Base(attempt) + 16);
    } else if (a.registerFails && a.seen.afterError != Enabled) || a.seen.afterRegister.RequiresApproval? {
      EndsLeaves(c, called, purpose, attempt, Base(attempt) + 16);
    } else if !a.savedAgain {
      EndsLeaves(c, proven, purpose, attempt, Base(attempt) + 16);
    } else {
      BeginAwaitingIPCLeaves(proven, purpose, attempt, a);
      LeavesFrom(c, proven, purpose, attempt, Base(attempt) + 16, Base(attempt) + 16, after);
    }
  }

  lemma ScheduleLeaves(c: Controller, purpose: Purpose, attempt: nat, saved: bool)
    requires Free(c) && Allowed(c, attempt)
    ensures Leaves(c, purpose, attempt, Base(attempt) + 17, ScheduleRegistration(c, purpose, attempt, saved))
    ensures At(ScheduleRegistration(c, purpose, attempt, saved), attempt)
  {
    hide Fail;
    hide Leaves;
    hide Lasting;
    hide Onward;
    var after := ScheduleRegistration(c, purpose, attempt, saved);
    var waiting := c.(phase := AwaitingRegistration(c.bundle, purpose, attempt));
    SameLasting(c, waiting, attempt);
    PersistOnward(c, waiting, StageRegistration, purpose, attempt, attempt, saved);
    var recorded := Persist(waiting, StageRegistration, purpose, attempt, saved);
    if saved {
      ScheduledLasting(c, recorded, OnRegister(c.generation, purpose, attempt), attempt);
      WaitsLeaves(c, purpose, attempt, Base(attempt) + 17, after);
    } else {
      EndsLeaves(c, recorded, purpose, attempt, Base(attempt) + 17);
    }
  }

  lemma WaitForUnregisteredLeaves(c: Controller, purpose: Purpose, attempt: nat, checks: nat, a: Answers)
    requires Free(c) && Allowed(c, attempt) && checks <= UNREGISTRATION_CHECKS
    requires checks < UNREGISTRATION_CHECKS ==> c.store == Saved(c.bundle, purpose, StageUnregistered, attempt) && ExposedOk(c)
    ensures Leaves(c, purpose, attempt, Base(attempt) + 18 + checks, WaitForUnregistered(c, purpose, attempt, checks, a))
    ensures At(WaitForUnregistered(c, purpose, attempt, checks, a), attempt)
  {
    hide Fail;
    hide ScheduleRegistration;
    hide Leaves;
    hide Lasting;
    hide Onward;
    var after := WaitForUnregistered(c, purpose, attempt, checks, a);
    var fuel := Base(attempt) + 18 + checks;
    var waiting := c.(phase := AwaitingUnregistered(c.bundle, purpose, attempt, checks));
    SameLasting(c, waiting, attempt);
    PersistOnward(c, waiting, StageUnregistered, purpose, attempt, attempt, a.saved);
    var recorded := if checks == UNREGISTRATION_CHECKS then Persist(waiting, StageUnregistered, purpose, attempt, a.saved) else waiting;
    if checks == UNREGISTRATION_CHECKS && !a.saved {
      EndsLeaves(c, recorded, purpose, attempt, fuel);
    } else if a.seen.wait.NotRegistered? {
      ScheduleLeaves(recorded, purpose, attempt, a.savedAgain);
      LeavesFrom(c, recorded, purpose, attempt, Base(attempt) + 17, fuel, after);
    } else if a.seen.waitAgain.RequiresApproval? || checks == 0 {
      EndsLeaves(c, recorded, purpose, attempt, fuel);
    } else {
      ScheduledLasting(c, recorded, OnCheck(c.generation, purpose, attempt, checks), attempt);
      WaitsLeaves(c, purpose, attempt, fuel, after);
    }
  }

  lemma StartReplacementLeaves(c: Controller, purpose: Purpose, attempt: nat, a: Answers)
    requires Free(c) && Allowed(c, attempt)
    ensures Leaves(c, purpose, attempt, Base(attempt) + 69, StartReplacement(c, purpose, attempt, a))
    ensures At(StartReplacement(c, purpose, attempt, a), attempt)
  {
    hide Fail;
    hide PerformRegistration;
    hide Leaves;
    hide Lasting;
    hide Onward;
    var after := StartReplacement(c, purpose, attempt, a);
    var waiting := c.(phase := Unregistering(c.bundle, purpose, attempt));
    SameLasting(c, waiting, attempt);
    PersistOnward(c, waiting, StageUnregistering, purpose, attempt, attempt, a.saved);
    var recorded := Persist(waiting, StageUnregistering, purpose, attempt, a.saved);
    if a.seen.start != Enabled {
      SameLasting(c, c, attempt);
      PerformLeaves(c, purpose, attempt, a);
      LeavesFrom(c, c, purpose, attempt, Base(attempt) + 16, Base(attempt) + 69, after);
    } else if a.saved {
      ScheduledLasting(c, recorded, OnUnregistered(purpose, attempt), attempt);
      WaitsLeaves(c, purpose, attempt, Base(attempt) + 69, after);
    } else {
      EndsLeaves(c, recorded, purpose, attempt, Base(attempt) + 69);
    }
  }

  // ---------------------------------------------------------------- callbacks

  predicate Resumable(c: Controller) {
    LookUp(c).LookupValid?
  }

  /** A transaction that could be resumed keeps its attempt or moves to a later one, unless it
      has ended. */
  predicate AttemptKept(c: Controller, after: Controller) {
    Resumable(c) ==> after.store.Missing? || (Resumable(after) && after.store.attempt >= c.store.attempt)
  }

  ghost predicate Advances(c: Controller, after: Controller) {
    && Inv(after)
    && after.bundle == c.bundle
    && after.registeredVersion == c.registeredVersion
    && Claims(after) == Claims(c)
    && after.history.dropped == c.history.dropped
    && AttemptKept(c, after)
    && Lasting(c, after)
    && (Resumable(c) ==> Onward(c, c.store.attempt, after))
  }

  /** A callback either finds nothing to do, or uses up fuel. */
  ghost predicate Burns(c: Controller, callback: Callback, after: Controller) {
    after == Taken(c, callback) || Fuel(after.phase) < Fuel(c.phase)
  }

  lemma StaleKeeps(c: Controller, callback: Callback)
    requires Inv(c) && callback in c.callbacks && Expected(c) != Some(callback)
    ensures Advances(c, Taken(c, callback))
  {
    hide ClaimsOf;
    hide Lasting;
    hide Onward;
    SameLasting(c, Taken(c, callback), if Resumable(c) then c.store.attempt else 0);
  }

  lemma TakenFree(c: Controller, callback: Callback)
    requires Inv(c) && Expected(c) == Some(callback)
    ensures Free(Taken(c, callback))
    ensures c.phase.AwaitingIPC? || Allowed(Taken(c, callback), c.phase.attempt)
  {
  }

  lemma LeavesAdvances(c: Controller, callback: Callback, fuel: int, after: Controller)
    requires Inv(c) && Active(c.phase) && fuel < Fuel(c.phase)
    requires Leaves(Taken(c, callback), c.phase.purpose, c.phase.attempt, fuel, after)
    ensures Advances(c, after) && Fuel(after.phase) < Fuel(c.phase)
  {
    hide ClaimsOf;
    hide TimersOk;
    hide Lasting;
    hide Onward;
    var t := Taken(c, callback);
    SameLasting(c, t, c.phase.attempt);
    LastingTransitive(c, t, after);
    OnwardTransitive(c, t, c.phase.attempt, after);
  }

  lemma AwaitedFires(c: Controller, callback: Callback, failed: bool, a: Answers)
    requires Inv(c) && Expected(c) == Some(callback)
    ensures Advances(c, Fire(c, callback, failed, a)) && Fuel(Fire(c, callback, failed, a).phase) < Fuel(c.phase)
  {
    hide Leaves;
    hide Advances;
    hide Free;
    hide Fail;
    hide TimersOk;
    hide WaitForUnregistered;
    hide PerformRegistration;
    hide WaitForIPC;
    hide StartReplacement;
    var t := Taken(c, callback);
    var p := c.phase;
    TakenFree(c, callback);
    match p {
      case Unregistering(_, purpose, attempt) =>
        FailLeaves(t, purpose, attempt);
        WaitForUnregisteredLeaves(t, purpose, attempt, UNREGISTRATION_CHECKS, a);
        if failed && !a.seen.entry.NotRegistered? {
          LeavesAdvances(c, callback, Base(attempt), Fail(t));
        } else {
          LeavesAdvances(c, callback, Base(attempt) + 68, WaitForUnregistered(t, purpose, attempt, UNREGISTRATION_CHECKS, a));
        }
      case AwaitingUnregistered(_, purpose, attempt, checks) =>
        WaitForUnregisteredLeaves(t, purpose, attempt, checks - 1, a);
        LeavesAdvances(c, callback, Base(attempt) + 17 + checks, WaitForUnregistered(t, purpose, attempt, checks - 1, a));
      case AwaitingRegistration(_, purpose, attempt) =>
        PerformLeaves(t, purpose, attempt, a);
        LeavesAdvances(c, callback, Base(attempt) + 16, PerformRegistration(t, purpose, attempt, a));
      case AwaitingIPC(_, purpose, attempt, checks) =>
        WaitForIPCLeaves(t, purpose, attempt, checks - 1, a.saved);
        LeavesAdvances(c, callback, Base(attempt) + checks, WaitForIPC(t, purpose, attempt, checks - 1, a.saved));
      case RetryScheduled(_, purpose, attempt) =>
        StartReplacementLeaves(t, purpose, attempt, a);
        LeavesAdvances(c, callback, Base(attempt) + 69, StartReplacement(t, purpose, attempt, a));
    }
  }

  /** A callback that the phase does not wait for changes nothing, although the check of the
      unregistration never looks at the phase. */
  lemma UnawaitedIgnored(c: Controller, callback: Callback, failed: bool, a: Answers)
    requires Inv(c) && callback in c.callbacks && Expected(c) != Some(callback)
    ensures Fire(c, callback, failed, a) == Taken(c, callback)
  {
  }

  lemma FireKeeps(c: Controller, callback: Callback, failed: bool, a: Answers)
    requires Inv(c)
    ensures Advances(c, Fire(c, callback, failed, a))
    ensures callback in c.callbacks ==> Burns(c, callback, Fire(c, callback, failed, a))
    ensures callback !in c.callbacks ==> Fire(c, callback, failed, a) == c
  {
    if callback !in c.callbacks {
    } else if Expected(c) == Some(callback) {
      AwaitedFires(c, callback, failed, a);
    } else {
      UnawaitedIgnored(c, callback, failed, a);
      StaleKeeps(c, callback);
    }
  }

  // ---------------------------------------------------------------- beginning, resuming, requests

  ghost predicate Past(c: Controller) {
    forall t :: t in c.callbacks && !t.OnUnregistered? ==> t.generation <= c.generation
  }

  lemma BegunFree(c: Controller, attempt: nat)
    requires Past(c) && attempt < MAXIMUM_ATTEMPTS
    ensures Free(Begun(c, attempt)) && Allowed(Begun(c, attempt), attempt)
  {
  }

  /** What beginning or resuming a transaction leaves, seen from before it. */
  ghost predicate Opens(c: Controller, attempt: nat, after: Controller) {
    && Inv(after)
    && (At(after, attempt) || after.store.Missing?)
    && (Active(after.phase) || after.store.Missing?)
    && after.bundle == c.bundle
    && after.registeredVersion == c.registeredVersion
    && Claims(after) == Claims(c)
    && after.history.dropped == c.history.dropped
    && Lasting(c, after) && Onward(c, attempt, after)
  }

  lemma LeavesOpens(c: Controller, purpose: Purpose, attempt: nat, fuel: int, after: Controller)
    requires Leaves(Begun(c, attempt), purpose, attempt, fuel, after) && At(after, attempt)
    ensures Opens(c, attempt, after)
  {
    hide ClaimsOf;
    hide Inv;
    hide Lasting;
    hide Onward;
    SameLasting(c, Begun(c, attempt), attempt);
    LastingTransitive(c, Begun(c, attempt), after);
    OnwardTransitive(c, Begun(c, attempt), attempt, after);
  }

  lemma BeginRegistrationOpens(c: Controller, purpose: Purpose, a: Answers)
    requires Past(c) && c.phase.Idle?
    ensures Opens(c, 0, BeginRegistration(c, purpose, a))
  {
    hide Leaves;
    hide Opens;
    hide PerformRegistration;
    BegunFree(c, 0);
    PerformLeaves(Begun(c, 0), purpose, 0, a);
    LeavesOpens(c, purpose, 0, Base(0) + 16, PerformRegistration(Begun(c, 0), purpose, 0, a));
  }

  lemma BeginReplacementOpens(c: Controller, purpose: Purpose, a: Answers)
    requires Past(c) && c.phase.Idle?
    ensures Opens(c, 0, BeginReplacement(c, purpose, a))
  {
    hide Leaves;
    hide Opens;
    hide StartReplacement;
    BegunFree(c, 0);
    StartReplacementLeaves(Begun(c, 0), purpose, 0, a);
    LeavesOpens(c, purpose, 0, Base(0) + 69, StartReplacement(Begun(c, 0), purpose, 0, a));
  }

  lemma ResumeOpens(c: Controller, a: Answers)
    requires Past(c) && c.phase.Idle? && Resumable(c) && ExposedOk(c)
    ensures Opens(c, c.store.attempt, Resume(c, c.store, a))
  {
    hide Leaves;
    hide Opens;
    hide Free;
    hide WaitForUnregistered;
    hide PerformRegistration;
    hide StartReplacement;
    hide ScheduleRegistration;
    hide BeginAwaitingIPC;
    var t := c.store;
    var begun := Begun(c, t.attempt);
    BegunFree(c, t.attempt);
    match RecoveryAction(t.stage, a.seen.enabled.Enabled?, a.seen.unregistered.NotRegistered?) {
      case RWait =>
        WaitForUnregisteredLeaves(begun, t.purpose, t.attempt, UNREGISTRATION_CHECKS, a);
        LeavesOpens(c, t.purpose, t.attempt, Base(t.attempt) + 68,
                    WaitForUnregistered(begun, t.purpose, t.attempt, UNREGISTRATION_CHECKS, a));
      case RReplace =>
        StartReplacementLeaves(begun, t.purpose, t.attempt, a);
        LeavesOpens(c, t.purpose, t.attempt, Base(t.attempt) + 69, StartReplacement(begun, t.purpose, t.attempt, a));
      case RSchedule =>
        ScheduleLeaves(begun, t.purpose, t.attempt, a.saved);
        LeavesOpens(c, t.purpose, t.attempt, Base(t.attempt) + 17, ScheduleRegistration(begun, t.purpose, t.attempt, a.saved));
      case RAwait =>
        BeginAwaitingIPCLeaves(begun, t.purpose, t.attempt, a);
        LeavesOpens(c, t.purpose, t.attempt, Base(t.attempt) + 16, BeginAwaitingIPC(begun, t.purpose, t.attempt, a));
      case RPerform =>
        PerformLeaves(begun, t.purpose, t.attempt, a);
        LeavesOpens(c, t.purpose, t.attempt, Base(t.attempt) + 16, PerformRegistration(begun, t.purpose, t.attempt, a));
    }
  }

  lemma OpensAdvances(c: Controller, attempt: nat, after: Controller)
    requires Opens(c, attempt, after) && (Resumable(c) ==> attempt == c.store.attempt)
    ensures Advances(c, after)
  {
    hide ClaimsOf;
    hide TimersOk;
    hide Lasting;
    hide Onward;
  }

  /** Reading the persisted transaction while it is live finds it live: nothing begins twice. */
  lemma BusyLookUp(c: Controller)
    requires Inv(c) && Active(c.phase)
    ensures LookUp(c) == LookupValid(c.store)
  {
  }

  lemma SameAdvances(c: Controller)
    requires Inv(c)
    ensures Advances(c, c)
  {
    hide ClaimsOf;
    hide Lasting;
    hide Onward;
    SameLasting(c, c, if Resumable(c) then c.store.attempt else 0);
  }

  lemma FailClosedAdvances(c: Controller)
    requires Inv(c) && LookUp(c).LookupInvalid?
    ensures Advances(c, FailClosed(c))
  {
    hide ClaimsOf;
    hide Lasting;
    hide Onward;
    SameLasting(c, FailClosed(c), 0);
    if Active(c.phase) {
      BusyLookUp(c);
    }
  }

  lemma InvPast(c: Controller)
    requires Inv(c)
    ensures Past(c) && ExposedOk(c)
  {
  }

  lemma BootUnregisteredAdvances(c: Controller, a: Answers)
    requires Inv(c)
    ensures Advances(c, BootUnregistered(c, a))
  {
    hide Inv;
    hide Advances;
    hide Opens;
    hide PerformRegistration;
    InvPast(c);
    SameAdvances(c);
    match LookUp(c) {
      case LookupValid(t) =>
        if c.phase.Idle? {
          ResumeOpens(c, a);
          OpensAdvances(c, c.store.attempt, Resume(c, c.store, a));
        }
      case LookupStale =>
        if c.phase.Idle? {
          BeginRegistrationOpens(c, BundleUpgrade, a);
          OpensAdvances(c, 0, BeginRegistration(c, BundleUpgrade, a));
        }
      case LookupMissing =>
        if c.phase.Idle? {
          BeginRegistrationOpens(c, InitialRegistration, a);
          OpensAdvances(c, 0, BeginRegistration(c, InitialRegistration, a));
        }
      case LookupInvalid =>
        FailClosedAdvances(c);
    }
  }

  lemma BootEnabledAdvances(c: Controller, a: Answers)
    requires Inv(c)
    ensures Advances(c, BootEnabled(c, a))
  {
    hide Inv;
    hide Advances;
    hide Opens;
    hide StartReplacement;
    InvPast(c);
    SameAdvances(c);
    match LookUp(c) {
      case LookupValid(t) =>
        if c.phase.Idle? {
          ResumeOpens(c, a);
          OpensAdvances(c, c.store.attempt, Resume(c, c.store, a));
        }
      case LookupInvalid =>
        FailClosedAdvances(c);
      case _ =>
        if c.phase.Idle? {
          BeginReplacementOpens(c, BundleUpgrade, a);
          OpensAdvances(c, 0, BeginReplacement(c, BundleUpgrade, a));
        }
    }
  }

  lemma BootstrapAdvances(c: Controller, a: Answers)
    requires Inv(c)
    ensures Advances(c, Bootstrap(c, a)) && Advances(c, RequestRegistration(c, a))
  {
    hide Inv;
    hide Advances;
    hide BootUnregistered;
    hide BootEnabled;
    SameAdvances(c);
    BootUnregisteredAdvances(c, a);
    BootEnabledAdvances(c, a);
  }

  lemma StartedInv(bundle: nat, left: Preferences)
    ensures Inv(Started(bundle, left))
  {
  }

  lemma DropClaims(answered: seq<nat>, dropped: seq<nat>, id: nat)
    ensures ClaimsOf(answered, dropped + [id], None) == ClaimsOf(answered, dropped, Some(id))
  {
    assert multiset(dropped + [id]) == multiset(dropped) + multiset{id};
  }

  lemma CancelKeeps(c: Controller)
    requires Inv(c)
    ensures Inv(Cancel(c)) && Claims(Cancel(c)) == Claims(c)
    ensures Cancel(c).history.dropped != c.history.dropped <==> c.repair.Some?
    ensures Cancel(c).registeredVersion == c.registeredVersion && Cancel(c).bundle == c.bundle
    ensures Lasting(c, Cancel(c))
  {
    hide ClaimsOf;
    if c.repair.Some? {
      DropClaims(c.history.answered, c.history.dropped, c.repair.value);
      assert |c.history.dropped + [c.repair.value]| == |c.history.dropped| + 1;
    }
  }

  lemma AskedClaims(answered: seq<nat>, dropped: seq<nat>, id: nat)
    ensures ClaimsOf(answered, dropped, Some(id)) == ClaimsOf(answered, dropped, None) + multiset{id}
    ensures forall r :: ClaimsOf(answered + [id], dropped, r) == ClaimsOf(answered, dropped, r) + multiset{id}
  {
    assert multiset(answered + [id]) == multiset(answered) + multiset{id};
  }

  ghost predicate Asks(c: Controller, id: nat, after: Controller) {
    && Inv(after)
    && Claims(after) == Claims(c) + multiset{id}
    && after.history.dropped == c.history.dropped
    && after.registeredVersion == c.registeredVersion
    && Lasting(c, after)
  }

  lemma AnsweredAsks(c: Controller, id: nat)
    requires Inv(c)
    ensures Asks(c, id, Answered(c, id))
  {
    hide ClaimsOf;
    hide Lasting;
    SameLasting(c, Answered(c, id), 0);
    AskedClaims(c.history.answered, c.history.dropped, id);
  }

  lemma OpensAsks(c: Controller, id: nat, attempt: nat, after: Controller)
    requires c.repair.None? && Opens(c.(repair := Some(id)), attempt, after)
    ensures Asks(c, id, after)
  {
    hide ClaimsOf;
    hide Inv;
    hide Lasting;
    SameLasting(c, c.(repair := Some(id)), 0);
    LastingTransitive(c, c.(repair := Some(id)), after);
    AskedClaims(c.history.answered, c.history.dropped, id);
  }

  lemma BeginRepairAsks(c: Controller, id: nat, a: Answers)
    requires Inv(c) && c.phase.Idle?
    ensures Asks(c, id, BeginRepair(c, id, a))
  {
    hide Opens;
    hide Asks;
    hide BeginReplacement;
    hide BeginRegistration;
    var asked := c.(repair := Some(id));
    match a.seen.entry {
      case Enabled =>
        BeginReplacementOpens(asked, ExplicitRepair, a);
        OpensAsks(c, id, 0, BeginReplacement(asked, ExplicitRepair, a));
      case RequiresApproval =>
        AnsweredAsks(c, id);
      case _ =>
        BeginRegistrationOpens(asked, ExplicitRepair, a);
        OpensAsks(c, id, 0, BeginRegistration(asked, ExplicitRepair, a));
    }
  }

  // ---------------------------------------------------------------- every step

  /** The run of the main actor behind an event. */
  function RunOf(e: Event): Event {
    if e.Crashed? then e.run else e
  }

  /** The agent's own status names exactly the bundle this controller is registering. */
  predicate Proves(c: Controller, run: Event, version: Option<nat>) {
    && run.Observe? && run.answers.seen.entry.Enabled?
    && c.phase.AwaitingIPC?
    && run.report == Some(c.bundle) && version == run.report
  }

  /** A registered version that a crash could leave already. */
  ghost predicate Held(c: Controller, version: Option<nat>) {
    exists q :: q in c.history.exposed && q.registeredVersion == version
  }

  /** No registered version is written, or left by a crash, that was not left before, unless it
      is proven by this very run. */
  ghost predicate VersionProven(c: Controller, e: Event, after: Controller) {
    forall p | p in after.history.exposed || p in after.history.written ::
      Held(c, p.registeredVersion) || Proves(c, RunOf(e), p.registeredVersion)
  }

  /** The user starts over, or another build does. */
  predicate StartsOver(c: Controller, e: Event) {
    || RunOf(e).RequestRepair? || RunOf(e).Unregister?
    || (RunOf(e).Relaunch? && RunOf(e).bundle != c.bundle)
    || (e.Crashed? && e.bundle != c.bundle)
  }

  /** Nothing but a user's own repair or removal lets a transaction start over, wherever in a
      run the process dies; only one that a crash finds cleared begins anew. */
  ghost predicate AttemptStep(c: Controller, e: Event, after: Controller) {
    StartsOver(c, e) || (e.Crashed? && e.left.transaction.Missing?) || AttemptKept(c, after)
  }

  /** Whatever a crash leaves in the course of a run ends the transaction or keeps its attempt. */
  ghost predicate LeavesOnward(c: Controller, e: Event, after: Controller) {
    StartsOver(c, e) || e.Crashed? || (Resumable(c) ==> Onward(Rested(c), c.store.attempt, after))
  }

  ghost predicate RepairsAccounted(c: Controller, e: Event, after: Controller) {
    e.Relaunch? || e.Crashed? || Claims(after) == (if e.RequestRepair? then Claims(c) + multiset{e.id} else Claims(c))
  }

  /** A repair is left without any answer exactly when a removal, or another repair, comes
      while its registration waits for the agent or for its next attempt. */
  predicate Drops(c: Controller, e: Event) {
    && c.repair.Some?
    && (e.Unregister? || (e.RequestRepair? && (c.phase.AwaitingIPC? || c.phase.RetryScheduled?)))
  }

  ghost predicate DropsExactly(c: Controller, e: Event, after: Controller) {
    e.Relaunch? || e.Crashed? || (after.history.dropped != c.history.dropped <==> Drops(c, e))
  }

  ghost predicate StepOk(c: Controller, e: Event, after: Controller) {
    && VersionProven(c, e, after) && AttemptStep(c, e, after) && LeavesOnward(c, e, after)
    && RepairsAccounted(c, e, after) && DropsExactly(c, e, after)
  }

  lemma RestedInv(c: Controller)
    requires Inv(c)
    ensures Inv(Rested(c)) && Claims(Rested(c)) == Claims(c) && Held(c, c.registeredVersion)
    ensures Resumable(Rested(c)) == Resumable(c)
  {
    hide ClaimsOf;
    assert Prefs(c) in c.history.exposed;
  }

  /** A run that writes no other version than the one it found. */
  lemma LastingProven(c: Controller, e: Event, after: Controller)
    requires Inv(c) && Lasting(Rested(c), after)
    ensures VersionProven(c, e, after)
  {
    hide Inv;
    RestedInv(c);
  }

  lemma AdvancesOk(c: Controller, e: Event, after: Controller)
    requires Inv(c) && Advances(Rested(c), after) && !e.RequestRepair? && !e.Unregister? && !e.Relaunch? && !e.Crashed?
    ensures Inv(after) && StepOk(c, e, after)
  {
    hide Inv;
    hide ClaimsOf;
    hide Lasting;
    hide Onward;
    hide VersionProven;
    RestedInv(c);
    LastingProven(c, e, after);
  }

  lemma ObserveKeeps(c: Controller, e: Event)
    requires Inv(c) && e.Observe?
    ensures Inv(Step(c, e)) && StepOk(c, e, Step(c, e))
  {
    hide StepOk;
    hide Advances;
    hide Inv;
    hide Complete;
    RestedInv(c);
    SameAdvances(Rested(c));
    var after := Step(c, e);
    if e.answers.seen.entry.Enabled? && c.phase.AwaitingIPC? && e.report == Some(c.phase.version) {
      CompleteKeeps(c, e);
    } else {
      AdvancesOk(c, e, after);
    }
  }

  /** What proving a version leaves: the transaction may still be found, the old version too. */
  lemma CompleteWrites(c: Controller, version: nat)
    ensures var after := Complete(Rested(c), version);
            && after.store.Missing? && after.registeredVersion == Some(version) && !Active(after.phase)
            && after.history.written ==
                 [Preferences(c.store, Some(version)), Preferences(Missing, Some(version)), Preferences(Missing, Some(version))]
            && after.history.exposed == c.history.exposed + {Preferences(c.store, Some(version)), Preferences(Missing, Some(version))}
  {
  }

  lemma CompleteKeeps(c: Controller, e: Event)
    requires Inv(c) && e.Observe? && e.answers.seen.entry.Enabled? && c.phase.AwaitingIPC? && e.report == Some(c.phase.version)
    ensures var after := Complete(Rested(c), c.phase.version); Inv(after) && StepOk(c, e, after)
  {
    CompleteInv(c);
    CompleteWrites(c, c.phase.version);
    var after := Complete(Rested(c), c.phase.version);
    assert Persisted(c) by { WithinBudget(c); }
    hide Inv;
    hide Complete;
    hide ClaimsOf;
    forall p | p in c.history.exposed ensures Held(c, p.registeredVersion) {
    }
  }

  lemma CompleteInv(c: Controller)
    requires Inv(c) && c.phase.AwaitingIPC?
    ensures var after := Complete(Rested(c), c.phase.version);
            Inv(after) && Claims(after) == Claims(c) && after.history.dropped == c.history.dropped
  {
    hide ClaimsOf;
    if c.repair.Some? {
      AnswerClaims(c.history.answered, c.history.dropped, c.repair.value);
    }
  }

  lemma RelaunchKeeps(c: Controller, e: Event)
    requires Inv(c) && e.Relaunch?
    ensures Inv(Step(c, e)) && StepOk(c, e, Step(c, e))
  {
    hide Inv;
    hide Bootstrap;
    hide ClaimsOf;
    RestedInv(c);
    var started := Started(e.bundle, Prefs(c));
    StartedInv(e.bundle, Prefs(c));
    BootstrapAdvances(started, e.answers);
  }

  /** A crash: what it leaves was there before or was written by the run it fell into. */
  lemma CrashLeaves(c: Controller, run: Event, left: Preferences)
    requires Inv(c) && !run.Crashed? && left in Leavings(c, run) && StepOk(c, run, Act(c, run))
    ensures Held(c, left.registeredVersion) || Proves(c, run, left.registeredVersion)
    ensures !StartsOver(c, run) && Resumable(c) && !left.transaction.Missing? ==>
              AtLeast(c.bundle, c.store.attempt, left.transaction)
  {
    hide Act;
    hide RepairsAccounted;
    hide DropsExactly;
    hide AttemptStep;
    InvPast(c);
    hide Inv;
  }

  lemma CrashKeeps(c: Controller, e: Event)
    requires Inv(c) && e.Crashed? && !e.run.Crashed? && e.left in Leavings(c, e.run)
    requires StepOk(c, e.run, Act(c, e.run))
    ensures Inv(Step(c, e)) && StepOk(c, e, Step(c, e))
  {
    hide Inv;
    hide Bootstrap;
    hide Act;
    hide ClaimsOf;
    hide Held;
    hide Proves;
    var started := Started(e.bundle, e.left);
    StartedInv(e.bundle, e.left);
    BootstrapAdvances(started, e.answers);
    CrashLeaves(c, e.run, e.left);
    var after := Bootstrap(started, e.answers);
    CrashProven(c, e, started, after);
    hide VersionProven;
    hide StepOk;
    assert AttemptStep(c, e, after) && LeavesOnward(c, e, after);
    assert RepairsAccounted(c, e, after) && DropsExactly(c, e, after);
    CrashOk(c, e, after);
  }

  lemma CrashOk(c: Controller, e: Event, after: Controller)
    requires VersionProven(c, e, after) && AttemptStep(c, e, after) && LeavesOnward(c, e, after)
    requires RepairsAccounted(c, e, after) && DropsExactly(c, e, after)
    ensures StepOk(c, e, after)
  {
    hide VersionProven;
    hide AttemptStep;
    hide LeavesOnward;
    hide RepairsAccounted;
    hide DropsExactly;
  }

  lemma CrashProven(c: Controller, e: Event, started: Controller, after: Controller)
    requires e.Crashed? && started == Started(e.bundle, e.left) && Lasting(started, after)
    requires Held(c, e.left.registeredVersion) || Proves(c, e.run, e.left.registeredVersion)
    ensures VersionProven(c, e, after)
  {
    hide Held;
    hide Proves;
  }

  lemma UnregisterKeeps(c: Controller, e: Event)
    requires Inv(c) && e.Unregister?
    ensures Inv(Step(c, e)) && StepOk(c, e, Step(c, e))
  {
    hide Inv;
    hide ClaimsOf;
    hide Cancel;
    hide Lasting;
    hide Onward;
    hide VersionProven;
    RestedInv(c);
    CancelKeeps(Rested(c));
    LastingProven(c, e, Cancel(Rested(c)));
  }

  lemma RepairIdle(c: Controller)
    requires Inv(c)
    ensures Cancel(c).phase.Idle?
    ensures c.phase.Idle? || c.phase.Failed? ==> c.repair.None?
  {
  }

  lemma RequestRepairKeeps(c: Controller, e: Event)
    requires Inv(c) && e.RequestRepair?
    ensures Inv(Step(c, e)) && StepOk(c, e, Step(c, e))
  {
    hide Inv;
    hide ClaimsOf;
    hide Cancel;
    hide BeginRepair;
    hide Answered;
    hide Lasting;
    hide Onward;
    hide VersionProven;
    var t := Rested(c);
    RestedInv(c);
    RepairIdle(t);
    match c.phase {
      case Unregistering(_, _, _) => AnsweredAsks(t, e.id);
      case AwaitingUnregistered(_, _, _, _) => AnsweredAsks(t, e.id);
      case AwaitingRegistration(_, _, _) => AnsweredAsks(t, e.id);
      case Idle => BeginRepairAsks(t, e.id, e.answers);
      case _ =>
        CancelKeeps(t);
        BeginRepairAsks(Cancel(t), e.id, e.answers);
        LastingTransitive(t, Cancel(t), Step(c, e));
    }
    LastingProven(c, e, Step(c, e));
  }

  lemma ActKeeps(c: Controller, e: Event)
    requires Inv(c) && !e.Crashed?
    ensures Inv(Act(c, e)) && StepOk(c, e, Act(c, e)) && Step(c, e) == Act(c, e)
  {
    hide Inv;
    hide StepOk;
    hide Advances;
    hide Fire;
    hide RequestRegistration;
    RestedInv(c);
    match e {
      case Relaunch(_, _) => RelaunchKeeps(c, e);
      case Fired(callback, failed, a) =>
        FireKeeps(Rested(c), callback, failed, a);
        AdvancesOk(c, e, Fire(Rested(c), callback, failed, a));
      case Observe(_, _) => ObserveKeeps(c, e);
      case Request(a) =>
        BootstrapAdvances(Rested(c), a);
        AdvancesOk(c, e, RequestRegistration(Rested(c), a));
      case RequestRepair(_, _) => RequestRepairKeeps(c, e);
      case Unregister => UnregisterKeeps(c, e);
    }
  }

  /** A crash that did not happen. */
  lemma IdleStep(c: Controller, e: Event)
    requires Inv(c) && e.Crashed?
    ensures Inv(Rested(c)) && StepOk(c, e, Rested(c))
  {
    hide Inv;
    hide ClaimsOf;
    RestedInv(c);
  }

  lemma StepKeeps(c: Controller, e: Event)
    requires Inv(c)
    ensures Inv(Step(c, e)) && StepOk(c, e, Step(c, e))
  {
    hide Inv;
    hide StepOk;
    hide Act;
    hide Bootstrap;
    if !e.Crashed? {
      ActKeeps(c, e);
    } else if e.run.Crashed? || e.left !in Leavings(c, e.run) {
      IdleStep(c, e);
    } else {
      ActKeeps(c, e.run);
      CrashKeeps(c, e);
    }
  }

  lemma {:induction false} RunKeeps(c: Controller, events: seq<Event>)
    requires Inv(c)
    ensures Inv(RunEvents(c, events))
    decreases |events|
  {
    hide Inv;
    hide Step;
    if events == [] {
    } else {
      StepKeeps(c, events[0]);
      RunKeeps(Step(c, events[0]), events[1..]);
    }
  }

  // ---------------------------------------------------------------- the theorems

  /** After any launches, crashes in the middle of any run, callbacks in any order, statuses and
      requests, from any stored preferences: the persisted transaction is the live one;
      `register()` is called at most once for each attempt from the one the transaction was
      begun or resumed at; and the next step, whatever it is and wherever the process dies in
      it, leaves only a proven version, restarts no attempt and accounts for every repair. */
  lemma RegistrationSafe(bundle: nat, left: Preferences, events: seq<Event>, e: Event)
    ensures var c := RunEvents(Started(bundle, left), events);
            && Persisted(c)
            && c.history.registers <= MAXIMUM_ATTEMPTS - c.history.started
            && StepOk(c, e, Step(c, e))
  {
    hide StepOk;
    hide Step;
    var start := Started(bundle, left);
    StartedInv(bundle, left);
    RunKeeps(start, events);
    StepKeeps(RunEvents(start, events), e);
    WithinBudget(RunEvents(start, events));
  }

  lemma WithinBudget(c: Controller)
    requires Inv(c)
    ensures Persisted(c) && c.history.registers <= MAXIMUM_ATTEMPTS - c.history.started
  {
  }

  /** The steps of a run that changed the phase. */
  function Effective(c: Controller, events: seq<Event>): nat
    decreases |events|
  {
    if events == [] then 0
    else (if Step(c, events[0]).phase != c.phase then 1 else 0) + Effective(Step(c, events[0]), events[1..])
  }

  predicate Unattended(events: seq<Event>) {
    forall i :: 0 <= i < |events| ==> events[i].Fired? || events[i].Observe?
  }

  lemma UnattendedBurns(c: Controller, e: Event)
    requires Inv(c) && (e.Fired? || e.Observe?)
    ensures Step(c, e).phase == c.phase || Fuel(Step(c, e).phase) < Fuel(c.phase)
  {
    match e {
      case Fired(callback, failed, a) =>
        hide Fire;
        RestedInv(c);
        FireKeeps(Rested(c), callback, failed, a);
      case Observe(_, _) =>
    }
  }

  /** A registration ends by itself: left to its callbacks, in whatever order and with whatever
      answers, the phase changes at most 210 times. */
  lemma {:induction false} RegistrationEnds(c: Controller, events: seq<Event>)
    requires Inv(c) && Unattended(events)
    ensures Effective(c, events) + Fuel(RunEvents(c, events).phase) <= Fuel(c.phase) <= 210
    ensures Fuel(RunEvents(c, events).phase) >= 0
    decreases |events|
  {
    FuelBounds(c);
    if events == [] {
    } else {
      hide Step;
      hide Inv;
      StepKeeps(c, events[0]);
      UnattendedBurns(c, events[0]);
      assert Unattended(events[1..]);
      RegistrationEnds(Step(c, events[0]), events[1..]);
    }
  }

  lemma FuelBounds(c: Controller)
    requires Inv(c)
    ensures 0 <= Fuel(c.phase) <= 210
  {
  }

  /** And it does not stop half way: while the phase is active its callback is outstanding, and
      when that one fires the phase moves on. */
  lemma ActiveMovesOn(c: Controller, failed: bool, a: Answers)
    requires Inv(c) && Active(c.phase)
    ensures Expected(c).Some? && Expected(c).value in c.callbacks
    ensures Fuel(Fire(c, Expected(c).value, failed, a).phase) < Fuel(c.phase)
  {
    hide Fire;
    AwaitedFires(c, Expected(c).value, failed, a);
  }

  /** The next process goes on with the very attempt it finds, or ends the transaction; while
      approval is missing it keeps the record. */
  predicate Resumed(found: Stored, a: Answers, after: Controller) {
    if a.seen.entry.RequiresApproval? then after.store == found && after.phase.Idle?
    else if Active(after.phase) then
      found.Saved? && after.store.Saved? && after.phase.attempt == found.attempt == after.store.attempt
    else after.store.Missing?
  }

  /** Whatever record a launch accepts, however it came to be there. */
  lemma RecordResumes(bundle: nat, left: Preferences, a: Answers)
    requires Resumable(Started(bundle, left))
    ensures Resumed(left.transaction, a, Bootstrap(Started(bundle, left), a))
  {
    hide Inv;
    hide Resume;
    var started := Started(bundle, left);
    StartedInv(bundle, left);
    if !a.seen.entry.RequiresApproval? {
      InvPast(started);
      ResumeOpens(started, a);
      var after := Resume(started, left.transaction, a);
      assert Persisted(after) by { WithinBudget(after); }
    }
  }

  /** Neither the user nor another build starts over. */
  predicate Routine(c: Controller, e: Event) {
    !StartsOver(c, e)
  }

  /** A crash anywhere in the middle of a registration, in any run of the main actor that is
      not the user's own repair or removal: it finds the transaction ended, or the next launch
      of the same build goes on with an attempt that is not an earlier one. */
  lemma RelaunchResumes(c: Controller, run: Event, left: Preferences, a: Answers)
    requires Inv(c) && Active(c.phase) && Routine(c, run) && !run.Crashed?
    requires left in Leavings(c, run)
    ensures left.transaction.Missing? ||
            (AtLeast(c.bundle, c.phase.attempt, left.transaction) &&
             Resumed(left.transaction, a, Step(c, Crashed(run, left, c.bundle, a))))
  {
    hide Act;
    hide Bootstrap;
    ActKeeps(c, run);
    BusyLookUp(c);
    assert Persisted(c) && ExposedOk(c);
    hide Inv;
    if !left.transaction.Missing? {
      RecordResumes(c.bundle, left, a);
    }
  }

  /** The transaction ends in this step, or the step finds it ended. */
  predicate Ends(c: Controller, e: Event) {
    Step(c, e).store.Missing? || (e.Crashed? && e.left.transaction.Missing?)
  }

  /** The transaction neither ends nor is it restarted in this run. */
  ghost predicate Unended(c: Controller, events: seq<Event>)
    decreases |events|
  {
    events == [] || (Routine(c, events[0]) && !Ends(c, events[0]) && Unended(Step(c, events[0]), events[1..]))
  }

  /** However often the app crashes, wherever in a run, and is launched again, an attempt that
      was used up stays used up until the transaction ends. */
  lemma {:induction false} AttemptsNeverRegained(c: Controller, events: seq<Event>)
    requires Inv(c) && Resumable(c) && Unended(c, events)
    ensures Resumable(RunEvents(c, events)) && RunEvents(c, events).store.attempt >= c.store.attempt
    decreases |events|
  {
    if events == [] {
    } else {
      hide Step;
      hide Inv;
      StepKeeps(c, events[0]);
      AttemptsNeverRegained(Step(c, events[0]), events[1..]);
    }
  }
}
