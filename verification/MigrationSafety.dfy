/** What account migration keeps in every run: crashes anywhere, any outcome of every write
    and every Keychain call, and configuration edits by others. */
module MigrationSafety {
  import opened Records
  import opened CredentialJournal
  import opened MigrationSave
  import opened MigrationRecovery
  import opened MigrationWorld

  // ---------------------------------------------------------------- what a record means

  /** A `changed` notice for the new account has been pending since this migration began. */
  ghost predicate Noticed(announced: set<(nat, nat)>, m: Migration) {
    exists g :: (m.newAccount, g) in announced && g >= m.generation
  }

  /** The item this migration created is still there. */
  predicate Created(w: World, m: Migration) {
    m.newAccount in w.items && w.items[m.newAccount] == Some(m.generation)
  }

  /** Either nothing is left of the attempt, or the move is complete and announced. */
  ghost predicate Settled(w: World, m: Migration) {
    || (m.oldAccount == Some(w.config.account) && !Created(w, m))
    || (w.config.account == m.newAccount && m.oldAccount.Some? && m.oldAccount.value !in w.items
        && Noticed(w.announced, m))
  }

  // ---------------------------------------------------------------- the invariant

  /** In a migration record, a notice or a cleanup of the old account means that a notice for
      the new account went out. */
  ghost predicate RecordOk(j: Journal, announced: set<(nat, nat)>) {
    j.migration.Some? ==>
      var m := j.migration.value;
      && m.oldAccount.Some?
      && m.oldAccount.value != m.newAccount
      && m.generation <= j.generation
      && (j.pending.Some? || j.staged.Some? || m.phase == CleanupOld ==> Noticed(announced, m))
  }

  ghost predicate PendingOk(j: Journal, announced: set<(nat, nat)>) {
    && (j.pending.Some? && j.pending.value.notice.Changed? ==>
          (j.pending.value.account, j.pending.value.generation) in announced)
    && (j.migration.Some? && j.staged.Some? ==> j.staged.value.generation > j.migration.value.generation)
  }

  ghost predicate ItemsOk(items: map<nat, Option<nat>>, generation: nat) {
    forall a :: a in items && items[a].Some? ==> items[a].value <= generation
  }

  ghost predicate Uncreated(items: map<nat, Option<nat>>, generation: nat) {
    forall a :: a in items ==> items[a] != Some(generation)
  }

  ghost predicate Owns(j: Journal, t: Transfer) {
    && j.migration.Some?
    && j.migration.value.generation == t.generation
    && j.migration.value.newAccount == t.newAccount == t.config.account
    && j.migration.value.oldAccount == t.oldAccount
  }

  /** The new item, if there is one, is the one this transaction created. */
  ghost predicate OwnItem(w: World, t: Transfer) {
    t.newAccount in w.items ==> w.items[t.newAccount] == Some(t.generation)
  }

  ghost predicate OnOld(w: World, t: Transfer) {
    !w.edited ==> Some(w.config.account) == t.oldAccount
  }

  ghost predicate OnNew(w: World, t: Transfer) {
    !w.edited ==> w.config.account == t.newAccount
  }

  ghost predicate SavingOk(w: World) {
    !w.saving.Idle? ==>
      var t := w.saving.t;
      && Owns(w.journal, t)
      && match w.saving
         case Creating(_) => OnOld(w, t) && Uncreated(w.items, t.generation)
         case MarkingReady(_) => OnOld(w, t) && OwnItem(w, t)
         case SavingConfig(_) => OnOld(w, t) && OwnItem(w, t)
         case Inspecting(_) => (OnOld(w, t) || w.config == t.config) && OwnItem(w, t)
         case MarkingSaved(_) => OnNew(w, t)
         case CommittingMove(_) => OnNew(w, t)
         case DeletingOld(_) => OnNew(w, t) && w.journal.migration.value.phase == CleanupOld
         case Completing(_) =>
           OnNew(w, t) && w.journal.migration.value.phase == CleanupOld
           && (t.oldAccount.Some? ==> t.oldAccount.value !in w.items)
         case MarkingCleanupNew(_) => OnOld(w, t) && OwnItem(w, t)
         case DeletingNew(_) => OnOld(w, t) && OwnItem(w, t)
         case RollingBack(_) => OnOld(w, t) && !Created(w, w.journal.migration.value)
         case Idle => true
  }

  /** The record recovery works on is the one in the journal; only its phase may have moved. */
  ghost predicate Follows(w: World, record: Migration) {
    && w.journal.migration.Some?
    && w.journal.migration.value.generation == record.generation
    && w.journal.migration.value.oldAccount == record.oldAccount
    && w.journal.migration.value.newAccount == record.newAccount
    && (record.phase == CleanupOld ==> Noticed(w.announced, record))
  }

  ghost predicate OldSeen(w: World, record: Migration, oldExists: Option<bool>) {
    record.oldAccount.Some? ==> oldExists == Some(record.oldAccount.value in w.items)
  }

  ghost predicate NamesNew(w: World, record: Migration) {
    !w.edited ==> w.config.account == record.newAccount
  }

  ghost predicate NamesOld(w: World, record: Migration) {
    !w.edited ==> Some(w.config.account) == record.oldAccount
  }

  ghost predicate RecoveringOk(w: World) {
    !w.recovering.Resting? ==>
      var record := w.recovering.record;
      && Follows(w, record)
      && match w.recovering
         case Resting => true
         case Probing(_) => true
         case Deciding(_, account, probe, _) =>
           && (account.Some? && !w.edited ==> account == Some(w.config.account))
           && (probe.Observed? ==> probe.newExists == (record.newAccount in w.items) && OldSeen(w, record, probe.oldExists))
         case Validating(_, oldExists) => record.newAccount in w.items && OldSeen(w, record, oldExists)
         case Validated(_, oldExists, confirmed) =>
           record.newAccount in w.items && OldSeen(w, record, oldExists) && (confirmed ==> NamesNew(w, record))
         case Retrying(_, oldExists) => record.newAccount in w.items && OldSeen(w, record, oldExists)
         case NotifyingNew(_, oldExists) => OldSeen(w, record, oldExists) && NamesNew(w, record)
         case FinishingNew(_, oldExists) =>
           OldSeen(w, record, oldExists) && NamesNew(w, record) && Noticed(w.announced, record)
         case RemovingNew(_) => true
         case RemovedNew(_, removed) => removed ==> record.newAccount !in w.items && NamesOld(w, record)
         case RemovingOld(_) => Noticed(w.announced, record)
         case RemovedOld(_, removed) =>
           && Noticed(w.announced, record)
           && (removed ==> NamesNew(w, record) && (record.oldAccount.Some? ==> record.oldAccount.value !in w.items))
  }

  ghost predicate Apart(w: World) {
    && (!w.available ==> AtRest(w))
    && (!w.running ==> !w.available)
    && (w.saving.Idle? || (w.recovering.Resting? && w.regular.NoRegular?))
    && (w.recovering.Resting? || w.regular.NoRegular?)
  }

  ghost predicate Inv(w: World) {
    && RecordOk(w.journal, w.announced)
    && PendingOk(w.journal, w.announced)
    && ItemsOk(w.items, w.journal.generation)
    && SavingOk(w)
    && RecoveringOk(w)
    && Apart(w)
  }

  // ---------------------------------------------------------------- what a step keeps

  /** The item of the account the configuration names goes away only because the user removed
      that very password, or because somebody changed the configuration under a running
      transaction. */
  ghost predicate ActiveItemKept(w: World, e: Event, after: World) {
    w.config.account in w.items && w.config.account !in after.items ==>
      || (e.RegularStep? && w.regular.Writing? && w.regular.mutation == Delete(w.config.account))
      || (e.SaveStep? && w.edited)
  }

  /** A record disappears only when its migration is settled, as far as nobody else changed
      the configuration meanwhile. */
  ghost predicate RecordSettles(w: World, after: World) {
    w.journal.migration.Some? && !Migrating(after.journal, w.journal.migration.value.generation) && !w.edited ==>
      Settled(after, w.journal.migration.value)
  }

  /** A transaction removes, under the new account, only the item that it created. */
  ghost predicate ForeignItemKept(w: World, e: Event, after: World) {
    e.SaveStep? && !w.saving.Idle? && w.saving.t.newAccount in w.items && w.saving.t.newAccount !in after.items ==>
      w.items[w.saving.t.newAccount] == Some(w.saving.t.generation)
  }

  ghost predicate StepOk(w: World, e: Event, after: World) {
    ActiveItemKept(w, e, after) && RecordSettles(w, after) && ForeignItemKept(w, e, after)
  }

  lemma KeepsCreating(w: World, a: Answer)
    requires Inv(w) && w.saving.Creating?
    ensures Inv(StepSave(w, a)) && StepOk(w, SaveStep(a), StepSave(w, a))
  {
  }

  lemma KeepsMarkingReady(w: World, a: Answer)
    requires Inv(w) && w.saving.MarkingReady?
    ensures Inv(StepSave(w, a)) && StepOk(w, SaveStep(a), StepSave(w, a))
  {
  }

  lemma KeepsSavingConfig(w: World, a: Answer)
    requires Inv(w) && w.saving.SavingConfig?
    ensures Inv(StepSave(w, a)) && StepOk(w, SaveStep(a), StepSave(w, a))
  {
  }

  lemma KeepsInspecting(w: World, a: Answer)
    requires Inv(w) && w.saving.Inspecting?
    ensures Inv(StepSave(w, a)) && StepOk(w, SaveStep(a), StepSave(w, a))
  {
  }

  lemma KeepsMarkingSaved(w: World, a: Answer)
    requires Inv(w) && w.saving.MarkingSaved?
    ensures Inv(StepSave(w, a)) && StepOk(w, SaveStep(a), StepSave(w, a))
  {
  }

  lemma KeepsCommittingMove(w: World, a: Answer)
    requires Inv(w) && w.saving.CommittingMove?
    ensures Inv(StepSave(w, a)) && StepOk(w, SaveStep(a), StepSave(w, a))
  {
  }

  lemma KeepsDeletingOld(w: World, a: Answer)
    requires Inv(w) && w.saving.DeletingOld?
    ensures Inv(StepSave(w, a)) && StepOk(w, SaveStep(a), StepSave(w, a))
  {
  }

  lemma KeepsCompleting(w: World, a: Answer)
    requires Inv(w) && w.saving.Completing?
    ensures Inv(StepSave(w, a)) && StepOk(w, SaveStep(a), StepSave(w, a))
  {
  }

  lemma KeepsMarkingCleanupNew(w: World, a: Answer)
    requires Inv(w) && w.saving.MarkingCleanupNew?
    ensures Inv(StepSave(w, a)) && StepOk(w, SaveStep(a), StepSave(w, a))
  {
  }

  lemma KeepsDeletingNew(w: World, a: Answer)
    requires Inv(w) && w.saving.DeletingNew?
    ensures Inv(StepSave(w, a)) && StepOk(w, SaveStep(a), StepSave(w, a))
  {
  }

  lemma KeepsRollingBack(w: World, a: Answer)
    requires Inv(w) && w.saving.RollingBack?
    ensures Inv(StepSave(w, a)) && StepOk(w, SaveStep(a), StepSave(w, a))
  {
  }

  lemma KeepsProbing(w: World, a: Answer)
    requires Inv(w) && w.recovering.Probing?
    ensures Inv(StepRecovery(w, a)) && StepOk(w, RecoveryStep(a), StepRecovery(w, a))
  {
  }

  lemma DecidingHold(w: World, a: Answer)
    requires Inv(w) && w.recovering.Deciding?
    requires Decide(w.recovering.record, w.recovering.account, w.recovering.probe).Hold?
    ensures Inv(StepRecovery(w, a)) && StepOk(w, RecoveryStep(a), StepRecovery(w, a))
  {
  }

  lemma DecidingDiscard(w: World, a: Answer)
    requires Inv(w) && w.recovering.Deciding?
    requires Decide(w.recovering.record, w.recovering.account, w.recovering.probe).Discard?
    ensures Inv(StepRecovery(w, a)) && StepOk(w, RecoveryStep(a), StepRecovery(w, a))
  {
  }

  lemma DecidingRemoveNew(w: World, a: Answer)
    requires Inv(w) && w.recovering.Deciding?
    requires Decide(w.recovering.record, w.recovering.account, w.recovering.probe).RemoveNew?
    ensures Inv(StepRecovery(w, a)) && StepOk(w, RecoveryStep(a), StepRecovery(w, a))
  {
  }

  lemma DecidingUseNew(w: World, a: Answer)
    requires Inv(w) && w.recovering.Deciding?
    requires Decide(w.recovering.record, w.recovering.account, w.recovering.probe).UseNew?
    ensures Inv(StepRecovery(w, a)) && StepOk(w, RecoveryStep(a), StepRecovery(w, a))
  {
  }

  lemma KeepsDeciding(w: World, a: Answer)
    requires Inv(w) && w.recovering.Deciding?
    ensures Inv(StepRecovery(w, a)) && StepOk(w, RecoveryStep(a), StepRecovery(w, a))
  {
    hide Inv;
    hide StepOk;
    hide StepRecovery;
    hide Decide;
    match Decide(w.recovering.record, w.recovering.account, w.recovering.probe) {
      case Hold => DecidingHold(w, a);
      case Discard => DecidingDiscard(w, a);
      case RemoveNew => DecidingRemoveNew(w, a);
      case UseNew(_) => DecidingUseNew(w, a);
    }
  }

  lemma KeepsValidating(w: World, a: Answer)
    requires Inv(w) && w.recovering.Validating?
    ensures Inv(StepRecovery(w, a)) && StepOk(w, RecoveryStep(a), StepRecovery(w, a))
  {
  }

  lemma KeepsValidated(w: World, a: Answer)
    requires Inv(w) && w.recovering.Validated?
    ensures Inv(StepRecovery(w, a)) && StepOk(w, RecoveryStep(a), StepRecovery(w, a))
  {
  }

  lemma KeepsRetrying(w: World, a: Answer)
    requires Inv(w) && w.recovering.Retrying?
    ensures Inv(StepRecovery(w, a)) && StepOk(w, RecoveryStep(a), StepRecovery(w, a))
  {
  }

  lemma KeepsNotifyingNew(w: World, a: Answer)
    requires Inv(w) && w.recovering.NotifyingNew?
    ensures Inv(StepRecovery(w, a)) && StepOk(w, RecoveryStep(a), StepRecovery(w, a))
  {
  }

  lemma KeepsFinishingNew(w: World, a: Answer)
    requires Inv(w) && w.recovering.FinishingNew?
    ensures Inv(StepRecovery(w, a)) && StepOk(w, RecoveryStep(a), StepRecovery(w, a))
  {
  }

  lemma KeepsRemovingNew(w: World, a: Answer)
    requires Inv(w) && w.recovering.RemovingNew?
    ensures Inv(StepRecovery(w, a)) && StepOk(w, RecoveryStep(a), StepRecovery(w, a))
  {
  }

  lemma KeepsRemovedNew(w: World, a: Answer)
    requires Inv(w) && w.recovering.RemovedNew?
    ensures Inv(StepRecovery(w, a)) && StepOk(w, RecoveryStep(a), StepRecovery(w, a))
  {
  }

  lemma KeepsRemovingOld(w: World, a: Answer)
    requires Inv(w) && w.recovering.RemovingOld?
    ensures Inv(StepRecovery(w, a)) && StepOk(w, RecoveryStep(a), StepRecovery(w, a))
  {
  }

  lemma KeepsRemovedOld(w: World, a: Answer)
    requires Inv(w) && w.recovering.RemovedOld?
    ensures Inv(StepRecovery(w, a)) && StepOk(w, RecoveryStep(a), StepRecovery(w, a))
  {
  }

  lemma KeepsLaunch(w: World, e: Event)
    requires Inv(w) && e.Launch?
    ensures Inv(Step(w, e)) && StepOk(w, e, Step(w, e))
  {
  }

  lemma KeepsRetry(w: World, e: Event)
    requires Inv(w) && e.Retry?
    ensures Inv(Step(w, e)) && StepOk(w, e, Step(w, e))
  {
  }

  lemma KeepsCrash(w: World, e: Event)
    requires Inv(w) && e.Crash?
    ensures Inv(Step(w, e)) && StepOk(w, e, Step(w, e))
  {
  }

  lemma KeepsConfigure(w: World, e: Event)
    requires Inv(w) && e.Configure?
    ensures Inv(Step(w, e)) && StepOk(w, e, Step(w, e))
  {
  }

  lemma KeepsStartMove(w: World, e: Event)
    requires Inv(w) && e.StartMove?
    ensures Inv(Step(w, e)) && StepOk(w, e, Step(w, e))
  {
  }

  lemma KeepsStartRegular(w: World, e: Event)
    requires Inv(w) && e.StartRegular?
    ensures Inv(Step(w, e)) && StepOk(w, e, Step(w, e))
  {
  }

  lemma KeepsWriting(w: World, a: Answer)
    requires Inv(w) && w.regular.Writing?
    ensures Inv(StepRegular(w, a)) && StepOk(w, RegularStep(a), StepRegular(w, a))
  {
  }

  lemma KeepsConcluding(w: World, a: Answer)
    requires Inv(w) && w.regular.Concluding?
    ensures Inv(StepRegular(w, a)) && StepOk(w, RegularStep(a), StepRegular(w, a))
  {
  }

  lemma KeepsRecover(w: World, e: Event)
    requires Inv(w) && e.Recover?
    ensures Inv(Step(w, e)) && StepOk(w, e, Step(w, e))
  {
  }

  lemma KeepsDeliver(w: World, e: Event)
    requires Inv(w) && e.Deliver?
    ensures Inv(Step(w, e)) && StepOk(w, e, Step(w, e))
  {
  }

  lemma SaveStepKeeps(w: World, a: Answer)
    requires Inv(w)
    ensures Inv(StepSave(w, a)) && StepOk(w, SaveStep(a), StepSave(w, a))
  {
    hide Inv;
    hide StepOk;
    match w.saving {
      case Idle => RestingStepKeeps(w, SaveStep(a));
      case Creating(_) => KeepsCreating(w, a);
      case MarkingReady(_) => KeepsMarkingReady(w, a);
      case SavingConfig(_) => KeepsSavingConfig(w, a);
      case Inspecting(_) => KeepsInspecting(w, a);
      case MarkingSaved(_) => KeepsMarkingSaved(w, a);
      case CommittingMove(_) => KeepsCommittingMove(w, a);
      case DeletingOld(_) => KeepsDeletingOld(w, a);
      case Completing(_) => KeepsCompleting(w, a);
      case MarkingCleanupNew(_) => KeepsMarkingCleanupNew(w, a);
      case DeletingNew(_) => KeepsDeletingNew(w, a);
      case RollingBack(_) => KeepsRollingBack(w, a);
    }
  }

  lemma RecoveryStepKeeps(w: World, a: Answer)
    requires Inv(w)
    ensures Inv(StepRecovery(w, a)) && StepOk(w, RecoveryStep(a), StepRecovery(w, a))
  {
    hide Inv;
    hide StepOk;
    match w.recovering {
      case Resting => RestingStepKeeps(w, RecoveryStep(a));
      case Probing(_) => KeepsProbing(w, a);
      case Deciding(_, _, _, _) => KeepsDeciding(w, a);
      case Validating(_, _) => KeepsValidating(w, a);
      case Validated(_, _, _) => KeepsValidated(w, a);
      case Retrying(_, _) => KeepsRetrying(w, a);
      case NotifyingNew(_, _) => KeepsNotifyingNew(w, a);
      case FinishingNew(_, _) => KeepsFinishingNew(w, a);
      case RemovingNew(_) => KeepsRemovingNew(w, a);
      case RemovedNew(_, _) => KeepsRemovedNew(w, a);
      case RemovingOld(_) => KeepsRemovingOld(w, a);
      case RemovedOld(_, _) => KeepsRemovedOld(w, a);
    }
  }

  /** A step of something that is not under way changes nothing. */
  lemma RestingStepKeeps(w: World, e: Event)
    requires Inv(w)
    ensures StepOk(w, e, w)
  {
  }

  lemma StepKeeps(w: World, e: Event)
    requires Inv(w)
    ensures Inv(Step(w, e)) && StepOk(w, e, Step(w, e))
  {
    hide Inv;
    hide StepOk;
    hide StepSave;
    hide StepRegular;
    hide StepRecovery;
    match e {
      case Launch(_) => KeepsLaunch(w, e);
      case Retry(_) => KeepsRetry(w, e);
      case Crash => KeepsCrash(w, e);
      case Configure(_) => KeepsConfigure(w, e);
      case StartMove(_, _) => KeepsStartMove(w, e);
      case SaveStep(a) => SaveStepKeeps(w, a);
      case StartRegular(_, _, _) => KeepsStartRegular(w, e);
      case RegularStep(a) => RegularStepKeeps(w, a);
      case Recover => KeepsRecover(w, e);
      case RecoveryStep(a) => RecoveryStepKeeps(w, a);
      case Deliver(_, _) => KeepsDeliver(w, e);
    }
  }

  lemma RegularStepKeeps(w: World, a: Answer)
    requires Inv(w)
    ensures Inv(StepRegular(w, a)) && StepOk(w, RegularStep(a), StepRegular(w, a))
  {
    hide Inv;
    hide StepOk;
    match w.regular {
      case NoRegular => RestingStepKeeps(w, RegularStep(a));
      case Writing(_, _) => KeepsWriting(w, a);
      case Concluding(_, _) => KeepsConcluding(w, a);
    }
  }

  lemma InitialInv(w: World)
    requires Initial(w)
    ensures Inv(w)
  {
  }

  lemma {:induction false} RunKeeps(w: World, events: seq<Event>)
    requires Inv(w)
    ensures Inv(Run(w, events))
    decreases |events|
  {
    hide Inv;
    hide Step;
    if events == [] {
    } else {
      StepKeeps(w, events[0]);
      RunKeeps(Step(w, events[0]), events[1..]);
    }
  }

  // ---------------------------------------------------------------- the theorems

  /** Account-migration crash safety. From any configuration and any items, after any events
      (crashes at every point, launches, recoveries, edits, any outcome of every write and
      Keychain call): recovery never removes the item of the account the configuration names,
      the transactions remove it only when the user asked for it or when somebody edited the
      configuration under them; and a migration record disappears only when the migration is
      undone, or done and announced. */
  lemma MigrationSafe(w: World, events: seq<Event>, e: Event)
    requires Initial(w)
    ensures StepOk(Run(w, events), e, Step(Run(w, events), e))
  {
    hide Inv;
    hide StepOk;
    hide Step;
    InitialInv(w);
    RunKeeps(w, events);
    StepKeeps(Run(w, events), e);
  }

  const GOOD := Answer(Durable, true, true, true)

  /** Recovery with nobody interfering and every call succeeding. */
  function Advance(w: World, steps: nat): World
    decreases steps
  {
    if steps == 0 then w else Advance(StepRecovery(w, GOOD), steps - 1)
  }

  function Recovered(w: World): World {
    Advance(Step(w, Recover), 8)
  }

  /** What a user can check before a launch: the configuration names the old account and no
      notice for the new one waits, or it names the new account, whose item exists, and no
      notice for another account waits. */
  predicate Recoverable(w: World, m: Migration) {
    || (Some(w.config.account) == m.oldAccount && !PendingFor(w.journal, m.newAccount))
    || (w.config.account == m.newAccount && m.newAccount in w.items
        && (w.journal.pending.None? || PendingFor(w.journal, m.newAccount)))
  }

  predicate Ready(w: World) {
    w.available && AtRest(w) && w.journal.migration.Some?
  }

  lemma {:induction false} AdvanceResting(w: World, steps: nat)
    requires w.recovering.Resting?
    ensures Advance(w, steps) == w
    decreases steps
  {
    if steps == 0 {
    } else {
      AdvanceResting(w, steps - 1);
    }
  }

  function G(w: World): World {
    StepRecovery(w, GOOD)
  }

  lemma Advance2(w: World)
    requires G(G(w)).recovering.Resting?
    ensures Advance(w, 8) == G(G(w))
  {
    hide StepRecovery;
    AdvanceResting(G(G(w)), 6);
    assert Advance(w, 8) == Advance(G(w), 7) == Advance(G(G(w)), 6);
  }

  lemma Advance4(w: World)
    requires G(G(G(G(w)))).recovering.Resting?
    ensures Advance(w, 8) == G(G(G(G(w))))
  {
    hide StepRecovery;
    AdvanceResting(G(G(G(G(w)))), 4);
    assert Advance(w, 8) == Advance(G(w), 7) == Advance(G(G(w)), 6);
    assert Advance(G(G(w)), 6) == Advance(G(G(G(w))), 5) == Advance(G(G(G(G(w)))), 4);
  }

  lemma Advance5(w: World, steps: nat)
    requires steps >= 5
    ensures Advance(w, steps) == Advance(G(G(G(G(G(w))))), steps - 5)
  {
    hide StepRecovery;
    assert Advance(w, steps) == Advance(G(w), steps - 1) == Advance(G(G(w)), steps - 2);
    assert Advance(G(G(w)), steps - 2) == Advance(G(G(G(w))), steps - 3) == Advance(G(G(G(G(w)))), steps - 4);
  }

  /** Recovery after its probe. */
  function Probed(w: World): World {
    G(Step(w, Recover))
  }

  lemma ProbedIs(w: World)
    requires Ready(w) && Inv(w)
    ensures var m := w.journal.migration.value;
            && m.oldAccount.Some? && m.oldAccount.value != m.newAccount
            && Probed(w).recovering
               == Deciding(m, Some(w.config.account),
                           Observed(m.newAccount in w.items, Some(m.oldAccount.value in w.items)), false)
            && Probed(w).journal == w.journal && Probed(w).items == w.items && Probed(w).config == w.config
  {
  }

  ghost predicate Undone(w: World, r: World) {
    && r.journal.migration.None?
    && r.recovering.Resting?
    && r.config == w.config
  }

  lemma RecoveryDiscards(w: World)
    requires Ready(w) && Inv(w)
    requires var m := w.journal.migration.value;
             Some(w.config.account) == m.oldAccount && !PendingFor(w.journal, m.newAccount) && m.newAccount !in w.items
    ensures Undone(w, Recovered(w)) && Recovered(w).items == w.items
  {
    hide Inv;
    ProbedIs(w);
    var r := G(Probed(w));
    assert r.recovering.Resting? && r.journal.migration.None?;
    Advance2(Step(w, Recover));
  }

  lemma RecoveryRemovesNew(w: World)
    requires Ready(w) && Inv(w)
    requires var m := w.journal.migration.value;
             Some(w.config.account) == m.oldAccount && !PendingFor(w.journal, m.newAccount) && m.newAccount in w.items
    ensures Undone(w, Recovered(w)) && Recovered(w).items == w.items - {w.journal.migration.value.newAccount}
  {
    hide Inv;
    ProbedIs(w);
    var m := w.journal.migration.value;
    var r := G(Probed(w));
    assert r.recovering == RemovingNew(m) && Migrating(r.journal, m.generation) && r.config == w.config && r.items == w.items;
    var d := G(r);
    assert d.recovering == RemovedNew(m, true) && d.journal == r.journal && d.items == w.items - {m.newAccount};
    assert G(d).recovering.Resting? && G(d).journal.migration.None?;
    Advance4(Step(w, Recover));
  }

  /** The tail of every path under the new account: an old item that is left is removed. */
  ghost predicate Finished(w: World, m: Migration, r: World) {
    && r.recovering.Resting?
    && r.journal.migration.None?
    && r.config == w.config
    && m.oldAccount.Some?
    && r.items == w.items - {m.oldAccount.value}
  }

  /** `r` is at the step that settles the new configuration, with nothing else changed. */
  ghost predicate Settling(w: World, m: Migration, r: World) {
    && m.oldAccount.Some?
    && r.config == w.config && r.items == w.items
    && w.config.account == m.newAccount
    && Migrating(r.journal, m.generation)
  }

  /** What one more step with a settled notice leads to. */
  ghost predicate Tail(w: World, m: Migration, r: World) {
    if m.oldAccount.Some? && m.oldAccount.value in w.items then
      && Settling(w, m, r) && r.recovering == RemovingOld(m)
    else
      && m.oldAccount.Some?
      && r.recovering.Resting? && r.journal.migration.None? && r.config == w.config && r.items == w.items
  }

  lemma TailFinishes(w: World, m: Migration, r: World)
    requires Tail(w, m, r)
    ensures Finished(w, m, G(G(r)))
  {
  }

  lemma RecoverySettlesOld(w: World)
    requires Ready(w) && Inv(w)
    requires var m := w.journal.migration.value;
             w.config.account == m.newAccount && m.newAccount in w.items && NoticeSettled(w.journal, m)
    ensures Finished(w, w.journal.migration.value, Recovered(w))
  {
    hide Inv;
    hide Tail;
    hide Finished;
    ProbedIs(w);
    var m := w.journal.migration.value;
    var r := G(Probed(w));
    assert Tail(w, m, r) by { SettlesAtOnce(w); }
    TailFinishes(w, m, r);
    assert G(G(r)).recovering.Resting? by { FinishedRests(w, m, G(G(r))); }
    Advance4(Step(w, Recover));
  }

  lemma FinishedRests(w: World, m: Migration, r: World)
    requires Finished(w, m, r)
    ensures r.recovering.Resting?
  {
  }

  lemma SettlesAtOnce(w: World)
    requires Ready(w) && Inv(w)
    requires var m := w.journal.migration.value;
             w.config.account == m.newAccount && m.newAccount in w.items && NoticeSettled(w.journal, m)
    ensures Tail(w, w.journal.migration.value, G(Probed(w)))
  {
    hide Inv;
    ProbedIs(w);
  }

  lemma NotifiesFirst(w: World)
    requires Ready(w) && Inv(w)
    requires var m := w.journal.migration.value;
             w.config.account == m.newAccount && m.newAccount in w.items && NeedsNotice(w.journal, m)
    ensures var m := w.journal.migration.value;
            var v := G(G(Probed(w)));
            && v.recovering == Validated(m, Some(m.oldAccount.value in w.items), true)
            && v.journal == w.journal && v.items == w.items && v.config == w.config
            && m.oldAccount.Some?
  {
    hide Inv;
    ProbedIs(w);
    var m := w.journal.migration.value;
    var r := G(Probed(w));
    assert r.recovering == Validating(m, Some(m.oldAccount.value in w.items));
  }

  lemma NotifiesThenSettles(w: World, m: Migration, v: World)
    requires w.journal.migration == Some(m) && m.oldAccount.Some? && w.config.account == m.newAccount
    requires NeedsNotice(w.journal, m)
    requires v.recovering == Validated(m, Some(m.oldAccount.value in w.items), true)
    requires v.journal == w.journal && v.items == w.items && v.config == w.config
    ensures Tail(w, m, G(G(G(v))))
  {
    var n := G(v);
    assert n.recovering == NotifyingNew(m, Some(m.oldAccount.value in w.items));
    assert n.journal == w.journal.(migration := Some(m.(phase := ConfigurationSaved)));
    var f := G(n);
    assert f.recovering == FinishingNew(m, Some(m.oldAccount.value in w.items));
  }

  lemma RecoveryNotifies(w: World)
    requires Ready(w) && Inv(w)
    requires var m := w.journal.migration.value;
             w.config.account == m.newAccount && m.newAccount in w.items && NeedsNotice(w.journal, m)
    ensures Finished(w, w.journal.migration.value, Recovered(w))
  {
    hide Inv;
    hide Tail;
    hide Finished;
    hide StepRecovery;
    NotifiesFirst(w);
    var m := w.journal.migration.value;
    var v := G(G(Probed(w)));
    NotifiesThenSettles(w, m, v);
    var t := G(G(G(v)));
    TailFinishes(w, m, t);
    var b := Step(w, Recover);
    Advance5(b, 8);
    assert t == G(G(G(G(G(G(b))))));
    assert Advance(b, 8) == G(G(t)) by {
      assert Advance(G(G(G(G(G(b))))), 3) == Advance(t, 2) == Advance(G(t), 1) == Advance(G(G(t)), 0);
    }
  }

  lemma RecoveryHolds(w: World)
    requires Ready(w) && Inv(w)
    requires !Recoverable(w, w.journal.migration.value)
    ensures var r := Recovered(w);
            r.journal == w.journal && r.items == w.items && r.config == w.config && r.recovering.Resting?
  {
    hide Inv;
    ProbedIs(w);
    var r := G(Probed(w));
    assert r.recovering.Resting? && r.journal == w.journal;
    assert G(r) == r;
    Advance2(Step(w, Recover));
  }

  /** The recovery of a launch that nobody disturbs, from any reachable state with a record
      left: the record disappears exactly when it is recoverable, and otherwise nothing at all
      changes. A recoverable one ends undone under the old account, the new item removed, or
      complete under the new one, the old item removed. */
  lemma RecoveryConverges(w: World)
    requires Ready(w) && Inv(w)
    ensures var m := w.journal.migration.value;
            var r := Recovered(w);
            && r.recovering.Resting? && r.config == w.config
            && (r.journal.migration.None? <==> Recoverable(w, m))
            && (Recoverable(w, m) && Some(w.config.account) == m.oldAccount ==> r.items == w.items - {m.newAccount})
            && (Recoverable(w, m) && w.config.account == m.newAccount && m.oldAccount.Some? ==>
                  r.items == w.items - {m.oldAccount.value})
            && (!Recoverable(w, m) ==> r.journal == w.journal && r.items == w.items)
  {
    hide StepRecovery;
    hide Recovered;
    var m := w.journal.migration.value;
    assert m.oldAccount.Some? && m.oldAccount.value != m.newAccount;
    if !Recoverable(w, m) {
      RecoveryHolds(w);
    } else if Some(w.config.account) == m.oldAccount {
      if m.newAccount in w.items {
        RecoveryRemovesNew(w);
      } else {
        RecoveryDiscards(w);
      }
    } else if NeedsNotice(w.journal, m) {
      RecoveryNotifies(w);
    } else {
      RecoverySettlesOld(w);
    }
  }

  // ---------------------------------------------------------------- where the source differs from its promise

  const STRANGER := World(AppConfig(1, 0), map[1 := None, 2 := None], EMPTY_JOURNAL, false, false,
                          Idle, NoRegular, Resting, false, {})

  /** `KeychainStore.create` refuses to touch an item that is already there, and so does the
      transaction (`ForeignItemKept`). But a crash between the staged record and the answer
      of the creation makes the next launch remove that item: recovery cannot tell whose it
      is. By `RecoveryConverges` it removes the new account's item exactly when the
      configuration names the old account and no notice for the new one waits. */
  lemma CrashRemovesForeignItem()
    ensures Initial(STRANGER) && 2 in STRANGER.items
    ensures var staged := Run(STRANGER, [Launch(Durable), StartMove(AppConfig(2, 0), Durable)]);
            var relaunched := Run(staged, [Crash, Launch(Durable)]);
            && Ready(relaunched) && Inv(relaunched)
            && 2 in relaunched.items && 2 !in Recovered(relaunched).items
  {
    var launched := Step(STRANGER, Launch(Durable));
    var staged := Step(launched, StartMove(AppConfig(2, 0), Durable));
    assert staged.saving == Creating(Transfer(Some(1), 2, AppConfig(2, 0), 1));
    var crashed := Step(staged, Crash);
    var relaunched := Step(crashed, Launch(Durable));
    assert relaunched.journal.migration == Some(Migration(1, Some(1), 2, Staged));
    assert Run(STRANGER, [Launch(Durable), StartMove(AppConfig(2, 0), Durable)]) == staged by {
      assert [Launch(Durable), StartMove(AppConfig(2, 0), Durable)][1..] == [StartMove(AppConfig(2, 0), Durable)];
    }
    assert Run(staged, [Crash, Launch(Durable)]) == relaunched by {
      assert [Crash, Launch(Durable)][1..] == [Launch(Durable)];
    }
    InitialInv(STRANGER);
    RunKeeps(STRANGER, [Launch(Durable), StartMove(AppConfig(2, 0), Durable)]);
    RunKeeps(staged, [Crash, Launch(Durable)]);
    RecoveryConverges(relaunched);
  }

  /** The transaction, unlike recovery, does not read the configuration again before it
      deletes: it removes the item of the account the configuration names exactly when the
      configuration was turned back to the old account under it. */
  lemma TransactionTrustsSettings(w: World, a: Answer)
    requires Inv(w) && w.saving.DeletingOld? && a.ok && w.config.account in w.items
    ensures w.config.account !in StepSave(w, a).items <==> Some(w.config.account) == w.saving.t.oldAccount
  {
  }
}
