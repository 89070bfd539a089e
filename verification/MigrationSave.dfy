/** The two-phase move of a credential to a new Keychain account
    (CredentialMigrationSaveTransaction.swift), cut at every durable effect: a step performs
    at most one journal write, configuration save or Keychain call, so that a crash can fall
    between any two. */
module MigrationSave {
  import opened Records
  import opened CredentialJournal

  /** A saved configuration: the Keychain account its user name stands for, and the rest. */
  datatype AppConfig = AppConfig(account: nat, settings: nat)

  datatype SaveOutcome = Created | UpdatedExisting | Unchanged | Deleted

  datatype Transfer = Transfer(oldAccount: Option<nat>, newAccount: nat, config: AppConfig, generation: nat)

  /** What the transaction does next; its callbacks carry the same values along. */
  datatype Saving =
    | Idle
    | Creating(t: Transfer)
    | MarkingReady(t: Transfer)
    | SavingConfig(t: Transfer)
    | Inspecting(t: Transfer)
    | MarkingSaved(t: Transfer)
    | CommittingMove(t: Transfer)
    | DeletingOld(t: Transfer)
    | Completing(t: Transfer)
    | MarkingCleanupNew(t: Transfer)
    | DeletingNew(t: Transfer)
    | RollingBack(t: Transfer)

  datatype Progress = Progress(journal: Journal, saving: Saving)

  /** The saved configuration and the existence of the new item, read back after a failed save. */
  datatype Inspection = Inspection(persisted: AppConfig, newExists: bool)

  function After(o: Outcome, next: Saving): Progress {
    Progress(o.journal, if o.error.Some? then Idle else next)
  }

  function BeginMove(j: Journal, config: AppConfig, newAccount: nat, oldAccount: Option<nat>, write: Write): Progress {
    if oldAccount.None? then Progress(j, Idle)
    else After(Perform(j, PlanStageMigration(j, oldAccount, newAccount), write),
               Creating(Transfer(oldAccount, newAccount, config, j.generation + 1)))
  }

  function OnCreated(p: Progress, created: bool): Progress {
    if !p.saving.Creating? then p
    else p.(saving := if created then MarkingReady(p.saving.t) else RollingBack(p.saving.t))
  }

  function MarkReady(p: Progress, write: Write): Progress {
    if !p.saving.MarkingReady? then p
    else After(Perform(p.journal, PlanPhase(p.journal, p.saving.t.generation, NewCredentialReady), write),
               SavingConfig(p.saving.t))
  }

  function OnConfigSaved(p: Progress, saved: bool): Progress {
    if !p.saving.SavingConfig? then p
    else p.(saving := if saved then MarkingSaved(p.saving.t) else Inspecting(p.saving.t))
  }

  /** A save that threw may still have landed: only what the file now holds decides. */
  function OnInspected(p: Progress, inspection: Option<Inspection>): Progress {
    if !p.saving.Inspecting? then p
    else if inspection.None? then p.(saving := Idle)
    else if inspection.value.persisted != p.saving.t.config then
      p.(saving := if inspection.value.newExists then MarkingCleanupNew(p.saving.t) else RollingBack(p.saving.t))
    else if !inspection.value.newExists then p.(saving := Idle)
    else if inspection.value.persisted.account == p.saving.t.newAccount then
      p.(saving := MarkingSaved(p.saving.t.(oldAccount := RecordedOld(p.journal))))
    else p.(saving := MarkingCleanupNew(p.saving.t))
  }

  function RecordedOld(j: Journal): Option<nat> {
    if j.migration.None? then None else j.migration.value.oldAccount
  }

  function MarkSaved(p: Progress, write: Write): Progress {
    if !p.saving.MarkingSaved? then p
    else After(Perform(p.journal, PlanPhase(p.journal, p.saving.t.generation, ConfigurationSaved), write),
               CommittingMove(p.saving.t))
  }

  function CommitMove(p: Progress, write: Write): Progress {
    if !p.saving.CommittingMove? then p
    else After(Perform(p.journal, PlanCommitMigration(p.journal, p.saving.t.generation), write),
               if p.saving.t.oldAccount.None? then Completing(p.saving.t) else DeletingOld(p.saving.t))
  }

  function OnOldDeleted(p: Progress, deleted: bool): Progress {
    if !p.saving.DeletingOld? then p
    else p.(saving := if deleted then Completing(p.saving.t) else Idle)
  }

  function CompleteMove(p: Progress, write: Write): Progress {
    if !p.saving.Completing? then p
    else After(Perform(p.journal, PlanCompleteMigration(p.journal, p.saving.t.generation), write), Idle)
  }

  function MarkCleanupNew(p: Progress, write: Write): Progress {
    if !p.saving.MarkingCleanupNew? then p
    else After(Perform(p.journal, PlanPhase(p.journal, p.saving.t.generation, CleanupNew), write),
               DeletingNew(p.saving.t))
  }

  function OnNewDeleted(p: Progress, deleted: bool): Progress {
    if !p.saving.DeletingNew? then p
    else p.(saving := if deleted then RollingBack(p.saving.t) else Idle)
  }

  function RollBack(p: Progress, write: Write): Progress {
    if !p.saving.RollingBack? then p
    else After(Perform(p.journal, PlanRollbackMigration(p.journal, p.saving.t.generation), write), Idle)
  }

  /** The journal writes of one run of the main thread, in order. */
  datatype Writes = Writes(mark: Write, commit: Write, last: Write)

  /** The transaction object. Each method is one run on the main thread; the answers of the
      Keychain and of the configuration store are its parameters, and `saving` stands for the
      callback it then waits for. */
  class CredentialMigrationSaveTransaction {
    const journal: CredentialMutationJournal
    var saving: Saving

    constructor (journal: CredentialMutationJournal)
      ensures this.journal == journal && saving == Idle
    {
      this.journal := journal;
      saving := Idle;
    }

    function View(): Progress
      reads this, journal
    {
      Progress(journal.state, saving)
    }

    method Start(config: AppConfig, newAccount: nat, oldAccount: Option<nat>, write: Write)
      requires journal.Valid() && saving.Idle?
      modifies this, journal
      ensures journal.Valid() && View() == BeginMove(old(journal.state), config, newAccount, oldAccount, write)
    {
      if oldAccount.None? {
        return;
      }
      var error := journal.StageMigration(oldAccount, newAccount, write);
      if error.Some? {
        return;
      }
      saving := Creating(Transfer(oldAccount, newAccount, config, journal.state.generation));
    }

    method FinishCreate(created: bool, ready: Write, saved: bool, writes: Writes)
      requires journal.Valid() && saving.Creating?
      modifies this, journal
      ensures journal.Valid()
      ensures View() ==
              CommitMove(MarkSaved(OnConfigSaved(MarkReady(RollBack(OnCreated(old(View()), created), writes.last), ready), saved),
                                   writes.mark), writes.commit)
    {
      var t := saving.t;
      if !created {
        saving := RollingBack(t);
        Rollback(writes.last);
        return;
      }
      saving := MarkingReady(t);
      var error := journal.SetMigrationPhase(t.generation, NewCredentialReady, ready);
      if error.Some? {
        saving := Idle;
        return;
      }
      if !saved {
        saving := Inspecting(t);
        return;
      }
      saving := MarkingSaved(t);
      CommitConfiguration(writes);
    }

    method FinishInspection(inspection: Option<Inspection>, writes: Writes)
      requires journal.Valid() && saving.Inspecting?
      modifies this, journal
      ensures journal.Valid()
      ensures View() ==
              CommitMove(MarkSaved(MarkCleanupNew(RollBack(OnInspected(old(View()), inspection), writes.last), writes.mark),
                                   writes.mark), writes.commit)
    {
      var t := saving.t;
      if inspection.None? {
        saving := Idle;
        return;
      }
      var Inspection(persisted, newExists) := inspection.value;
      if persisted != t.config {
        if !newExists {
          saving := RollingBack(t);
          Rollback(writes.last);
          return;
        }
        saving := MarkingCleanupNew(t);
        RemoveInactiveNew(writes.mark);
        return;
      }
      if !newExists {
        saving := Idle;
        return;
      }
      if persisted.account == t.newAccount {
        saving := MarkingSaved(t.(oldAccount := RecordedOld(journal.state)));
        CommitConfiguration(writes);
      } else {
        saving := MarkingCleanupNew(t);
        RemoveInactiveNew(writes.mark);
      }
    }

    method CommitConfiguration(writes: Writes)
      requires journal.Valid() && saving.MarkingSaved?
      modifies this, journal
      ensures journal.Valid() && View() == CommitMove(MarkSaved(old(View()), writes.mark), writes.commit)
    {
      var t := saving.t;
      var error := journal.SetMigrationPhase(t.generation, ConfigurationSaved, writes.mark);
      if error.Some? {
        saving := Idle;
        return;
      }
      error := journal.CommitMigration(t.generation, writes.commit);
      if error.Some? {
        saving := Idle;
      } else if t.oldAccount.None? {
        saving := Completing(t);
      } else {
        saving := DeletingOld(t);
      }
    }

    method FinishOldDeletion(deleted: bool, write: Write)
      requires journal.Valid() && saving.DeletingOld?
      modifies this, journal
      ensures journal.Valid() && View() == CompleteMove(OnOldDeleted(old(View()), deleted), write)
    {
      var t := saving.t;
      if deleted {
        var error := journal.CompleteMigration(t.generation, write);
      }
      saving := Idle;
    }

    method Rollback(write: Write)
      requires journal.Valid() && saving.RollingBack?
      modifies this, journal
      ensures journal.Valid() && View() == RollBack(old(View()), write)
    {
      var error := journal.RollbackMigration(saving.t.generation, write);
      saving := Idle;
    }

    method RemoveInactiveNew(write: Write)
      requires journal.Valid() && saving.MarkingCleanupNew?
      modifies this, journal
      ensures journal.Valid() && View() == MarkCleanupNew(old(View()), write)
    {
      var t := saving.t;
      var error := journal.SetMigrationPhase(t.generation, CleanupNew, write);
      saving := if error.Some? then Idle else DeletingNew(t);
    }

    method FinishNewDeletion(deleted: bool, write: Write)
      requires journal.Valid() && saving.DeletingNew?
      modifies this, journal
      ensures journal.Valid() && View() == RollBack(OnNewDeleted(old(View()), deleted), write)
    {
      if deleted {
        saving := RollingBack(saving.t);
        Rollback(write);
      } else {
        saving := Idle;
      }
    }
  }
}
