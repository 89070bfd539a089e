/** Reconciling a migration record that outlived its transaction
    (CredentialMigrationRecovery.swift and its Cleanup extension), again cut at every effect. */
module MigrationRecovery {
  import opened Records
  import opened CredentialJournal

  /** Attribute-only observations; an error is never taken for an absent item. */
  datatype Probe = Observed(newExists: bool, oldExists: Option<bool>) | Inconclusive

  datatype Decision = RemoveNew | UseNew(oldExists: Option<bool>) | Discard | Hold

  function Decide(record: Migration, currentAccount: Option<nat>, probe: Probe): Decision {
    if !probe.Observed? || currentAccount.None? || record.oldAccount.None?
       || record.oldAccount.value == record.newAccount then Hold
    else if currentAccount.value != record.newAccount then
      if record.oldAccount != currentAccount then Hold
      else if probe.newExists then RemoveNew else Discard
    else if !probe.newExists then Hold
    else UseNew(probe.oldExists)
  }

  /** What recovery does next. `record` is the record as it was when recovery began; its phase
      may have grown old since. */
  datatype Recovering =
    | Resting
    | Probing(record: Migration)
    | Deciding(record: Migration, account: Option<nat>, probe: Probe, validated: bool)
    | Validating(record: Migration, oldExists: Option<bool>)
    | Validated(record: Migration, oldExists: Option<bool>, confirmed: bool)
    | Retrying(record: Migration, oldExists: Option<bool>)
    | NotifyingNew(record: Migration, oldExists: Option<bool>)
    | FinishingNew(record: Migration, oldExists: Option<bool>)
    | RemovingNew(record: Migration)
    | RemovedNew(record: Migration, removed: bool)
    | RemovingOld(record: Migration)
    | RemovedOld(record: Migration, removed: bool)

  datatype Repair = Repair(journal: Journal, recovering: Recovering)

  function InFlight(r: Recovering): Option<nat> {
    if r.Resting? then None else Some(r.record.generation)
  }

  function Then(o: Outcome, next: Recovering): Repair {
    Repair(o.journal, if o.error.Some? then Resting else next)
  }

  /** `journal.pending?.account == account` */
  predicate PendingFor(j: Journal, account: nat) {
    j.pending.Some? && j.pending.value.account == account
  }

  function BeginRecovery(p: Repair): Repair {
    if !p.recovering.Resting? || p.journal.migration.None? then p
    else p.(recovering := Probing(p.journal.migration.value))
  }

  function OnProbed(p: Repair, account: Option<nat>, probe: Probe): Repair {
    if !p.recovering.Probing? then p
    else p.(recovering := Deciding(p.recovering.record, account, probe, false))
  }

  function DiscardRecord(j: Journal, record: Migration, write: Write): Repair {
    if PendingFor(j, record.newAccount) then Repair(j, Resting)
    else Then(Perform(j, PlanCompleteMigration(j, record.generation), write), Resting)
  }

  function RemoveInactiveNew(j: Journal, record: Migration, write: Write): Repair {
    if PendingFor(j, record.newAccount) then Repair(j, Resting)
    else Then(Perform(j, PlanPhase(j, record.generation, CleanupNew), write), RemovingNew(record))
  }

  /** The old item is gone already, or its cleanup is written down before it is deleted. */
  function SettleNew(j: Journal, record: Migration, oldExists: Option<bool>, write: Write): Repair {
    if record.oldAccount.None? || oldExists != Some(true) then
      Then(Perform(j, PlanCompleteMigration(j, record.generation), write), Resting)
    else Then(Perform(j, PlanPhase(j, record.generation, CleanupOld), write), RemovingOld(record))
  }

  predicate NeedsNotice(j: Journal, record: Migration) {
    j.pending.None? && record.phase != CleanupOld
  }

  /** May the old item go without another notice: one for the new account is pending, or the
      record says that it was delivered. */
  predicate NoticeSettled(j: Journal, record: Migration) {
    PendingFor(j, record.newAccount) || (record.phase == CleanupOld && j.pending.None?)
  }

  function UseNewConfiguration(j: Journal, record: Migration, oldExists: Option<bool>, validated: bool, write: Write)
    : Repair
  {
    if NeedsNotice(j, record) then
      if !validated then Repair(j, Validating(record, oldExists))
      else Then(Perform(j, PlanPhase(j, record.generation, ConfigurationSaved), write), NotifyingNew(record, oldExists))
    else if !NoticeSettled(j, record) then Repair(j, Resting)
    else SettleNew(j, record, oldExists, write)
  }

  function FinishRecovery(p: Repair, write: Write): Repair {
    if !p.recovering.Deciding? then p
    else
      var record := p.recovering.record;
      if !Migrating(p.journal, record.generation) then p.(recovering := Resting)
      else match Decide(record, p.recovering.account, p.recovering.probe)
           case Hold => p.(recovering := Resting)
           case Discard => DiscardRecord(p.journal, record, write)
           case RemoveNew => RemoveInactiveNew(p.journal, record, write)
           case UseNew(oldExists) =>
             UseNewConfiguration(p.journal, record, oldExists, p.recovering.validated, write)
  }

  function OnValidated(p: Repair, confirmed: bool): Repair {
    if !p.recovering.Validating? then p
    else p.(recovering := Validated(p.recovering.record, p.recovering.oldExists, confirmed))
  }

  function FinishValidation(p: Repair, write: Write): Repair {
    if !p.recovering.Validated? then p
    else if !Migrating(p.journal, p.recovering.record.generation) then p.(recovering := Resting)
    else if !p.recovering.confirmed then p.(recovering := Retrying(p.recovering.record, p.recovering.oldExists))
    else UseNewConfiguration(p.journal, p.recovering.record, p.recovering.oldExists, true, write)
  }

  function OnReread(p: Repair, account: Option<nat>): Repair {
    if !p.recovering.Retrying? then p
    else if account.None? then p.(recovering := Resting)
    else p.(recovering := Deciding(p.recovering.record, account, Observed(true, p.recovering.oldExists), true))
  }

  function NotifyNew(p: Repair, write: Write): Repair {
    if !p.recovering.NotifyingNew? then p
    else Then(Perform(p.journal, PlanCommitMigration(p.journal, p.recovering.record.generation), write),
              FinishingNew(p.recovering.record, p.recovering.oldExists))
  }

  function FinishNew(p: Repair, write: Write): Repair {
    if !p.recovering.FinishingNew? then p
    else SettleNew(p.journal, p.recovering.record, p.recovering.oldExists, write)
  }

  function OnNewRemoved(p: Repair, removed: bool): Repair {
    if !p.recovering.RemovingNew? then p else p.(recovering := RemovedNew(p.recovering.record, removed))
  }

  function FinishNewCleanup(p: Repair, write: Write): Repair {
    if !p.recovering.RemovedNew? then p
    else if !p.recovering.removed then p.(recovering := Resting)
    else Then(Perform(p.journal, PlanRollbackMigration(p.journal, p.recovering.record.generation), write), Resting)
  }

  function OnOldRemoved(p: Repair, removed: bool): Repair {
    if !p.recovering.RemovingOld? then p else p.(recovering := RemovedOld(p.recovering.record, removed))
  }

  function FinishOldCleanup(p: Repair, write: Write): Repair {
    if !p.recovering.RemovedOld? then p
    else if !p.recovering.removed then p.(recovering := Resting)
    else Then(Perform(p.journal, PlanCompleteMigration(p.journal, p.recovering.record.generation), write), Resting)
  }

  /** The journal writes of one run of the main thread, in order. */
  datatype RepairWrites = RepairWrites(first: Write, notice: Write, last: Write)

  /** The reconciler object. `recovering` stands for the closure that waits on the worker or
      on the main queue; what that closure read is passed to the method it calls. */
  class CredentialMigrationReconciler {
    const journal: CredentialMutationJournal
    var inFlightGeneration: Option<nat>
    var recovering: Recovering

    constructor (journal: CredentialMutationJournal)
      ensures this.journal == journal && recovering == Resting && inFlightGeneration == None
    {
      this.journal := journal;
      inFlightGeneration := None;
      recovering := Resting;
    }

    ghost predicate Valid()
      reads this, journal
    {
      journal.Valid() && inFlightGeneration == InFlight(recovering)
    }

    function View(): Repair
      reads this, journal
    {
      Repair(journal.state, recovering)
    }

    method Rest()
      modifies this
      ensures recovering == Resting && inFlightGeneration == None
    {
      inFlightGeneration := None;
      recovering := Resting;
    }

    method Recover()
      requires Valid()
      modifies this
      ensures Valid() && View() == BeginRecovery(old(View()))
    {
      if inFlightGeneration.Some? || journal.state.migration.None? {
        return;
      }
      inFlightGeneration := Some(journal.state.migration.value.generation);
      recovering := Probing(journal.state.migration.value);
    }

    /** The worker is done; the decision follows on the main queue. */
    method FinishProbe(currentAccount: Option<nat>, probe: Probe)
      requires Valid() && recovering.Probing?
      modifies this
      ensures Valid() && View() == OnProbed(old(View()), currentAccount, probe)
    {
      recovering := Deciding(recovering.record, currentAccount, probe, false);
    }

    method Finish(writes: RepairWrites)
      requires Valid() && recovering.Deciding?
      modifies this, journal
      ensures Valid()
      ensures View() == FinishNew(NotifyNew(FinishRecovery(old(View()), writes.first), writes.notice), writes.last)
    {
      var Deciding(record, currentAccount, probe, validated) := recovering;
      if inFlightGeneration != Some(record.generation) {
        return;
      }
      if journal.state.migration.None? || journal.state.migration.value.generation != record.generation {
        Rest();
        return;
      }
      match Decide(record, currentAccount, probe) {
        case Hold =>
          Rest();
        case Discard =>
          DiscardIntent(record, writes.first);
        case RemoveNew =>
          RemoveInactiveNewItem(record, writes.first);
        case UseNew(oldExists) =>
          UseNew(record, oldExists, validated, writes);
      }
    }

    method DiscardIntent(record: Migration, write: Write)
      requires journal.Valid()
      modifies this, journal
      ensures Valid() && View() == DiscardRecord(old(journal.state), record, write)
    {
      if !(journal.state.pending.Some? && journal.state.pending.value.account == record.newAccount) {
        var error := journal.CompleteMigration(record.generation, write);
      }
      Rest();
    }

    method RemoveInactiveNewItem(record: Migration, write: Write)
      requires journal.Valid() && inFlightGeneration == Some(record.generation)
      modifies this, journal
      ensures Valid() && View() == RemoveInactiveNew(old(journal.state), record, write)
    {
      if journal.state.pending.Some? && journal.state.pending.value.account == record.newAccount {
        Rest();
        return;
      }
      var error := journal.SetMigrationPhase(record.generation, CleanupNew, write);
      if error.Some? {
        Rest();
        return;
      }
      recovering := RemovingNew(record);
    }

    method UseNew(record: Migration, oldExists: Option<bool>, validated: bool, writes: RepairWrites)
      requires journal.Valid() && inFlightGeneration == Some(record.generation)
      modifies this, journal
      ensures Valid()
      ensures View() == FinishNew(NotifyNew(
                UseNewConfiguration(old(journal.state), record, oldExists, validated, writes.first), writes.notice), writes.last)
    {
      var needsNoticeCommit := journal.state.pending.None? && record.phase != CleanupOld;
      if needsNoticeCommit && !validated {
        recovering := Validating(record, oldExists);
        return;
      }
      if needsNoticeCommit {
        var error := journal.SetMigrationPhase(record.generation, ConfigurationSaved, writes.first);
        if error.None? {
          error := journal.CommitMigration(record.generation, writes.notice);
        }
        if error.Some? {
          Rest();
          return;
        }
        Settle(record, oldExists, writes.last);
        return;
      }
      if !(journal.state.pending.Some? && journal.state.pending.value.account == record.newAccount)
         && !(record.phase == CleanupOld && journal.state.pending.None?) {
        Rest();
        return;
      }
      Settle(record, oldExists, writes.first);
    }

    method Settle(record: Migration, oldExists: Option<bool>, write: Write)
      requires journal.Valid() && inFlightGeneration == Some(record.generation)
      modifies this, journal
      ensures Valid() && View() == SettleNew(old(journal.state), record, oldExists, write)
    {
      if record.oldAccount.None? || oldExists != Some(true) {
        var error := journal.CompleteMigration(record.generation, write);
        Rest();
        return;
      }
      var error := journal.SetMigrationPhase(record.generation, CleanupOld, write);
      if error.Some? {
        Rest();
        return;
      }
      recovering := RemovingOld(record);
    }

    method FinishUseNewValidation(confirmed: bool, writes: RepairWrites)
      requires Valid() && recovering.Validating?
      modifies this, journal
      ensures Valid()
      ensures View() == FinishNew(NotifyNew(
                FinishValidation(OnValidated(old(View()), confirmed), writes.first), writes.notice), writes.last)
    {
      var Validating(record, oldExists) := recovering;
      if inFlightGeneration != Some(record.generation)
         || journal.state.migration.None? || journal.state.migration.value.generation != record.generation {
        Rest();
        return;
      }
      if confirmed {
        UseNew(record, oldExists, true, writes);
      } else {
        recovering := Retrying(record, oldExists);
      }
    }

    method RetryRecoveryDecision(currentAccount: Option<nat>, writes: RepairWrites)
      requires Valid() && recovering.Retrying?
      modifies this, journal
      ensures Valid()
      ensures View() == FinishNew(NotifyNew(
                FinishRecovery(OnReread(old(View()), currentAccount), writes.first), writes.notice), writes.last)
    {
      if currentAccount.None? {
        Rest();
        return;
      }
      recovering := Deciding(recovering.record, currentAccount, Observed(true, recovering.oldExists), true);
      Finish(writes);
    }

    method FinishInactiveNewCleanup(removed: bool, write: Write)
      requires Valid() && recovering.RemovingNew?
      modifies this, journal
      ensures Valid() && View() == FinishNewCleanup(OnNewRemoved(old(View()), removed), write)
    {
      if removed {
        var error := journal.RollbackMigration(recovering.record.generation, write);
      }
      Rest();
    }

    method FinishInactiveOldCleanup(removed: bool, write: Write)
      requires Valid() && recovering.RemovingOld?
      modifies this, journal
      ensures Valid() && View() == FinishOldCleanup(OnOldRemoved(old(View()), removed), write)
    {
      if removed {
        var error := journal.CompleteMigration(recovering.record.generation, write);
      }
      Rest();
    }
  }
}
