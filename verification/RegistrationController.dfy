/** The controller object of the Service Management registration. Each method is one run on
    the main actor; `callbacks` holds the closures it handed out, `defaults` the preferences. */
module RegistrationController {
  import opened Records
  import opened Registration

  class OpenCodeServerAgentRegistrationController {
    const bundleVersion: nat
    var phase: Phase
    var generation: nat
    var defaults: Preferences
    var callbacks: multiset<Callback>
    var explicitRepairCompletion: Option<nat>
    var history: History

    constructor (bundleVersion: nat, defaults: Preferences)
      ensures View() == Started(bundleVersion, defaults)
    {
      this.bundleVersion := bundleVersion;
      this.defaults := defaults;
      phase := Idle;
      generation := 0;
      callbacks := multiset{};
      explicitRepairCompletion := None;
      history := History(0, 0, [], [], {defaults}, []);
    }

    function View(): Controller
      reads this
    {
      Controller(bundleVersion, phase, generation, defaults.transaction, defaults.registeredVersion,
                 callbacks, explicitRepairCompletion, history)
    }

    /** Sets a value; the preferences acknowledge it only when they are synchronized. */
    method Store(now: Preferences)
      modifies `defaults, `history
      ensures View() == Wrote(old(View()), now.transaction, now.registeredVersion, false)
    {
      defaults := now;
      history := history.(exposed := history.exposed + {now}, written := history.written + [now]);
    }

    method ClearTransaction()
      modifies `defaults, `history
      ensures View() == Clear(old(View()))
    {
      Store(defaults.(transaction := Missing));
    }

    /** `synchronized` is what `synchronize()` answers. */
    method Persist(stage: Stage, purpose: Purpose, attempt: nat, synchronized: bool)
      modifies `defaults, `history
      ensures View() == Registration.Persist(old(View()), stage, purpose, attempt, synchronized)
    {
      Store(defaults.(transaction := Saved(bundleVersion, purpose, stage, attempt)));
      if synchronized {
        history := history.(exposed := {defaults});
      }
    }

    method FinishExplicitRepair()
      modifies `explicitRepairCompletion, `history
      ensures View() == AnswerRepair(old(View()))
    {
      var completion := explicitRepairCompletion;
      explicitRepairCompletion := None;
      if completion.Some? {
        history := history.(answered := history.answered + [completion.value]);
      }
    }

    method FailWith()
      modifies this
      ensures View() == Fail(old(View()))
    {
      ClearTransaction();
      phase := Failed(bundleVersion);
      FinishExplicitRepair();
    }

    method FailClosedNow()
      modifies `phase
      ensures View() == FailClosed(old(View()))
    {
      phase := Failed(bundleVersion);
    }

    /** Also forgets the completion of a repair without calling it. */
    method Cancel()
      modifies this
      ensures View() == Registration.Cancel(old(View()))
    {
      generation := generation + 1;
      phase := Idle;
      if explicitRepairCompletion.Some? {
        history := history.(dropped := history.dropped + [explicitRepairCompletion.value]);
      }
      explicitRepairCompletion := None;
      ClearTransaction();
    }

    method Complete(version: nat)
      modifies this
      ensures View() == Registration.Complete(old(View()), version)
    {
      Store(defaults.(registeredVersion := Some(version)));
      ClearTransaction();
      FinishExplicitRepair();
      Cancel();
    }

    method Schedule(callback: Callback)
      modifies `callbacks
      ensures View() == Registration.Schedule(old(View()), callback)
    {
      callbacks := callbacks + multiset{callback};
    }

    method ScheduleRetry(purpose: Purpose, completedAttempt: nat, saved: bool)
      modifies this
      ensures View() == Registration.ScheduleRetry(old(View()), purpose, completedAttempt, saved)
    {
      hide Fail;
      var nextAttempt := completedAttempt + 1;
      if nextAttempt >= MAXIMUM_ATTEMPTS {
        FailWith();
        return;
      }
      phase := RetryScheduled(bundleVersion, purpose, nextAttempt);
      Persist(StageRetry, purpose, nextAttempt, saved);
      if !saved {
        FailWith();
        return;
      }
      Schedule(OnRetry(generation, purpose, nextAttempt));
    }

    method WaitForIPC(purpose: Purpose, attempt: nat, checksRemaining: nat, saved: bool)
      modifies this
      ensures View() == Registration.WaitForIPC(old(View()), purpose, attempt, checksRemaining, saved)
    {
      hide Registration.ScheduleRetry;
      hide Fail;
      phase := AwaitingIPC(bundleVersion, purpose, attempt, checksRemaining);
      if checksRemaining == 0 {
        if purpose.InitialRegistration? {
          FailWith();
        } else {
          ScheduleRetry(purpose, attempt, saved);
        }
        return;
      }
      Schedule(OnVerify(generation, purpose, attempt, checksRemaining));
    }

    method BeginAwaitingIPC(purpose: Purpose, attempt: nat, a: Answers)
      modifies this
      ensures View() == Registration.BeginAwaitingIPC(old(View()), purpose, attempt, a)
    {
      var checks := if a.cold then COLD_CHECKS else INTERACTIVE_CHECKS;
      WaitForIPC(purpose, attempt, checks, a.saved);
    }

    method PerformRegistration(purpose: Purpose, attempt: nat, a: Answers)
      modifies this
      ensures View() == Registration.PerformRegistration(old(View()), purpose, attempt, a)
    {
      hide Fail;
      hide Registration.BeginAwaitingIPC;
      phase := AwaitingRegistration(bundleVersion, purpose, attempt);
      Persist(StageRegistration, purpose, attempt, a.saved);
      if !a.saved {
        FailWith();
        return;
      }
      history := history.(registers := history.registers + 1);
      if a.registerFails && a.seen.afterError != Enabled {
        FailWith();
        return;
      }
      if a.seen.afterRegister.RequiresApproval? {
        FailWith();
        return;
      }
      Persist(StageIPC, purpose, attempt, a.savedAgain);
      if !a.savedAgain {
        FailWith();
        return;
      }
      BeginAwaitingIPC(purpose, attempt, a);
    }

    method ScheduleRegistration(purpose: Purpose, attempt: nat, saved: bool)
      modifies this
      ensures View() == Registration.ScheduleRegistration(old(View()), purpose, attempt, saved)
    {
      hide Fail;
      phase := AwaitingRegistration(bundleVersion, purpose, attempt);
      Persist(StageRegistration, purpose, attempt, saved);
      if !saved {
        FailWith();
        return;
      }
      Schedule(OnRegister(generation, purpose, attempt));
    }

    method WaitForUnregistered(purpose: Purpose, attempt: nat, checksRemaining: nat, a: Answers)
      modifies this
      ensures View() == Registration.WaitForUnregistered(old(View()), purpose, attempt, checksRemaining, a)
    {
      hide Fail;
      hide Registration.ScheduleRegistration;
      phase := AwaitingUnregistered(bundleVersion, purpose, attempt, checksRemaining);
      if checksRemaining == UNREGISTRATION_CHECKS {
        Persist(StageUnregistered, purpose, attempt, a.saved);
        if !a.saved {
          FailWith();
          return;
        }
      }
      if a.seen.wait.NotRegistered? {
        ScheduleRegistration(purpose, attempt, a.savedAgain);
        return;
      }
      if a.seen.waitAgain.RequiresApproval? {
        FailWith();
        return;
      }
      if checksRemaining == 0 {
        FailWith();
        return;
      }
      Schedule(OnCheck(generation, purpose, attempt, checksRemaining));
    }

    method StartReplacement(purpose: Purpose, attempt: nat, a: Answers)
      modifies this
      ensures View() == Registration.StartReplacement(old(View()), purpose, attempt, a)
    {
      hide Fail;
      hide Registration.PerformRegistration;
      if a.seen.start != Enabled {
        PerformRegistration(purpose, attempt, a);
        return;
      }
      phase := Unregistering(bundleVersion, purpose, attempt);
      Persist(StageUnregistering, purpose, attempt, a.saved);
      if !a.saved {
        FailWith();
        return;
      }
      Schedule(OnUnregistered(purpose, attempt));
    }

    method HandleUnregistration(failed: bool, purpose: Purpose, attempt: nat, a: Answers)
      modifies this
      ensures View() == Registration.HandleUnregistration(old(View()), failed, purpose, attempt, a)
    {
      hide Fail;
      hide Registration.WaitForUnregistered;
      if phase != Unregistering(bundleVersion, purpose, attempt) {
        return;
      }
      if failed && !a.seen.entry.NotRegistered? {
        FailWith();
        return;
      }
      WaitForUnregistered(purpose, attempt, UNREGISTRATION_CHECKS, a);
    }

    method NextGeneration(attempt: nat)
      modifies `generation, `history
      ensures View() == Begun(old(View()), attempt)
    {
      generation := generation + 1;
      history := history.(started := attempt, registers := 0);
    }

    method BeginRegistration(purpose: Purpose, a: Answers)
      modifies this
      ensures View() == Registration.BeginRegistration(old(View()), purpose, a)
    {
      hide Registration.PerformRegistration;
      if !phase.Idle? {
        return;
      }
      NextGeneration(0);
      PerformRegistration(purpose, 0, a);
    }

    method BeginReplacement(purpose: Purpose, a: Answers)
      modifies this
      ensures View() == Registration.BeginReplacement(old(View()), purpose, a)
    {
      hide Registration.StartReplacement;
      if !phase.Idle? {
        return;
      }
      NextGeneration(0);
      StartReplacement(purpose, 0, a);
    }

    method Resume(t: Stored, a: Answers)
      requires t.Saved? && t.attempt >= 0
      modifies this
      ensures View() == Registration.Resume(old(View()), t, a)
    {
      hide Registration.WaitForUnregistered;
      hide Registration.StartReplacement;
      hide Registration.ScheduleRegistration;
      hide Registration.BeginAwaitingIPC;
      hide Registration.PerformRegistration;
      if !phase.Idle? {
        return;
      }
      NextGeneration(t.attempt);
      match RecoveryAction(t.stage, a.seen.enabled.Enabled?, a.seen.unregistered.NotRegistered?) {
        case RWait => WaitForUnregistered(t.purpose, t.attempt, UNREGISTRATION_CHECKS, a);
        case RReplace => StartReplacement(t.purpose, t.attempt, a);
        case RSchedule => ScheduleRegistration(t.purpose, t.attempt, a.saved);
        case RAwait => BeginAwaitingIPC(t.purpose, t.attempt, a);
        case RPerform => PerformRegistration(t.purpose, t.attempt, a);
      }
    }

    method ResumeOrRegister(a: Answers)
      modifies this
      ensures View() == BootUnregistered(old(View()), a)
    {
      hide Registration.Resume;
      hide Registration.BeginRegistration;
      match LookUp(View()) {
        case LookupValid(t) => Resume(t, a);
        case LookupStale => BeginRegistration(BundleUpgrade, a);
        case LookupMissing => BeginRegistration(InitialRegistration, a);
        case LookupInvalid => FailClosedNow();
      }
    }

    method ResumeOrReplace(a: Answers)
      modifies this
      ensures View() == BootEnabled(old(View()), a)
    {
      hide Registration.Resume;
      hide Registration.BeginReplacement;
      match LookUp(View()) {
        case LookupValid(t) => Resume(t, a);
        case LookupStale => BeginReplacement(BundleUpgrade, a);
        case LookupMissing =>
          if defaults.registeredVersion != Some(bundleVersion) {
            BeginReplacement(BundleUpgrade, a);
          }
        case LookupInvalid => FailClosedNow();
      }
    }

    method Bootstrap(a: Answers)
      modifies this
      ensures View() == Registration.Bootstrap(old(View()), a)
    {
      hide BootUnregistered;
      hide BootEnabled;
      match a.seen.entry {
        case NotRegistered => ResumeOrRegister(a);
        case NotFound => ResumeOrRegister(a);
        case Enabled => ResumeOrReplace(a);
        case RequiresApproval =>
      }
    }

    method Register(a: Answers)
      modifies this
      ensures View() == RequestRegistration(old(View()), a)
    {
      hide BootUnregistered;
      match a.seen.entry {
        case NotRegistered => ResumeOrRegister(a);
        case NotFound => ResumeOrRegister(a);
        case Enabled =>
        case RequiresApproval =>
      }
    }

    method AnswerNow(id: nat)
      modifies `history
      ensures View() == Answered(old(View()), id)
    {
      history := history.(answered := history.answered + [id]);
    }

    method StartRepair(id: nat, a: Answers)
      modifies this
      ensures View() == BeginRepair(old(View()), id, a)
    {
      hide Registration.BeginReplacement;
      hide Registration.BeginRegistration;
      match a.seen.entry {
        case Enabled =>
          explicitRepairCompletion := Some(id);
          BeginReplacement(ExplicitRepair, a);
        case RequiresApproval =>
          AnswerNow(id);
        case _ =>
          explicitRepairCompletion := Some(id);
          BeginRegistration(ExplicitRepair, a);
      }
    }

    method Repair(id: nat, a: Answers)
      modifies this
      ensures View() == Registration.Repair(old(View()), id, a)
    {
      hide BeginRepair;
      hide Registration.Cancel;
      match phase {
        case Idle => StartRepair(id, a);
        case Unregistering(_, _, _) => AnswerNow(id);
        case AwaitingUnregistered(_, _, _, _) => AnswerNow(id);
        case AwaitingRegistration(_, _, _) => AnswerNow(id);
        case _ =>
          Cancel();
          StartRepair(id, a);
      }
    }

    method ObserveReachability(report: Option<nat>, a: Answers)
      modifies this
      ensures View() == Registration.ObserveReachability(old(View()), report, a)
    {
      hide Registration.Complete;
      if !a.seen.entry.Enabled? || !phase.AwaitingIPC? {
        return;
      }
      if report.None? || report.value != phase.version {
        return;
      }
      Complete(phase.version);
    }

    /** A closure leaves the queue and runs. */
    method Fire(callback: Callback, failed: bool, a: Answers)
      requires callback in callbacks
      modifies this
      ensures View() == Registration.Fire(old(View()), callback, failed, a)
    {
      hide Registration.HandleUnregistration;
      hide Registration.WaitForUnregistered;
      hide Registration.PerformRegistration;
      hide Registration.WaitForIPC;
      hide Registration.StartReplacement;
      callbacks := callbacks - multiset{callback};
      match callback {
        case OnUnregistered(purpose, attempt) =>
          HandleUnregistration(failed, purpose, attempt, a);
        case OnCheck(scheduled, purpose, attempt, checks) =>
          if generation == scheduled && checks > 0 {
            WaitForUnregistered(purpose, attempt, checks - 1, a);
          }
        case OnRegister(scheduled, purpose, attempt) =>
          if generation == scheduled && phase == AwaitingRegistration(bundleVersion, purpose, attempt) {
            PerformRegistration(purpose, attempt, a);
          }
        case OnVerify(scheduled, purpose, attempt, checks) =>
          if generation == scheduled && phase == AwaitingIPC(bundleVersion, purpose, attempt, checks) && checks > 0 {
            WaitForIPC(purpose, attempt, checks - 1, a.saved);
          }
        case OnRetry(scheduled, purpose, attempt) =>
          if generation == scheduled && phase == RetryScheduled(bundleVersion, purpose, attempt) {
            StartReplacement(purpose, attempt, a);
          }
      }
    }
  }
}
