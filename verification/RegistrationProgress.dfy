/** What the registration controller achieves: which launches begin, resume or leave alone, where
    every awaited callback leads, and that an upgrade replacing the old registration. */
module RegistrationProgress {
  import opened Records
  import opened Registration
  import opened RegistrationSafety

  // ---------------------------------------------------------------- launches

  /** The service runs the build that this launch would register, as far as the app knows. */
  predicate UpToDate(bundle: nat, left: Preferences, a: Answers) {
    a.seen.entry.Enabled? && left.transaction.Missing? && left.registeredVersion == Some(bundle)
  }

  /** A record of this build that says nothing a launch could go on from. */
  predicate Unusable(bundle: nat, left: Stored) {
    left.Corrupt? || (left.Saved? && left.version == bundle && !(0 <= left.attempt < MAXIMUM_ATTEMPTS))
  }

  /** No record, or one of another build. */
  predicate Foreign(bundle: nat, left: Stored) {
    left.Missing? || (left.Saved? && left.version != bundle)
  }

  /** A launch leaves everything as it found it exactly when the service waits for approval, or
      is enabled in the build that was proven last. */
  lemma LaunchLeavesAlone(bundle: nat, left: Preferences, a: Answers)
    ensures var c := Started(bundle, left);
            Act(c, Relaunch(bundle, a)) == c <==> a.seen.entry.RequiresApproval? || UpToDate(bundle, left, a)
  {
    var c := Started(bundle, left);
    hide PerformRegistration;
    hide StartReplacement;
    LaunchMoves(c, a);
  }

  /** A transaction that begins or is resumed has a new generation. */
  lemma LaunchMoves(c: Controller, a: Answers)
    requires c.phase.Idle?
    ensures BeginRegistration(c, InitialRegistration, a).generation == c.generation + 1
    ensures BeginRegistration(c, BundleUpgrade, a).generation == c.generation + 1
    ensures BeginReplacement(c, BundleUpgrade, a).generation == c.generation + 1
    ensures LookUp(c).LookupValid? ==> Resume(c, c.store, a).generation == c.generation + 1
  {
    hide PerformRegistration;
    hide StartReplacement;
    hide WaitForUnregistered;
    hide ScheduleRegistration;
    hide BeginAwaitingIPC;
    PerformWrites(Begun(c, 0), InitialRegistration, 0, a);
    PerformWrites(Begun(c, 0), BundleUpgrade, 0, a);
    ReplaceWrites(Begun(c, 0), BundleUpgrade, 0, a);
    if LookUp(c).LookupValid? { ResumeLeads(c, a); }
  }

  /** An unusable record fails closed: nothing is written, and nothing begun. */
  lemma LaunchFailsClosed(bundle: nat, left: Preferences, a: Answers)
    requires Unusable(bundle, left.transaction) && !a.seen.entry.RequiresApproval?
    ensures var c := Started(bundle, left); Act(c, Relaunch(bundle, a)) == c.(phase := Failed(bundle))
  {
  }

  /** Without a usable record any other launch begins. Its first write records attempt 0 of an
      initial registration, if neither record nor service is there, and of an upgrade otherwise;
      an enabled service is unregistered first, and only such a one. */
  lemma LaunchBegins(bundle: nat, left: Preferences, a: Answers)
    requires Foreign(bundle, left.transaction) && !a.seen.entry.RequiresApproval? && !UpToDate(bundle, left, a)
    ensures var t := Act(Started(bundle, left), Relaunch(bundle, a));
            var purpose := if left.transaction.Missing? && !a.seen.entry.Enabled? then InitialRegistration else BundleUpgrade;
            var replacing := a.seen.entry.Enabled? && a.seen.start.Enabled?;
            && |t.history.written| > 0
            && t.history.written[0] ==
                 Preferences(Saved(bundle, purpose, if replacing then StageUnregistering else StageRegistration, 0), left.registeredVersion)
            && (!a.saved ==> t.phase == Failed(bundle) && t.store.Missing? && t.callbacks == multiset{})
            && (a.saved && replacing ==>
                  t.phase == Unregistering(bundle, purpose, 0) && t.callbacks == multiset{OnUnregistered(purpose, 0)} && t.history.registers == 0)
            && (a.saved && !replacing ==> t.history.registers == 1 && t.phase == Registering(bundle, purpose, 0, a))
  {
    hide Fail;
    hide BeginAwaitingIPC;
    var c := Started(bundle, left);
    var purpose := if left.transaction.Missing? && !a.seen.entry.Enabled? then InitialRegistration else BundleUpgrade;
    PerformWrites(Begun(c, 0), purpose, 0, a);
    ReplaceWrites(Begun(c, 0), purpose, 0, a);
    hide PerformRegistration;
    hide StartReplacement;
  }

  // ---------------------------------------------------------------- where the steps lead

  /** What comes of a registration whose record is written first: the proof over IPC, if the
      service takes it and the record follows. */
  function Registering(bundle: nat, purpose: Purpose, attempt: nat, a: Answers): Phase {
    if a.saved && (!a.registerFails || a.seen.afterError.Enabled?) && !a.seen.afterRegister.RequiresApproval? && a.savedAgain
    then AwaitingIPC(bundle, purpose, attempt, if a.cold then COLD_CHECKS else INTERACTIVE_CHECKS)
    else Failed(bundle)
  }

  function Replacing(bundle: nat, purpose: Purpose, attempt: nat, a: Answers): Phase {
    if !a.seen.start.Enabled? then Registering(bundle, purpose, attempt, a)
    else if a.saved then Unregistering(bundle, purpose, attempt) else Failed(bundle)
  }

  function Settling(bundle: nat, purpose: Purpose, attempt: nat, saved: bool): Phase {
    if saved then AwaitingRegistration(bundle, purpose, attempt) else Failed(bundle)
  }

  /** A check of the unregistration with `checks` more to come. */
  function Checking(bundle: nat, purpose: Purpose, attempt: nat, checks: nat, a: Answers): Phase {
    if checks == UNREGISTRATION_CHECKS && !a.saved then Failed(bundle)
    else if a.seen.wait.NotRegistered? then Settling(bundle, purpose, attempt, a.savedAgain)
    else if a.seen.waitAgain.RequiresApproval? || checks == 0 then Failed(bundle)
    else AwaitingUnregistered(bundle, purpose, attempt, checks)
  }

  /** The agent did not answer in time: the next attempt, if there is one and it is no first
      registration. */
  function Retrying(bundle: nat, purpose: Purpose, attempt: nat, saved: bool): Phase {
    if !purpose.InitialRegistration? && attempt + 1 < MAXIMUM_ATTEMPTS && saved then RetryScheduled(bundle, purpose, attempt + 1)
    else Failed(bundle)
  }

  /** Where the callback of each phase leads. */
  function Next(p: Phase, failed: bool, a: Answers): Phase {
    match p
    case Unregistering(v, purpose, attempt) =>
      if failed && !a.seen.entry.NotRegistered? then Failed(v) else Checking(v, purpose, attempt, UNREGISTRATION_CHECKS, a)
    case AwaitingUnregistered(v, purpose, attempt, checks) => Checking(v, purpose, attempt, if checks > 0 then checks - 1 else 0, a)
    case AwaitingRegistration(v, purpose, attempt) => Registering(v, purpose, attempt, a)
    case AwaitingIPC(v, purpose, attempt, checks) =>
      if checks > 1 then AwaitingIPC(v, purpose, attempt, checks - 1) else Retrying(v, purpose, attempt, a.saved)
    case RetryScheduled(v, purpose, attempt) => Replacing(v, purpose, attempt, a)
    case _ => p
  }

  lemma FailWrites(c: Controller)
    ensures Fail(c).phase == Failed(c.bundle) && Fail(c).store.Missing? && Fail(c).callbacks == c.callbacks
    ensures Fail(c).history.written == c.history.written + [Preferences(Missing, c.registeredVersion)]
    ensures Fail(c).history.registers == c.history.registers && Fail(c).generation == c.generation
  {
  }

  lemma AwaitWrites(c: Controller, purpose: Purpose, attempt: nat, a: Answers)
    ensures var t := BeginAwaitingIPC(c, purpose, attempt, a);
            t.phase == AwaitingIPC(c.bundle, purpose, attempt, if a.cold then COLD_CHECKS else INTERACTIVE_CHECKS)
            && t.history == c.history && t.generation == c.generation
  {
  }

  /** The record of a registration is written before the call, which is made once. */
  lemma PerformWrites(c: Controller, purpose: Purpose, attempt: nat, a: Answers)
    ensures var t := PerformRegistration(c, purpose, attempt, a);
            && t.phase == Registering(c.bundle, purpose, attempt, a)
            && |t.history.written| > |c.history.written| && t.history.written[..|c.history.written|] == c.history.written
            && t.history.written[|c.history.written|] == Preferences(Saved(c.bundle, purpose, StageRegistration, attempt), c.registeredVersion)
            && t.history.registers == c.history.registers + (if a.saved then 1 else 0)
            && (!a.saved ==> t.store.Missing? && t.callbacks == c.callbacks)
            && t.generation == c.generation
  {
    hide Fail;
    hide BeginAwaitingIPC;
    var waiting := c.(phase := AwaitingRegistration(c.bundle, purpose, attempt));
    var recorded := Persist(waiting, StageRegistration, purpose, attempt, a.saved);
    var called := Registered(recorded);
    var proven := Persist(called, StageIPC, purpose, attempt, a.savedAgain);
    FailWrites(recorded);
    FailWrites(called);
    FailWrites(proven);
    AwaitWrites(proven, purpose, attempt, a);
  }

  lemma ReplaceWrites(c: Controller, purpose: Purpose, attempt: nat, a: Answers)
    ensures var t := StartReplacement(c, purpose, attempt, a);
            && t.phase == Replacing(c.bundle, purpose, attempt, a)
            && |t.history.written| > |c.history.written| && t.history.written[..|c.history.written|] == c.history.written
            && t.history.written[|c.history.written|] ==
                 Preferences(Saved(c.bundle, purpose, if a.seen.start.Enabled? then StageUnregistering else StageRegistration, attempt),
                             c.registeredVersion)
            && t.history.registers == c.history.registers + (if a.saved && !a.seen.start.Enabled? then 1 else 0)
            && (!a.saved ==> t.store.Missing? && t.callbacks == c.callbacks)
            && (a.saved && a.seen.start.Enabled? ==> t.callbacks == c.callbacks + multiset{OnUnregistered(purpose, attempt)})
            && t.generation == c.generation
  {
    hide Fail;
    hide PerformRegistration;
    PerformWrites(c, purpose, attempt, a);
    FailWrites(Persist(c.(phase := Unregistering(c.bundle, purpose, attempt)), StageUnregistering, purpose, attempt, a.saved));
  }

  lemma CheckLeads(c: Controller, purpose: Purpose, attempt: nat, checks: nat, a: Answers)
    ensures WaitForUnregistered(c, purpose, attempt, checks, a).phase == Checking(c.bundle, purpose, attempt, checks, a)
    ensures WaitForUnregistered(c, purpose, attempt, checks, a).history.registers == c.history.registers
    ensures WaitForUnregistered(c, purpose, attempt, checks, a).generation == c.generation
  {
    hide Fail;
    hide ScheduleRegistration;
    var waiting := c.(phase := AwaitingUnregistered(c.bundle, purpose, attempt, checks));
    var recorded := if checks == UNREGISTRATION_CHECKS then Persist(waiting, StageUnregistered, purpose, attempt, a.saved) else waiting;
    FailWrites(recorded);
    SettleLeads(recorded, purpose, attempt, a.savedAgain);
  }

  lemma SettleLeads(c: Controller, purpose: Purpose, attempt: nat, saved: bool)
    ensures ScheduleRegistration(c, purpose, attempt, saved).phase == Settling(c.bundle, purpose, attempt, saved)
    ensures ScheduleRegistration(c, purpose, attempt, saved).history.registers == c.history.registers
    ensures ScheduleRegistration(c, purpose, attempt, saved).generation == c.generation
  {
    hide Fail;
    FailWrites(Persist(c.(phase := AwaitingRegistration(c.bundle, purpose, attempt)), StageRegistration, purpose, attempt, saved));
  }

  /** Where a resumed transaction goes on, at the attempt and for the purpose on record. */
  function Resuming(bundle: nat, t: Stored, a: Answers): Phase
    requires t.Saved? && t.attempt >= 0
  {
    match t.stage
    case StageUnregistering =>
      if a.seen.unregistered.NotRegistered? then Checking(bundle, t.purpose, t.attempt, UNREGISTRATION_CHECKS, a)
      else Replacing(bundle, t.purpose, t.attempt, a)
    case StageUnregistered => Checking(bundle, t.purpose, t.attempt, UNREGISTRATION_CHECKS, a)
    case StageRegistration =>
      if a.seen.enabled.Enabled? then AwaitingIPC(bundle, t.purpose, t.attempt, if a.cold then COLD_CHECKS else INTERACTIVE_CHECKS)
      else Settling(bundle, t.purpose, t.attempt, a.saved)
    case StageIPC =>
      if a.seen.enabled.Enabled? then AwaitingIPC(bundle, t.purpose, t.attempt, if a.cold then COLD_CHECKS else INTERACTIVE_CHECKS)
      else Registering(bundle, t.purpose, t.attempt, a)
    case StageRetry =>
      if a.seen.unregistered.NotRegistered? then Registering(bundle, t.purpose, t.attempt, a)
      else Replacing(bundle, t.purpose, t.attempt, a)
  }

  lemma ResumeLeads(c: Controller, a: Answers)
    requires c.phase.Idle? && LookUp(c).LookupValid?
    ensures Resume(c, c.store, a).phase == Resuming(c.bundle, c.store, a)
    ensures Resume(c, c.store, a).generation == c.generation + 1
  {
    hide PerformRegistration;
    hide StartReplacement;
    hide WaitForUnregistered;
    hide ScheduleRegistration;
    hide BeginAwaitingIPC;
    hide Checking;
    hide Replacing;
    hide Registering;
    hide Settling;
    var t := c.store;
    var begun := Begun(c, t.attempt);
    PerformWrites(begun, t.purpose, t.attempt, a);
    ReplaceWrites(begun, t.purpose, t.attempt, a);
    CheckLeads(begun, t.purpose, t.attempt, UNREGISTRATION_CHECKS, a);
    SettleLeads(begun, t.purpose, t.attempt, a.saved);
    AwaitWrites(begun, t.purpose, t.attempt, a);
  }

  /** A launch that finds a usable record goes on from its stage, whatever the service says,
      unless approval is missing. */
  lemma LaunchResumes(bundle: nat, left: Preferences, a: Answers)
    requires left.transaction.Saved? && left.transaction.version == bundle && 0 <= left.transaction.attempt < MAXIMUM_ATTEMPTS
    requires !a.seen.entry.RequiresApproval?
    ensures var t := Act(Started(bundle, left), Relaunch(bundle, a));
            t.phase == Resuming(bundle, left.transaction, a)
  {
    hide Resume;
    hide Resuming;
    ResumeLeads(Started(bundle, left), a);
  }

  lemma VerifyLeads(c: Controller, purpose: Purpose, attempt: nat, checks: nat, saved: bool)
    ensures WaitForIPC(c, purpose, attempt, checks, saved).phase ==
              (if checks > 0 then AwaitingIPC(c.bundle, purpose, attempt, checks) else Retrying(c.bundle, purpose, attempt, saved))
    ensures WaitForIPC(c, purpose, attempt, checks, saved).history.registers == c.history.registers
  {
  }

  /** The callback of this phase calls the service to register the agent. */
  predicate Calls(p: Phase, a: Answers) {
    a.saved && (p.AwaitingRegistration? || (p.RetryScheduled? && !a.seen.start.Enabled?))
  }

  /** In every reachable state the callback that the phase waits for leads where the protocol
      says, and only a registration whose record is synchronized calls the service. */
  lemma AwaitedLeads(c: Controller, failed: bool, a: Answers)
    requires Inv(c) && Active(c.phase)
    ensures Expected(c).Some?
    ensures var t := Step(c, Fired(Expected(c).value, failed, a));
            && t.phase == Next(c.phase, failed, a)
            && t.history.registers == c.history.registers + (if Calls(c.phase, a) then 1 else 0)
  {
    AwaitedFacts(c);
    hide Inv;
    hide Fire;
    FiredLeads(Rested(c), failed, a);
  }

  /** What the invariant says of a phase that waits. */
  ghost predicate Waiting(c: Controller) {
    && Active(c.phase) && c.phase.version == c.bundle && c.phase.attempt < MAXIMUM_ATTEMPTS
    && Expected(c).Some? && Expected(c).value in c.callbacks
    && (c.phase.AwaitingUnregistered? ==> c.phase.checks > 0)
    && (c.phase.AwaitingIPC? ==> c.phase.checks > 0)
  }

  lemma AwaitedFacts(c: Controller)
    requires Inv(c) && Active(c.phase)
    ensures Waiting(c) && Waiting(Rested(c))
  {
    hide TimersOk;
    hide BudgetOk;
    hide FailureOk;
  }

  lemma FiredLeads(c: Controller, failed: bool, a: Answers)
    requires Waiting(c)
    ensures var t := Fire(c, Expected(c).value, failed, a);
            && t.phase == Next(c.phase, failed, a)
            && t.history.registers == c.history.registers + (if Calls(c.phase, a) then 1 else 0)
  {
    hide PerformRegistration;
    hide StartReplacement;
    hide WaitForUnregistered;
    hide WaitForIPC;
    hide Fail;
    hide Checking;
    hide Registering;
    hide Replacing;
    hide Retrying;
    var t := Taken(c, Expected(c).value);
    match c.phase {
      case Unregistering(_, purpose, attempt) =>
        FailWrites(t);
        CheckLeads(t, purpose, attempt, UNREGISTRATION_CHECKS, a);
      case AwaitingUnregistered(_, purpose, attempt, checks) => CheckLeads(t, purpose, attempt, checks - 1, a);
      case AwaitingRegistration(_, purpose, attempt) => PerformWrites(t, purpose, attempt, a);
      case AwaitingIPC(_, purpose, attempt, checks) => VerifyLeads(t, purpose, attempt, checks - 1, a.saved);
      case RetryScheduled(_, purpose, attempt) => ReplaceWrites(t, purpose, attempt, a);
    }
  }

  // ---------------------------------------------------------------- statuses and repairs

  /** A status proves the registration exactly when it names the awaited build of an enabled
      service; any other changes nothing. */
  lemma StatusProves(c: Controller, report: Option<nat>, a: Answers)
    ensures var t := Step(c, Observe(report, a));
            if c.phase.AwaitingIPC? && a.seen.entry.Enabled? && report == Some(c.phase.version) then
              t.phase.Idle? && t.store.Missing? && t.registeredVersion == report && t.repair.None?
              && (c.repair.Some? ==> t.history.answered == c.history.answered + [c.repair.value])
            else t == Rested(c)
  {
  }

  /** Effects of a registration are under way that a repair must not disturb. */
  predicate Busy(p: Phase) {
    p.Unregistering? || p.AwaitingUnregistered? || p.AwaitingRegistration?
  }

  /** A repair is refused while such effects are under way or approval is missing; otherwise it
      begins anew at attempt 0, whatever was found, and is answered only when that has ended. */
  lemma RepairBegins(c: Controller, id: nat, a: Answers)
    requires c.phase.Idle? || c.phase.Failed? ==> c.repair.None?
    ensures var t := Step(c, RequestRepair(id, a));
            if Busy(c.phase) then t == Answered(Rested(c), id)
            else if a.seen.entry.RequiresApproval? then !Active(t.phase) && t.history.answered == c.history.answered + [id]
            else
              && t.phase == (if a.seen.entry.Enabled? then Replacing(c.bundle, ExplicitRepair, 0, a) else Registering(c.bundle, ExplicitRepair, 0, a))
              && (if Active(t.phase) then t.repair == Some(id) && t.history.answered == c.history.answered
                  else t.repair.None? && t.history.answered == c.history.answered + [id])
  {
    hide StartReplacement;
    hide PerformRegistration;
    hide Replacing;
    hide Registering;
    if !Busy(c.phase) {
      var d := if c.phase.Idle? then Rested(c) else Cancel(Rested(c));
      var begun := Begun(d.(repair := Some(id)), 0);
      PerformWrites(begun, ExplicitRepair, 0, a);
      ReplaceWrites(begun, ExplicitRepair, 0, a);
      PerformAnswers(begun, ExplicitRepair, 0, a);
      ReplaceAnswers(begun, ExplicitRepair, 0, a);
    }
  }

  lemma PerformAnswers(c: Controller, purpose: Purpose, attempt: nat, a: Answers)
    requires purpose.ExplicitRepair? && attempt == 0
    ensures var t := PerformRegistration(c, purpose, attempt, a);
            if Active(t.phase) then t.repair == c.repair && t.history.answered == c.history.answered
            else t.repair.None? && t.history.answered == c.history.answered + (if c.repair.Some? then [c.repair.value] else [])
  {
  }

  lemma ReplaceAnswers(c: Controller, purpose: Purpose, attempt: nat, a: Answers)
    requires purpose.ExplicitRepair? && attempt == 0
    ensures var t := StartReplacement(c, purpose, attempt, a);
            if Active(t.phase) then t.repair == c.repair && t.history.answered == c.history.answered
            else t.repair.None? && t.history.answered == c.history.answered + (if c.repair.Some? then [c.repair.value] else [])
  {
    hide PerformRegistration;
    PerformAnswers(c, purpose, attempt, a);
  }

  /** What the Settings checkbox begins, by the record. A service that is enabled or waits for
      approval is left alone, and so is a transaction that is under way. */
  lemma RequestBegins(c: Controller, a: Answers)
    ensures var t := Step(c, Request(a));
            if a.seen.entry.Enabled? || a.seen.entry.RequiresApproval? then t == Rested(c)
            else if Unusable(c.bundle, c.store) then t == FailClosed(Rested(c))
            else if !c.phase.Idle? then t == Rested(c)
            else if Foreign(c.bundle, c.store) then
              t.phase == Registering(c.bundle, if c.store.Missing? then InitialRegistration else BundleUpgrade, 0, a)
              && t.history.registers == (if a.saved then 1 else 0)
            else t.phase == Resuming(c.bundle, c.store, a)
  {
    hide PerformRegistration;
    hide Registering;
    hide Resuming;
    var d := Rested(c);
    PerformWrites(Begun(d, 0), InitialRegistration, 0, a);
    PerformWrites(Begun(d, 0), BundleUpgrade, 0, a);
    if LookUp(d).LookupValid? && c.phase.Idle? { ResumeLeads(d, a); }
    ActStep(c, Request(a));
    hide Step;
  }

  /** A removal ends whatever was under way and leaves no record, and no callback that is still
      outstanding does anything after it. */
  lemma RemovalEnds(c: Controller, callback: Callback, failed: bool, a: Answers)
    requires Inv(c)
    ensures var t := Step(c, Unregister);
            && t.phase.Idle? && t.store.Missing? && t.repair.None? && t.callbacks == c.callbacks
            && t.history.registers == c.history.registers
            && (callback in t.callbacks ==> Fire(t, callback, failed, a) == Taken(t, callback))
  {
    StepKeeps(c, Unregister);
    var t := Step(c, Unregister);
    Removes(c);
    hide Inv;
    hide StepOk;
    hide Step;
    hide Fire;
    if callback in t.callbacks { UnawaitedIgnored(t, callback, failed, a); }
  }

  lemma Removes(c: Controller)
    ensures var t := Step(c, Unregister);
            && t.phase.Idle? && t.store.Missing? && t.repair.None? && t.callbacks == c.callbacks
            && t.history.registers == c.history.registers && Expected(t).None?
  {
  }

  // ---------------------------------------------------------------- a whole upgrade

  /** An app of another build finds the old one registered: the old registration is removed,
      the new one made once and, when the agent answers with the new build, written down. */
  lemma UpgradeCompletes(bundle: nat, left: Preferences, a0: Answers, a1: Answers, a2: Answers, a3: Answers)
    requires left.transaction.Missing? && left.registeredVersion != Some(bundle)
    requires a0.seen.entry.Enabled? && a0.seen.start.Enabled? && a0.saved
    requires a1.seen.wait.NotRegistered? && a1.saved && a1.savedAgain
    requires a2.saved && a2.savedAgain && !a2.registerFails && !a2.seen.afterRegister.RequiresApproval?
    requires a3.seen.entry.Enabled?
    ensures var c := Started(bundle, left);
            var c1 := Step(c, Relaunch(bundle, a0));
            var c2 := Step(c1, Fired(OnUnregistered(BundleUpgrade, 0), false, a1));
            var c3 := Step(c2, Fired(OnRegister(c2.generation, BundleUpgrade, 0), false, a2));
            var t := Step(c3, Observe(Some(bundle), a3));
            && c1.phase.Unregistering? && c2.phase.AwaitingRegistration? && c3.phase.AwaitingIPC?
            && t.phase.Idle? && t.store.Missing? && t.registeredVersion == Some(bundle) && t.history.registers == 1
  {
    hide Step;
    var c := Started(bundle, left);
    StartedInv(bundle, left);
    LaunchBegins(bundle, left, a0);
    var c1 := Step(c, Relaunch(bundle, a0));
    StepKeeps(c, Relaunch(bundle, a0));
    ActStep(c, Relaunch(bundle, a0));
    AwaitedLeads(c1, false, a1);
    var c2 := Step(c1, Fired(OnUnregistered(BundleUpgrade, 0), false, a1));
    StepKeeps(c1, Fired(OnUnregistered(BundleUpgrade, 0), false, a1));
    AwaitedLeads(c2, false, a2);
    var c3 := Step(c2, Fired(OnRegister(c2.generation, BundleUpgrade, 0), false, a2));
    StepKeeps(c2, Fired(OnRegister(c2.generation, BundleUpgrade, 0), false, a2));
    hide Inv;
    hide StepOk;
    ProofCompletes(c3, a3);
  }

  /** The awaited build answers. */
  lemma ProofCompletes(c: Controller, a: Answers)
    requires c.phase.AwaitingIPC? && a.seen.entry.Enabled?
    ensures var t := Step(c, Observe(Some(c.phase.version), a));
            && t.phase.Idle? && t.store.Missing? && t.registeredVersion == Some(c.phase.version)
            && t.history.registers == c.history.registers
  {
  }

  lemma ActStep(c: Controller, e: Event)
    requires !e.Crashed?
    ensures Step(c, e) == Act(c, e)
  {
    hide Act;
  }
}
