/** The bounded Service Management registration of the agent
    (OpenCodeServerAgentRegistrationController and its extensions,
    ServiceRegistrationTransaction.swift).

    The controller changes state only in callbacks and requests; a closure handed to the
    scheduler or to `unregister` is a value in `callbacks` until it fires, in any order. What
    Service Management, the preferences and the clock say is a parameter of every function. */
module Registration {
  import opened Records

  const MAXIMUM_ATTEMPTS: nat := 3
  const UNREGISTRATION_CHECKS: nat := 50
  const COLD_CHECKS: nat := 15
  const INTERACTIVE_CHECKS: nat := 6

  datatype Purpose = InitialRegistration | BundleUpgrade | ExplicitRepair

  datatype Service = NotRegistered | Enabled | RequiresApproval | NotFound

  datatype Phase =
    | Idle
    | Unregistering(version: nat, purpose: Purpose, attempt: nat)
    | AwaitingUnregistered(version: nat, purpose: Purpose, attempt: nat, checks: nat)
    | AwaitingRegistration(version: nat, purpose: Purpose, attempt: nat)
    | AwaitingIPC(version: nat, purpose: Purpose, attempt: nat, checks: nat)
    | RetryScheduled(version: nat, purpose: Purpose, attempt: nat)
    | Failed(version: nat)

  /** The phase a new process can resume from. */
  datatype Stage = StageUnregistering | StageUnregistered | StageRegistration | StageIPC | StageRetry

  /** The preferences value of the transaction; anything undecodable is `Corrupt`. */
  datatype Stored = Missing | Corrupt | Saved(version: nat, purpose: Purpose, stage: Stage, attempt: int)

  datatype Callback =
    | OnUnregistered(purpose: Purpose, attempt: nat)
    | OnCheck(generation: nat, purpose: Purpose, attempt: nat, checks: nat)
    | OnRegister(generation: nat, purpose: Purpose, attempt: nat)
    | OnVerify(generation: nat, purpose: Purpose, attempt: nat, checks: nat)
    | OnRetry(generation: nat, purpose: Purpose, attempt: nat)

  /** The two preferences that outlive a process. */
  datatype Preferences = Preferences(transaction: Stored, registeredVersion: Option<nat>)

  /** `registers` counts the calls of `register()` since the current transaction was begun or
      resumed at attempt `started`; the repairs are numbered. `exposed` is what a crash can
      leave in the preferences: what was synchronized last and everything written since;
      `written` is everything this run of the main actor wrote, in order. */
  datatype History = History(
    started: nat,
    registers: nat,
    answered: seq<nat>,
    dropped: seq<nat>,
    exposed: set<Preferences>,
    written: seq<Preferences>)

  datatype Controller = Controller(
    bundle: nat,
    phase: Phase,
    generation: nat,
    store: Stored,
    registeredVersion: Option<nat>,
    callbacks: multiset<Callback>,
    repair: Option<nat>,
    history: History)

  /** One answer for every read of the service status a run of the main actor can make. */
  datatype Reads = Reads(
    entry: Service, enabled: Service, unregistered: Service, start: Service,
    wait: Service, waitAgain: Service, afterError: Service, afterRegister: Service)

  datatype Answers = Answers(seen: Reads, saved: bool, savedAgain: bool, registerFails: bool, cold: bool)

  // ---------------------------------------------------------------- the preferences

  /** A write of the preferences reaches their store at once only if it is synchronized. */
  function Wrote(c: Controller, transaction: Stored, version: Option<nat>, synchronized: bool): Controller {
    var now := Preferences(transaction, version);
    c.(store := transaction, registeredVersion := version,
       history := c.history.(exposed := if synchronized then {now} else c.history.exposed + {now},
                             written := c.history.written + [now]))
  }

  function Clear(c: Controller): Controller {
    Wrote(c, Missing, c.registeredVersion, false)
  }

  /** `saved` is what the synchronization answers; the value is set in any case. */
  function Persist(c: Controller, stage: Stage, purpose: Purpose, attempt: nat, saved: bool): Controller {
    Wrote(c, Saved(c.bundle, purpose, stage, attempt), c.registeredVersion, saved)
  }

  // ---------------------------------------------------------------- outcomes

  function AnswerRepair(c: Controller): Controller {
    if c.repair.None? then c
    else c.(repair := None, history := c.history.(answered := c.history.answered + [c.repair.value]))
  }

  function DropRepair(c: Controller): Controller {
    if c.repair.None? then c
    else c.(repair := None, history := c.history.(dropped := c.history.dropped + [c.repair.value]))
  }

  function Fail(c: Controller): Controller {
    AnswerRepair(Clear(c).(phase := Failed(c.bundle)))
  }

  function FailClosed(c: Controller): Controller {
    c.(phase := Failed(c.bundle))
  }

  function Cancel(c: Controller): Controller {
    DropRepair(Clear(c.(generation := c.generation + 1, phase := Idle)))
  }

  function Complete(c: Controller, version: nat): Controller {
    Cancel(AnswerRepair(Clear(Wrote(c, c.store, Some(version), false))))
  }

  function Schedule(c: Controller, callback: Callback): Controller {
    c.(callbacks := c.callbacks + multiset{callback})
  }

  // ---------------------------------------------------------------- registration

  function ScheduleRetry(c: Controller, purpose: Purpose, completed: nat, saved: bool): Controller {
    if completed + 1 >= MAXIMUM_ATTEMPTS then Fail(c)
    else
      var recorded := Persist(c.(phase := RetryScheduled(c.bundle, purpose, completed + 1)), StageRetry, purpose, completed + 1, saved);
      if !saved then Fail(recorded) else Schedule(recorded, OnRetry(c.generation, purpose, completed + 1))
  }

  function WaitForIPC(c: Controller, purpose: Purpose, attempt: nat, checks: nat, saved: bool): Controller {
    var waiting := c.(phase := AwaitingIPC(c.bundle, purpose, attempt, checks));
    if checks > 0 then Schedule(waiting, OnVerify(c.generation, purpose, attempt, checks))
    else if purpose.InitialRegistration? then Fail(waiting)
    else ScheduleRetry(waiting, purpose, attempt, saved)
  }

  function BeginAwaitingIPC(c: Controller, purpose: Purpose, attempt: nat, a: Answers): Controller {
    WaitForIPC(c, purpose, attempt, if a.cold then COLD_CHECKS else INTERACTIVE_CHECKS, a.saved)
  }

  function Registered(c: Controller): Controller {
    c.(history := c.history.(registers := c.history.registers + 1))
  }

  function PerformRegistration(c: Controller, purpose: Purpose, attempt: nat, a: Answers): Controller {
    var waiting := c.(phase := AwaitingRegistration(c.bundle, purpose, attempt));
    var recorded := Persist(waiting, StageRegistration, purpose, attempt, a.saved);
    if !a.saved then Fail(recorded)
    else
      var called := Registered(recorded);
      if a.registerFails && a.seen.afterError != Enabled then Fail(called)
      else if a.seen.afterRegister.RequiresApproval? then Fail(called)
      else
        var proven := Persist(called, StageIPC, purpose, attempt, a.savedAgain);
        if !a.savedAgain then Fail(proven) else BeginAwaitingIPC(proven, purpose, attempt, a)
  }

  function ScheduleRegistration(c: Controller, purpose: Purpose, attempt: nat, saved: bool): Controller {
    var waiting := c.(phase := AwaitingRegistration(c.bundle, purpose, attempt));
    var recorded := Persist(waiting, StageRegistration, purpose, attempt, saved);
    if !saved then Fail(recorded) else Schedule(recorded, OnRegister(c.generation, purpose, attempt))
  }

  /** The persisted stage is written once, on the first check. */
  function WaitForUnregistered(c: Controller, purpose: Purpose, attempt: nat, checks: nat, a: Answers): Controller {
    var waiting := c.(phase := AwaitingUnregistered(c.bundle, purpose, attempt, checks));
    var recorded := if checks == UNREGISTRATION_CHECKS then Persist(waiting, StageUnregistered, purpose, attempt, a.saved) else waiting;
    if checks == UNREGISTRATION_CHECKS && !a.saved then Fail(recorded)
    else
      if a.seen.wait.NotRegistered? then ScheduleRegistration(recorded, purpose, attempt, a.savedAgain)
      else if a.seen.waitAgain.RequiresApproval? then Fail(recorded)
      else if checks == 0 then Fail(recorded)
      else Schedule(recorded, OnCheck(c.generation, purpose, attempt, checks))
  }

  function StartReplacement(c: Controller, purpose: Purpose, attempt: nat, a: Answers): Controller {
    if a.seen.start != Enabled then PerformRegistration(c, purpose, attempt, a)
    else
      var waiting := c.(phase := Unregistering(c.bundle, purpose, attempt));
      var recorded := Persist(waiting, StageUnregistering, purpose, attempt, a.saved);
      if !a.saved then Fail(recorded) else Schedule(recorded, OnUnregistered(purpose, attempt))
  }

  function HandleUnregistration(c: Controller, failed: bool, purpose: Purpose, attempt: nat, a: Answers): Controller {
    if c.phase != Unregistering(c.bundle, purpose, attempt) then c
    else if failed && !a.seen.entry.NotRegistered? then Fail(c)
    else WaitForUnregistered(c, purpose, attempt, UNREGISTRATION_CHECKS, a)
  }

  // ---------------------------------------------------------------- beginning and resuming

  datatype Lookup = LookupMissing | LookupValid(t: Stored) | LookupStale | LookupInvalid

  function LookUp(c: Controller): Lookup {
    match c.store
    case Missing => LookupMissing
    case Corrupt => LookupInvalid
    case Saved(version, _, _, attempt) =>
      if version != c.bundle then LookupStale
      else if 0 <= attempt < MAXIMUM_ATTEMPTS then LookupValid(c.store)
      else LookupInvalid
  }

  datatype Recovery = RWait | RReplace | RSchedule | RAwait | RPerform

  function RecoveryAction(stage: Stage, isEnabled: bool, isNotRegistered: bool): Recovery {
    match stage
    case StageUnregistering => if isNotRegistered then RWait else RReplace
    case StageUnregistered => RWait
    case StageRegistration => if isEnabled then RAwait else RSchedule
    case StageIPC => if isEnabled then RAwait else RPerform
    case StageRetry => if isNotRegistered then RPerform else RReplace
  }

  /** A new transaction of the controller begins at `attempt`. */
  function Begun(c: Controller, attempt: nat): Controller {
    c.(generation := c.generation + 1, history := c.history.(started := attempt, registers := 0))
  }

  function BeginRegistration(c: Controller, purpose: Purpose, a: Answers): Controller {
    if !c.phase.Idle? then c else PerformRegistration(Begun(c, 0), purpose, 0, a)
  }

  function BeginReplacement(c: Controller, purpose: Purpose, a: Answers): Controller {
    if !c.phase.Idle? then c else StartReplacement(Begun(c, 0), purpose, 0, a)
  }

  function Resume(c: Controller, t: Stored, a: Answers): Controller
    requires t.Saved? && t.attempt >= 0
  {
    if !c.phase.Idle? then c
    else
      var begun := Begun(c, t.attempt);
      match RecoveryAction(t.stage, a.seen.enabled.Enabled?, a.seen.unregistered.NotRegistered?)
      case RWait => WaitForUnregistered(begun, t.purpose, t.attempt, UNREGISTRATION_CHECKS, a)
      case RReplace => StartReplacement(begun, t.purpose, t.attempt, a)
      case RSchedule => ScheduleRegistration(begun, t.purpose, t.attempt, a.saved)
      case RAwait => BeginAwaitingIPC(begun, t.purpose, t.attempt, a)
      case RPerform => PerformRegistration(begun, t.purpose, t.attempt, a)
  }

  function BootUnregistered(c: Controller, a: Answers): Controller {
    match LookUp(c)
    case LookupValid(t) => Resume(c, t, a)
    case LookupStale => BeginRegistration(c, BundleUpgrade, a)
    case LookupMissing => BeginRegistration(c, InitialRegistration, a)
    case LookupInvalid => FailClosed(c)
  }

  function BootEnabled(c: Controller, a: Answers): Controller {
    match LookUp(c)
    case LookupValid(t) => Resume(c, t, a)
    case LookupStale => BeginReplacement(c, BundleUpgrade, a)
    case LookupMissing => if c.registeredVersion == Some(c.bundle) then c else BeginReplacement(c, BundleUpgrade, a)
    case LookupInvalid => FailClosed(c)
  }

  function Bootstrap(c: Controller, a: Answers): Controller {
    match a.seen.entry
    case NotRegistered => BootUnregistered(c, a)
    case NotFound => BootUnregistered(c, a)
    case Enabled => BootEnabled(c, a)
    case RequiresApproval => c
  }

  /** `register()`, the Settings checkbox. */
  function RequestRegistration(c: Controller, a: Answers): Controller {
    match a.seen.entry
    case NotRegistered => BootUnregistered(c, a)
    case NotFound => BootUnregistered(c, a)
    case Enabled => c
    case RequiresApproval => c
  }

  function Answered(c: Controller, id: nat): Controller {
    c.(history := c.history.(answered := c.history.answered + [id]))
  }

  function Repair(c: Controller, id: nat, a: Answers): Controller {
    match c.phase
    case Unregistering(_, _, _) => Answered(c, id)
    case AwaitingUnregistered(_, _, _, _) => Answered(c, id)
    case AwaitingRegistration(_, _, _) => Answered(c, id)
    case Idle => BeginRepair(c, id, a)
    case _ => BeginRepair(Cancel(c), id, a)
  }

  function BeginRepair(c: Controller, id: nat, a: Answers): Controller {
    match a.seen.entry
    case Enabled => BeginReplacement(c.(repair := Some(id)), ExplicitRepair, a)
    case RequiresApproval => Answered(c, id)
    case _ => BeginRegistration(c.(repair := Some(id)), ExplicitRepair, a)
  }

  /** `report` is the bundle version in the agent's status, if there is one. */
  function ObserveReachability(c: Controller, report: Option<nat>, a: Answers): Controller {
    if !a.seen.entry.Enabled? || !c.phase.AwaitingIPC? then c
    else if report != Some(c.phase.version) then c
    else Complete(c, c.phase.version)
  }

  // ---------------------------------------------------------------- callbacks

  function Run(c: Controller, callback: Callback, failed: bool, a: Answers): Controller {
    match callback
    case OnUnregistered(purpose, attempt) => HandleUnregistration(c, failed, purpose, attempt, a)
    case OnCheck(generation, purpose, attempt, checks) =>
      if generation != c.generation || checks == 0 then c else WaitForUnregistered(c, purpose, attempt, checks - 1, a)
    case OnRegister(generation, purpose, attempt) =>
      if generation != c.generation || c.phase != AwaitingRegistration(c.bundle, purpose, attempt) then c
      else PerformRegistration(c, purpose, attempt, a)
    case OnVerify(generation, purpose, attempt, checks) =>
      if generation != c.generation || c.phase != AwaitingIPC(c.bundle, purpose, attempt, checks) || checks == 0 then c
      else WaitForIPC(c, purpose, attempt, checks - 1, a.saved)
    case OnRetry(generation, purpose, attempt) =>
      if generation != c.generation || c.phase != RetryScheduled(c.bundle, purpose, attempt) then c
      else StartReplacement(c, purpose, attempt, a)
  }

  function Taken(c: Controller, callback: Callback): Controller {
    c.(callbacks := c.callbacks - multiset{callback})
  }

  function Fire(c: Controller, callback: Callback, failed: bool, a: Answers): Controller {
    if callback !in c.callbacks then c else Run(Taken(c, callback), callback, failed, a)
  }

  /** One run of the main actor, or one that the process did not survive: it left `left` in
      the preferences, and the next process starts from there. */
  datatype Event =
    | Relaunch(bundle: nat, answers: Answers)
    | Fired(callback: Callback, failed: bool, answers: Answers)
    | Observe(report: Option<nat>, answers: Answers)
    | Request(answers: Answers)
    | RequestRepair(id: nat, answers: Answers)
    | Unregister
    | Crashed(run: Event, left: Preferences, bundle: nat, answers: Answers)

  function Started(bundle: nat, left: Preferences): Controller {
    Controller(bundle, Idle, 0, left.transaction, left.registeredVersion, multiset{}, None, History(0, 0, [], [], {left}, []))
  }

  function Prefs(c: Controller): Preferences {
    Preferences(c.store, c.registeredVersion)
  }

  /** A new run has written nothing yet. */
  function Rested(c: Controller): Controller {
    c.(history := c.history.(written := []))
  }

  /** A whole run. A relaunch after a quit keeps the preferences, and nothing else. */
  function Act(c: Controller, e: Event): Controller {
    match e
    case Relaunch(bundle, a) => Bootstrap(Started(bundle, Prefs(c)), a)
    case Fired(callback, failed, a) => Fire(Rested(c), callback, failed, a)
    case Observe(report, a) => ObserveReachability(Rested(c), report, a)
    case Request(a) => RequestRegistration(Rested(c), a)
    case RequestRepair(id, a) => Repair(Rested(c), id, a)
    case Unregister => Cancel(Rested(c))
    case Crashed(_, _, _, _) => Rested(c)
  }

  /** What a crash somewhere in this run can leave: what could be lost or kept before it, and
      what any write of it left. */
  function Leavings(c: Controller, run: Event): set<Preferences> {
    c.history.exposed + set p | p in Act(c, run).history.written
  }

  function Step(c: Controller, e: Event): Controller {
    if !e.Crashed? then Act(c, e)
    else if e.run.Crashed? || e.left !in Leavings(c, e.run) then Rested(c)
    else Bootstrap(Started(e.bundle, e.left), e.answers)
  }

  function RunEvents(c: Controller, events: seq<Event>): Controller
    decreases |events|
  {
    if events == [] then c else RunEvents(Step(c, events[0]), events[1..])
  }
}
