/** The world a credential migration runs in: the visible configuration file, the Keychain
    items and the visible journal, under the save transactions, the recovery, notice
    acknowledgements, crashes of the app and launches, in any order.

    An item remembers which migration created it. `edited` says that somebody else changed the
    configuration while a transaction or a recovery was under way; `announced` holds every
    `changed` notice that was ever pending. */
module MigrationWorld {
  import opened Records
  import opened CredentialJournal
  import opened MigrationSave
  import opened MigrationRecovery
  import opened MutationCoordinator

  /** A same-account operation of the Settings window. */
  datatype Mutation = Create(account: nat) | Update(account: nat, same: bool) | Delete(account: nat)

  /** The configuration-first transaction of a same-account mutation. */
  datatype Regular =
    | NoRegular
    | Writing(mutation: Mutation, generation: nat)
    | Concluding(generation: nat, outcome: Option<SaveOutcome>)

  datatype World = World(
    config: AppConfig,
    items: map<nat, Option<nat>>,
    journal: Journal,
    available: bool,
    running: bool,
    saving: Saving,
    regular: Regular,
    recovering: Recovering,
    edited: bool,
    announced: set<(nat, nat)>)

  /** What the outside answers to one step. A call that fails may still have landed; a failed
      creation has not. */
  datatype Answer = Answer(write: Write, ok: bool, landed: bool, readable: bool)

  datatype Event =
    | Launch(write: Write)
    | Retry(write: Write)
    | Crash
    | Configure(config: AppConfig)
    | StartMove(config: AppConfig, write: Write)
    | SaveStep(answer: Answer)
    | StartRegular(config: AppConfig, mutation: Mutation, answer: Answer)
    | RegularStep(answer: Answer)
    | Recover
    | RecoveryStep(answer: Answer)
    | Deliver(generation: nat, write: Write)

  predicate AtRest(w: World) {
    w.saving.Idle? && w.regular.NoRegular? && w.recovering.Resting?
  }

  function Announced(announced: set<(nat, nat)>, j: Journal): set<(nat, nat)> {
    if j.pending.Some? && j.pending.value.notice.Changed? then
      announced + {(j.pending.value.account, j.pending.value.generation)}
    else announced
  }

  function Noted(w: World, j: Journal): World {
    w.(journal := j, announced := Announced(w.announced, j))
  }

  function Saved(w: World, p: Progress): World {
    Noted(w, p.journal).(saving := p.saving)
  }

  function Repaired(w: World, p: Repair): World {
    Noted(w, p.journal).(recovering := p.recovering)
  }

  function SaveView(w: World): Progress {
    Progress(w.journal, w.saving)
  }

  function RepairView(w: World): Repair {
    Repair(w.journal, w.recovering)
  }

  function DeleteItem(w: World, account: nat, a: Answer): World {
    if a.ok || a.landed then w.(items := w.items - {account}) else w
  }

  /** `KeychainStore.create`: an existing item is never overwritten. */
  function CreateItem(w: World, account: nat, creator: Option<nat>, a: Answer): World {
    if a.ok && account !in w.items then w.(items := w.items[account := creator]) else w
  }

  function StoreConfig(w: World, config: AppConfig, a: Answer): World {
    if a.ok || a.landed then w.(config := config) else w
  }

  function StepSave(w: World, a: Answer): World {
    match w.saving
    case Idle => w
    case Creating(t) =>
      Saved(CreateItem(w, t.newAccount, Some(t.generation), a), OnCreated(SaveView(w), a.ok && t.newAccount !in w.items))
    case MarkingReady(_) => Saved(w, MarkReady(SaveView(w), a.write))
    case SavingConfig(t) => Saved(StoreConfig(w, t.config, a), OnConfigSaved(SaveView(w), a.ok))
    case Inspecting(t) =>
      Saved(w, OnInspected(SaveView(w), if a.ok then Some(Inspection(w.config, t.newAccount in w.items)) else None))
    case MarkingSaved(_) => Saved(w, MarkSaved(SaveView(w), a.write))
    case CommittingMove(_) => Saved(w, CommitMove(SaveView(w), a.write))
    case DeletingOld(t) =>
      Saved(if t.oldAccount.Some? then DeleteItem(w, t.oldAccount.value, a) else w, OnOldDeleted(SaveView(w), a.ok))
    case Completing(_) => Saved(w, CompleteMove(SaveView(w), a.write))
    case MarkingCleanupNew(_) => Saved(w, MarkCleanupNew(SaveView(w), a.write))
    case DeletingNew(t) => Saved(DeleteItem(w, t.newAccount, a), OnNewDeleted(SaveView(w), a.ok))
    case RollingBack(_) => Saved(w, RollBack(SaveView(w), a.write))
  }

  /** Configuration first, then the staged notice; without it nothing touches the Keychain. */
  function BeginRegular(w: World, config: AppConfig, mutation: Mutation, a: Answer): World {
    var stored := StoreConfig(w, config, a);
    if !a.ok then stored
    else
      var o := Perform(w.journal, PlanStage(w.journal, mutation.account), a.write);
      var noted := Noted(stored, o.journal);
      if o.error.Some? then noted else noted.(regular := Writing(mutation, w.journal.generation + 1))
  }

  function WriteItem(w: World, mutation: Mutation, a: Answer): World {
    match mutation
    case Create(account) => CreateItem(w, account, None, a)
    case Update(_, _) => w
    case Delete(account) => DeleteItem(w, account, a)
  }

  function RegularOutcome(w: World, mutation: Mutation, a: Answer): Option<SaveOutcome> {
    if !a.ok then None
    else match mutation
         case Create(account) => if account in w.items then None else Some(Created)
         case Update(account, same) =>
           if same then Some(Unchanged) else if account in w.items then Some(UpdatedExisting) else None
         case Delete(_) => Some(Deleted)
  }

  /** A notice for what landed; a rollback for what did not or changed nothing. */
  function PlanConclusion(j: Journal, generation: nat, outcome: Option<SaveOutcome>): Plan {
    if outcome.None? || NoticeFor(outcome.value).None? then PlanRollback(j, generation)
    else PlanCommit(j, generation, NoticeFor(outcome.value).value)
  }

  function StepRegular(w: World, a: Answer): World {
    match w.regular
    case NoRegular => w
    case Writing(mutation, generation) =>
      WriteItem(w, mutation, a).(regular := Concluding(generation, RegularOutcome(w, mutation, a)))
    case Concluding(generation, outcome) =>
      Noted(w, Perform(w.journal, PlanConclusion(w.journal, generation, outcome), a.write).journal)
      .(regular := NoRegular)
  }

  function ReadAccount(w: World, a: Answer): Option<nat> {
    if a.readable then Some(w.config.account) else None
  }

  function ReadProbe(w: World, record: Migration, a: Answer): Probe {
    if !a.ok then Inconclusive
    else Observed(record.newAccount in w.items,
                  if record.oldAccount.Some? then Some(record.oldAccount.value in w.items) else None)
  }

  /** `requireCurrentAccount` */
  predicate Requires(w: World, account: Option<nat>, a: Answer) {
    a.readable && account == Some(w.config.account)
  }

  function StepRecovery(w: World, a: Answer): World {
    match w.recovering
    case Resting => w
    case Probing(record) => Repaired(w, OnProbed(RepairView(w), ReadAccount(w, a), ReadProbe(w, record, a)))
    case Deciding(_, _, _, _) => Repaired(w, FinishRecovery(RepairView(w), a.write))
    case Validating(record, _) => Repaired(w, OnValidated(RepairView(w), Requires(w, Some(record.newAccount), a)))
    case Validated(_, _, _) => Repaired(w, FinishValidation(RepairView(w), a.write))
    case Retrying(_, _) => Repaired(w, OnReread(RepairView(w), ReadAccount(w, a)))
    case NotifyingNew(_, _) => Repaired(w, NotifyNew(RepairView(w), a.write))
    case FinishingNew(_, _) => Repaired(w, FinishNew(RepairView(w), a.write))
    case RemovingNew(record) =>
      var checked := Requires(w, record.oldAccount, a);
      Repaired(if checked then DeleteItem(w, record.newAccount, a) else w, OnNewRemoved(RepairView(w), checked && a.ok))
    case RemovedNew(_, _) => Repaired(w, FinishNewCleanup(RepairView(w), a.write))
    case RemovingOld(record) =>
      var checked := Requires(w, Some(record.newAccount), a) && record.oldAccount.Some?;
      Repaired(if checked then DeleteItem(w, record.oldAccount.value, a) else w, OnOldRemoved(RepairView(w), checked && a.ok))
    case RemovedOld(_, _) => Repaired(w, FinishOldCleanup(RepairView(w), a.write))
  }

  /** Reading the journal; when its promotion cannot be written durably the app goes on without. */
  function OpenJournal(w: World, write: Write): World {
    var o := Perform(w.journal, PlanOpen(w.journal), write);
    Noted(w, o.journal).(available := o.error.None?)
  }

  function CrashNow(w: World): World {
    w.(available := false, running := false, saving := Idle, regular := NoRegular, recovering := Resting)
  }

  /** The Settings window starts a save only when no other save and no recovery is under way;
      it passes the account the saved configuration names as the old one. */
  function StartMoving(w: World, config: AppConfig, oldAccount: nat, write: Write): World {
    Saved(w, BeginMove(w.journal, config, config.account, Some(oldAccount), write)).(edited := false)
  }

  function Step(w: World, e: Event): World {
    match e
    case Launch(write) => if w.running then w else OpenJournal(w.(running := true), write)
    case Retry(write) => if !w.running || w.available then w else OpenJournal(w, write)
    case Crash => CrashNow(w)
    case Configure(config) => w.(config := config, edited := w.edited || !AtRest(w))
    case StartMove(config, write) =>
      if !w.available || !AtRest(w) then w else StartMoving(w, config, w.config.account, write)
    case SaveStep(a) => StepSave(w, a)
    case StartRegular(config, mutation, a) =>
      if !w.available || !AtRest(w) || mutation.account != config.account then w
      else BeginRegular(w.(edited := false), config, mutation, a)
    case RegularStep(a) => StepRegular(w, a)
    case Recover =>
      if !w.available || !AtRest(w) then w else Repaired(w, BeginRecovery(RepairView(w))).(edited := false)
    case RecoveryStep(a) => StepRecovery(w, a)
    case Deliver(generation, write) =>
      if !w.available then w
      else Noted(w, Perform(w.journal, PlanAcknowledge(w.journal, generation), write).journal)
  }

  /** The very first launch: an empty journal, and whatever configuration and items there are,
      none of them created by a migration. */
  ghost predicate Initial(w: World) {
    && w.journal == EMPTY_JOURNAL
    && !w.running && !w.available
    && AtRest(w)
    && !w.edited
    && w.announced == {}
    && forall a :: a in w.items ==> w.items[a] == None
  }

  function Run(w: World, events: seq<Event>): World
    decreases |events|
  {
    if events == [] then w else Run(Step(w, events[0]), events[1..])
  }
}
