/** The private journal of credential notices and account migrations
    (CredentialMutationJournal.swift). A number stands for each Keychain account.

    Every operation is a plan over the state (refuse, leave alone, or write a next state),
    followed by one write of the file whose outcome decides what the object remembers. */
module CredentialJournal {
  import opened Records

  /** `UInt64.max`, where the generation is exhausted. */
  const MAX_GENERATION: nat := 0xFFFF_FFFF_FFFF_FFFF

  datatype Notice = Changed | Removed

  datatype Pending = Pending(account: nat, notice: Notice, generation: nat)

  datatype Phase = Staged | NewCredentialReady | ConfigurationSaved | CleanupNew | CleanupOld

  datatype Migration = Migration(generation: nat, oldAccount: Option<nat>, newAccount: nat, phase: Phase)

  datatype Journal = Journal(
    generation: nat,
    pending: Option<Pending>,
    staged: Option<Pending>,
    migration: Option<Migration>)

  const EMPTY_JOURNAL := Journal(0, None, None, None)

  /** How a write of the file can end: renamed and flushed, nothing visible, or renamed but
      the directory flush failed. */
  datatype Write = Durable | NotWritten | Uncertain

  datatype Error = GenerationExhausted | InvalidTransition | WriteFailed | DurabilityUncertain

  datatype Plan = Refuse(error: Error) | Leave | Replace(next: Journal)

  /** What an operation leaves in memory and in the file, and what it throws. */
  datatype Outcome = Outcome(journal: Journal, error: Option<Error>)

  predicate Unacknowledged(j: Journal) {
    j.pending.Some? || j.staged.Some? || (j.migration.Some? && j.migration.value.phase != CleanupOld)
  }

  function Perform(j: Journal, plan: Plan, write: Write): Outcome {
    match plan
    case Refuse(error) => Outcome(j, Some(error))
    case Leave => Outcome(j, None)
    case Replace(next) =>
      (match write
       case Durable => Outcome(next, None)
       case NotWritten => Outcome(j, Some(WriteFailed))
       case Uncertain => Outcome(next, Some(DurabilityUncertain)))
  }

  function Promoted(p: Pending): Pending {
    Pending(p.account, Changed, p.generation)
  }

  /** What opening the journal writes: an undecided staged notice becomes `changed`. */
  function PlanOpen(j: Journal): Plan {
    if j.pending.None? && j.staged.Some? then
      Replace(j.(pending := Some(Promoted(j.staged.value)), staged := None))
    else Leave
  }

  function PlanStage(j: Journal, account: nat): Plan {
    if j.migration.Some? && !(j.migration.value.phase == CleanupOld && j.pending.None?) then Refuse(InvalidTransition)
    else if j.generation >= MAX_GENERATION then Refuse(GenerationExhausted)
    else Replace(j.(generation := j.generation + 1, staged := Some(Pending(account, Changed, j.generation + 1))))
  }

  function PlanStageMigration(j: Journal, oldAccount: Option<nat>, newAccount: nat): Plan {
    if oldAccount.None? || oldAccount.value == newAccount then Refuse(InvalidTransition)
    else if j.migration.Some? || j.staged.Some? || j.pending.Some? then Refuse(InvalidTransition)
    else if j.generation >= MAX_GENERATION then Refuse(GenerationExhausted)
    else Replace(j.(generation := j.generation + 1,
                    migration := Some(Migration(j.generation + 1, oldAccount, newAccount, Staged))))
  }

  predicate Migrating(j: Journal, generation: nat) {
    j.migration.Some? && j.migration.value.generation == generation
  }

  function PlanPhase(j: Journal, generation: nat, phase: Phase): Plan {
    if !Migrating(j, generation) then Refuse(InvalidTransition)
    else Replace(j.(migration := Some(j.migration.value.(phase := phase))))
  }

  /** The notice for the new account and the intent to clean up the old one, in one write. */
  function PlanCommitMigration(j: Journal, generation: nat): Plan {
    if !Migrating(j, generation) || j.migration.value.phase != ConfigurationSaved then Refuse(InvalidTransition)
    else if j.pending.Some? then Refuse(InvalidTransition)
    else Replace(j.(pending := Some(Pending(j.migration.value.newAccount, Changed, generation)),
                    migration := Some(j.migration.value.(phase := CleanupOld))))
  }

  function PlanCompleteMigration(j: Journal, generation: nat): Plan {
    if !Migrating(j, generation) then Refuse(InvalidTransition) else Replace(j.(migration := None))
  }

  function PlanRollbackMigration(j: Journal, generation: nat): Plan {
    if !Migrating(j, generation) then Leave else Replace(j.(migration := None))
  }

  function PlanCommit(j: Journal, generation: nat, notice: Notice): Plan {
    if j.staged.None? || j.staged.value.generation != generation then Refuse(InvalidTransition)
    else Replace(j.(pending := Some(Pending(j.staged.value.account, notice, generation)), staged := None))
  }

  function PlanRollback(j: Journal, generation: nat): Plan {
    if j.staged.None? || j.staged.value.generation != generation then Leave else Replace(j.(staged := None))
  }

  /** The acknowledged notice leaves; a notice staged meanwhile takes its place as `changed`. */
  function PlanAcknowledge(j: Journal, generation: nat): Plan {
    if j.pending.None? || j.pending.value.generation != generation then Leave
    else if j.staged.Some? then Replace(j.(pending := Some(Promoted(j.staged.value)), staged := None))
    else Replace(j.(pending := None))
  }

  /** Generations only grow, and a pending notice is always older than a staged one: what
      lets one number tell every notice and every migration apart. */
  predicate Ordered(j: Journal) {
    && (j.pending.Some? ==> j.pending.value.generation <= j.generation)
    && (j.staged.Some? ==> j.staged.value.generation <= j.generation)
    && (j.migration.Some? ==> j.migration.value.generation <= j.generation)
    && (j.pending.Some? && j.staged.Some? ==> j.pending.value.generation < j.staged.value.generation)
    && (j.migration.Some? && j.staged.Some? ==> j.migration.value.generation < j.staged.value.generation)
    && (j.migration.Some? && j.pending.Some? && j.migration.value.generation == j.pending.value.generation ==>
          j.pending.value == Pending(j.migration.value.newAccount, Changed, j.migration.value.generation))
  }

  datatype Operation =
    | Open
    | Stage(account: nat)
    | StageMigration(oldAccount: Option<nat>, newAccount: nat)
    | SetPhase(generation: nat, phase: Phase)
    | CommitMigration(generation: nat)
    | CompleteMigration(generation: nat)
    | RollbackMigration(generation: nat)
    | Commit(generation: nat, notice: Notice)
    | Rollback(generation: nat)
    | Acknowledge(generation: nat)

  function PlanFor(j: Journal, op: Operation): Plan {
    match op
    case Open => PlanOpen(j)
    case Stage(account) => PlanStage(j, account)
    case StageMigration(oldAccount, newAccount) => PlanStageMigration(j, oldAccount, newAccount)
    case SetPhase(generation, phase) => PlanPhase(j, generation, phase)
    case CommitMigration(generation) => PlanCommitMigration(j, generation)
    case CompleteMigration(generation) => PlanCompleteMigration(j, generation)
    case RollbackMigration(generation) => PlanRollbackMigration(j, generation)
    case Commit(generation, notice) => PlanCommit(j, generation, notice)
    case Rollback(generation) => PlanRollback(j, generation)
    case Acknowledge(generation) => PlanAcknowledge(j, generation)
  }

  /** A pending notice leaves only when its own generation is acknowledged, or because a
      younger one takes its place. */
  ghost predicate NoticeKept(before: Journal, op: Operation, after: Journal) {
    before.pending.Some? && after.pending != before.pending ==>
      || op == Acknowledge(before.pending.value.generation)
      || (after.pending.Some? && after.pending.value.generation > before.pending.value.generation)
  }

  lemma OperationKeepsNotices(j: Journal, op: Operation, write: Write)
    requires Ordered(j)
    ensures var after := Perform(j, PlanFor(j, op), write).journal;
            Ordered(after) && NoticeKept(j, op, after) && after.generation >= j.generation
  {
    match op {
      case Open =>
      case Stage(_) =>
      case StageMigration(_, _) =>
      case SetPhase(_, _) =>
      case CommitMigration(_) =>
      case CompleteMigration(_) =>
      case RollbackMigration(_) =>
      case Commit(_, _) =>
      case Rollback(_) =>
      case Acknowledge(_) =>
    }
  }

  function Next(j: Journal, op: (Operation, Write)): Journal {
    Perform(j, PlanFor(j, op.0), op.1).journal
  }

  function RunOperations(j: Journal, ops: seq<(Operation, Write)>): Journal
    decreases |ops|
  {
    if ops == [] then j else RunOperations(Next(j, ops[0]), ops[1..])
  }

  /** Somewhere in the run, a pending notice no older than `least` is acknowledged. */
  ghost predicate AcknowledgedIn(j: Journal, ops: seq<(Operation, Write)>, least: nat)
    decreases |ops|
  {
    ops != []
    && (|| (ops[0].0.Acknowledge? && j.pending.Some? && j.pending.value.generation == ops[0].0.generation >= least)
        || AcknowledgedIn(Next(j, ops[0]), ops[1..], least))
  }

  /** Over any run of journal operations, crashes and reopenings included (`Open` reads the
      visible file again), a pending notice is never dropped: at the end a notice no older is
      pending, or one no older was acknowledged on the way. */
  lemma {:induction false} NoticeOutlivesRun(j: Journal, ops: seq<(Operation, Write)>, least: nat)
    requires Ordered(j) && j.pending.Some? && j.pending.value.generation >= least
    ensures
      || (RunOperations(j, ops).pending.Some? && RunOperations(j, ops).pending.value.generation >= least)
      || AcknowledgedIn(j, ops, least)
    decreases |ops|
  {
    if ops == [] {
    } else {
      OperationKeepsNotices(j, ops[0].0, ops[0].1);
      if !(ops[0].0 == Acknowledge(j.pending.value.generation)) {
        NoticeOutlivesRun(Next(j, ops[0]), ops[1..], least);
      }
    }
  }

  /** The journal object: `state` is what it remembers, `file` what the visible file holds. */
  class CredentialMutationJournal {
    var state: Journal
    var file: Journal

    /** Memory and visible file agree at every return, thrown errors included. */
    ghost predicate Valid()
      reads this
    {
      state == file
    }

    /** Reads the visible file, and replays what was left undecided as `changed`. An error
        throws the object away; what the file then holds is still said. */
    constructor (visible: Journal, write: Write)
      ensures Valid()
      ensures state == Perform(visible, PlanOpen(visible), write).journal
    {
      state := visible;
      file := visible;
      new;
      if state.pending.None? && state.staged.Some? {
        var staged := state.staged.value;
        var previous := state;
        state := state.(pending := Some(Pending(staged.account, Changed, staged.generation)), staged := None);
        var error := Persist(write);
        if error.Some? {
          RestoreOrRetain(previous, error.value);
        }
      }
    }

    predicate HasUnacknowledgedMutation()
      reads this
      ensures HasUnacknowledgedMutation() == Unacknowledged(state)
    {
      || state.pending.Some?
      || state.staged.Some?
      || (state.migration.Some? && state.migration.value.phase != CleanupOld)
    }

    method Persist(write: Write) returns (error: Option<Error>)
      modifies `file
      ensures match write
              case Durable => error == None && file == state
              case NotWritten => error == Some(WriteFailed) && file == old(file)
              case Uncertain => error == Some(DurabilityUncertain) && file == state
    {
      if write.NotWritten? {
        return Some(WriteFailed);
      }
      file := state;
      error := if write.Uncertain? then Some(DurabilityUncertain) else None;
    }

    /** A rename that happened stays; anything else goes back to the previous state. */
    method RestoreOrRetain(previous: Journal, error: Error)
      modifies `state
      ensures state == if error == DurabilityUncertain then old(state) else previous
    {
      if error == DurabilityUncertain {
        return;
      }
      state := previous;
    }

    method PersistOrRestore(previous: Journal, write: Write) returns (error: Option<Error>)
      requires file == previous
      modifies this
      ensures Valid()
      ensures Outcome(state, error) == Perform(previous, Replace(old(state)), write)
    {
      error := Persist(write);
      if error.Some? {
        RestoreOrRetain(previous, error.value);
      }
    }

    method Stage(account: nat, write: Write) returns (error: Option<Error>)
      requires Valid()
      modifies this
      ensures Valid() && Outcome(state, error) == Perform(old(state), PlanStage(old(state), account), write)
    {
      var cleanupOnly := state.migration.Some? && state.migration.value.phase == CleanupOld && state.pending.None?;
      if !(state.migration.None? || cleanupOnly) {
        return Some(InvalidTransition);
      }
      if !(state.generation < MAX_GENERATION) {
        return Some(GenerationExhausted);
      }
      var previous := state;
      state := state.(generation := state.generation + 1);
      state := state.(staged := Some(Pending(account, Changed, state.generation)));
      error := PersistOrRestore(previous, write);
    }

    method StageMigration(oldAccount: Option<nat>, newAccount: nat, write: Write) returns (error: Option<Error>)
      requires Valid()
      modifies this
      ensures Valid()
      ensures Outcome(state, error) == Perform(old(state), PlanStageMigration(old(state), oldAccount, newAccount), write)
    {
      if oldAccount.None? || oldAccount.value == newAccount {
        return Some(InvalidTransition);
      }
      if !(state.migration.None? && state.staged.None? && state.pending.None?) {
        return Some(InvalidTransition);
      }
      if !(state.generation < MAX_GENERATION) {
        return Some(GenerationExhausted);
      }
      var previous := state;
      state := state.(generation := state.generation + 1);
      state := state.(migration := Some(Migration(state.generation, oldAccount, newAccount, Staged)));
      error := PersistOrRestore(previous, write);
    }

    method SetMigrationPhase(generation: nat, phase: Phase, write: Write) returns (error: Option<Error>)
      requires Valid()
      modifies this
      ensures Valid() && Outcome(state, error) == Perform(old(state), PlanPhase(old(state), generation, phase), write)
    {
      if state.migration.None? || state.migration.value.generation != generation {
        return Some(InvalidTransition);
      }
      var previous := state;
      state := state.(migration := Some(state.migration.value.(phase := phase)));
      error := PersistOrRestore(previous, write);
    }

    method CommitMigration(generation: nat, write: Write) returns (error: Option<Error>)
      requires Valid()
      modifies this
      ensures Valid() && Outcome(state, error) == Perform(old(state), PlanCommitMigration(old(state), generation), write)
    {
      if state.migration.None? || state.migration.value.generation != generation
         || state.migration.value.phase != ConfigurationSaved {
        return Some(InvalidTransition);
      }
      if state.pending.Some? {
        return Some(InvalidTransition);
      }
      var previous := state;
      var migration := state.migration.value;
      state := state.(pending := Some(Pending(migration.newAccount, Changed, generation)));
      state := state.(migration := Some(migration.(phase := CleanupOld)));
      error := PersistOrRestore(previous, write);
    }

    method CompleteMigration(generation: nat, write: Write) returns (error: Option<Error>)
      requires Valid()
      modifies this
      ensures Valid()
      ensures Outcome(state, error) == Perform(old(state), PlanCompleteMigration(old(state), generation), write)
    {
      if state.migration.None? || state.migration.value.generation != generation {
        return Some(InvalidTransition);
      }
      var previous := state;
      state := state.(migration := None);
      error := PersistOrRestore(previous, write);
    }

    method RollbackMigration(generation: nat, write: Write) returns (error: Option<Error>)
      requires Valid()
      modifies this
      ensures Valid()
      ensures Outcome(state, error) == Perform(old(state), PlanRollbackMigration(old(state), generation), write)
    {
      if state.migration.None? || state.migration.value.generation != generation {
        return None;
      }
      var previous := state;
      state := state.(migration := None);
      error := PersistOrRestore(previous, write);
    }

    method Commit(generation: nat, notice: Notice, write: Write) returns (error: Option<Error>)
      requires Valid()
      modifies this
      ensures Valid() && Outcome(state, error) == Perform(old(state), PlanCommit(old(state), generation, notice), write)
    {
      if state.staged.None? || state.staged.value.generation != generation {
        return Some(InvalidTransition);
      }
      var previous := state;
      state := state.(pending := Some(Pending(state.staged.value.account, notice, generation)));
      state := state.(staged := None);
      error := PersistOrRestore(previous, write);
    }

    method Rollback(generation: nat, write: Write) returns (error: Option<Error>)
      requires Valid()
      modifies this
      ensures Valid() && Outcome(state, error) == Perform(old(state), PlanRollback(old(state), generation), write)
    {
      if state.staged.None? || state.staged.value.generation != generation {
        return None;
      }
      var previous := state;
      state := state.(staged := None);
      error := PersistOrRestore(previous, write);
    }

    /** `cleared` is meaningful only without an error, as in the source. */
    method Acknowledge(generation: nat, write: Write) returns (cleared: bool, error: Option<Error>)
      requires Valid()
      modifies this
      ensures Valid() && Outcome(state, error) == Perform(old(state), PlanAcknowledge(old(state), generation), write)
      ensures error.None? ==> (cleared <==> old(state).pending.Some? && old(state).pending.value.generation == generation)
    {
      if state.pending.None? || state.pending.value.generation != generation {
        return false, None;
      }
      var previous := state;
      state := state.(pending := None);
      if previous.staged.Some? {
        var staged := previous.staged.value;
        state := state.(pending := Some(Pending(staged.account, Changed, staged.generation)));
        state := state.(staged := None);
      }
      error := PersistOrRestore(previous, write);
      cleared := true;
    }
  }
}
