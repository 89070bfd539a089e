/** Delivery of credential notices to the agent, and the actions that wait for it
    (CredentialMutationCoordinator.swift). */
module MutationCoordinator {
  import opened Records
  import opened CredentialJournal
  import opened MigrationSave

  datatype Status = Status(account: nat, password: CredentialState)

  /** What the agent answered to a delivered notice; `None` is a failed request. */
  datatype Response = Response(ok: bool, status: Option<Status>)

  /** `latest` is the agent's newest status and `inFlight` the notice being delivered. The
      actions are numbered; `submitted`, `ran` and `sent` are the history the properties
      speak of. */
  datatype Coordinator = Coordinator(
    journal: Journal,
    available: bool,
    latest: Option<Status>,
    inFlight: Option<Pending>,
    deferred: seq<nat>,
    submitted: seq<nat>,
    ran: seq<nat>,
    sent: seq<Pending>)

  datatype Event =
    | Observe(status: Option<Status>)
    | Submit(action: nat)
    | Mutate(op: Operation, write: Write)
    | Answered(response: Option<Response>, write: Write)
    | Reopen(visible: Journal, write: Write)

  function NoticeFor(outcome: SaveOutcome): Option<Notice> {
    match outcome
    case Created => Some(Changed)
    case UpdatedExisting => Some(Changed)
    case Deleted => Some(Removed)
    case Unchanged => None
  }

  /** The operation that `commit(generation:outcome:)` performs. */
  function CommitFor(generation: nat, outcome: SaveOutcome): Operation {
    if NoticeFor(outcome).None? then Rollback(generation) else Commit(generation, NoticeFor(outcome).value)
  }

  /** The state the agent reports once it has applied the notice. */
  predicate Acknowledges(status: Status, p: Pending) {
    status.account == p.account && status.password == (if p.notice.Changed? then AccessPending else NotConfigured)
  }

  predicate Blocked(c: Coordinator) {
    !c.available || Unacknowledged(c.journal)
  }

  predicate Deliverable(c: Coordinator) {
    && c.available
    && c.inFlight.None?
    && c.journal.pending.Some?
    && c.latest.Some?
    && c.latest.value.account == c.journal.pending.value.account
  }

  function Attempt(c: Coordinator): Coordinator {
    if !Deliverable(c) then c
    else c.(inFlight := c.journal.pending, sent := c.sent + [c.journal.pending.value])
  }

  function Drain(c: Coordinator): Coordinator {
    if Blocked(c) then c else c.(ran := c.ran + c.deferred, deferred := [])
  }

  function SubmitAction(c: Coordinator, action: nat): Coordinator {
    if !c.available then c
    else if !Blocked(c) then c.(submitted := c.submitted + [action], ran := c.ran + [action])
    else c.(submitted := c.submitted + [action], deferred := c.deferred + [action])
  }

  /** A journal operation of a save transaction or of recovery, and what follows a success. */
  function MutateJournal(c: Coordinator, op: Operation, write: Write): Coordinator {
    if !c.available then c
    else
      var o := Perform(c.journal, PlanFor(c.journal, op), write);
      var written := c.(journal := o.journal);
      if o.error.Some? then written
      else if op.Commit? || op.CommitMigration? then Attempt(written)
      else if op.Rollback? || op.RollbackMigration? || op.CompleteMigration? then Drain(written)
      else written
  }

  /** Only an answer that shows the notice applied acknowledges it; a failed one is retried on
      the next status. */
  function FinishDelivery(c: Coordinator, response: Option<Response>, write: Write): Coordinator {
    if c.inFlight.None? then c
    else
      var p := c.inFlight.value;
      var idle := c.(inFlight := None);
      if response.None? || !response.value.ok || response.value.status.None?
         || !Acknowledges(response.value.status.value, p) then idle
      else if !c.available then idle
      else
        var o := Perform(c.journal, PlanAcknowledge(c.journal, p.generation), write);
        var written := idle.(journal := o.journal);
        if o.error.Some? then written
        else
          var seen := written.(latest := response.value.status);
          Attempt(if c.journal.pending.Some? && c.journal.pending.value.generation == p.generation then Drain(seen) else seen)
  }

  /** `retryAvailability` */
  function Retry(c: Coordinator, visible: Journal, write: Write): Coordinator {
    if c.available then c
    else
      var o := Perform(visible, PlanOpen(visible), write);
      if o.error.Some? then c else Attempt(c.(journal := o.journal, available := true))
  }

  function Step(c: Coordinator, e: Event): Coordinator {
    match e
    case Observe(status) => Attempt(c.(latest := status))
    case Submit(action) => SubmitAction(c, action)
    case Mutate(op, write) => if op.Open? || op.Acknowledge? then c else MutateJournal(c, op, write)
    case Answered(response, write) => FinishDelivery(c, response, write)
    case Reopen(visible, write) => if Ordered(visible) then Retry(c, visible, write) else c
  }

  // ---------------------------------------------------------------- what every run keeps

  ghost predicate DeliveryOk(c: Coordinator) {
    c.inFlight.Some? ==>
      var d := c.inFlight.value;
      && c.available
      && d.generation <= c.journal.generation
      && (c.journal.pending.Some? && c.journal.pending.value.generation == d.generation ==> c.journal.pending.value == d)
      && (c.journal.staged.Some? ==> c.journal.staged.value.generation > d.generation)
      && (c.journal.migration.Some? && c.journal.migration.value.generation == d.generation ==>
            d == Pending(c.journal.migration.value.newAccount, Changed, d.generation))
  }

  /** Every accepted action ran once or still waits. */
  ghost predicate Accounted(c: Coordinator) {
    multiset(c.ran) + multiset(c.deferred) == multiset(c.submitted)
  }

  /** Without a journal nothing is accepted, so nothing waits. */
  ghost predicate Inv(c: Coordinator) {
    Ordered(c.journal) && DeliveryOk(c) && Accounted(c) && (!c.available ==> c.deferred == [])
  }

  /** Actions start only when nothing waits to be acknowledged. */
  ghost predicate ActionsWait(c: Coordinator, after: Coordinator) {
    after.ran != c.ran ==> !Blocked(after)
  }

  /** At most one notice is on its way, and it is the pending one of the account the agent runs. */
  ghost predicate OneDelivery(c: Coordinator, after: Coordinator) {
    after.sent != c.sent ==>
      && after.inFlight.Some? && after.inFlight == after.journal.pending
      && after.sent == c.sent + [after.inFlight.value]
      && after.latest.Some? && after.latest.value.account == after.inFlight.value.account
  }

  ghost predicate InFlightStays(c: Coordinator, e: Event, after: Coordinator) {
    c.inFlight.Some? && !e.Answered? ==> after.inFlight == c.inFlight && after.sent == c.sent
  }

  /** A pending notice leaves only because the agent showed that it applied this very notice,
      or because the save of a younger one replaced it. */
  ghost predicate ClearedByItsAnswer(c: Coordinator, e: Event, after: Coordinator) {
    c.available && c.journal.pending.Some? && after.journal.pending != c.journal.pending ==>
      || (e.Answered? && c.inFlight == c.journal.pending && e.response.Some? && e.response.value.ok
          && e.response.value.status.Some? && Acknowledges(e.response.value.status.value, c.journal.pending.value))
      || (e.Mutate? && e.op.Commit? && after.journal.pending.Some?
          && after.journal.pending.value.generation > c.journal.pending.value.generation)
  }

  ghost predicate StepOk(c: Coordinator, e: Event, after: Coordinator) {
    && ActionsWait(c, after)
    && OneDelivery(c, after)
    && InFlightStays(c, e, after)
    && ClearedByItsAnswer(c, e, after)
  }

  lemma AttemptKeeps(c: Coordinator)
    requires Inv(c)
    ensures Inv(Attempt(c)) && OneDelivery(c, Attempt(c))
    ensures Attempt(c) == c.(inFlight := Attempt(c).inFlight, sent := Attempt(c).sent)
    ensures c.inFlight.Some? ==> Attempt(c) == c
  {
  }

  lemma DrainKeeps(c: Coordinator)
    requires Inv(c)
    ensures Inv(Drain(c)) && ActionsWait(c, Drain(c))
    ensures Drain(c) == c.(ran := Drain(c).ran, deferred := Drain(c).deferred)
  {
    assert multiset(c.ran + c.deferred) == multiset(c.ran) + multiset(c.deferred);
  }

  lemma ObserveKeeps(c: Coordinator, e: Event)
    requires Inv(c) && e.Observe?
    ensures Inv(Step(c, e)) && StepOk(c, e, Step(c, e))
  {
    hide Attempt;
    AttemptKeeps(c.(latest := e.status));
  }

  lemma SubmitKeeps(c: Coordinator, e: Event)
    requires Inv(c) && e.Submit?
    ensures Inv(Step(c, e)) && StepOk(c, e, Step(c, e))
  {
  }

  /** An operation of a save or of recovery touches a pending notice only to replace it. */
  lemma PendingReplaced(j: Journal, op: Operation, write: Write)
    requires Ordered(j) && !op.Acknowledge? && j.pending.Some?
    ensures var after := Perform(j, PlanFor(j, op), write).journal;
            after.pending != j.pending ==>
              op.Commit? && after.pending.Some? && after.pending.value.generation > j.pending.value.generation
  {
  }

  function Written(c: Coordinator, op: Operation, write: Write): Coordinator {
    c.(journal := Perform(c.journal, PlanFor(c.journal, op), write).journal)
  }

  lemma DeliveryUndisturbed(c: Coordinator, op: Operation, write: Write)
    requires Ordered(c.journal) && DeliveryOk(c)
    ensures DeliveryOk(Written(c, op, write))
  {
    match op {
      case Open =>
      case Stage(_) =>
      case StageMigration(_, _) =>
      case SetPhase(_, _) =>
      case CommitMigration(_) =>
      case CompleteMigration(_) =>
      case RollbackMigration(_) =>
      case Commit(_, _) =>
      case Rollback(_) =>
      case Acknowledge(_) =>
    }
  }

  lemma WrittenKeeps(c: Coordinator, op: Operation, write: Write)
    requires Inv(c)
    ensures Inv(Written(c, op, write))
  {
    hide Ordered;
    hide DeliveryOk;
    hide Perform;
    hide PlanFor;
    hide NoticeKept;
    OperationKeepsNotices(c.journal, op, write);
    DeliveryUndisturbed(c, op, write);
  }

  lemma MutateKeeps(c: Coordinator, e: Event)
    requires Inv(c) && e.Mutate?
    ensures Inv(Step(c, e)) && StepOk(c, e, Step(c, e))
  {
    hide Attempt;
    hide Drain;
    hide Accounted;
    hide DeliveryOk;
    hide Ordered;
    hide Perform;
    hide PlanFor;
    if c.available && !e.op.Open? && !e.op.Acknowledge? {
      var written := Written(c, e.op, e.write);
      WrittenKeeps(c, e.op, e.write);
      AttemptKeeps(written);
      DrainKeeps(written);
      if c.journal.pending.Some? {
        PendingReplaced(c.journal, e.op, e.write);
      }
    }
  }

  lemma AnsweredKeeps(c: Coordinator, e: Event)
    requires Inv(c) && e.Answered?
    ensures Inv(Step(c, e)) && StepOk(c, e, Step(c, e))
  {
    hide Attempt;
    hide Drain;
    hide Ordered;
    if c.inFlight.Some? && c.available {
      var p := c.inFlight.value;
      var idle := c.(inFlight := None);
      var written := Written(idle, Acknowledge(p.generation), e.write);
      WrittenKeeps(idle, Acknowledge(p.generation), e.write);
      if e.response.Some? {
        var seen := written.(latest := e.response.value.status);
        DrainKeeps(seen);
        AttemptKeeps(seen);
        AttemptKeeps(Drain(seen));
      }
    }
  }

  lemma ReopenKeeps(c: Coordinator, e: Event)
    requires Inv(c) && e.Reopen?
    ensures Inv(Step(c, e)) && StepOk(c, e, Step(c, e))
  {
  }

  lemma StepKeeps(c: Coordinator, e: Event)
    requires Inv(c)
    ensures Inv(Step(c, e)) && StepOk(c, e, Step(c, e))
  {
    hide Inv;
    hide StepOk;
    hide Step;
    match e {
      case Observe(_) => ObserveKeeps(c, e);
      case Submit(_) => SubmitKeeps(c, e);
      case Mutate(_, _) => MutateKeeps(c, e);
      case Answered(_, _) => AnsweredKeeps(c, e);
      case Reopen(_, _) => ReopenKeeps(c, e);
    }
  }

  function Run(c: Coordinator, events: seq<Event>): Coordinator
    decreases |events|
  {
    if events == [] then c else Run(Step(c, events[0]), events[1..])
  }

  lemma {:induction false} RunKeeps(c: Coordinator, events: seq<Event>)
    requires Inv(c)
    ensures Inv(Run(c, events))
    decreases |events|
  {
    hide Inv;
    hide Step;
    if events == [] {
    } else {
      StepKeeps(c, events[0]);
      RunKeeps(Step(c, events[0]), events[1..]);
    }
  }

  function Fresh(j: Journal, available: bool): Coordinator {
    Coordinator(j, available, None, None, [], [], [], [])
  }

  /** Over every run of statuses, saves, recoveries, answers and requests: no accepted action
      is lost or run twice, each starts only when no credential change waits for the agent, at
      most one notice is under way and only to an agent of that account, and a notice is
      cleared only by the answer that proves it applied. */
  lemma CoordinatorSafe(j: Journal, available: bool, events: seq<Event>, e: Event)
    requires Ordered(j)
    ensures var c := Run(Fresh(j, available), events);
            StepOk(c, e, Step(c, e)) && Accounted(c)
  {
    RunKeeps(Fresh(j, available), events);
    StepKeeps(Run(Fresh(j, available), events), e);
    InvAccounts(Run(Fresh(j, available), events));
  }

  lemma InvAccounts(c: Coordinator)
    requires Inv(c)
    ensures Accounted(c)
  {
  }

  // ---------------------------------------------------------------- actions that are left waiting

  /** Actions wait only while something blocks them. */
  predicate Waits(c: Coordinator) {
    c.deferred != [] ==> Blocked(c)
  }

  /** The answer proves that the pending notice was applied. */
  predicate Answering(c: Coordinator, response: Option<Response>) {
    && c.available
    && c.inFlight.Some? && c.inFlight == c.journal.pending
    && response.Some? && response.value.ok && response.value.status.Some?
    && Acknowledges(response.value.status.value, c.inFlight.value)
  }

  predicate MigrationQuiet(j: Journal) {
    j.migration.Some? ==> j.migration.value.phase == CleanupOld
  }

  predicate MigrationBlocks(j: Journal, generation: nat) {
    Migrating(j, generation) && j.migration.value.phase != CleanupOld && j.pending.None? && j.staged.None?
  }

  /** What the operation is about is the last thing that blocks. */
  predicate LastBlock(j: Journal, op: Operation) {
    match op
    case Acknowledge(g) => j.pending.Some? && j.pending.value.generation == g && j.staged.None? && MigrationQuiet(j)
    case Rollback(g) => j.staged.Some? && j.staged.value.generation == g && j.pending.None? && MigrationQuiet(j)
    case RollbackMigration(g) => MigrationBlocks(j, g)
    case CompleteMigration(g) => MigrationBlocks(j, g)
    case SetPhase(g, phase) => MigrationBlocks(j, g) && phase == CleanupOld
    case _ => false
  }

  /** The events that leave actions waiting with nothing to wait for: the file loses its last
      entry that blocks, but the error path returns before the actions are started, or, when a
      migration is turned into a mere cleanup, no path starts them. */
  predicate Strands(c: Coordinator, e: Event) {
    && c.available && c.deferred != []
    && match e
       case Mutate(op, write) =>
         !op.Acknowledge? && LastBlock(c.journal, op) && (if op.SetPhase? then write != NotWritten else write == Uncertain)
       case Answered(response, write) =>
         Answering(c, response) && LastBlock(c.journal, Acknowledge(c.inFlight.value.generation)) && write == Uncertain
       case _ => false
  }

  /** When an operation of a save or of recovery lifts the last block. */
  lemma LiftedBy(j: Journal, op: Operation, write: Write)
    requires Ordered(j) && Unacknowledged(j) && !op.Open?
    ensures !Unacknowledged(Perform(j, PlanFor(j, op), write).journal) <==> LastBlock(j, op) && write != NotWritten
  {
    match op {
      case Open =>
      case Stage(_) =>
      case StageMigration(_, _) =>
      case SetPhase(_, _) =>
      case CommitMigration(_) =>
      case CompleteMigration(_) =>
      case RollbackMigration(_) =>
      case Commit(_, _) =>
      case Rollback(_) =>
      case Acknowledge(_) =>
    }
  }

  /** An operation that lifts the last block throws exactly when its write was uncertain. */
  lemma LiftingThrows(j: Journal, op: Operation, write: Write)
    requires LastBlock(j, op) && write != NotWritten
    ensures Perform(j, PlanFor(j, op), write).error.Some? <==> write == Uncertain
  {
  }

  lemma AttemptBlocks(c: Coordinator)
    ensures Blocked(Attempt(c)) == Blocked(c) && Attempt(c).deferred == c.deferred
    ensures Attempt(c).ran == c.ran && Attempt(c).submitted == c.submitted
  {
  }

  lemma DrainWaits(c: Coordinator)
    ensures Waits(Drain(c)) && Blocked(Drain(c)) == Blocked(c) && (Blocked(c) ==> Drain(c) == c)
    ensures c.ran + c.deferred == c.submitted ==> Drain(c).ran + Drain(c).deferred == Drain(c).submitted
  {
  }

  lemma MutateStrands(c: Coordinator, e: Event)
    requires Inv(c) && Waits(c) && e.Mutate?
    ensures !Waits(Step(c, e)) <==> Strands(c, e)
  {
    hide Perform;
    hide PlanFor;
    hide Ordered;
    hide DeliveryOk;
    hide Accounted;
    hide Unacknowledged;
    hide LastBlock;
    hide Attempt;
    hide Drain;
    if c.available && c.deferred != [] && !e.op.Open? && !e.op.Acknowledge? {
      LiftedBy(c.journal, e.op, e.write);
      var written := Written(c, e.op, e.write);
      AttemptBlocks(written);
      DrainWaits(written);
      if LastBlock(c.journal, e.op) {
        LastBlocks(c.journal, e.op);
        if e.write != NotWritten { LiftingThrows(c.journal, e.op, e.write); }
      }
    } else if c.deferred == [] {
      NothingWaits(c, e);
    } else if e.op.Open? {
      OpenLifts(c, e);
    }
  }

  lemma LastBlocks(j: Journal, op: Operation)
    requires LastBlock(j, op)
    ensures op.Acknowledge? || op.Rollback? || op.RollbackMigration? || op.CompleteMigration? || op.SetPhase?
  {
  }

  lemma OpenLifts(c: Coordinator, e: Event)
    requires e.Mutate? && e.op.Open?
    ensures !LastBlock(c.journal, e.op)
  {
  }

  lemma NothingWaits(c: Coordinator, e: Event)
    requires e.Mutate? && c.deferred == []
    ensures Step(c, e).deferred == []
  {
  }

  lemma AnswerStrands(c: Coordinator, e: Event)
    requires Inv(c) && Waits(c) && e.Answered?
    ensures !Waits(Step(c, e)) <==> Strands(c, e)
  {
    hide Perform;
    hide Ordered;
    hide Accounted;
    hide Unacknowledged;
    hide LastBlock;
    hide Attempt;
    hide Drain;
    if c.available && c.inFlight.Some? {
      var p := c.inFlight.value;
      var op := Acknowledge(p.generation);
      var idle := c.(inFlight := None);
      var written := Written(idle, op, e.write);
      if c.deferred != [] {
        LiftedBy(c.journal, op, e.write);
        if LastBlock(c.journal, op) && e.write != NotWritten { LiftingThrows(c.journal, op, e.write); }
      }
      AcknowledgedPending(c, op);
      if e.response.Some? {
        var seen := written.(latest := e.response.value.status);
        DrainWaits(seen);
        AttemptBlocks(seen);
        AttemptBlocks(Drain(seen));
      }
    }
  }

  lemma AcknowledgedPending(c: Coordinator, op: Operation)
    requires DeliveryOk(c) && c.inFlight.Some? && op == Acknowledge(c.inFlight.value.generation)
    ensures LastBlock(c.journal, op) ==> c.inFlight == c.journal.pending
    ensures PlanFor(c.journal, op) == PlanAcknowledge(c.journal, op.generation)
  {
  }

  /** For every event of every kind: afterwards actions wait although nothing blocks them
      exactly when this event strands them. */
  lemma StrandsExactly(c: Coordinator, e: Event)
    requires Inv(c) && Waits(c)
    ensures !Waits(Step(c, e)) <==> Strands(c, e)
  {
    match e {
      case Observe(status) => AttemptBlocks(c.(latest := status));
      case Submit(_) =>
      case Mutate(_, _) => MutateStrands(c, e);
      case Answered(_, _) => AnswerStrands(c, e);
      case Reopen(_, _) =>
    }
  }

  /** The accepted actions start in the order in which they were asked for. */
  predicate InOrder(c: Coordinator) {
    c.ran + c.deferred == c.submitted
  }

  lemma StepInOrder(c: Coordinator, e: Event)
    requires Waits(c) && InOrder(c)
    ensures InOrder(Step(c, e))
  {
  }

  predicate NoneStrands(c: Coordinator, events: seq<Event>)
    decreases |events|
  {
    events == [] || (!Strands(c, events[0]) && NoneStrands(Step(c, events[0]), events[1..]))
  }

  /** Over every run in which nothing is stranded, every accepted action starts in its turn,
      and waits only while something blocks it. */
  lemma {:induction false} OrderKept(c: Coordinator, events: seq<Event>)
    requires Inv(c) && Waits(c) && InOrder(c) && NoneStrands(c, events)
    ensures InOrder(Run(c, events)) && Waits(Run(c, events))
    decreases |events|
  {
    hide Inv;
    hide Step;
    hide Waits;
    hide InOrder;
    hide Strands;
    if events == [] {
    } else {
      StepKeeps(c, events[0]);
      StrandsExactly(c, events[0]);
      StepInOrder(c, events[0]);
      OrderKept(Step(c, events[0]), events[1..]);
    }
  }

  /** And only then: once an event has stranded actions, the next action that is asked for
      overtakes them. */
  lemma StrandingBreaksOrder(c: Coordinator, e: Event, action: nat)
    requires Inv(c) && Waits(c) && InOrder(c) && action !in Step(c, e).deferred
    ensures InOrder(Step(Step(c, e), Submit(action))) <==> !Strands(c, e)
  {
    hide Inv;
    hide Strands;
    StrandsExactly(c, e);
    StepInOrder(c, e);
    var t := Step(c, e);
    hide Step;
    if Strands(c, e) {
      Overtaken(t, action);
    } else {
      StepInOrder(t, Submit(action));
    }
  }

  lemma Overtaken(c: Coordinator, action: nat)
    requires c.deferred != [] && !Blocked(c) && InOrder(c) && action !in c.deferred
    ensures !InOrder(Step(c, Submit(action)))
  {
    var t := Step(c, Submit(action));
    assert (t.ran + t.deferred)[|c.ran|] == action;
    assert t.submitted[|c.ran|] == c.deferred[0];
  }

  /** One such run: the last answer is written uncertainly, and the second action runs while the
      first one waits. */
  lemma StrandedActionIsOvertaken()
    ensures exists c: Coordinator, events: seq<Event> ::
              Inv(c) && c.ran == [] && c.submitted == [] && Run(c, events).submitted == [1, 2]
              && Run(c, events).ran == [2] && Run(c, events).deferred == [1]
  {
    var p := Pending(7, Changed, 1);
    var c := Fresh(Journal(1, Some(p), None, None), true).(inFlight := Some(p), sent := [p]);
    var answer := Answered(Some(Response(true, Some(Status(7, AccessPending)))), Uncertain);
    var events := [Submit(1), answer, Submit(2)];
    var c1 := Step(c, Submit(1));
    var c2 := Step(c1, answer);
    var c3 := Step(c2, Submit(2));
    assert c1.deferred == [1] && c2.deferred == [1] && c3.ran == [2];
    assert Run(c, events) == c3 by {
      assert events[1..] == [answer, Submit(2)] && events[1..][1..] == [Submit(2)];
      assert Run(c, events) == Run(c1, [answer, Submit(2)]) == Run(c2, [Submit(2)]);
      assert Run(c2, [Submit(2)]) == Run(c3, []);
    }
    assert Inv(c);
  }

  // ---------------------------------------------------------------- the object

  class CredentialMutationCoordinator {
    const journal: CredentialMutationJournal
    var latestStatus: Option<Status>
    var inFlightGeneration: Option<nat>
    var delivering: Option<Pending>
    var deferredUntilAcknowledged: seq<nat>
    var history: History

    /** An open journal; a coordinator without one refuses everything. */
    constructor (journal: CredentialMutationJournal)
      requires journal.Valid()
      ensures this.journal == journal && Valid() && View() == Fresh(journal.state, true)
    {
      this.journal := journal;
      latestStatus := None;
      inFlightGeneration := None;
      delivering := None;
      deferredUntilAcknowledged := [];
      history := History([], [], []);
    }

    ghost predicate Valid()
      reads this, journal
    {
      && journal.Valid()
      && inFlightGeneration == (if delivering.None? then None else Some(delivering.value.generation))
    }

    function View(): Coordinator
      reads this, journal
    {
      Coordinator(journal.state, true, latestStatus, delivering, deferredUntilAcknowledged,
                  history.submitted, history.ran, history.sent)
    }

    method AttemptDelivery()
      requires Valid()
      modifies this
      ensures Valid() && View() == Attempt(old(View()))
    {
      if inFlightGeneration.Some? || journal.state.pending.None? || latestStatus.None?
         || latestStatus.value.account != journal.state.pending.value.account {
        return;
      }
      var pending := journal.state.pending.value;
      inFlightGeneration := Some(pending.generation);
      delivering := Some(pending);
      history := history.(sent := history.sent + [pending]);
    }

    /** Runs what waited, one action after the other. */
    method DrainDeferredActionsIfReady()
      requires Valid()
      modifies this
      ensures Valid() && View() == Drain(old(View()))
    {
      if journal.HasUnacknowledgedMutation() {
        return;
      }
      var actions := deferredUntilAcknowledged;
      deferredUntilAcknowledged := [];
      var i := 0;
      while i < |actions|
        invariant 0 <= i <= |actions|
        invariant Valid() && deferredUntilAcknowledged == [] && actions == old(deferredUntilAcknowledged)
        invariant latestStatus == old(latestStatus) && delivering == old(delivering)
        invariant history == old(history).(ran := old(history).ran + actions[..i])
      {
        history := history.(ran := history.ran + [actions[i]]);
        i := i + 1;
      }
    }

    method Observe(status: Option<Status>)
      requires Valid()
      modifies this
      ensures Valid() && View() == Step(old(View()), Event.Observe(status))
    {
      latestStatus := status;
      AttemptDelivery();
    }

    method PerformAfterAcknowledgement(action: nat)
      requires Valid()
      modifies this
      ensures Valid() && View() == Step(old(View()), Submit(action))
    {
      if !journal.HasUnacknowledgedMutation() {
        history := history.(submitted := history.submitted + [action], ran := history.ran + [action]);
        return;
      }
      history := history.(submitted := history.submitted + [action]);
      deferredUntilAcknowledged := deferredUntilAcknowledged + [action];
    }

    method Commit(generation: nat, outcome: SaveOutcome, write: Write) returns (error: Option<Error>)
      requires Valid()
      modifies this, journal
      ensures Valid() && View() == MutateJournal(old(View()), CommitFor(generation, outcome), write)
    {
      if outcome.Unchanged? {
        error := Rollback(generation, write);
        return;
      }
      error := journal.Commit(generation, if outcome.Deleted? then Removed else Changed, write);
      if error.None? {
        AttemptDelivery();
      }
    }

    method Rollback(generation: nat, write: Write) returns (error: Option<Error>)
      requires Valid()
      modifies this, journal
      ensures Valid() && View() == MutateJournal(old(View()), Operation.Rollback(generation), write)
    {
      error := journal.Rollback(generation, write);
      if error.None? {
        DrainDeferredActionsIfReady();
      }
    }

    method CommitMigration(generation: nat, write: Write) returns (error: Option<Error>)
      requires Valid()
      modifies this, journal
      ensures Valid() && View() == MutateJournal(old(View()), Operation.CommitMigration(generation), write)
    {
      error := journal.CommitMigration(generation, write);
      if error.None? {
        AttemptDelivery();
      }
    }

    method CompleteMigration(generation: nat, write: Write) returns (error: Option<Error>)
      requires Valid()
      modifies this, journal
      ensures Valid() && View() == MutateJournal(old(View()), Operation.CompleteMigration(generation), write)
    {
      error := journal.CompleteMigration(generation, write);
      if error.None? {
        DrainDeferredActionsIfReady();
      }
    }

    method RollbackMigration(generation: nat, write: Write) returns (error: Option<Error>)
      requires Valid()
      modifies this, journal
      ensures Valid() && View() == MutateJournal(old(View()), Operation.RollbackMigration(generation), write)
    {
      error := journal.RollbackMigration(generation, write);
      if error.None? {
        DrainDeferredActionsIfReady();
      }
    }

    /** `pending` is the notice the finished request carried. */
    method FinishDelivery(response: Option<Response>, pending: Pending, write: Write)
      requires Valid() && delivering == Some(pending)
      modifies this, journal
      ensures Valid() && View() == Step(old(View()), Answered(response, write))
    {
      if inFlightGeneration != Some(pending.generation) {
        return;
      }
      inFlightGeneration := None;
      delivering := None;
      if response.None? || !response.value.ok || response.value.status.None?
         || !Acknowledges(response.value.status.value, pending) {
        return;
      }
      var cleared, error := journal.Acknowledge(pending.generation, write);
      if error.Some? {
        return;
      }
      latestStatus := response.value.status;
      if cleared {
        DrainDeferredActionsIfReady();
      }
      AttemptDelivery();
    }
  }

  datatype History = History(submitted: seq<nat>, ran: seq<nat>, sent: seq<Pending>)
}
