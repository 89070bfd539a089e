/** What an account move comes to when nobody interferes: the whole run of a save transaction,
    answer by answer, and what a crash at any of its points leads to after recovery. */
module MigrationMoves {
  import opened Records
  import opened CredentialJournal
  import opened MigrationSave
  import opened MigrationRecovery
  import opened MigrationWorld
  import opened MigrationSafety

  /** The three stores that cannot be updated together. */
  datatype Stores = Stores(config: AppConfig, items: map<nat, Option<nat>>, journal: Journal)

  function StoresOf(w: World): Stores {
    Stores(w.config, w.items, w.journal)
  }

  /** The journal takes a move to the account of `config`. */
  predicate Moveable(w: World, config: AppConfig) {
    && w.available && AtRest(w)
    && w.journal.pending.None? && w.journal.staged.None? && w.journal.migration.None?
    && w.journal.generation < MAX_GENERATION
    && config.account != w.config.account
  }

  /** The move of this transaction, in the given phase. */
  function Record(w: World, config: AppConfig, phase: Phase): Migration {
    Migration(w.journal.generation + 1, Some(w.config.account), config.account, phase)
  }

  /** The journal with that record, and no notice. */
  function Recorded(w: World, config: AppConfig, phase: Phase): Journal {
    Journal(w.journal.generation + 1, None, None, Some(Record(w, config, phase)))
  }

  /** The journal after the commit: the notice, and the old item still to be cleaned up. */
  function Committed(w: World, config: AppConfig): Journal {
    Journal(w.journal.generation + 1, Some(Pending(config.account, Changed, w.journal.generation + 1)), None, Some(Record(w, config, CleanupOld)))
  }

  /** The journal when all is done: the notice for the agent, and no record. */
  function Closed(w: World, config: AppConfig): Journal {
    Committed(w, config).(migration := None)
  }

  /** The items with the new one, created by this transaction. */
  function WithNew(w: World, config: AppConfig): map<nat, Option<nat>> {
    w.items[config.account := Some(w.journal.generation + 1)]
  }

  function Landed(a: Answer): bool {
    a.ok || a.landed
  }

  // ---------------------------------------------------------------- what each first failure leaves

  /** Undoing: the record goes unless nothing could be written. */
  function RolledBack(s: Stores, write: Write): Stores {
    if write.NotWritten? then s else s.(journal := s.journal.(migration := None))
  }

  /** The configuration was not saved: the new item is removed again, as far as that succeeds. */
  function Withdrawn(w: World, config: AppConfig, a: seq<Answer>): Stores
    requires |a| >= 3
  {
    var created := Stores(w.config, WithNew(w, config), Recorded(w, config, NewCredentialReady));
    if a[0].write.NotWritten? then created
    else
      var marked := created.(journal := Recorded(w, config, CleanupNew));
      if a[0].write.Uncertain? then marked
      else
        var removed := if Landed(a[1]) then marked.(items := marked.items - {config.account}) else marked;
        if a[1].ok then RolledBack(removed, a[2].write) else removed
  }

  /** The configuration was saved: the move is marked, committed together with its notice, the
      old item deleted, and the record closed. */
  function Concluded(w: World, config: AppConfig, a: seq<Answer>): Stores
    requires |a| >= 4
  {
    var saved := Stores(config, WithNew(w, config), Recorded(w, config, NewCredentialReady));
    if a[0].write.NotWritten? then saved
    else
      var marked := saved.(journal := Recorded(w, config, ConfigurationSaved));
      if a[0].write.Uncertain? || a[1].write.NotWritten? then marked
      else
        var committed := marked.(journal := Committed(w, config));
        if a[1].write.Uncertain? then committed
        else
          var deleted := if Landed(a[2]) then committed.(items := committed.items - {w.config.account}) else committed;
          if !a[2].ok || a[3].write.NotWritten? then deleted else deleted.(journal := Closed(w, config))
  }

  /** The stores at the end of a move, by its answers in the order in which they are given. */
  function EndOf(w: World, config: AppConfig, write: Write, a: seq<Answer>): Stores
    requires |a| >= 8
  {
    if write.NotWritten? then StoresOf(w)
    else
      var staged := StoresOf(w).(journal := Recorded(w, config, Staged));
      if write.Uncertain? then staged
      else if !a[0].ok || config.account in w.items then RolledBack(staged, a[1].write)
      else
        var created := staged.(items := WithNew(w, config));
        if a[1].write.NotWritten? then created
        else
          var ready := created.(journal := Recorded(w, config, NewCredentialReady));
          if a[1].write.Uncertain? then ready
          else if a[2].ok then Concluded(w, config, a[3..])
          else if !a[3].ok then (if a[2].landed then ready.(config := config) else ready)
          else if a[2].landed then Concluded(w, config, a[4..])
          else Withdrawn(w, config, a[4..])
  }

  // ---------------------------------------------------------------- the run

  function Saves(a: seq<Answer>): seq<Event>
    decreases |a|
  {
    if a == [] then [] else [SaveStep(a[0])] + Saves(a[1..])
  }

  lemma {:induction false} IdleSaves(w: World, a: seq<Answer>)
    requires w.saving.Idle?
    ensures Run(w, Saves(a)) == w
    decreases |a|
  {
    if a == [] {
    } else {
      IdleSaves(w, a[1..]);
      assert Saves(a)[1..] == Saves(a[1..]);
    }
  }

  lemma FirstSave(w: World, a: seq<Answer>)
    requires a != []
    ensures Run(w, Saves(a)) == Run(StepSave(w, a[0]), Saves(a[1..]))
  {
    hide StepSave;
    assert Saves(a)[1..] == Saves(a[1..]);
  }

  /** The transaction of the move, as the callbacks carry it along. */
  function TransferOf(w: World, config: AppConfig): Transfer {
    Transfer(Some(w.config.account), config.account, config, w.journal.generation + 1)
  }

  /** The transaction stands at `saving`, with these stores. */
  predicate Stands(v: World, s: Stores, saving: Saving) {
    StoresOf(v) == s && v.saving == saving
  }

  /** The run ends with these stores. */
  ghost predicate Ends(v: World, a: seq<Answer>, s: Stores) {
    Stands(Run(v, Saves(a)), s, Idle)
  }

  lemma EndsNow(v: World, a: seq<Answer>, s: Stores)
    requires a != [] && Stands(StepSave(v, a[0]), s, Idle)
    ensures Ends(v, a, s)
  {
    hide StepSave;
    FirstSave(v, a);
    IdleSaves(StepSave(v, a[0]), a[1..]);
  }

  lemma EndsLater(v: World, a: seq<Answer>, s: Stores)
    requires a != [] && Ends(StepSave(v, a[0]), a[1..], s)
    ensures Ends(v, a, s)
  {
    hide StepSave;
    FirstSave(v, a);
  }

  lemma RollingBackEnds(w: World, config: AppConfig, v: World, s: Stores, a: seq<Answer>)
    requires |a| >= 1 && Moveable(w, config)
    requires Stands(v, s, RollingBack(TransferOf(w, config))) && Migrating(s.journal, w.journal.generation + 1)
    ensures Ends(v, a, RolledBack(s, a[0].write))
  {
    EndsNow(v, a, RolledBack(s, a[0].write));
  }

  lemma WithdrawingEnds(w: World, config: AppConfig, v: World, a: seq<Answer>)
    requires |a| >= 3 && Moveable(w, config)
    requires Stands(v, Stores(w.config, WithNew(w, config), Recorded(w, config, NewCredentialReady)), MarkingCleanupNew(TransferOf(w, config)))
    ensures Ends(v, a, Withdrawn(w, config, a))
  {
    hide Ends;
    var t := TransferOf(w, config);
    var v1 := StepSave(v, a[0]);
    if !a[0].write.Durable? {
      EndsNow(v, a, Withdrawn(w, config, a));
    } else {
      assert Stands(v1, Stores(w.config, WithNew(w, config), Recorded(w, config, CleanupNew)), DeletingNew(t));
      var v2 := StepSave(v1, a[1]);
      if a[1].ok {
        RollingBackEnds(w, config, v2, StoresOf(v2), a[2..]);
        EndsLater(v1, a[1..], Withdrawn(w, config, a));
      } else {
        EndsNow(v1, a[1..], Withdrawn(w, config, a));
      }
      EndsLater(v, a, Withdrawn(w, config, a));
    }
  }

  lemma CommittedEnds(w: World, config: AppConfig, v: World, a: seq<Answer>)
    requires |a| >= 4 && Moveable(w, config) && a[0].write.Durable? && a[1].write.Durable?
    requires Stands(v, Stores(config, WithNew(w, config), Committed(w, config)), DeletingOld(TransferOf(w, config)))
    ensures Ends(v, a[2..], Concluded(w, config, a))
  {
    hide Ends;
    var v1 := StepSave(v, a[2]);
    if a[2].ok {
      assert Stands(v1, Stores(config, WithNew(w, config) - {w.config.account}, Committed(w, config)), Completing(TransferOf(w, config)));
      EndsNow(v1, a[3..], Concluded(w, config, a));
      EndsLater(v, a[2..], Concluded(w, config, a));
    } else {
      EndsNow(v, a[2..], Concluded(w, config, a));
    }
  }

  lemma ConcludingEnds(w: World, config: AppConfig, v: World, a: seq<Answer>)
    requires |a| >= 4 && Moveable(w, config)
    requires Stands(v, Stores(config, WithNew(w, config), Recorded(w, config, NewCredentialReady)), MarkingSaved(TransferOf(w, config)))
    ensures Ends(v, a, Concluded(w, config, a))
  {
    hide Ends;
    var t := TransferOf(w, config);
    var v1 := StepSave(v, a[0]);
    if !a[0].write.Durable? {
      EndsNow(v, a, Concluded(w, config, a));
    } else {
      assert Stands(v1, Stores(config, WithNew(w, config), Recorded(w, config, ConfigurationSaved)), CommittingMove(t));
      if !a[1].write.Durable? {
        EndsNow(v1, a[1..], Concluded(w, config, a));
      } else {
        CommittedEnds(w, config, StepSave(v1, a[1]), a);
        EndsLater(v1, a[1..], Concluded(w, config, a));
      }
      EndsLater(v, a, Concluded(w, config, a));
    }
  }

  /** From the save of the configuration on. */
  lemma SavingEnds(w: World, config: AppConfig, v: World, a: seq<Answer>)
    requires |a| >= 8 && Moveable(w, config) && a[0].ok && config.account !in w.items && a[1].write.Durable?
    requires Stands(v, Stores(w.config, WithNew(w, config), Recorded(w, config, NewCredentialReady)), SavingConfig(TransferOf(w, config)))
    ensures Ends(v, a[2..], EndOf(w, config, Durable, a))
  {
    hide Ends;
    hide Concluded;
    hide Withdrawn;
    var t := TransferOf(w, config);
    var v1 := StepSave(v, a[2]);
    var end := EndOf(w, config, Durable, a);
    if a[2].ok {
      ConcludingEnds(w, config, v1, a[3..]);
    } else {
      var c := if a[2].landed then config else w.config;
      assert Stands(v1, Stores(c, WithNew(w, config), Recorded(w, config, NewCredentialReady)), Inspecting(t));
      if !a[3].ok {
        EndsNow(v1, a[3..], end);
      } else {
        var v2 := StepSave(v1, a[3]);
        if a[2].landed { ConcludingEnds(w, config, v2, a[4..]); } else { WithdrawingEnds(w, config, v2, a[4..]); }
        EndsLater(v1, a[3..], end);
      }
    }
    EndsLater(v, a[2..], end);
  }

  /** From the staged record on. */
  lemma CreatingEnds(w: World, config: AppConfig, v: World, a: seq<Answer>)
    requires |a| >= 8 && Moveable(w, config)
    requires Stands(v, StoresOf(w).(journal := Recorded(w, config, Staged)), Creating(TransferOf(w, config)))
    ensures Ends(v, a, EndOf(w, config, Durable, a))
  {
    hide Ends;
    hide Concluded;
    hide Withdrawn;
    var t := TransferOf(w, config);
    var v1 := StepSave(v, a[0]);
    var end := EndOf(w, config, Durable, a);
    if !a[0].ok || config.account in w.items {
      RollingBackEnds(w, config, v1, StoresOf(w).(journal := Recorded(w, config, Staged)), a[1..]);
    } else {
      assert Stands(v1, Stores(w.config, WithNew(w, config), Recorded(w, config, Staged)), MarkingReady(t));
      if !a[1].write.Durable? {
        EndsNow(v1, a[1..], end);
      } else {
        SavingEnds(w, config, StepSave(v1, a[1]), a);
        EndsLater(v1, a[1..], end);
      }
    }
    EndsLater(v, a, end);
  }

  /** The run of a move that nobody disturbs. */
  function Moved(w: World, config: AppConfig, write: Write, a: seq<Answer>): World {
    Run(w, [StartMove(config, write)] + Saves(a))
  }

  lemma MovedFrom(w: World, config: AppConfig, write: Write, a: seq<Answer>)
    ensures Moved(w, config, write, a) == Run(Step(w, StartMove(config, write)), Saves(a))
  {
    hide Step;
    assert ([StartMove(config, write)] + Saves(a))[1..] == Saves(a);
  }

  /** Without crash or edit, a move ends, and leaves exactly the configuration, the items and the
      journal that its answers account for. */
  lemma MoveLeaves(w: World, config: AppConfig, write: Write, a: seq<Answer>)
    requires Moveable(w, config) && |a| >= 8
    ensures var r := Moved(w, config, write, a);
            r.saving.Idle? && StoresOf(r) == EndOf(w, config, write, a)
  {
    MovedFrom(w, config, write, a);
    var v := Step(w, StartMove(config, write));
    if write.Durable? {
      hide StepSave;
      hide Run;
      CreatingEnds(w, config, v, a);
    } else {
      IdleSaves(v, a);
    }
  }

  /** Every call of a move succeeds; a save that threw has landed and is found so. */
  predicate Succeeds(w: World, config: AppConfig, write: Write, a: seq<Answer>)
    requires |a| >= 8
  {
    && write.Durable? && a[0].ok && config.account !in w.items && a[1].write.Durable?
    && (a[2].ok || (a[2].landed && a[3].ok))
    && var b := if a[2].ok then a[3..] else a[4..];
       b[0].write.Durable? && b[1].write.Durable? && b[2].ok && !b[3].write.NotWritten?
  }

  /** The new configuration and item, the old item gone, no record, and the notice pending. */
  predicate Done(w: World, config: AppConfig, s: Stores) {
    && s.config == config
    && s.items == WithNew(w, config) - {w.config.account}
    && s.journal == Journal(w.journal.generation + 1, Some(Pending(config.account, Changed, w.journal.generation + 1)), None, None)
  }

  /** A move is carried through exactly when all its calls succeed. */
  lemma MoveSucceedsExactly(w: World, config: AppConfig, write: Write, a: seq<Answer>)
    requires Moveable(w, config) && |a| >= 8
    ensures Done(w, config, StoresOf(Moved(w, config, write, a))) <==> Succeeds(w, config, write, a)
  {
    hide Moved;
    MoveLeaves(w, config, write, a);
  }

  /** In any other state a move is refused, and nothing is written. */
  lemma MoveRefused(w: World, config: AppConfig, write: Write, a: seq<Answer>)
    requires AtRest(w) && !Moveable(w, config)
    ensures var r := Moved(w, config, write, a); r.saving.Idle? && StoresOf(r) == StoresOf(w)
  {
    MovedFrom(w, config, write, a);
    IdleSaves(Step(w, StartMove(config, write)), a);
  }

  // ---------------------------------------------------------------- saves that keep the account

  predicate Stageable(j: Journal) {
    && j.generation < MAX_GENERATION
    && (j.migration.None? || (j.migration.value.phase == CleanupOld && j.pending.None?))
  }

  /** What the Keychain call of such a save changed, as far as the app is told. */
  function NoticeOf(w: World, mutation: Mutation, a: Answer): Option<Notice> {
    if !a.ok then None
    else match mutation
      case Create(account) => if account in w.items then None else Some(Changed)
      case Update(account, same) => if !same && account in w.items then Some(Changed) else None
      case Delete(_) => Some(Removed)
  }

  function ItemsAfter(w: World, mutation: Mutation, a: Answer): map<nat, Option<nat>> {
    match mutation
    case Create(account) => if a.ok && account !in w.items then w.items[account := None] else w.items
    case Update(_, _) => w.items
    case Delete(account) => if Landed(a) then w.items - {account} else w.items
  }

  /** The stores after a save that keeps the account: configuration first, then the staged
      notice, then the item, and at last the notice for the agent or none. */
  function RegularEnd(w: World, config: AppConfig, mutation: Mutation, a0: Answer, a1: Answer, a2: Answer): Stores {
    var stored := if Landed(a0) then StoresOf(w).(config := config) else StoresOf(w);
    if !a0.ok || !Stageable(w.journal) || a0.write.NotWritten? then stored
    else
      var g := w.journal.generation + 1;
      var staged := stored.(journal := w.journal.(generation := g, staged := Some(Pending(mutation.account, Changed, g))));
      if a0.write.Uncertain? then staged
      else
        var written := staged.(items := ItemsAfter(w, mutation, a1));
        var notice := NoticeOf(w, mutation, a1);
        if a2.write.NotWritten? then written
        else if notice.None? then written.(journal := written.journal.(staged := None))
        else written.(journal := written.journal.(staged := None, pending := Some(Pending(mutation.account, notice.value, g))))
  }

  /** The first event of such a save: it goes on only with its notice staged. */
  lemma RegularBegins(w: World, config: AppConfig, mutation: Mutation, a: Answer)
    requires w.available && AtRest(w) && mutation.account == config.account
    ensures var v := Step(w, StartRegular(config, mutation, a));
            var g := w.journal.generation + 1;
            && v.saving.Idle? && v.recovering.Resting? && v.items == w.items
            && v.config == (if Landed(a) then config else w.config)
            && (if a.ok && Stageable(w.journal) && a.write.Durable? then v.regular == Writing(mutation, g) else v.regular.NoRegular?)
            && v.journal == (if !a.ok || !Stageable(w.journal) || a.write.NotWritten? then w.journal
                             else w.journal.(generation := g, staged := Some(Pending(mutation.account, Changed, g))))
  {
  }

  /** The other two: the item, and the notice that tells of it. */
  lemma RegularConcludes(w: World, v: World, mutation: Mutation, g: nat, a1: Answer, a2: Answer)
    requires v.saving.Idle? && v.recovering.Resting? && v.items == w.items && v.regular == Writing(mutation, g)
    requires v.journal.staged.Some? && v.journal.staged.value.generation == g && v.journal.staged.value.account == mutation.account
    ensures var r := StepRegular(StepRegular(v, a1), a2);
            var notice := NoticeOf(w, mutation, a1);
            && AtRest(r) && r.config == v.config && r.items == ItemsAfter(w, mutation, a1)
            && r.journal == (if a2.write.NotWritten? then v.journal
                             else if notice.None? then v.journal.(staged := None)
                             else v.journal.(staged := None, pending := Some(Pending(mutation.account, notice.value, g))))
  {
  }

  /** Without crash or edit, a save that keeps the account leaves exactly these stores: the
      agent is told of what changed in the Keychain, and only of that. */
  lemma RegularSaveLeaves(w: World, config: AppConfig, mutation: Mutation, a0: Answer, a1: Answer, a2: Answer)
    requires w.available && AtRest(w) && mutation.account == config.account
    ensures var r := Step(Step(Step(w, StartRegular(config, mutation, a0)), RegularStep(a1)), RegularStep(a2));
            AtRest(r) && StoresOf(r) == RegularEnd(w, config, mutation, a0, a1, a2)
  {
    hide BeginRegular;
    RegularBegins(w, config, mutation, a0);
    var v := Step(w, StartRegular(config, mutation, a0));
    if v.regular.Writing? {
      RegularConcludes(w, v, mutation, w.journal.generation + 1, a1, a2);
      hide StepRegular;
    }
  }

  // ---------------------------------------------------------------- a crash at any point

  /** Where a move stands while it is under way. */
  predicate OnOldSide(w: World, v: World) {
    v.config == w.config && v.journal.pending.None?
  }

  predicate OnNewSide(w: World, config: AppConfig, v: World) {
    v.config == config && v.items == v.items[config.account := Some(w.journal.generation + 1)]
  }

  predicate NoticeOut(w: World, config: AppConfig, v: World) {
    v.journal.pending == Some(Pending(config.account, Changed, w.journal.generation + 1))
  }

  /** Either nothing has changed for the user yet, or the new configuration and its item stand. */
  predicate Halfway(w: World, config: AppConfig, v: World) {
    OnOldSide(w, v) || (OnNewSide(w, config, v) && (v.journal.pending.None? || NoticeOut(w, config, v)))
  }

  /** All items but the two are untouched, and the old one goes only on the new side. */
  predicate ItemsHalfway(w: World, config: AppConfig, v: World) {
    && v.items - {w.config.account, config.account} == w.items - {w.config.account, config.account}
    && (OnOldSide(w, v) && w.config.account in w.items ==>
          w.config.account in v.items && v.items[w.config.account] == w.items[w.config.account])
  }

  predicate SideOf(w: World, config: AppConfig, v: World) {
    match v.saving
    case Idle => Halfway(w, config, v)
    case Creating(_) => OnOldSide(w, v) && v.items == w.items
    case MarkingReady(_) => OnOldSide(w, v) && v.items == WithNew(w, config)
    case SavingConfig(_) => OnOldSide(w, v) && v.items == WithNew(w, config)
    case Inspecting(_) => v.items == WithNew(w, config) && v.journal.pending.None? && (v.config == w.config || v.config == config)
    case MarkingSaved(_) => OnNewSide(w, config, v) && v.items == WithNew(w, config) && v.journal.pending.None?
    case CommittingMove(_) => OnNewSide(w, config, v) && v.items == WithNew(w, config) && v.journal.pending.None?
    case DeletingOld(_) => OnNewSide(w, config, v) && NoticeOut(w, config, v)
    case Completing(_) => OnNewSide(w, config, v) && NoticeOut(w, config, v)
    case MarkingCleanupNew(_) => OnOldSide(w, v) && v.items == WithNew(w, config)
    case DeletingNew(_) => OnOldSide(w, v) && v.items == WithNew(w, config)
    case RollingBack(_) => OnOldSide(w, v)
  }

  /** What every point of the move keeps. */
  predicate Under(w: World, config: AppConfig, v: World) {
    && v.available && v.running == w.running && v.regular.NoRegular? && v.recovering.Resting?
    && v.journal.staged.None?
    && (v.journal.migration.Some? ==>
          v.journal.migration.value == Record(w, config, v.journal.migration.value.phase))
    && (!v.saving.Idle? ==> v.saving.t == TransferOf(w, config) && v.journal.migration.Some?)
    && Halfway(w, config, v) && SideOf(w, config, v) && ItemsHalfway(w, config, v)
  }

  lemma CreatingStaysUnder(w: World, config: AppConfig, v: World, a: Answer)
    requires Moveable(w, config) && Under(w, config, v) && v.saving.Creating?
    ensures Under(w, config, StepSave(v, a))
  {
  }

  lemma MarkingReadyStaysUnder(w: World, config: AppConfig, v: World, a: Answer)
    requires Moveable(w, config) && Under(w, config, v) && v.saving.MarkingReady?
    ensures Under(w, config, StepSave(v, a))
  {
  }

  lemma SavingConfigStaysUnder(w: World, config: AppConfig, v: World, a: Answer)
    requires Moveable(w, config) && Under(w, config, v) && v.saving.SavingConfig?
    ensures Under(w, config, StepSave(v, a))
  {
  }

  lemma InspectingStaysUnder(w: World, config: AppConfig, v: World, a: Answer)
    requires Moveable(w, config) && Under(w, config, v) && v.saving.Inspecting?
    ensures Under(w, config, StepSave(v, a))
  {
  }

  lemma MarkingSavedStaysUnder(w: World, config: AppConfig, v: World, a: Answer)
    requires Moveable(w, config) && Under(w, config, v) && v.saving.MarkingSaved?
    ensures Under(w, config, StepSave(v, a))
  {
  }

  lemma CommittingMoveStaysUnder(w: World, config: AppConfig, v: World, a: Answer)
    requires Moveable(w, config) && Under(w, config, v) && v.saving.CommittingMove?
    ensures Under(w, config, StepSave(v, a))
  {
  }

  lemma DeletingOldStaysUnder(w: World, config: AppConfig, v: World, a: Answer)
    requires Moveable(w, config) && Under(w, config, v) && v.saving.DeletingOld?
    ensures Under(w, config, StepSave(v, a))
  {
  }

  lemma CompletingStaysUnder(w: World, config: AppConfig, v: World, a: Answer)
    requires Moveable(w, config) && Under(w, config, v) && v.saving.Completing?
    ensures Under(w, config, StepSave(v, a))
  {
  }

  lemma MarkingCleanupNewStaysUnder(w: World, config: AppConfig, v: World, a: Answer)
    requires Moveable(w, config) && Under(w, config, v) && v.saving.MarkingCleanupNew?
    ensures Under(w, config, StepSave(v, a))
  {
  }

  lemma DeletingNewStaysUnder(w: World, config: AppConfig, v: World, a: Answer)
    requires Moveable(w, config) && Under(w, config, v) && v.saving.DeletingNew?
    ensures Under(w, config, StepSave(v, a))
  {
  }

  lemma RollingBackStaysUnder(w: World, config: AppConfig, v: World, a: Answer)
    requires Moveable(w, config) && Under(w, config, v) && v.saving.RollingBack?
    ensures Under(w, config, StepSave(v, a))
  {
  }

  lemma SaveStaysUnder(w: World, config: AppConfig, v: World, a: Answer)
    requires Moveable(w, config) && Under(w, config, v)
    ensures Under(w, config, StepSave(v, a))
  {
    hide Under;
    hide Moveable;
    match v.saving {
      case Idle =>
      case Creating(_) => CreatingStaysUnder(w, config, v, a);
      case MarkingReady(_) => MarkingReadyStaysUnder(w, config, v, a);
      case SavingConfig(_) => SavingConfigStaysUnder(w, config, v, a);
      case Inspecting(_) => InspectingStaysUnder(w, config, v, a);
      case MarkingSaved(_) => MarkingSavedStaysUnder(w, config, v, a);
      case CommittingMove(_) => CommittingMoveStaysUnder(w, config, v, a);
      case DeletingOld(_) => DeletingOldStaysUnder(w, config, v, a);
      case Completing(_) => CompletingStaysUnder(w, config, v, a);
      case MarkingCleanupNew(_) => MarkingCleanupNewStaysUnder(w, config, v, a);
      case DeletingNew(_) => DeletingNewStaysUnder(w, config, v, a);
      case RollingBack(_) => RollingBackStaysUnder(w, config, v, a);
    }
  }

  lemma {:induction false} SavesStayUnder(w: World, config: AppConfig, v: World, a: seq<Answer>)
    requires Moveable(w, config) && Under(w, config, v)
    ensures Under(w, config, Run(v, Saves(a)))
    decreases |a|
  {
    hide Under;
    hide Moveable;
    hide StepSave;
    if a == [] {
    } else {
      SaveStaysUnder(w, config, v, a[0]);
      SavesStayUnder(w, config, StepSave(v, a[0]), a[1..]);
      FirstSave(v, a);
    }
  }

  lemma MovedStaysUnder(w: World, config: AppConfig, write: Write, a: seq<Answer>)
    requires Moveable(w, config)
    ensures Under(w, config, Moved(w, config, write, a))
  {
    MovedFrom(w, config, write, a);
    var v := Step(w, StartMove(config, write));
    assert Under(w, config, v);
    SavesStayUnder(w, config, v, a);
  }

  /** The app dies in the middle of the move, is launched again, and recovers undisturbed. */
  function Relaunched(w: World): World {
    Step(Step(w, Crash), Launch(Durable))
  }

  function AfterRecovery(w: World): World {
    if Relaunched(w).journal.migration.Some? then MigrationSafety.Recovered(Relaunched(w)) else Relaunched(w)
  }

  lemma RelaunchedIs(w: World, config: AppConfig, v: World)
    requires Under(w, config, v)
    ensures var r := Relaunched(v);
            StoresOf(r) == StoresOf(v) && r.available && AtRest(r)
  {
  }

  lemma UnderRecoverable(w: World, config: AppConfig, v: World)
    requires Moveable(w, config) && Under(w, config, v) && v.journal.migration.Some?
    ensures Recoverable(v, v.journal.migration.value)
  {
  }

  /** All or nothing: wherever in the run of a move the app dies, after the next launch and its
      recovery no record is left, and either configuration and old item are as they were and the
      new item is gone, or the new configuration has its item and the old item is gone. An item
      of any other account is never touched. */
  lemma MoveIsAtomic(w: World, config: AppConfig, write: Write, a: seq<Answer>)
    requires Inv(w) && Moveable(w, config)
    ensures var v := Moved(w, config, write, a);
            var r := AfterRecovery(v);
            && r.journal.migration.None?
            && r.items - {w.config.account, config.account} == w.items - {w.config.account, config.account}
            && (r.config == w.config || r.config == config)
            && (v.journal.migration.Some? ==>
                  if r.config == w.config then
                    config.account !in r.items && (w.config.account in w.items ==>
                      w.config.account in r.items && r.items[w.config.account] == w.items[w.config.account])
                  else
                    w.config.account !in r.items && config.account in r.items && r.items[config.account] == Some(w.journal.generation + 1))
  {
    hide StepSave;
    hide MigrationSafety.Recovered;
    var v := Moved(w, config, write, a);
    MovedStaysUnder(w, config, write, a);
    MovedInv(w, config, write, a);
    hide Moved;
    RelaunchedIs(w, config, v);
    RelaunchedInv(v);
    hide Relaunched;
    var u := Relaunched(v);
    if v.journal.migration.Some? {
      UnderRecoverable(w, config, v);
      RecoveryConverges(u);
      hide Inv;
    }
  }

  lemma MovedInv(w: World, config: AppConfig, write: Write, a: seq<Answer>)
    requires Inv(w)
    ensures Inv(Moved(w, config, write, a))
  {
    hide Inv;
    RunKeeps(w, [StartMove(config, write)] + Saves(a));
  }

  lemma RelaunchedInv(v: World)
    requires Inv(v)
    ensures Inv(Relaunched(v))
  {
    hide Inv;
    hide Step;
    StepKeeps(v, Crash);
    StepKeeps(Step(v, Crash), Launch(Durable));
  }
}
