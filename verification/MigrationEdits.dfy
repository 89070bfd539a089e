/** When a save transaction removes the item of the account that the configuration names: only
    under somebody else's edit, and for the old account only if that edit falls between the
    transaction's own save of the configuration and the deletion. */
module MigrationEdits {
  import opened Records
  import opened CredentialJournal
  import opened MigrationSave
  import opened MigrationWorld
  import opened MigrationSafety

  /** The transaction has saved the configuration it wanted to save. */
  predicate Late(saving: Saving) {
    saving.MarkingSaved? || saving.CommittingMove? || saving.DeletingOld?
  }

  /** The transaction numbered `generation` is under way, and if `late` it has saved. */
  predicate UnderWay(w: World, generation: nat, late: bool) {
    !w.saving.Idle? && w.saving.t.generation == generation && (late ==> Late(w.saving))
  }

  /** Event `i` of the run is an edit under that transaction. */
  predicate EditAt(w: World, events: seq<Event>, i: nat, generation: nat, late: bool) {
    i < |events| && events[i].Configure? && UnderWay(Run(w, events[..i]), generation, late)
  }

  ghost predicate EditedUnder(w: World, events: seq<Event>, generation: nat, late: bool) {
    exists i: nat :: EditAt(w, events, i, generation, late)
  }

  lemma {:induction false} RunSnoc(w: World, events: seq<Event>, e: Event)
    ensures Run(w, events + [e]) == Step(Run(w, events), e)
    decreases |events|
  {
    hide Step;
    if events == [] {
      assert (events + [e])[1..] == [];
    } else {
      assert (events + [e])[1..] == events[1..] + [e];
      RunSnoc(Step(w, events[0]), events[1..], e);
    }
  }

  lemma EditStays(w: World, events: seq<Event>, e: Event, generation: nat, late: bool)
    requires EditedUnder(w, events, generation, late)
    ensures EditedUnder(w, events + [e], generation, late)
  {
    hide Run;
    var i: nat :| EditAt(w, events, i, generation, late);
    assert (events + [e])[..i] == events[..i];
    assert EditAt(w, events + [e], i, generation, late);
  }

  lemma EditNow(w: World, events: seq<Event>, e: Event, generation: nat, late: bool)
    requires e.Configure? && UnderWay(Run(w, events), generation, late)
    ensures EditedUnder(w, events + [e], generation, late)
  {
    hide Run;
    assert (events + [e])[..|events|] == events;
    assert EditAt(w, events + [e], |events|, generation, late);
  }

  /** What one event does to a transaction under way. */
  lemma StepUnderWay(w: World, e: Event)
    requires Inv(w)
    ensures var u := Step(w, e);
            !u.saving.Idle? ==>
              && (u.edited ==>
                    UnderWay(w, u.saving.t.generation, false) && (w.edited || e.Configure?))
              && (Late(u.saving) && u.config.account != u.saving.t.newAccount ==>
                    && UnderWay(w, u.saving.t.generation, true) && u.saving.t.newAccount == w.saving.t.newAccount
                    && (w.config.account != w.saving.t.newAccount || e.Configure?))
  {
    match e {
      case SaveStep(a) => SaveStepUnderWay(w, a);
      case _ =>
    }
  }

  ghost predicate StaysUnderWay(w: World, u: World) {
    !u.saving.Idle? ==>
      && UnderWay(w, u.saving.t.generation, false) && u.edited == w.edited
      && (Late(u.saving) && u.config.account != u.saving.t.newAccount ==>
            && Late(w.saving) && u.saving.t.newAccount == w.saving.t.newAccount
            && w.config.account != w.saving.t.newAccount)
  }

  /** The configuration that the transaction saved names the new account. */
  lemma SavedNamesNew(w: World, a: Answer)
    requires w.saving.SavingConfig? || w.saving.Inspecting?
    requires Owns(w.journal, w.saving.t)
    ensures StaysUnderWay(w, StepSave(w, a))
  {
  }

  lemma OtherStepsStay(w: World, a: Answer)
    requires !w.saving.SavingConfig? && !w.saving.Inspecting?
    ensures StaysUnderWay(w, StepSave(w, a))
  {
    hide Perform;
  }

  lemma SaveStepUnderWay(w: World, a: Answer)
    requires Inv(w)
    ensures StaysUnderWay(w, StepSave(w, a))
  {
    hide StepSave;
    hide StaysUnderWay;
    if w.saving.SavingConfig? || w.saving.Inspecting? {
      SavedNamesNew(w, a);
    } else {
      OtherStepsStay(w, a);
    }
  }

  /** Of a transaction under way: the mark `edited` stands for an edit since it began, and once
      it has saved, a configuration that names another account for an edit since then. */
  ghost predicate Explained(w: World, events: seq<Event>) {
    var u := Run(w, events);
    !u.saving.Idle? ==>
      && (u.edited ==> EditedUnder(w, events, u.saving.t.generation, false))
      && (Late(u.saving) && u.config.account != u.saving.t.newAccount ==>
            EditedUnder(w, events, u.saving.t.generation, true))
  }

  lemma ExplainedStep(w: World, events: seq<Event>, e: Event)
    requires Inv(Run(w, events)) && Explained(w, events)
    ensures Explained(w, events + [e])
  {
    hide Inv;
    hide Step;
    hide Run;
    hide EditedUnder;
    RunSnoc(w, events, e);
    var v := Run(w, events);
    var u := Step(v, e);
    StepUnderWay(v, e);
    if !u.saving.Idle? {
      var generation := u.saving.t.generation;
      if u.edited {
        if e.Configure? { EditNow(w, events, e, generation, false); } else { EditStays(w, events, e, generation, false); }
      }
      if Late(u.saving) && u.config.account != u.saving.t.newAccount {
        if e.Configure? { EditNow(w, events, e, generation, true); } else { EditStays(w, events, e, generation, true); }
      }
    }
  }

  lemma {:induction false} RunExplained(w: World, events: seq<Event>)
    requires Initial(w)
    ensures Explained(w, events) && Inv(Run(w, events))
    decreases |events|
  {
    hide Inv;
    hide Step;
    InitialInv(w);
    RunKeeps(w, events);
    if events == [] {
    } else {
      var most, last := events[..|events| - 1], events[|events| - 1];
      RunExplained(w, most);
      assert events == most + [last];
      ExplainedStep(w, most, last);
    }
  }

  lemma OldIsNotNew(w: World)
    requires Inv(w) && w.saving.DeletingOld?
    ensures w.saving.t.oldAccount != Some(w.saving.t.newAccount)
  {
  }

  /** From any first launch on: when a transaction removes the item of the account that the
      configuration names, somebody edited the configuration while it was under way; and when
      it does so in place of the old item, after it had itself saved the new configuration. */
  lemma RemovalNeedsEdit(w: World, events: seq<Event>, a: Answer)
    requires Initial(w)
    requires var u := Run(w, events); u.config.account in u.items && u.config.account !in StepSave(u, a).items
    ensures var u := Run(w, events);
            !u.saving.Idle? && EditedUnder(w, events, u.saving.t.generation, u.saving.DeletingOld?)
  {
    hide Step;
    hide EditedUnder;
    hide Initial;
    var u := Run(w, events);
    RunExplained(w, events);
    SaveStepKeeps(u, a);
    hide Run;
    RemovalIsLate(u, a);
    hide StepSave;
    hide Inv;
  }

  lemma RemovalIsLate(u: World, a: Answer)
    requires Inv(u) && u.config.account in u.items && u.config.account !in StepSave(u, a).items
    ensures !u.saving.Idle?
    ensures u.saving.DeletingOld? ==> u.config.account != u.saving.t.newAccount
  {
    if u.saving.DeletingOld? { OldIsNotNew(u); }
  }
}
