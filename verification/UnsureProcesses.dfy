/** What the agent does with a process it cannot be sure of, and with an exit, a discarded record
    or a boot that it could not save (supervisor/process_exit.rs, supervisor/reattach.rs, mod.rs).
    Of every state and every world. */
module UnsureProcesses {
  import opened Records
  import opened Kernel
  import opened ProcessGroup
  import opened ProcessIdentity
  import opened ProcessCleanup
  import opened ManagedProcesses
  import opened SupervisorState
  import opened RuntimeDurability
  import opened Lifecycle
  import opened ProcessExit
  import opened Reattach
  import opened Agent
  import opened BoundedRecovery

  // ---------------------------------------------------------------- a process that got lost

  /** The record stays as evidence that blocks every start and authorizes no signal, and is looked
      at again. */
  predicate Evidence(s: Sup, t: Sup, r: Record) {
    && t.unverified && t.unverifiedAt.Some? && t.server == ServerFailed
    && t.runtime.process == Some(r.(unconfirmed := true, start := 0))
    && t.runtime.desired == s.runtime.desired && t.pendingExit == s.pendingExit
    && t.active.None? && !t.stale && t.runningVersion.None? && t.attempt == s.attempt
  }

  lemma MarkIs(s: Sup, r: Record)
    ensures var t := MarkUnverified(s, r);
            && t.unverified && t.unverifiedAt.Some? && t.server == ServerFailed && t.runtime == s.runtime.(process := Some(r))
            && t.pendingExit == s.pendingExit && t.active == s.active && t.stale == s.stale && t.runningVersion == s.runningVersion
            && t.attempt == s.attempt && t.process == s.process && t.os.forks == s.os.forks && t.os.signals == s.os.signals
  {
    hide PersistRuntime;
    PersistNotes(Unverified(s, r));
    SaveCounts(Unverified(s, r));
  }

  lemma FailedCounts(w: World, m: Managed)
    ensures var (v, n) := MarkIdentityFailed(w, m);
            && v.forks == w.forks && v.signals == w.signals
            && n == (if m.Child? then Managed.Child(m.owned.(identityFailed := true)) else m)
  {
  }

  /** A PID that now belongs to somebody else: an owned child stays to be reaped, under an identity
      that authorizes nothing, and an adopted process is let go; nothing is started or signaled. */
  lemma ChangedIdentityBlocks(s: Sup, explicitStop: bool)
    requires s.process.Some?
    ensures var r := s.process.value.Rec();
            var t := HandleExit(s, ExitNote(explicitStop, IdentityChanged));
            && Evidence(s, t, r) && t.os.forks == s.os.forks && t.os.signals == s.os.signals
            && t.process == (if s.process.value.Child? then Some(Managed.Child(s.process.value.owned.(identityFailed := true))) else None)
  {
    hide MarkUnverified;
    hide MarkIdentityFailed;
    var m := s.process.value;
    FailedCounts(s.os, m);
    var a := Unidentified(s, m);
    MarkIs(a, Disowned(m.Rec()));
    assert HandleExit(s, ExitNote(explicitStop, IdentityChanged)) == MarkUnverified(a, Disowned(m.Rec()));
  }

  /** An adopted leader that is gone while somebody in its group may live on. */
  lemma LostLeaderBlocks(s: Sup, explicitStop: bool)
    requires s.process.Some? && s.process.value.Attached?
    requires ObserveAttached(s.os, s.process.value.Rec()).1 != Empty
    ensures var r := s.process.value.Rec();
            var t := HandleExit(s, ExitNote(explicitStop, Disappeared));
            Evidence(s, t, r) && t.process.None? && t.nextRestart.None? && !t.restartAfterStop && !t.groupRecovery
  {
    hide MarkUnverified;
    hide ObserveMembers;
    var r := s.process.value.Rec();
    var v := ObserveAttached(s.os, r).0;
    var a := Abandoned(s.(os := v));
    MarkIs(a, Disowned(r));
    assert HandleExit(s, ExitNote(explicitStop, Disappeared)) == MarkUnverified(a, Disowned(r));
    MarkTimers(a, Disowned(r));
  }

  lemma MarkTimers(s: Sup, r: Record)
    ensures var t := MarkUnverified(s, r);
            t.nextRestart == s.nextRestart && t.restartAfterStop == s.restartAfterStop && t.groupRecovery == s.groupRecovery
  {
    hide PersistRuntime;
    PersistNotes(Unverified(s, r));
  }

  /** An unverified record is looked at again and again until it is given up. */
  lemma UnverifiedStaysWatched(s: Sup, now: nat)
    requires s.unverified && s.process.None? && Due(s.unverifiedAt, now) && FireUnverified(s, now).unverified
    ensures FireUnverified(s, now).unverifiedAt.Some?
  {
    hide CheckRecord;
    var a := s.(unverifiedAt := Some(now + UNVERIFIED_CHECK));
    if s.runtime.process.Some? { CheckWatches(a, s.runtime.process.value); }
  }

  lemma CheckWatches(s: Sup, r: Record)
    requires s.unverifiedAt.Some? && CheckRecord(s, r).unverified
    ensures CheckRecord(s, r).unverifiedAt.Some?
  {
    hide Inspect;
    hide ObserveMembers;
    hide EndUnverified;
    var u := ObserveAttached(Inspect(s.os, r).0, r).0;
    if EndUnverified(s.(os := u)).unverified { EndWatches(s.(os := u)); }
  }

  lemma EndWatches(s: Sup)
    requires EndUnverified(s).unverified
    ensures EndUnverified(s).unverifiedAt.Some?
  {
    hide DiscardStale;
    hide Converge;
    hide Leaves;
    DiscardLeaves(s);
    UnsavedDiscard(s);
    var (t, gone) := DiscardStale(s);
    ConvergeStays(t);
  }

  // ---------------------------------------------------------------- what could not be saved

  /** A record whose end could not be written stays and blocks; one whose end may have been written
      is put off until that is durable. */
  lemma UnsavedDiscard(s: Sup)
    ensures var outcome := PersistDetailed(Discarded(s)).1;
            var (t, gone) := DiscardStale(s);
            && (gone <==> outcome == Durable)
            && (outcome == Failed ==>
                  t.unverified && t.unverifiedAt.Some? && t.server == ServerFailed && t.runtime == s.runtime)
            && (outcome == Uncertain ==>
                  && !t.unverified && t.server == ServerFailed && t.runtime.process.None?
                  && t.pendingConvergence == Some(Put(if s.runtime.desired == Stopped then StopLater
                                                      else if s.restartAfterStop then StartLater(AfterStop)
                                                      else StartLater(Cold), s.ledger.next)))
  {
    hide PersistDetailed;
    PersistNotes(Discarded(s));
    var (t, outcome) := PersistDetailed(Discarded(s));
    if outcome == Failed { KeptIs(s, t); }
    if outcome == Uncertain { LaterIs(s, t); }
    hide KeptUnverified;
    hide DiscardLater;
    hide NotesSave;
  }

  lemma KeptIs(s: Sup, t: Sup)
    requires NotesSave(Discarded(s), t)
    ensures var u := KeptUnverified(t, s.runtime.process);
            u.unverified && u.unverifiedAt.Some? && u.server == ServerFailed && u.runtime == s.runtime
  {
  }

  lemma LaterIs(s: Sup, t: Sup)
    requires NotesSave(Discarded(s), t)
    ensures var u := DiscardLater(t);
            && !u.unverified && u.server == ServerFailed && u.runtime.process.None?
            && u.pendingConvergence == Some(Put(if s.runtime.desired == Stopped then StopLater
                                                else if s.restartAfterStop then StartLater(AfterStop)
                                                else StartLater(Cold), s.ledger.next))
  {
  }

  /** The exit of a process whose record could not be cleared: the record stays and blocks. If the
      clearing may have been written, the very exit waits for a durable retry. */
  lemma UnsavedExit(s: Sup, note: ExitNote)
    requires s.process.Some? && s.runtime.process == Some(s.process.value.Rec())
    ensures var outcome := PersistDetailed(Cleared(s)).1;
            var t := CompleteExit(s, note);
            && (outcome == Failed ==>
                  && t.process.None? && t.unverified && t.unverifiedAt.Some? && t.server == ServerFailed && t.runtime == s.runtime
                  && t.nextRestart.None? && t.pendingExit == s.pendingExit)
            && (outcome == Uncertain ==>
                  && t.process.None? && t.server == ServerFailed && t.runtime == s.runtime.(process := None)
                  && t.nextRestart.None? && t.pendingExit == Some(Put(note, s.ledger.next)))
  {
    hide PersistDetailed;
    hide ResumeAfterExit;
    PersistNotes(Cleared(s));
    var (t, outcome) := PersistDetailed(Cleared(s));
    match outcome
    case Durable =>
    case Failed => assert CompleteExit(s, note) == KeptRecord(t, Some(s.process.value.Rec()));
    case Uncertain => assert CompleteExit(s, note) == HeldExit(t, note);
    hide CompleteExit;
  }

  /** A boot that finds nothing to supervise but cannot save that does nothing yet, and puts off
      what was last asked for. */
  lemma UnsavedBoot(s: Sup)
    requires s.process.None? && !s.unverified && s.pendingConvergence.None? && PersistDetailed(BootSave(s)).1 != Durable
    ensures var t := ConvergeBoot(s);
            && t.server == ServerFailed && t.process.None? && t.os.forks == s.os.forks && t.os.signals == s.os.signals
            && t.pendingConvergence == Some(Put(if s.runtime.desired == Running then StartLater(Cold) else StopLater, s.ledger.next))
            && (s.loaded ==> t.retryPending && t.retryAt.Some?)
  {
    hide PersistDetailed;
    hide ResumeConvergence;
    var b := BootSave(s);
    PersistNotes(b);
    DetailedFails(b);
    assert ConvergeBoot(s) == PersistDetailed(b).0.(server := ServerFailed);
    hide ConvergeBoot;
  }
}
