/** Observing the process and resuming what an exit or a save held back keep the invariant,
    and never turn a stopped agent into a starting one. */
module ExitSafety {
  import opened Records
  import opened Kernel
  import opened ProcessGroup
  import opened ProcessIdentity
  import opened ProcessCleanup
  import opened ManagedProcesses
  import opened SupervisorState
  import opened RuntimeDurability
  import opened SupervisorSafety
  import opened Lifecycle
  import opened LifecycleSafety
  import opened ProcessExit

  // ---------------------------------------------------------------- after an exit

  /** Something in memory asks for a start, or nothing can start anyway. */
  predicate Restless(s: Sup) {
    || s.runtime.desired == Running || s.restartAfterStop || s.nextRestart.Some? || s.nextPortRetry.Some?
    || s.os.dead || !s.loaded
  }

  lemma StepsCalm(s: Sup, t: Sup)
    requires Steps(s, t) && Restless(s)
    ensures Calm(s, t)
  {
    hide Inv;
    hide Gate;
    hide Accounts;
  }

  lemma RecoverAfterCleanupSafe(s: Sup)
    requires Idle(s)
    ensures Steps(s, RecoverAfterCleanup(s))
  {
    hide Inv;
    hide Steps;
    hide ScheduleNextRestart;
    var t := s.(groupRecovery := false);
    SteadySafe(s, t);
    StepsInv(s, t);
    ScheduleRestartSafe(t);
    StepsTransitive(s, t, ScheduleNextRestart(t));
  }

  lemma RestartAfterStopSafe(s: Sup)
    requires Idle(s)
    ensures Steps(s, RestartAfterStop(s))
  {
    hide Inv;
    hide Steps;
    hide StartNow;
    var t := s.(restartAfterStop := false);
    SteadySafe(s, t);
    StepsInv(s, t);
    StartNowSafe(t, AfterStop);
    StepsTransitive(s, t, StartNow(t, AfterStop));
  }

  lemma StopFinishedSafe(s: Sup)
    requires Idle(s)
    ensures Calm(s, StopFinished(s))
  {
    hide Inv;
    hide Steps;
    hide Calm;
    hide RecoverAfterCleanup;
    hide RestartAfterStop;
    if s.runtime.desired == Stopped {
      CalmerSafe(s, s.(groupRecovery := false, restartAfterStop := false, nextRestart := None, server := ServerStopped));
    } else if s.groupRecovery {
      RecoverAfterCleanupSafe(s);
      StepsCalm(s, RecoverAfterCleanup(s));
    } else if s.restartAfterStop {
      RestartAfterStopSafe(s);
      StepsCalm(s, RestartAfterStop(s));
    } else {
      CalmerSafe(s, s.(server := ServerStopped));
    }
  }

  lemma BeginRecoverySafe(s: Sup)
    requires Idle(s)
    ensures Steps(s, BeginRecovery(s))
  {
    hide Inv;
    hide Steps;
    hide Calm;
    hide EmitNotification;
    hide ScheduleNextRestart;
    if s.recoveryIncident {
      ScheduleRestartSafe(s);
    } else {
      var t := s.(recoveryIncident := true);
      CalmerSafe(s, t);
      CalmInv(s, t);
      EmitSafe(t, Failure);
      EmitKeepsProcess(t, Failure);
      var u := EmitNotification(t, Failure);
      CalmInv(t, u);
      StepsTransitive(s, t, u);
      StayedIdle(t, u);
      ScheduleRestartSafe(u);
      StepsTransitive(s, u, ScheduleNextRestart(u));
    }
  }

  lemma StayedIdle(s: Sup, t: Sup)
    requires Idle(s) && Steps(s, t) && t.process == s.process && t.unverified == s.unverified
    ensures Idle(t)
  {
    hide Inv;
    hide Gate;
    hide Accounts;
  }

  lemma ResumeSafe(s: Sup, note: ExitNote)
    requires Idle(s)
    ensures Calm(s, ResumeAfterExit(s, note))
  {
    hide Steps;
    hide Calm;
    hide StopFinished;
    hide BeginRecovery;
    hide Inv;
    if note.explicitStop {
      StopFinishedSafe(s);
    } else if s.runtime.desired == Running {
      BeginRecoverySafe(s);
      StepsCalm(s, BeginRecovery(s));
    } else {
      CalmerSafe(s, s.(server := ServerStopped));
    }
  }

  // ---------------------------------------------------------------- marking unverified

  /** The parts of memory that no loss of a process touches. */
  predicate SameBooks(s: Sup, t: Sup) {
    && t.loaded == s.loaded && t.reliable == s.reliable && t.retryPending == s.retryPending
    && t.clearRequested == s.clearRequested && t.pendingExit == s.pendingExit && t.pendingIntent == s.pendingIntent
    && t.pendingConvergence == s.pendingConvergence && t.ledger == s.ledger && t.nextPortRetry == s.nextPortRetry
    && (t.restartAfterStop ==> s.restartAfterStop)
    && (t.nextRestart == s.nextRestart || t.nextRestart.None?)
  }

  /** A record kept as evidence beside a process that this agent gave up, or beside its own
      child whose identity it can no longer vouch for. */
  ghost predicate GivesUp(s: Sup, t: Sup, r: Record) {
    && SameBooks(s, t) && t.unverified && t.runtime == s.runtime.(process := Some(r))
    && WorldOk(t.os) && Evolves(s.os, t.os) && t.os.signals == s.os.signals
    && (!s.os.dead ==>
          && t.os.children == s.os.children
          && !t.stale && s.loaded && s.runtime.marker.None? && s.runtime.process.Some? && s.pendingExit.None?
          && RecordOk(r, s.os.trusted)
          && (r == s.runtime.process.value || (r.unconfirmed && r.pid == s.runtime.process.value.pid))
          && match t.process
             case Some(m) => m.Child? && s.process.Some? && m.Pid() == s.process.value.Pid() && (t.os.dead || ManagedOk(m, t.os))
             case None => s.os.children == {} && s.nextPortRetry.None? && t.nextRestart.None?)
  }

  lemma GivesUpSafe(s: Sup, t: Sup, r: Record)
    requires Inv(s) && GivesUp(s, t, r)
    ensures Edits(s, t)
  {
    hide WorldOk;
    hide ManagedOk;
  }

  lemma MarkUnverifiedSafe(s: Sup, a: Sup, r: Record)
    requires Inv(s)
    requires GivesUp(s, Unverified(a, r), r)
    ensures Calm(s, MarkUnverified(a, r))
  {
    hide Inv;
    hide Edits;
    hide GivesUp;
    hide Calm;
    hide PersistRuntime;
    hide Unverified;
    GivesUpSafe(s, Unverified(a, r), r);
    SaveAfter(s, Unverified(a, r));
  }

  // ---------------------------------------------------------------- polling

  /** The record of the supervised process shows every live leader, if some record with its
      PID does. */
  lemma ManagedShows(m: Managed, was: Runtime, image: Runtime, w: World)
    requires WorldOk(w) && ManagedOk(m, w) && RuntimeOk(was, w.leaders, w.trusted, w.procs)
    requires was.marker.None? && was.process.Some? && was.process.value.pid == m.Pid()
    requires m.Attached? ==> was.process == Some(m.attached)
    requires image.process == Some(m.Rec()) && image.marker.None?
    ensures RuntimeOk(image, w.leaders, w.trusted, w.procs)
  {
    var r := m.Rec();
    if m.Child? && !r.unconfirmed { assert (r.pid, r.start) in w.trusted; }
    forall l | Lives(w.leaders, w.procs, l) ensures Shows(image, l) {
      assert Shows(was, l);
    }
  }

  lemma EvolvesShows(w: World, v: World, image: Runtime)
    requires Evolves(w, v) && RuntimeOk(image, w.leaders, w.trusted, w.procs)
    ensures RuntimeOk(image, v.leaders, v.trusted, v.procs)
  {
  }

  /** A later view of the same process, the world having moved on. */
  ghost predicate SameProcessLater(s: Sup, v: World, m: Managed) {
    && s.process.Some? && m.Pid() == s.process.value.Pid() && m.Child? == s.process.value.Child?
    && (m.Attached? ==> m.Rec() == s.process.value.Rec())
    && WorldOk(v) && Evolves(s.os, v) && (v.dead || ManagedOk(m, v))
  }

  lemma EvolvesParts(w: World, v: World)
    requires Evolves(w, v)
    ensures v.images == w.images && v.forks == w.forks && v.readable == w.readable && v.leaders == w.leaders
    ensures v.trusted == w.trusted && v.barred == w.barred
    ensures w.dead ==> v.dead && v.signals == w.signals
  {
  }

  lemma LaterInv(s: Sup, v: World, m: Managed)
    requires Inv(s) && SameProcessLater(s, v, m)
    ensures Inv(Reseen(s, v, m)) && Inv(Rerecorded(s, v, m))
    ensures s.os.dead || (s.loaded && s.runtime.marker.None?)
  {
    hide WorldOk;
    hide ManagedOk;
    hide RuntimeOk;
    if !v.dead {
      EvolvesShows(s.os, v, s.runtime);
      ManagedShows(m, s.runtime, s.runtime.(process := Some(m.Rec())), v);
    }
  }

  lemma LaterMoves(s: Sup, v: World, m: Managed)
    requires Inv(s) && SameProcessLater(s, v, m)
    ensures Calm(s, Reseen(s, v, m)) && Edits(s, Rerecorded(s, v, m))
  {
    LaterInv(s, v, m);
    EvolvesParts(s.os, v);
    hide Inv;
    hide SameProcessLater;
  }

  lemma UpgradeSafe(s: Sup)
    requires Inv(s)
    ensures Calm(s, UpgradeIdentity(s).0)
  {
    hide Inv;
    hide Calm;
    hide Edits;
    hide ConfirmIdentity;
    hide SaveIdentity;
    hide ManagedOk;
    hide WorldOk;
    hide Evolves;
    if s.process.Some? {
      ConfirmSafe(s.os, s.process.value) by { InvProcess(s); }
      var (v, m, upgraded) := ConfirmIdentity(s.os, s.process.value);
      LaterMoves(s, v, m);
      SaveIdentitySafe(s, v, m);
    } else {
      CalmerSafe(s, s);
    }
  }

  lemma SaveIdentitySafe(s: Sup, v: World, m: Managed)
    requires Inv(s) && SameProcessLater(s, v, m)
    ensures Calm(s, SaveIdentity(Rerecorded(s, v, m)).0)
  {
    hide Inv;
    hide Calm;
    hide Edits;
    hide SameProcessLater;
    hide PersistRuntime;
    LaterMoves(s, v, m);
    hide Rerecorded;
    var a := Rerecorded(s, v, m);
    SaveAfter(s, a);
    var u := PersistRuntime(a).0;
    CalmInv(s, u);
    CalmerSafe(u, u.(server := ServerFailed));
    CalmTransitive(s, u, u.(server := ServerFailed));
  }

  lemma InvProcess(s: Sup)
    requires Inv(s) && s.process.Some?
    ensures WorldOk(s.os) && (s.os.dead || ManagedOk(s.process.value, s.os))
  {
  }

  lemma AwaitAuthorizedSafe(s: Sup, explicitStop: bool)
    requires Inv(s)
    ensures Calm(s, AwaitAuthorized(s, explicitStop))
  {
    hide Inv;
    hide Calm;
    hide PersistRuntime;
    AwaitingCalmer(s, explicitStop);
    hide Awaiting;
    CalmerSafe(s, Awaiting(s, explicitStop));
    SaveCalmer(s, Awaiting(s, explicitStop));
  }

  lemma AwaitingCalmer(s: Sup, explicitStop: bool)
    ensures Calmer(s, Awaiting(s, explicitStop))
  {
  }

  lemma AwaitGroupSafe(s: Sup, explicitStop: bool)
    requires Inv(s) && s.process.Some?
    ensures Calm(s, AwaitGroup(s, explicitStop))
  {
    hide Inv;
    hide Calm;
    hide PersistRuntime;
    hide AwaitAuthorized;
    AwaitAuthorizedSafe(s, explicitStop);
    SaveCalmer(s, s.(stopDeadline := None, server := ServerFailed));
  }

  lemma SaveCalmer(s: Sup, t: Sup)
    requires Inv(s) && Calmer(s, t)
    ensures Calm(s, PersistRuntime(t).0)
  {
    hide Inv;
    hide Moves;
    hide Rests;
    hide PersistRuntime;
    CalmerSafe(s, t);
    SaveAfter(s, t);
  }

  // ---------------------------------------------------------------- exits

  /** The supervised leader is gone; if it was a child, it has been reaped. */
  ghost predicate LeaderGone(s: Sup, v: World, m: Managed) {
    && s.process.Some? && m.Pid() == s.process.value.Pid() && m.Child? == s.process.value.Child?
    && (m.Attached? ==> m.Rec() == s.process.value.Rec())
    && WorldOk(v) && Evolves(s.os, v) && v.children == {} && NoneAlive(v, m.Pid())
  }

  lemma NothingLives(image: Runtime, w: World, pid: nat)
    requires RuntimeOk(image, w.leaders, w.trusted, w.procs) && NoneAlive(w, pid)
    requires image.marker.None? && image.process.Some? && image.process.value.pid == pid
    ensures NoLeader(w)
  {
  }

  lemma ClearedMoves(s: Sup, v: World, m: Managed)
    requires Inv(s) && LeaderGone(s, v, m)
    ensures Edits(s, Cleared(Reseen(s, v, m)))
    ensures v.dead || (s.pendingExit.None? && s.runtime.process.Some? && NoLeader(v) && RuntimeOk(s.runtime, v.leaders, v.trusted, v.procs))
  {
    hide WorldOk;
    hide ManagedOk;
    hide RuntimeOk;
    if !v.dead {
      EvolvesShows(s.os, v, s.runtime);
      NothingLives(s.runtime, v, m.Pid());
      NothingLeft(s.runtime, s.runtime.(process := None), v);
    }
  }

  lemma NothingLeft(was: Runtime, image: Runtime, w: World)
    requires NoLeader(w) && (image.process.Some? ==> image.process == was.process && image.marker == was.marker && RuntimeOk(was, w.leaders, w.trusted, w.procs))
    ensures RuntimeOk(image, w.leaders, w.trusted, w.procs)
  {
  }

  /** Nothing lives, nothing is recorded, and the exit is still to be saved. */
  ghost predicate Emptied(a: Sup, record: Record) {
    && Inv(a) && a.process.None? && !a.unverified
    && (a.os.dead ||
        (a.loaded && a.runtime.marker.None? && a.pendingExit.None? && NoLeader(a.os) && RecordOk(record, a.os.trusted)))
  }

  lemma BlockedSafe(a: Sup, record: Record, note: ExitNote)
    requires Emptied(a, record)
    requires !a.os.dead ==> !a.reliable && a.retryPending
    ensures Calm(a, KeptRecord(a, Some(record))) && Calm(a, HeldExit(a, note))
  {
    hide WorldOk;
    hide ManagedOk;
    RebookedAccounts(a, KeptRecord(a, Some(record)));
    RebookedAccounts(a, HeldExit(a, note));
  }

  lemma StillEmptied(a: Sup, record: Record)
    requires Emptied(a, record)
    ensures Emptied(PersistDetailed(a).0, record) && Calm(a, PersistDetailed(a).0)
    ensures var (t, outcome) := PersistDetailed(a);
            outcome != Durable && !t.os.dead ==> !t.reliable && t.retryPending
  {
    hide PersistDetailed;
    hide WorldOk;
    hide MemoryOk;
    hide RuntimeOk;
    hide Stays;
    DetailedMoves(a);
    PersistDetailedSafe(a) by { EvidencePart(a); }
    var t := PersistDetailed(a).0;
    StaysFacts(a.os, t.os);
    if !a.os.dead { NoLeaderStays(a.os, t.os); }
  }

  lemma ClearRecordSafe(s: Sup, a: Sup, record: Record, note: ExitNote)
    requires Edits(s, a) && Emptied(a, record)
    ensures var (t, outcome) := PersistDetailed(a);
            && Calm(s, t) && Idle(t)
            && (outcome != Durable ==> Calm(s, KeptRecord(t, Some(record))) && Calm(s, HeldExit(t, note)))
  {
    hide Edits;
    hide Calm;
    hide Inv;
    hide PersistDetailed;
    hide KeptRecord;
    hide HeldExit;
    hide NoLeader;
    DetailedAfter(s, a);
    StillEmptied(a, record);
    var (t, outcome) := PersistDetailed(a);
    if outcome != Durable {
      BlockedSafe(t, record, note);
      CalmTransitive(s, t, KeptRecord(t, Some(record)));
      CalmTransitive(s, t, HeldExit(t, note));
    }
  }

  /** `complete_process_exit`, whatever comes of clearing the record. */
  lemma CompleteExitSafe(s: Sup, v: World, m: Managed, note: ExitNote)
    requires Inv(s) && LeaderGone(s, v, m)
    ensures Calm(s, CompleteExit(Reseen(s, v, m), note))
  {
    hide Edits;
    hide Calm;
    hide Emptied;
    hide PersistDetailed;
    hide ResumeAfterExit;
    hide LeaderGone;
    hide KeptRecord;
    hide HeldExit;
    hide Cleared;
    var b := Reseen(s, v, m);
    var record := if s.runtime.process.Some? then s.runtime.process.value else m.Rec();
    ClearedMoves(s, v, m);
    ClearedEmptied(s, v, m, record);
    ClearRecordSafe(s, Cleared(b), record, note);
    var (t, outcome) := PersistDetailed(Cleared(b));
    if outcome == Durable {
      ResumeSafe(t, note);
      CalmTransitive(s, t, ResumeAfterExit(t, note));
    }
  }

  lemma ClearedEmptied(s: Sup, v: World, m: Managed, record: Record)
    requires Inv(s) && LeaderGone(s, v, m) && (s.runtime.process.Some? ==> record == s.runtime.process.value)
    requires Edits(s, Cleared(Reseen(s, v, m)))
    ensures Emptied(Cleared(Reseen(s, v, m)), record)
  {
    ClearedMoves(s, v, m);
    hide WorldOk;
    hide ManagedOk;
  }

  lemma LoseIdentitySafe(s: Sup)
    requires Inv(s) && s.process.Some? && (s.process.value.Child? ==> s.process.value.owned.cleanup.None?)
    ensures Calm(s, LoseIdentity(s))
  {
    hide Inv;
    hide Calm;
    hide GivesUp;
    hide MarkUnverified;
    hide Unverified;
    hide Unidentified;
    var m := s.process.value;
    UnidentifiedGivesUp(s, m);
    MarkUnverifiedSafe(s, Unidentified(s, m), Disowned(m.Rec()));
  }

  lemma RecordedPid(s: Sup)
    requires Inv(s) && !s.os.dead && s.process.Some?
    ensures s.process.value.Pid() > 1
  {
    hide WorldOk;
    hide ManagedOk;
  }

  lemma UnidentifiedGivesUp(s: Sup, m: Managed)
    requires Inv(s) && s.process == Some(m) && (m.Child? ==> m.owned.cleanup.None?)
    ensures GivesUp(s, Unverified(Unidentified(s, m), Disowned(m.Rec())), Disowned(m.Rec()))
  {
    hide WorldOk;
    hide RuntimeOk;
    if !s.os.dead { RecordedPid(s); }
    InvParts(s);
    if m.Child? { RefusalKeeps(s.os, m.owned.pid); }
  }

  lemma LoseLeaderSafe(s: Sup, v: World, m: Managed)
    requires Inv(s) && LeaderGone(s, v, m) && m.Attached? && v.signals == s.os.signals
    ensures Calm(s, LoseLeader(Reseen(s, v, m), m.Rec()))
  {
    hide Inv;
    hide Calm;
    hide GivesUp;
    hide MarkUnverified;
    hide Unverified;
    hide Abandoned;
    hide LeaderGone;
    hide Reseen;
    AbandonedGivesUp(s, v, m);
    MarkUnverifiedSafe(s, Abandoned(Reseen(s, v, m)), Disowned(m.Rec()));
  }

  lemma AbandonedGivesUp(s: Sup, v: World, m: Managed)
    requires Inv(s) && LeaderGone(s, v, m) && m.Attached? && v.signals == s.os.signals
    ensures GivesUp(s, Unverified(Abandoned(Reseen(s, v, m)), Disowned(m.Rec())), Disowned(m.Rec()))
  {
    hide WorldOk;
    hide RuntimeOk;
  }

  lemma GoneStays(s: Sup, v: World, u: World, m: Managed)
    requires LeaderGone(s, v, m) && OnlyLooked(v, u)
    ensures LeaderGone(s, u, m) && u.signals == v.signals
  {
    hide WorldOk;
  }

  /** What one poll of the process tells. */
  ghost predicate ExitSeen(s: Sup, v: World, m: Managed, reason: ExitReason) {
    if reason == IdentityChanged then
      SameProcessLater(s, v, m) && (m.Child? ==> m.owned.cleanup.None?)
    else LeaderGone(s, v, m) && (m.Attached? ==> v.signals == s.os.signals)
  }

  lemma VanishedSafe(s: Sup, v: World, m: Managed, note: ExitNote)
    requires Inv(s) && LeaderGone(s, v, m) && m.Attached? && v.signals == s.os.signals && note.reason == Disappeared
    ensures Calm(s, HandleExit(Reseen(s, v, m), note))
  {
    hide Inv;
    hide Calm;
    hide LeaderGone;
    hide CompleteExit;
    hide LoseLeader;
    hide ObserveMembers;
    hide OnlyLooked;
    hide WorldOk;
    GoneWorld(s, v, m);
    ObserveKeeps(v, m.Rec().group, None);
    var u := ObserveAttached(v, m.Rec()).0;
    GoneStays(s, v, u, m);
    CompleteExitSafe(s, u, m, note);
    LoseLeaderSafe(s, u, m);
    SeenTwice(s, v, u, m);
  }

  lemma SeenTwice(s: Sup, v: World, u: World, m: Managed)
    ensures Reseen(s, v, m).(os := u) == Reseen(s, u, m)
  {
  }

  lemma GoneWorld(s: Sup, v: World, m: Managed)
    requires LeaderGone(s, v, m)
    ensures WorldOk(v)
  {
  }

  lemma HandleExitSafe(s: Sup, v: World, m: Managed, note: ExitNote)
    requires Inv(s) && ExitSeen(s, v, m, note.reason)
    ensures Calm(s, HandleExit(Reseen(s, v, m), note))
  {
    hide Inv;
    hide Calm;
    hide LeaderGone;
    hide SameProcessLater;
    hide CompleteExit;
    hide LoseIdentity;
    if note.reason == IdentityChanged {
      LaterMoves(s, v, m);
      var b := Reseen(s, v, m);
      CalmInv(s, b);
      LoseIdentitySafe(b);
      CalmTransitive(s, b, LoseIdentity(b));
    } else if note.reason == Disappeared && m.Attached? {
      VanishedSafe(s, v, m, note);
    } else {
      CompleteExitSafe(s, v, m, note);
    }
  }

  lemma PolledProcess(s: Sup)
    requires Inv(s) && s.process.Some?
    ensures var (v, m, poll) := PollExit(s.os, s.process.value);
            if poll.Gone? then ExitSeen(s, v, m, poll.reason) && !m.PendingGroupExit()
            else SameProcessLater(s, v, m)
  {
    hide PollExit;
    hide WorldOk;
    InvProcess(s);
    PollExitSafe(s.os, s.process.value);
    if s.process.value.Attached? { AttachedPoll(s.os, s.process.value); }
  }

  lemma AttachedPoll(w: World, m: Managed)
    requires WorldOk(w) && m.Attached?
    ensures PollExit(w, m).0.signals == w.signals
  {
    SnapshotKeeps(w, m.Pid());
  }

  lemma ObserveExitSafe(s: Sup)
    requires Inv(s)
    ensures Calm(s, ObserveExit(s))
  {
    hide Inv;
    hide Calm;
    hide PollExit;
    hide SameProcessLater;
    hide ExitSeen;
    hide AwaitGroup;
    hide HandleExit;
    if s.process.Some? {
      PolledProcess(s);
      var (v, m, poll) := PollExit(s.os, s.process.value);
      var t := Reseen(s, v, m);
      if poll.Gone? {
        HandleExitSafe(s, v, m, ExitNote(StoppingNow(s), poll.reason));
      } else {
        LaterMoves(s, v, m);
        CalmInv(s, t);
        AwaitGroupSafe(t, StoppingNow(s));
        CalmTransitive(s, t, AwaitGroup(t, StoppingNow(s)));
      }
    } else {
      CalmerSafe(s, s);
    }
  }

  /** One supervision poll, whatever the process and the file system do. */
  lemma PollProcessSafe(s: Sup)
    requires Inv(s)
    ensures Calm(s, PollProcess(s))
  {
    hide Inv;
    hide Calm;
    hide UpgradeIdentity;
    hide ObserveExit;
    UpgradeSafe(s);
    var t := UpgradeIdentity(s).0;
    CalmInv(s, t);
    ObserveExitSafe(t);
    CalmTransitive(s, t, ObserveExit(t));
  }

  // ---------------------------------------------------------------- deferred actions

  /** Right after a durable save. */
  ghost predicate JustSaved(s: Sup) {
    !s.os.dead && s.reliable && !s.retryPending && s.os.images == {s.runtime}
  }

  lemma StopNowSafe(s: Sup)
    requires Inv(s)
    ensures Calm(s, StopNow(s))
  {
    hide Inv;
    hide Calm;
    hide BeginStop;
    BeginStopSafe(s, false);
    CalmerSafe(s, s.(server := ServerStopped));
  }

  lemma ResumeConvergenceSafe(s: Sup)
    requires Inv(s) && JustSaved(s)
    ensures Calm(s, ResumeConvergence(s))
  {
    hide Inv;
    hide Calm;
    hide StartNow;
    hide StopNow;
    hide Steps;
    CalmerSafe(s, s);
    if DurableNow(s) && s.pendingConvergence.Some? {
      var t := ConvergenceTaken(s);
      CarriedOutFollows(BooksOf(s), BooksOf(t), s.pendingConvergence.value.ticket);
      CalmerSafe(s, t);
      CalmInv(s, t);
      if t.process.None? && !t.unverified && t.runtime.desired == Running && s.pendingConvergence.value.what.StartLater? {
        StartNowSafe(t, s.pendingConvergence.value.what.trigger);
        StepsCalm(t, StartNow(t, s.pendingConvergence.value.what.trigger));
        CalmTransitive(s, t, StartNow(t, s.pendingConvergence.value.what.trigger));
      }
      StopNowSafe(t);
      CalmTransitive(s, t, StopNow(t));
    }
  }

  lemma IntentTakenCalmer(s: Sup)
    requires JustSaved(s) && s.pendingIntent.Some?
    ensures Calmer(s.(pendingExit := None), IntentTaken(s)) && IntentTaken(s).pendingExit.None?
  {
    CarriedOutFollows(BooksOf(s.(pendingExit := None)), BooksOf(IntentTaken(s)), s.pendingIntent.value.ticket);
  }

  lemma RunIntentSafe(s: Sup, intent: Intent)
    requires Inv(s.(pendingExit := None)) && JustSaved(s) && s.pendingIntent.Some? && s.pendingIntent.value.what == intent
    ensures Calm(s.(pendingExit := None), ApplyIntent(IntentTaken(s), intent))
  {
    hide Inv;
    hide Calm;
    hide Steps;
    hide ApplyIntent;
    hide Calmer;
    IntentTakenCalmer(s);
    hide IntentTaken;
    var c := s.(pendingExit := None);
    var t := IntentTaken(s);
    CalmerSafe(c, t);
    CalmInv(c, t);
    NoExit(t);
    ApplyIntentSafe(t, t, intent);
    if intent == StopIntent {
      CalmTransitive(c, t, ApplyIntent(t, intent));
    } else {
      StepsTransitive(c, t, ApplyIntent(t, intent));
      StartPending(c, ApplyIntent(t, intent));
    }
  }

  lemma StartPending(s: Sup, t: Sup)
    requires Steps(s, t) && !s.os.dead && s.pendingIntent.Some? && s.pendingIntent.value.what != StopIntent
    ensures Calm(s, t)
  {
    if !s.loaded { MovesRest(s, t); }
    hide Inv;
  }

  // ---------------------------------------------------------------- the retry

  /** The marker of a launch that never happened, to be taken back. */
  predicate Unwinding(s: Sup) {
    s.runtime.marker.Some? && s.clearRequested
  }

  /** The calm step, except that a marker may be taken back. */
  ghost predicate GoesOn(s: Sup, t: Sup) {
    Goes(s, t) && (!Unwinding(s) ==> Calm(s, t))
  }

  /** What the saves of the retry leave. */
  ghost predicate Retried(s: Sup, t: Sup, outcome: SaveOutcome) {
    if outcome == Durable then
      && JustSaved(t) && GoesOn(s, t.(pendingExit := None)) && (t.pendingExit.None? ==> GoesOn(s, t))
      && (t.pendingExit.Some? ==> t.process.None? && !t.unverified && GoesOn(s, ExitTaken(t)))
    else GoesOn(s, t)
  }

  lemma ExitTakenSafe(s: Sup, t: Sup)
    requires Calm(s, t.(pendingExit := None)) && JustSaved(t) && t.pendingExit.Some?
    requires t.ledger == s.ledger && t.pendingExit == s.pendingExit && t.pendingIntent == s.pendingIntent && t.pendingConvergence == s.pendingConvergence
    ensures Calm(s, ExitTaken(t))
  {
    hide WorldOk;
    hide MemoryOk;
    hide Sealed;
    var c := t.(pendingExit := None);
    var d := ExitTaken(t);
    CarriedOutFollows(BooksOf(s), BooksOf(d), t.pendingExit.value.ticket);
    assert Inv(d) by { StillInv(c, d); }
    assert Sealed(s, d) by { SealedLater(s, c, d); }
  }

  lemma StillInv(c: Sup, d: Sup)
    requires Inv(c) && d == c.(ledger := d.ledger)
    ensures Inv(d)
  {
    hide WorldOk;
    hide ManagedOk;
  }

  lemma SealedLater(s: Sup, c: Sup, d: Sup)
    requires Sealed(s, c) && d.os == c.os && d.runtime == c.runtime && d.clearRequested == c.clearRequested
    ensures Sealed(s, d)
  {
  }

  lemma DurableSaved(a: Sup)
    requires Inv(a) && PersistDetailed(a).1 == Durable
    ensures JustSaved(PersistDetailed(a).0)
  {
    hide PersistDetailed;
    hide WorldOk;
    hide MemoryOk;
    hide Stays;
    hide RuntimeOk;
    PersistDetailedSafe(a) by { EvidencePart(a); }
  }

  lemma FirstSave(s: Sup)
    requires Inv(s)
    ensures var (t, outcome) := PersistDetailed(s.(retryAt := None));
            && (outcome != Durable ==> Calm(s, t))
            && (outcome == Durable ==> JustSaved(t) && Calm(s, t.(pendingExit := None)))
            && (outcome == Durable && t.pendingExit.Some? ==> t.process.None? && !t.unverified && Calm(s, ExitTaken(t)))
  {
    hide PersistDetailed;
    hide Inv;
    hide Moves;
    hide Rests;
    hide SavedOnly;
    hide JustSaved;
    hide Stays;
    var a := s.(retryAt := None);
    CalmerSafe(s, a);
    CalmInv(s, a);
    DetailedMoves(a);
    PersistDetailedFrame(a);
    var (t, outcome) := PersistDetailed(a);
    if outcome == Durable {
      DurableRests(s, a);
      DurableSaved(a);
      if t.pendingExit.Some? {
        SavedFrame(a, t);
        ExitTakenSafe(s, t);
        HeldExitIdle(s);
      }
    } else {
      MovesTransitive(s, a, t);
      RestsTransitive(s, a, t);
    }
  }

  lemma HeldExitIdle(s: Sup)
    requires Inv(s) && !s.os.dead && s.pendingExit.Some?
    ensures s.process.None? && !s.unverified
  {
  }

  /** Taking the marker back: nothing was launched under it. */
  lemma UnwoundMoves(s: Sup, t: Sup)
    requires Calm(s, t) && !t.os.dead && Unwinding(t) && Unwinding(s)
    ensures Goes(s, t) && t.pendingExit.None?
    ensures Inv(t.(runtime := t.runtime.(marker := None)))
    ensures Sound(s, t.(runtime := t.runtime.(marker := None))) && Rests(s, t.(runtime := t.runtime.(marker := None)))
  {
    hide WorldOk;
    hide ManagedOk;
  }

  lemma SecondSave(s: Sup, a: Sup)
    requires Sound(s, a) && Rests(s, a) && a.pendingExit.None?
    ensures var (t, outcome) := PersistDetailed(a);
            Goes(s, t) && (outcome == Durable ==> JustSaved(t) && t.pendingExit.None?)
  {
    hide PersistDetailed;
    hide Inv;
    hide Sealed;
    hide Accounts;
    hide AtRest;
    hide Stays;
    hide SavedOnly;
    DetailedMoves(a);
    PersistDetailedFrame(a);
    PersistDetailedSafe(a) by { EvidencePart(a); InvParts(a); }
    AccountsTransitive(s, a, PersistDetailed(a).0);
    SavedFrame(a, PersistDetailed(a).0);
  }

  lemma NoExit(t: Sup)
    requires t.pendingExit.None?
    ensures t.(pendingExit := None) == t
  {
  }

  /** The saves of the retry, whatever the file system answers to either. */
  lemma RetrySaveSafe(s: Sup)
    requires Inv(s)
    ensures Retried(s, RetrySave(s).0, RetrySave(s).1)
  {
    hide PersistDetailed;
    hide Inv;
    hide Calm;
    hide Goes;
    hide JustSaved;
    FirstSave(s);
    var (t, outcome) := PersistDetailed(s.(retryAt := None));
    FirstFacts(s);
    if outcome == Durable {
      CalmGoes(s, t.(pendingExit := None));
      if t.pendingExit.Some? { CalmGoes(s, ExitTaken(t)); } else { NoExit(t); }
      if Unwinding(t) {
        UnwoundMoves(s, t);
        SecondSave(s, t.(runtime := t.runtime.(marker := None)));
        var u := PersistDetailed(t.(runtime := t.runtime.(marker := None))).0;
        if u.pendingExit.None? { NoExit(u); }
      }
    } else {
      CalmGoes(s, t);
    }
  }

  lemma FirstFacts(s: Sup)
    requires Inv(s)
    ensures var (t, outcome) := PersistDetailed(s.(retryAt := None));
            && (Unwinding(t) ==> Unwinding(s))
            && (outcome == Durable ==> !t.os.dead)
            && (outcome == Durable && Unwinding(t) ==> t.pendingExit.None?)
  {
    hide PersistDetailed;
    hide WorldOk;
    hide Stays;
    hide RuntimeOk;
    PersistDetailedSafe(s.(retryAt := None)) by { EvidencePart(s); }
    StaysFacts(s.os, PersistDetailed(s.(retryAt := None)).0.os);
  }

  lemma GoesOnThen(s: Sup, t: Sup, u: Sup)
    requires GoesOn(s, t) && Calm(t, u)
    ensures GoesOn(s, u)
  {
    hide Goes;
    hide Calm;
    CalmGoes(t, u);
    GoesTransitive(s, t, u);
    if !Unwinding(s) { CalmTransitive(s, t, u); }
  }

  lemma GoesOnInv(s: Sup, t: Sup)
    requires GoesOn(s, t)
    ensures Inv(t)
  {
    hide Inv;
  }

  lemma ResumeDeferredSafe(s: Sup, t: Sup)
    requires Retried(s, t, Durable)
    ensures GoesOn(s, ResumeDeferred(t))
  {
    hide Inv;
    hide GoesOn;
    hide Calm;
    hide JustSaved;
    hide ApplyIntent;
    hide IntentTaken;
    hide ResumeAfterExit;
    hide ResumeConvergence;
    hide ExitTaken;
    var c := t.(pendingExit := None);
    GoesOnInv(s, c);
    if t.pendingIntent.Some? {
      RunIntentSafe(t, t.pendingIntent.value.what);
      GoesOnThen(s, c, ApplyIntent(IntentTaken(t), t.pendingIntent.value.what));
    } else if t.pendingExit.Some? {
      GoesOnInv(s, ExitTaken(t));
      ResumeTaken(t, t.pendingExit.value.what);
      GoesOnThen(s, ExitTaken(t), ResumeAfterExit(ExitTaken(t), t.pendingExit.value.what));
    } else {
      GoesOnInv(s, t);
      ResumeConvergenceSafe(t);
      GoesOnThen(s, t, ResumeConvergence(t));
    }
  }

  lemma ResumeTaken(t: Sup, note: ExitNote)
    requires t.pendingExit.Some? && Inv(ExitTaken(t)) && t.process.None? && !t.unverified
    ensures Calm(ExitTaken(t), ResumeAfterExit(ExitTaken(t), note))
  {
    hide Inv;
    ResumeSafe(ExitTaken(t), note);
  }

  /** The retry of a save, with everything it releases. */
  lemma RetryIfDueSafe(s: Sup, now: nat)
    requires Inv(s)
    ensures GoesOn(s, RetryIfDue(s, now))
  {
    hide Inv;
    hide GoesOn;
    hide Calm;
    hide RetrySave;
    hide ResumeDeferred;
    hide JustSaved;
    CalmerSafe(s, s);
    CalmGoesOn(s, s);
    if RetryDue(s, now) {
      RetrySaveSafe(s);
      var (t, outcome) := RetrySave(s);
      if outcome == Durable { ResumeDeferredSafe(s, t); }
    }
  }

  lemma CalmGoesOn(s: Sup, t: Sup)
    requires Calm(s, t)
    ensures GoesOn(s, t)
  {
    hide Calm;
    CalmGoes(s, t);
  }
}
