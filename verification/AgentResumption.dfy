/** What becomes of what had to wait, where every call succeeds: actions put off until a save was
    durable, stops that take too long, ports that were not free, and the process an earlier
    agent left behind. */
module AgentResumption {
  import opened Records
  import opened Kernel
  import opened ProcessGroup
  import opened ProcessIdentity
  import opened ProcessCleanup
  import opened ManagedProcesses
  import opened SupervisorState
  import opened RuntimeDurability
  import opened Lifecycle
  import opened ProcessExit
  import opened ReattachPolicy
  import opened Reattach
  import opened Agent
  import opened BoundedRecovery
  import opened AgentProgress

  // ---------------------------------------------------------------- deferred actions

  /** A save of this agent is to be repeated, and everything else is in order. */
  predicate Unsure(s: Sup, now: nat) {
    && s.loaded && s.retryPending && Due(s.retryAt, now)
    && s.runtime.marker.None? && !s.unverified
  }

  /** The state once the retry has saved. */
  function Repeated(s: Sup, v: World): Sup {
    s.(os := v, retryAt := None, reliable := true, retryPending := false, stateError := false, clearRequested := false)
  }

  lemma SaveRepeats(s: Sup, now: nat, v: World)
    requires Unsure(s, now) && Save(s.os, s.runtime) == (v, Durable)
    ensures RetrySave(s) == (Repeated(s, v), Durable)
    ensures RetryIfDue(s, now) == ResumeDeferred(Repeated(s, v))
  {
    hide Save;
    hide ResumeDeferred;
    var a := s.(retryAt := None);
    assert PersistDetailed(a) == (Noted(a, v, Durable), Durable);
    hide PersistDetailed;
    assert Noted(a, v, Durable) == Repeated(s, v);
    hide Noted;
    assert RetrySave(s) == (Repeated(s, v), Durable);
    hide RetrySave;
  }

  /** The world is not blamed for an action carried out once the save is durable. */
  lemma JudgedFairly(s: Sup)
    requires s.reliable && !s.retryPending && s.os.images == {s.runtime}
    ensures Judged(s) == s.os
  {
  }

  /** An agent that runs nothing, and is not sure of its last save. */
  ghost predicate UnsureIdle(s: Sup, c: Choice, n: int, now: nat) {
    && Unsure(s, now) && Helps(s.os, c, n) && Vacant(s.os, c)
    && s.os.exitSeen == {} && s.os.refused == {} && s.os.terminated == {} && s.process.None?
  }

  lemma IdleRepeats(s: Sup, c: Choice, n: nat, now: nat)
    requires n > 0 && UnsureIdle(s, c, n, now)
    ensures exists v: World :: Resumes(s, c, n, now, v)
  {
    VacantSave(s.os, c, n, s.runtime);
    AgentProgress.LaterHelps(s.os, c, n);
    var v := AgentProgress.Later(s.os).(procs := map[], images := {s.runtime});
    hide Save;
    SaveRepeats(s, now, v);
    hide RetryIfDue;
    hide ResumeDeferred;
    assert Resumes(s, c, n, now, v);
  }

  /** The retry goes on from the durable save in the world `v`. */
  ghost predicate Resumes(s: Sup, c: Choice, n: int, now: nat, v: World) {
    && RetryIfDue(s, now) == ResumeDeferred(Repeated(s, v)) && v.images == {s.runtime} && v.forks == s.os.forks
    && Idle(Repeated(s, v), c, n - 1)
  }

  /** A start that waited for its save runs OpenCode as soon as the save is durable. */
  lemma DeferredStartRuns(s: Sup, c: Choice, n: nat, now: nat)
    requires n > 7 && UnsureIdle(s, c, n, now) && c.endpoint == Free && s.credential != AccessPending
    requires s.pendingIntent.Some? && s.pendingIntent.value.what == StartIntent
    ensures var t := RetryIfDue(s, now);
            Serves(t, c, n - 8, NewRecord(c), c.config.value) && t.os.forks == s.os.forks + 1 && t.pendingIntent.None?
            && t.server == Starting
  {
    IdleRepeats(s, c, n, now);
    hide RetryIfDue;
    hide ResumeDeferred;
    hide StartNow;
    hide UnsureIdle;
    hide Serves;
    var v: World :| Resumes(s, c, n, now, v);
    var a := Repeated(s, v);
    StartTaken(a, c, n - 1);
    var d := Cancelled(IntentTaken(a), 0, a.restartAfterStop, a.groupRecovery);
    StartRuns(d, Cold, c, n - 1);
    StartStays(d, Cold);
  }

  lemma StartTaken(a: Sup, c: Choice, n: nat)
    requires Idle(a, c, n) && a.os.images == {a.runtime} && a.credential != AccessPending
    requires a.pendingIntent.Some? && a.pendingIntent.value.what == StartIntent
    ensures var d := Cancelled(IntentTaken(a), 0, a.restartAfterStop, a.groupRecovery);
            Idle(d, c, n) && ResumeDeferred(a) == StartNow(d, Cold) && d.os == a.os && d.pendingIntent.None?
  {
    JudgedFairly(a);
    hide Judged;
    hide StartNow;
    hide Helps;
    var b := IntentTaken(a);
    var d := Cancelled(b, 0, b.restartAfterStop, b.groupRecovery);
    assert d.os == a.os;
    assert ApplyStart(b).0 == StartNow(d, Cold);
  }

  /** A start that the agent itself put off runs OpenCode too, if it is still wanted. */
  lemma DeferredConvergenceRuns(s: Sup, c: Choice, n: nat, now: nat)
    requires n > 7 && UnsureIdle(s, c, n, now) && c.endpoint == Free && s.pendingIntent.None? && s.pendingExit.None?
    requires s.pendingConvergence.Some? && s.pendingConvergence.value.what.StartLater? && s.runtime.desired == Running
    ensures var t := RetryIfDue(s, now);
            Serves(t, c, n - 8, NewRecord(c), c.config.value) && t.os.forks == s.os.forks + 1 && t.server == Starting
  {
    IdleRepeats(s, c, n, now);
    hide RetryIfDue;
    hide ResumeDeferred;
    hide StartNow;
    hide UnsureIdle;
    hide Serves;
    var v: World :| Resumes(s, c, n, now, v);
    var a := Repeated(s, v);
    ConvergenceStarts(a, c, n - 1);
    StartRuns(ConvergenceTaken(a), s.pendingConvergence.value.what.trigger, c, n - 1);
  }

  lemma ConvergenceStarts(a: Sup, c: Choice, n: nat)
    requires Idle(a, c, n) && a.os.images == {a.runtime} && a.pendingIntent.None? && a.pendingExit.None?
    requires a.pendingConvergence.Some? && a.pendingConvergence.value.what.StartLater? && a.runtime.desired == Running
    ensures var d := ConvergenceTaken(a);
            Idle(d, c, n) && ResumeDeferred(a) == StartNow(d, a.pendingConvergence.value.what.trigger) && d.os == a.os
  {
    JudgedFairly(a);
    hide Judged;
    hide StartNow;
    hide BeginStop;
    hide Helps;
    var d := ConvergenceTaken(a);
    assert ResumeConvergence(a) == StartNow(d, a.pendingConvergence.value.what.trigger);
  }

  /** An agent that runs OpenCode, and is not sure of its last save. */
  ghost predicate UnsureServing(s: Sup, c: Choice, n: int, r: Record, config: Config, now: nat) {
    && Unsure(s, now) && Helps(s.os, c, n) && Owns(s.os, r, true)
    && s.process == Some(Managed.Child(Owned(r.pid, r, None, false))) && s.active == Some(config)
    && s.runtime.process == Some(r)
  }

  lemma ServingRepeats(s: Sup, c: Choice, n: nat, r: Record, config: Config, now: nat)
    requires n > 0 && UnsureServing(s, c, n, r, config, now)
    ensures var a := Repeated(s, AgentProgress.Later(s.os).(images := {s.runtime}));
            RetryIfDue(s, now) == ResumeDeferred(a) && Serves(a, c, n - 1, r, config)
  {
    HeldSave(s.os, c, n, r, true, s.runtime);
    AgentProgress.LaterHelps(s.os, c, n);
    var v := AgentProgress.Later(s.os).(images := {s.runtime});
    hide Save;
    SaveRepeats(s, now, v);
    hide RetryIfDue;
    hide ResumeDeferred;
  }

  /** A stop or restart that waited for its save asks the process to end as soon as the save is
      durable. */
  lemma DeferredStopAsks(s: Sup, c: Choice, n: nat, r: Record, config: Config, now: nat)
    requires n > 3 && UnsureServing(s, c, n, r, config, now) && s.credential != AccessPending
    requires s.pendingIntent.Some? && s.pendingIntent.value.what != StartIntent
    ensures var t := RetryIfDue(s, now);
            Serves(t, c, n - 4, r, config) && Asked(s, t, r, s.pendingIntent.value.what == RestartIntent) && t.runtime == s.runtime
  {
    ServingRepeats(s, c, n, r, config, now);
    hide RetryIfDue;
    hide ResumeDeferred;
    hide BeginStop;
    hide Helps;
    hide Owns;
    var restarting := s.pendingIntent.value.what == RestartIntent;
    var a := Repeated(s, AgentProgress.Later(s.os).(images := {s.runtime}));
    StopTaken(a, c, n - 1, r, config);
    var b := IntentTaken(a);
    StopAsks(b, c, n - 1, r, config, if restarting then 0 else b.attempt, restarting);
  }

  lemma StopTaken(a: Sup, c: Choice, n: nat, r: Record, config: Config)
    requires Serves(a, c, n, r, config) && a.credential != AccessPending
    requires a.pendingIntent.Some? && a.pendingIntent.value.what != StartIntent
    ensures var b := IntentTaken(a);
            var restarting := a.pendingIntent.value.what == RestartIntent;
            && Serves(b, c, n, r, config) && b.os == a.os && b.pendingIntent.None? && b.runtime == a.runtime
            && ResumeDeferred(a) == BeginStop(Cancelled(b, if restarting then 0 else b.attempt, restarting, false), restarting)
  {
    JudgedFairly(a);
    hide Judged;
    hide BeginStop;
    hide Helps;
    hide Owns;
    var b := IntentTaken(a);
    if a.pendingIntent.value.what == RestartIntent {
      assert ApplyRestart(b) == RestartAfresh(b);
      assert RestartAfresh(b).0 == BeginStop(Cancelled(b, 0, true, false), true);
    } else {
      assert ApplyStop(b).0 == BeginStop(Cancelled(b, b.attempt, false, false), false);
    }
  }

  /** A launch marker whose own save was uncertain is taken back once it is durable, and then the
      start that had to wait for it runs OpenCode. */
  lemma UnwoundLaunchRuns(s: Sup, c: Choice, n: nat, now: nat)
    requires n > 8 && Idle(Unmarked(s), c, n) && c.endpoint == Free && s.runtime.marker.Some? && s.clearRequested
    requires RetryDue(s, now) && s.pendingIntent.None? && s.pendingExit.None? && s.runtime.desired == Running
    requires s.pendingConvergence.Some? && s.pendingConvergence.value.what.StartLater?
    ensures var t := RetryIfDue(s, now);
            Serves(t, c, n - 9, NewRecord(c), c.config.value) && t.os.forks == s.os.forks + 1 && t.server == Starting
  {
    hide RetryIfDue;
    hide ResumeDeferred;
    hide StartNow;
    hide Serves;
    hide RetrySave;
    UnwindSaves(s, c, n);
    var a := RetrySave(s).0;
    RetryGoesOn(s, now);
    ConvergenceStarts(a, c, n - 2);
    StartRuns(ConvergenceTaken(a), s.pendingConvergence.value.what.trigger, c, n - 2);
  }

  lemma RetryGoesOn(s: Sup, now: nat)
    requires RetryDue(s, now) && RetrySave(s).1 == Durable
    ensures RetryIfDue(s, now) == ResumeDeferred(RetrySave(s).0)
  {
    hide RetrySave;
    hide ResumeDeferred;
  }

  /** The state once the marker is gone and the save durable. */
  function Unmarked(s: Sup): Sup {
    s.(runtime := s.runtime.(marker := None), reliable := true, retryPending := false, stateError := false, clearRequested := false)
  }

  lemma UnwindSaves(s: Sup, c: Choice, n: nat)
    requires n > 1 && Idle(Unmarked(s), c, n) && s.runtime.marker.Some? && s.clearRequested
    ensures var (t, outcome) := RetrySave(s);
            && outcome == Durable && Idle(t, c, n - 2) && t.os.images == {t.runtime} && t.runtime == s.runtime.(marker := None)
            && t.os.forks == s.os.forks && t.pendingIntent == s.pendingIntent && t.pendingExit == s.pendingExit
            && t.pendingConvergence == s.pendingConvergence
  {
    var a := s.(retryAt := None);
    VacantSave(s.os, c, n, a.runtime);
    AgentProgress.LaterHelps(s.os, c, n);
    var v := AgentProgress.Later(s.os).(procs := map[], images := {a.runtime});
    assert Helps(v, c, n - 1) && Vacant(v, c);
    var b := Noted(a, v, Durable);
    var d := MarkerTakenBack(b);
    VacantSave(v, c, n - 1, d.runtime);
    AgentProgress.LaterHelps(v, c, n - 1);
    hide Save;
    var u := AgentProgress.Later(v).(procs := map[], images := {d.runtime});
    assert PersistDetailed(a) == (b, Durable);
    assert PersistDetailed(d) == (Noted(d, u, Durable), Durable);
    hide PersistDetailed;
    assert b.clearRequested && b.runtime.marker.Some?;
    assert RetrySave(s) == (Noted(d, u, Durable), Durable);
    hide RetrySave;
  }

  /** Such a launch forks nothing, and puts the start off. */
  lemma UncertainLaunchWaits(s: Sup, trigger: Trigger, config: Config)
    requires s.loaded && s.reliable && s.runtime.marker.None? && !s.clearRequested
    requires PersistDetailed(Marking(s, Marker(config.executable, config.fingerprint))).1 == Uncertain
    ensures var t := Lifecycle.Launch(s, trigger, config);
            && t.os.forks == s.os.forks && t.process == s.process && t.server == ServerFailed && t.clearRequested && t.retryPending
            && t.runtime == s.runtime.(marker := Some(Marker(config.executable, config.fingerprint)))
            && t.pendingConvergence == Some(Put(StartLater(trigger), s.ledger.next))
  {
    hide Save;
    hide Spawn;
    var m := Marking(s, Marker(config.executable, config.fingerprint));
    var (v, outcome) := Save(m.os, m.runtime);
    SaveForks(m.os, m.runtime);
    var b := ClearAsked(Noted(m, v, Uncertain));
    assert BeginLaunch(s, Marker(config.executable, config.fingerprint)) == (b, false);
    hide BeginLaunch;
    assert Lifecycle.Launch(s, trigger, config) == MarkerRefused(b, trigger);
  }

  lemma SaveForks(w: World, runtime: Runtime)
    ensures Save(w, runtime).0.forks == w.forks && Save(w, runtime).0.signals == w.signals
  {
  }

  // ---------------------------------------------------------------- commands that could not be saved

  /** Nothing but the notes of a save. */
  predicate Unchanged(s: Sup, t: Sup) {
    NotesSave(s, t) && t.os.forks == s.os.forks && t.os.signals == s.os.signals
  }

  /** The command waits, and nothing was done for it. */
  predicate Held(s: Sup, t: Sup, desired: DesiredState, intent: Intent) {
    && t.pendingIntent == Some(Put(intent, s.ledger.next)) && t.pendingConvergence.None? && t.retryPending && t.retryAt.Some?
    && t.runtime == s.runtime.(desired := desired) && t.process == s.process && t.server == s.server
    && t.os.forks == s.os.forks && t.os.signals == s.os.signals
  }

  /** A command whose save definitely failed changes nothing but the notes of the save; one whose
      save is uncertain waits, the newest alone, and nothing is done for it yet. */
  lemma UnsavedCommand(s: Sup, intent: Intent)
    requires s.loaded
    ensures var desired := if intent == StopIntent then Stopped else Running;
            var outcome := PersistDetailed(Desiring(s, desired)).1;
            var (t, ok) := Request(s, intent);
            && (outcome == Failed ==> !ok && Unchanged(s, t))
            && (outcome == Uncertain ==> !ok && Held(s, t, desired, intent))
  {
    var desired := if intent == StopIntent then Stopped else Running;
    hide PersistDetailed;
    hide PersistDesired;
    hide ApplyStart;
    hide ApplyStop;
    hide ApplyRestart;
    hide Desiring;
    hide Unchanged;
    hide Held;
    if PersistDetailed(Desiring(s, desired)).1 != Durable { UnsavedDesire(s, desired, intent); }
  }

  lemma UnsavedDesire(s: Sup, desired: DesiredState, intent: Intent)
    requires s.loaded && PersistDetailed(Desiring(s, desired)).1 != Durable
    ensures var outcome := PersistDetailed(Desiring(s, desired)).1;
            var (t, ok) := PersistDesired(s, desired, intent);
            !ok && (if outcome == Failed then Unchanged(s, t) else Held(s, t, desired, intent))
  {
    hide PersistDetailed;
    var d := Desiring(s, desired);
    PersistNotes(d);
    DetailedFails(d);
    var (t, outcome) := PersistDetailed(d);
    if outcome == Failed {
      assert PersistDesired(s, desired, intent) == (Restored(t, s.runtime), false);
    } else {
      assert PersistDesired(s, desired, intent) == (HeldIntent(t, intent), false);
    }
    hide PersistDesired;
  }

  // ---------------------------------------------------------------- every retry

  /** The list of deferred actions that were carried out is left alone. */
  predicate RunsNone(s: Sup, t: Sup) {
    t.ledger.ran == s.ledger.ran
  }

  lemma StopRunsNone(s: Sup, restarting: bool)
    ensures RunsNone(s, BeginStop(s, restarting))
  {
    hide StartNow;
    hide SignalManaged;
    StartStays(s, AfterStop);
    if s.process.Some? {
      var (v, sent) := SignalManaged(s.os, s.process.value, Terminate, StopRequest);
      assert SignalStop(s, restarting).ledger == s.ledger;
    }
    hide SignalStop;
    assert RunsNone(s, StopLaterOn(s, restarting));
    hide StopLaterOn;
  }

  lemma AfreshRunsNone(s: Sup)
    ensures RunsNone(s, StartAfresh(s)) && RunsNone(s, RestartAfresh(s).0)
  {
    hide StartNow;
    hide BeginStop;
    var a := Cancelled(s, 0, s.restartAfterStop, s.groupRecovery);
    StartStays(a, Cold);
    var b := Cancelled(s, 0, s.process.Some?, false);
    StopRunsNone(b, true);
    StartStays(b, AfterStop);
    assert a.ledger == s.ledger && b.ledger == s.ledger;
    hide Cancelled;
  }

  lemma ApplyStartRunsNone(s: Sup)
    ensures RunsNone(s, ApplyStart(s).0)
  {
    hide StartAfresh;
    AfreshRunsNone(s);
    assert RunsNone(s, s.(pendingExit := None, pendingConvergence := None));
    assert RunsNone(s, s.(pendingExit := None, pendingConvergence := None, server := ServerFailed));
    hide RunsNone;
  }

  lemma ApplyStopRunsNone(s: Sup)
    ensures RunsNone(s, ApplyStop(s).0)
  {
    hide BeginStop;
    var t := Cancelled(s, s.attempt, false, false);
    assert t.ledger == s.ledger;
    hide Cancelled;
    StopRunsNone(t, false);
    assert ApplyStop(s).0 == BeginStop(t, false);
  }

  lemma ApplyRestartRunsNone(s: Sup)
    ensures RunsNone(s, ApplyRestart(s).0)
  {
    hide RestartAfresh;
    AfreshRunsNone(s);
    assert RunsNone(s, Cancelled(s, 0, false, false).(server := ServerFailed));
    hide RunsNone;
    hide Cancelled;
  }

  lemma IntentRunsNone(s: Sup, intent: Intent)
    ensures RunsNone(s, ApplyIntent(s, intent))
  {
    hide ApplyStart;
    hide ApplyStop;
    hide ApplyRestart;
    ApplyStartRunsNone(s);
    ApplyStopRunsNone(s);
    ApplyRestartRunsNone(s);
  }

  lemma StopFinishedRunsNone(s: Sup)
    ensures RunsNone(s, StopFinished(s))
  {
    hide StartNow;
    hide ScheduleNextRestart;
    ScheduleStays(s.(groupRecovery := false));
    StartStays(s.(restartAfterStop := false), AfterStop);
    if s.runtime.desired == Stopped {
      assert StopFinished(s) == s.(groupRecovery := false, restartAfterStop := false, nextRestart := None, server := ServerStopped);
    } else if s.groupRecovery {
      assert StopFinished(s) == ScheduleNextRestart(s.(groupRecovery := false));
    } else if s.restartAfterStop {
      assert StopFinished(s) == StartNow(s.(restartAfterStop := false), AfterStop);
    } else {
      assert StopFinished(s) == s.(server := ServerStopped);
    }
  }

  lemma BeginRecoveryRunsNone(s: Sup)
    ensures RunsNone(s, BeginRecovery(s))
  {
    hide ScheduleNextRestart;
    hide EmitNotification;
    var a := s.(recoveryIncident := true);
    EmitStays(a, Failure);
    ScheduleStays(s);
    ScheduleStays(EmitNotification(a, Failure));
  }

  lemma ExitRunsNone(s: Sup, note: ExitNote)
    ensures RunsNone(s, ResumeAfterExit(s, note))
  {
    hide StopFinished;
    hide BeginRecovery;
    StopFinishedRunsNone(s);
    BeginRecoveryRunsNone(s);
    assert RunsNone(s, s.(server := ServerStopped));
  }

  /** The ticket of what a durable retry is to carry out: a command before an exit before a
      convergence, which also needs the launch to be over. */
  function NextTicket(s: Sup): Option<nat> {
    if s.pendingIntent.Some? then Some(s.pendingIntent.value.ticket)
    else if s.pendingExit.Some? then Some(s.pendingExit.value.ticket)
    else if s.pendingConvergence.Some? && s.runtime.marker.None? && !s.clearRequested then Some(s.pendingConvergence.value.ticket)
    else None
  }

  /** From `s` to `t` this ticket was carried out, or none. */
  predicate CarriesOut(s: Sup, t: Sup, ticket: Option<nat>) {
    t.ledger.ran == s.ledger.ran + (if ticket.Some? then [ticket.value] else [])
  }

  lemma ConvergenceCarriesOut(s: Sup)
    requires DurableNow(s) && s.pendingConvergence.Some?
    ensures CarriesOut(s, ResumeConvergence(s), Some(s.pendingConvergence.value.ticket))
  {
    hide StartNow;
    hide BeginStop;
    hide Judged;
    var t := ConvergenceTaken(s);
    assert CarriesOut(s, t, Some(s.pendingConvergence.value.ticket)) && t.process == s.process;
    match s.pendingConvergence.value.what
    case StartLater(trigger) =>
      StartStays(t, trigger);
      hide ConvergenceTaken;
      assert ResumeConvergence(s) == StartNow(t, trigger) || ResumeConvergence(s) == t;
    case StopLater =>
      StopRunsNone(t, false);
      hide ConvergenceTaken;
      assert StopNow(t) == BeginStop(t, false) || StopNow(t) == t.(server := ServerStopped);
      hide StopNow;
      assert ResumeConvergence(s) == StopNow(t) || ResumeConvergence(s) == t;
  }

  lemma ConvergenceWaits(s: Sup)
    requires !DurableNow(s) || s.pendingConvergence.None?
    ensures ResumeConvergence(s) == s
  {
    hide StartNow;
    hide BeginStop;
  }

  lemma ResumeCarriesOut(s: Sup)
    requires s.loaded && s.reliable && !s.retryPending
    ensures CarriesOut(s, ResumeDeferred(s), NextTicket(s))
  {
    hide ApplyIntent;
    hide ResumeAfterExit;
    hide ResumeConvergence;
    hide Judged;
    if s.pendingIntent.Some? {
      IntentRunsNone(IntentTaken(s), s.pendingIntent.value.what);
    } else if s.pendingExit.Some? {
      ExitRunsNone(ExitTaken(s), s.pendingExit.value.what);
    } else if DurableNow(s) && s.pendingConvergence.Some? {
      ConvergenceCarriesOut(s);
    } else {
      ConvergenceWaits(s);
    }
  }

  /** The saves of a retry touch nothing but their own bookkeeping, and the marker that they take
      back: after them no launch is unfinished, unless its marker stands on purpose. */
  lemma RetrySaveNotes(s: Sup)
    ensures var (t, outcome) := RetrySave(s);
            && t.ledger == s.ledger && t.pendingIntent == s.pendingIntent && t.pendingExit == s.pendingExit
            && t.pendingConvergence == s.pendingConvergence && t.loaded == s.loaded
            && (s.loaded && outcome == Durable ==> t.reliable && !t.retryPending)
  {
    var a := s.(retryAt := None);
    PersistNotes(a);
    var t := PersistDetailed(a).0;
    PersistNotes(MarkerTakenBack(t));
    DurableNotes(a);
    DurableNotes(MarkerTakenBack(t));
    hide PersistDetailed;
  }

  lemma DurableNotes(s: Sup)
    ensures s.loaded && PersistDetailed(s).1 == Durable ==> PersistDetailed(s).0.reliable && !PersistDetailed(s).0.retryPending
  {
    hide Save;
  }

  /** A retry that is due and saves durably carries out exactly the first of what waits; any
      other carries out nothing, and everything goes on waiting. */
  lemma RetryCarriesOut(s: Sup, now: nat)
    ensures if RetryDue(s, now) && RetrySave(s).1 == Durable then
              CarriesOut(s, RetryIfDue(s, now), NextTicket(RetrySave(s).0))
            else
              var t := RetryIfDue(s, now);
              CarriesOut(s, t, None) && t.pendingIntent == s.pendingIntent && t.pendingExit == s.pendingExit
              && t.pendingConvergence == s.pendingConvergence
  {
    hide RetrySave;
    hide ResumeDeferred;
    RetrySaveNotes(s);
    if RetryDue(s, now) && RetrySave(s).1 == Durable { ResumeCarriesOut(RetrySave(s).0); }
  }

  // ---------------------------------------------------------------- ports that are not free

  /** Why a spawn is refused. */
  function KindOf(endpoint: Endpoint): ErrorKind {
    match endpoint
    case PortInUse => AddrInUse
    case AddressMissing => AddrNotAvailable
    case _ => OtherError
  }

  /** A refused launch leaves the state file as it was, and no process. */
  lemma LaunchRefused(s: Sup, trigger: Trigger, c: Choice, n: nat)
    requires n > 2 && Idle(s, c, n) && c.endpoint != Free
    ensures exists t: Sup :: Refuses(s, trigger, c, n, t)
  {
    hide AfterRefusal;
    hide BeginLaunch;
    hide Spawn;
    hide PersistRuntime;
    var config := c.config.value;
    var marker := Marker(config.executable, config.fingerprint);
    BeginLaunchMarks(s, c, n, marker);
    var (b, marked) := BeginLaunch(s, marker);
    SpawnRefused(b.os, c, n - 1, b.runtime);
    var (v, result) := Spawn(b.os, config, b.runtime);
    var d := b.(os := v);
    AbortUnmarks(d, c, n - 2);
    var t := AbortLaunch(d).0;
    hide AbortLaunch;
    hide Idle;
    hide Helps;
    assert d.runtime.(marker := None) == s.runtime;
    assert Lifecycle.Launch(s, trigger, config) == AfterRefusal(t, trigger, KindOf(c.endpoint));
    hide Lifecycle.Launch;
    assert Refuses(s, trigger, c, n, t);
  }

  /** The launch comes to its end in `t`, and is refused there. */
  ghost predicate Refuses(s: Sup, trigger: Trigger, c: Choice, n: nat, t: Sup) {
    && c.config.Some? && Lifecycle.Launch(s, trigger, c.config.value) == AfterRefusal(t, trigger, KindOf(c.endpoint))
    && Idle(t, c, n - 3) && t.os.images == {s.runtime} && t.os.forks == s.os.forks && t.os.signals == s.os.signals
    && t.os.now >= s.os.now
    && t == s.(os := t.os, reliable := t.reliable, retryPending := t.retryPending, stateError := t.stateError,
               retryAt := t.retryAt, clearRequested := t.clearRequested)
  }

  lemma SpawnRefused(w: World, c: Choice, n: nat, runtime: Runtime)
    requires n > 0 && Helps(w, c, n) && Vacant(w, c) && c.endpoint != Free
    ensures Spawn(w, c.config.value, runtime) == (AgentProgress.Later(w).(procs := map[]), NotStarted(KindOf(c.endpoint)))
    ensures var v := AgentProgress.Later(w).(procs := map[]); Helps(v, c, n - 1) && Vacant(v, c)
  {
    VacantAsk(w, c, n);
    VacantSettle(w, c, n);
    hide Kernel.Ask;
    hide Settle;
  }

  lemma AbortUnmarks(s: Sup, c: Choice, n: nat)
    requires n > 0 && Helps(s.os, c, n) && Vacant(s.os, c) && s.os.exitSeen == {} && s.os.refused == {} && s.os.terminated == {}
    requires s.loaded && !s.retryPending && s.runtime.marker.Some? && s.process.None? && !s.unverified
    ensures var (t, saved) := AbortLaunch(s);
            && saved && Idle(t, c, n - 1) && t.os.images == {t.runtime} && t.runtime == s.runtime.(marker := None)
            && t.os.forks == s.os.forks && t.os.signals == s.os.signals && t.os.now >= s.os.now
            && t == s.(os := t.os, runtime := t.runtime, reliable := t.reliable, retryPending := t.retryPending,
                       stateError := t.stateError, retryAt := t.retryAt, clearRequested := t.clearRequested)
  {
    var a := s.(runtime := s.runtime.(marker := None), clearRequested := true);
    VacantSave(s.os, c, n, a.runtime);
    AgentProgress.LaterHelps(s.os, c, n);
    hide Save;
    var (t, outcome) := PersistDetailed(a);
    assert t == Noted(a, AgentProgress.Later(s.os).(procs := map[], images := {a.runtime}), Durable);
    assert AbortLaunch(s) == (t, true);
  }

  /** The agent tries again soon, and the budget of its waiting is the one it began with. */
  predicate TriesAgain(t: Sup, now: nat) {
    t.nextPortRetry == Some(now + PORT_RELEASE_RETRY) && t.server == WaitingToRestart
  }

  /** The wait is over, and only a recovery counts as another failed attempt. */
  predicate EndsWait(s: Sup, t: Sup, trigger: Trigger, endpoint: Endpoint, now: nat) {
    && t.nextPortRetry.None? && t.portDeadline.None? && t.networkDeadline.None? && t.pendingTrigger.None?
    && (if trigger != Recovery then t.attempt == s.attempt && t.nextRestart == s.nextRestart && t.server == ServerFailed
        else if endpoint == PortInUse || s.attempt >= ATTEMPTS then
          t.attempt == s.attempt && t.nextRestart.None? && t.server == ServerFailed
        else
          t.attempt == s.attempt + 1 && t.nextRestart == Some(now + RESTART_BACKOFF[s.attempt]) && t.server == WaitingToRestart)
  }

  /** What becomes of the timers after a refusal at `now`: the port of the old process is waited
      for after a stop, and the address after any start, each within its budget; otherwise no
      wait goes on, and only a recovery counts as another failed attempt. */
  predicate RefusedAt(s: Sup, t: Sup, trigger: Trigger, endpoint: Endpoint, now: nat) {
    if endpoint == PortInUse && trigger == AfterStop && (s.portDeadline.Some? ==> now < s.portDeadline.value) then
      && TriesAgain(t, now) && t.attempt == s.attempt && t.nextRestart == s.nextRestart && t.pendingTrigger == s.pendingTrigger
      && t.portDeadline == Some(if s.portDeadline.Some? then s.portDeadline.value else now + PORT_RELEASE_BUDGET)
      && t.networkDeadline == s.networkDeadline
    else if endpoint == AddressMissing && (s.networkDeadline.Some? ==> now < s.networkDeadline.value) then
      && TriesAgain(t, now) && t.attempt == s.attempt && t.nextRestart == s.nextRestart && t.pendingTrigger == Some(trigger)
      && t.networkDeadline == Some(if s.networkDeadline.Some? then s.networkDeadline.value else now + NETWORK_WAIT_BUDGET)
      && t.portDeadline == s.portDeadline
    else
      EndsWait(s, t, trigger, endpoint, now)
  }

  predicate SameWorld(s: Sup, t: Sup) {
    t.process == s.process && t.os.forks == s.os.forks && t.os.signals == s.os.signals
  }

  lemma GiveUpEnds(s: Sup, trigger: Trigger, endpoint: Endpoint)
    requires endpoint != Free
    ensures var t := GiveUpStart(s, trigger, KindOf(endpoint));
            EndsWait(s, t, trigger, endpoint, s.os.now) && SameWorld(s, t)
  {
    var t := GivenUp(s);
    assert SameTime(s, t);
    hide GivenUp;
    ScheduleWaits(t);
    ScheduleSets(t);
    FinishClimbs(t);
    hide FinishRecoveryFailure;
    hide ScheduleNextRestart;
    hide Climbs;
  }

  predicate SameTime(s: Sup, t: Sup) {
    && t.os == s.os && t.attempt == s.attempt && t.nextRestart == s.nextRestart && t.process == s.process && t.server == ServerFailed
    && t.nextPortRetry.None? && t.portDeadline.None? && t.networkDeadline.None? && t.pendingTrigger.None?
  }

  lemma RefusalWaits(s: Sup, trigger: Trigger, endpoint: Endpoint)
    requires endpoint != Free
    ensures var t := AfterRefusal(s, trigger, KindOf(endpoint));
            RefusedAt(s, t, trigger, endpoint, s.os.now) && SameWorld(s, t)
  {
    hide GiveUpStart;
    hide EndsWait;
    GiveUpEnds(s, trigger, endpoint);
    if endpoint == PortInUse && trigger == AfterStop && s.os.now < PortDeadline(s) {
      assert AfterRefusal(s, trigger, KindOf(endpoint)) == PortRetrying(s);
    } else if endpoint == AddressMissing && s.os.now < NetworkDeadline(s) {
      assert AfterRefusal(s, trigger, KindOf(endpoint)) == NetworkRetrying(s, trigger);
    } else {
      assert AfterRefusal(s, trigger, KindOf(endpoint)) == GiveUpStart(s, trigger, KindOf(endpoint));
    }
  }

  /** A start that the endpoint refuses forks nothing, and then waits or gives up. */
  lemma StartRefused(s: Sup, trigger: Trigger, c: Choice, n: nat)
    requires n > 3 && Idle(s, c, n) && c.endpoint != Free
    ensures var t := StartNow(s, trigger);
            && t.process.None? && t.os.forks == s.os.forks && t.os.signals == s.os.signals
            && (exists now: nat :: s.os.now <= now <= t.os.now && RefusedAt(s, t, trigger, c.endpoint, now))
  {
    hide RefreshConfig;
    hide Lifecycle.Launch;
    hide StartNow;
    hide Helps;
    hide RefusedAt;
    RefreshIdles(s, c, n);
    IdleHelped(s, c, n);
    var a := RefreshConfig(s);
    StartLaunches(s, trigger, c, n);
    LaunchRefused(a, trigger, c, n - 1);
    var b: Sup :| Refuses(a, trigger, c, n - 1, b);
    RefusalWaits(b, trigger, c.endpoint);
    RefusalClimbs(b, trigger, KindOf(c.endpoint));
    var t := AfterRefusal(b, trigger, KindOf(c.endpoint));
    NowFlows(b.os, t.os);
    hide AfterRefusal;
    assert SameTimers(s, b);
    SameWaits(s, b, t, trigger, c.endpoint, b.os.now);
  }

  predicate SameTimers(s: Sup, b: Sup) {
    && b.nextPortRetry == s.nextPortRetry && b.portDeadline == s.portDeadline && b.networkDeadline == s.networkDeadline
    && b.pendingTrigger == s.pendingTrigger && b.attempt == s.attempt && b.nextRestart == s.nextRestart
  }

  lemma SameWaits(s: Sup, b: Sup, t: Sup, trigger: Trigger, endpoint: Endpoint, now: nat)
    requires SameTimers(s, b) && RefusedAt(b, t, trigger, endpoint, now)
    ensures RefusedAt(s, t, trigger, endpoint, now)
  {
  }

  /** The retry timer has fired. */
  function Fired(s: Sup): Sup {
    s.(nextPortRetry := None, pendingTrigger := None)
  }

  /** When the retry of a refused start is due, it starts again for the same reason: OpenCode runs
      if the endpoint is free by now, and if not the wait goes on, but not beyond its budget. */
  lemma PortRetry(s: Sup, c: Choice, n: nat, now: nat)
    requires n > 6 && Idle(s, c, n) && Due(s.nextPortRetry, now)
    ensures var t := FirePortRetry(s, now);
            var trigger := if s.pendingTrigger.Some? then s.pendingTrigger.value else AfterStop;
            if c.endpoint == Free then
              && Serves(t, c, n - 7, NewRecord(c), c.config.value) && t.os.forks == s.os.forks + 1 && t.nextPortRetry.None?
              && t.server == Starting
            else
              && t.process.None? && t.os.forks == s.os.forks
              && (exists at: nat :: s.os.now <= at <= t.os.now && RefusedAt(Fired(s), t, trigger, c.endpoint, at))
  {
    hide StartNow;
    hide Serves;
    hide RefusedAt;
    var a := Fired(s);
    var trigger := if s.pendingTrigger.Some? then s.pendingTrigger.value else AfterStop;
    assert FirePortRetry(s, now) == StartNow(a, trigger);
    hide FirePortRetry;
    if c.endpoint == Free { StartRuns(a, trigger, c, n); } else { StartRefused(a, trigger, c, n); }
  }
}
