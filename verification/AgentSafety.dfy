/** The main results about the agent: what holds over every run of boots, commands, ticks,
    exits and crashes, whatever the kernel, the file system and the workers answer. */
module AgentSafety {
  import opened Records
  import opened Kernel
  import opened ProcessGroup
  import opened ProcessCleanup
  import opened ManagedProcesses
  import opened SupervisorState
  import opened RuntimeDurability
  import opened SupervisorSafety
  import opened Lifecycle
  import opened LifecycleSafety
  import opened ProcessExit
  import opened ExitSafety
  import opened Reattach
  import opened ReattachSafety
  import opened Agent

  // ---------------------------------------------------------------- one tick

  lemma ReloadSafe(s: Sup, at: nat)
    requires Inv(s)
    ensures Calm(s, ReadConfig(s, at))
  {
    hide Inv;
    hide Calm;
    hide RefreshConfig;
    RefreshSafe(s);
    var t := RefreshConfig(s);
    CalmInv(s, t);
    CalmerSafe(t, t.(configCheckedAt := at));
    CalmTransitive(s, t, t.(configCheckedAt := at));
  }

  lemma ReloadNowSafe(s: Sup)
    requires Inv(s)
    ensures Calm(s, ReloadConfig(s))
  {
    hide Inv;
    hide Calm;
    hide ReadConfig;
    ReloadSafe(s, RefreshConfig(s).os.now);
  }

  lemma FireRestartSafe(s: Sup, now: nat)
    requires Inv(s)
    ensures Calm(s, FireRestart(s, now))
  {
    hide Inv;
    hide Calm;
    hide Steps;
    hide StartNow;
    CalmerSafe(s, s);
    if Due(s.nextRestart, now) && s.process.None? {
      var t := s.(nextRestart := None);
      CalmerSafe(s, t);
      CalmInv(s, t);
      TimersIdle(s);
      StartNowSafe(t, Recovery);
      StepsTransitive(s, t, StartNow(t, Recovery));
      StepsCalm(s, StartNow(t, Recovery));
    }
  }

  lemma FirePortRetrySafe(s: Sup, now: nat)
    requires Inv(s)
    ensures Calm(s, FirePortRetry(s, now))
  {
    hide Inv;
    hide Calm;
    hide Steps;
    hide StartNow;
    CalmerSafe(s, s);
    if Due(s.nextPortRetry, now) && s.process.None? {
      var t := s.(nextPortRetry := None, pendingTrigger := None);
      var trigger := if s.pendingTrigger.Some? then s.pendingTrigger.value else AfterStop;
      CalmerSafe(s, t);
      CalmInv(s, t);
      TimersIdle(s);
      StartNowSafe(t, trigger);
      StepsTransitive(s, t, StartNow(t, trigger));
      StepsCalm(s, StartNow(t, trigger));
    }
  }

  /** A start timer never fires beside an unverified record. */
  lemma TimersIdle(s: Sup)
    requires Inv(s) && s.process.None? && (s.nextRestart.Some? || s.nextPortRetry.Some?)
    ensures s.os.dead || !s.unverified
  {
  }

  lemma FireTimersSafe(s: Sup, now: nat)
    requires Inv(s)
    ensures Calm(s, FireTimers(s, now))
  {
    hide Inv;
    hide Calm;
    hide CheckUnverified;
    hide FireRestart;
    hide FirePortRetry;
    CalmerSafe(s, s);
    if s.unverified && s.process.None? { CheckUnverifiedSafe(s, now); }
    var a := FireUnverified(s, now);
    CalmInv(s, a);
    var b := ExpireStop(a, now);
    CalmerSafe(a, b);
    CalmTransitive(s, a, b);
    CalmInv(s, b);
    FireRestartSafe(b, now);
    var c := FireRestart(b, now);
    CalmTransitive(s, b, c);
    CalmInv(s, c);
    FirePortRetrySafe(c, now);
    CalmTransitive(s, c, FirePortRetry(c, now));
  }

  lemma TakeHealthSafe(s: Sup, now: nat, arrivals: Arrivals)
    requires Inv(s)
    ensures Calm(s, CheckHealthDue(TakeHealth(RecheckConfig(s, now), now, arrivals.health), arrivals.healthDue))
  {
    hide Inv;
    hide Calm;
    hide ReadConfig;
    hide HealthAnswer;
    hide RuntimeStateReady;
    CalmerSafe(s, s);
    ReloadSafe(s, now);
    var a := RecheckConfig(s, now);
    CalmInv(s, a);
    if arrivals.health.Some? {
      HealthAnswerSafe(a, now, arrivals.health.value);
      CalmTransitive(s, a, HealthAnswer(a, now, arrivals.health.value));
    }
    var b := TakeHealth(a, now, arrivals.health);
    CalmInv(s, b);
    ReadySafe(b);
    CalmTransitive(s, b, RuntimeStateReady(b).0);
  }

  lemma CredentialNotedCalmer(s: Sup, credential: Option<CredentialState>)
    ensures Calmer(s, CredentialNoted(s, credential))
  {
  }

  lemma TakeCredentialSafe(s: Sup, password: Option<nat>, credential: Option<CredentialState>)
    requires Inv(s)
    ensures Calm(s, TakeCredential(s, password, credential))
  {
    hide Inv;
    hide Calm;
    hide PasswordApplied;
    hide CredentialNoted;
    hide Calmer;
    CredentialNotedCalmer(s, credential);
    CalmerSafe(s, CredentialNoted(s, credential));
    if password.Some? { PasswordAppliedSafe(s, password.value); }
  }

  lemma TakeArrivalsSafe(s: Sup, now: nat, arrivals: Arrivals)
    requires Inv(s)
    ensures Calm(s, TakeArrivals(s, now, arrivals))
  {
    hide Inv;
    hide Calm;
    hide CheckHealthDue;
    hide ApplyVersion;
    hide TakeCredential;
    TakeHealthSafe(s, now, arrivals);
    var a := CheckHealthDue(TakeHealth(RecheckConfig(s, now), now, arrivals.health), arrivals.healthDue);
    CalmInv(s, a);
    if arrivals.version.Some? {
      ApplyVersionSafe(a, arrivals.version.value);
      CalmTransitive(s, a, ApplyVersion(a, arrivals.version.value));
    }
    var b := TakeVersion(a, arrivals.version);
    CalmInv(s, b);
    TakeCredentialSafe(b, arrivals.password, arrivals.credential);
    var c := TakeCredential(b, arrivals.password, arrivals.credential);
    CalmTransitive(s, b, c);
    CalmInv(s, c);
    CalmerSafe(c, ForgiveAttempts(c, now));
    CalmTransitive(s, c, ForgiveAttempts(c, now));
  }

  lemma SuperviseSafe(s: Sup, now: nat, arrivals: Arrivals)
    requires Inv(s)
    ensures Calm(s, Supervise(s, now, arrivals))
  {
    hide Inv;
    hide Calm;
    hide PollProcess;
    hide FireTimers;
    hide TakeArrivals;
    PollProcessSafe(s);
    var b := PollProcess(s);
    CalmInv(s, b);
    FireTimersSafe(b, now);
    var c := FireTimers(b, now);
    CalmTransitive(s, b, c);
    CalmInv(b, c);
    TakeArrivalsSafe(c, now, arrivals);
    CalmTransitive(s, c, TakeArrivals(c, now, arrivals));
  }

  lemma TickSafe(s: Sup, arrivals: Arrivals)
    requires Inv(s)
    ensures GoesOn(s, TickOnce(s, arrivals))
  {
    hide Inv;
    hide Calm;
    hide GoesOn;
    hide RetryIfDue;
    hide Supervise;
    var now := s.os.now;
    RetryIfDueSafe(s, now);
    var a := RetryIfDue(s, now);
    GoesOnInv(s, a);
    SuperviseSafe(a, now, arrivals);
    GoesOnThen(s, a, Supervise(a, now, arrivals));
  }

  // ---------------------------------------------------------------- one event

  /** What one event of a living agent keeps. */
  ghost predicate Lived(s: Sup, t: Sup) {
    Sound(s, t) && (Gate(s) ==> Gate(t)) && (!Unwinding(s) ==> Sealed(s, t))
  }

  lemma StepsLived(s: Sup, t: Sup)
    requires Steps(s, t)
    ensures Lived(s, t) && Sealed(s, t)
  {
  }

  lemma GoesOnLived(s: Sup, t: Sup)
    requires GoesOn(s, t)
    ensures Lived(s, t) && Rests(s, t)
  {
    hide Inv;
  }

  lemma CommandSafe(s: Sup, command: Command)
    requires Inv(s)
    ensures Steps(s, HandleCommand(s, command).0)
    ensures !(command.Act? && command.intent != StopIntent) ==> Calm(s, HandleCommand(s, command).0)
  {
    hide Inv;
    hide Calm;
    hide Steps;
    hide Request;
    hide ForceStop;
    match command
    case Status =>
      CalmerSafe(s, s);
      CalmInv(s, s);
    case Act(intent) => RequestSafe(s, intent);
    case ContinueStopping =>
      CalmerSafe(s, ContinueStop(s).0);
      CalmInv(s, ContinueStop(s).0);
    case ForceStopping =>
      ForceStopSafe(s);
      CalmInv(s, ForceStop(s).0);
    case Credentials(state, reading, fingerprint) =>
      CalmerSafe(s, HandleCommand(s, command).0);
      CalmInv(s, HandleCommand(s, command).0);
  }

  lemma ScriptedSafe(s: Sup, script: seq<Choice>)
    requires Inv(s) && !s.os.dead
    ensures Calm(s, Scripted(s, script)) && !Scripted(s, script).os.dead
  {
    hide RuntimeOk;
  }

  predicate StartCommand(e: Event) {
    e.Handle? && e.command.Act? && e.command.intent != StopIntent
  }

  lemma EventSafe(s: Sup, e: Event)
    requires Inv(s) && !s.os.dead && !e.Boot?
    ensures Lived(s, Step(s, e)) && (!StartCommand(e) ==> Rests(s, Step(s, e))) && (!e.Tick? ==> Sealed(s, Step(s, e)))
  {
    hide Inv;
    hide Calm;
    hide Steps;
    hide GoesOn;
    hide Lived;
    hide Rests;
    hide Sealed;
    hide HandleCommand;
    hide TickOnce;
    hide PollProcess;
    hide ReloadConfig;
    var a := Scripted(s, e.script);
    ScriptedSafe(s, e.script);
    CalmInv(s, a);
    match e
    case Handle(command, _) =>
      CommandSafe(a, command);
      var t := HandleCommand(a, command).0;
      StepsTransitive(s, a, t);
      StepsLived(s, t);
      if !StartCommand(e) {
        CalmTransitive(s, a, t);
        CalmRests(s, t);
      }
    case Tick(arrivals, _) =>
      TickSafe(a, arrivals);
      ScriptGoesOn(s, e.script, TickOnce(a, arrivals));
      GoesOnLived(s, TickOnce(a, arrivals));
    case ChildExit(_) =>
      PollProcessSafe(a);
      CalmTransitive(s, a, PollProcess(a));
      CalmLived(s, PollProcess(a));
    case ConfigChanged(_) =>
      ReloadNowSafe(a);
      CalmTransitive(s, a, ReloadConfig(a));
      CalmLived(s, ReloadConfig(a));
  }

  lemma CalmRests(s: Sup, t: Sup)
    requires Calm(s, t)
    ensures Rests(s, t)
  {
  }

  lemma CalmLived(s: Sup, t: Sup)
    requires Calm(s, t)
    ensures Lived(s, t) && Rests(s, t) && Sealed(s, t)
  {
    hide Inv;
  }

  lemma ScriptGoesOn(s: Sup, script: seq<Choice>, t: Sup)
    requires Inv(s) && !s.os.dead && GoesOn(Scripted(s, script), t)
    ensures GoesOn(s, t)
  {
    hide Inv;
    hide Goes;
    hide Calm;
    ScriptedSafe(s, script);
    CalmGoes(s, Scripted(s, script));
    GoesTransitive(s, Scripted(s, script), t);
    if !Unwinding(s) { CalmTransitive(s, Scripted(s, script), t); }
  }

  // ---------------------------------------------------------------- boot

  lemma RebornOk(w: World, readable: bool, group: nat, script: seq<Choice>)
    requires WorldOk(w)
    ensures WorldOk(Reborn(w, readable, group, script)) && Reborn(w, readable, group, script).images == w.images
  {
  }

  /** The memory of a new agent before it looks at the recorded process. */
  function Fresh(w: World, readable: bool, image: Runtime, group: nat, script: seq<Choice>): Sup {
    var (v, c) := Kernel.Ask(Reborn(w, readable, group, script));
    FreshMemory(v, if readable then image else DefaultRuntime, readable, c)
  }

  lemma FreshOk(w: World, readable: bool, image: Runtime, group: nat, script: seq<Choice>)
    requires WorldOk(w) && (readable ==> image in w.images)
    ensures var s := Fresh(w, readable, image, group, script);
            && WorldOk(s.os) && s.os.images == w.images && Frozen(w, s.os) && s.os.barred == w.barred + Unvouched(w)
            && (if readable && image.marker.None? && image.process.Some? then Candidate(s, image.process.value) else Inv(s))
  {
    RebornOk(w, readable, group, script);
    var u := Reborn(w, readable, group, script);
    AskKeeps(u);
    hide Kernel.Ask;
    var v := Kernel.Ask(u).0;
    if readable { RuntimeLater(image, u, v); }
    hide WorldOk;
    hide RuntimeOk;
  }

  lemma RuntimeLater(image: Runtime, w: World, v: World)
    requires WorldOk(w) && image in w.images && Evolves(w, v)
    ensures RuntimeOk(image, v.leaders, v.trusted, v.procs)
  {
    EvolvesShows(w, v, image) by { assert RuntimeOk(image, w.leaders, w.trusted, w.procs); }
  }

  lemma RecallSafe(s: Sup, w: World)
    requires s.loaded && s.runtime.marker.None? && s.pendingExit.None? && Balanced(s)
    requires if s.runtime.process.Some? then Candidate(s, s.runtime.process.value) else Inv(s)
    ensures var t := Recall(s);
            && Inv(t) && t.loaded && t.pendingExit.None? && Balanced(t) && t.os.barred == s.os.barred && (s.runtime.process.Some? ==> Gate(t))
            && (AtRest(s) ==> AtRest(t) && t.os.forks == s.os.forks)
  {
    hide Inv;
    hide TryReattach;
    if s.runtime.process.Some? {
      var r := s.runtime.process.value;
      TryReattachSafe(s, r);
      TryReattachSettled(s, r);
      var t := TryReattach(s, r);
      assert Rests(Held(s), t) && Sound(Held(s), t);
      hide Gate;
    }
  }

  lemma BootSaveEdits(s: Sup)
    requires Inv(s) && s.process.None? && !s.unverified
    ensures Edits(s, BootSave(s))
  {
    hide WorldOk;
    hide ManagedOk;
    hide RuntimeOk;
    RebookedAccounts(s, BootSave(s));
    if !s.os.dead && s.loaded { BootSaveRuntime(s); }
  }

  /** The image that a boot saves drops no evidence: with no marker there is no record left to
      drop, and a marker is evidence enough. */
  lemma BootSaveRuntime(s: Sup)
    requires Inv(s) && s.process.None? && !s.unverified && s.loaded && !s.os.dead
    ensures RuntimeOk(BootSave(s).runtime, s.os.leaders, s.os.trusted, s.os.procs)
  {
  }

  lemma ConvergeSavedSafe(s: Sup)
    requires Inv(s) && s.process.None? && !s.unverified && (s.os.dead || s.pendingExit.None?)
    ensures Calm(s, ConvergeSaved(s)) && Gate(ConvergeSaved(s))
  {
    hide Inv;
    hide Calm;
    hide Edits;
    hide PersistDetailed;
    hide ResumeConvergence;
    hide BootSave;
    hide JustSaved;
    hide Gate;
    BootSaveEdits(s);
    var a := BootSave(s);
    assert a.os == s.os && a.pendingExit == s.pendingExit by { BootSaveFrame(s); }
    DetailedAfter(s, a);
    SaveGates(a);
    var (t, outcome) := PersistDetailed(a);
    CalmInv(s, t);
    if outcome == Durable {
      EditsInv(s, a);
      DurableSaved(a);
      ResumeConvergenceSafe(t);
      CalmTransitive(s, t, ResumeConvergence(t));
      CalmGate(t, ResumeConvergence(t));
    } else {
      var u := t.(server := ServerFailed);
      CalmerSafe(t, u);
      CalmTransitive(s, t, u);
      CalmGate(t, u);
    }
  }

  lemma BootSaveFrame(s: Sup)
    ensures BootSave(s).os == s.os && BootSave(s).pendingExit == s.pendingExit
  {
  }

  lemma CalmGate(s: Sup, t: Sup)
    requires Calm(s, t) && Gate(s)
    ensures Gate(t)
  {
    hide Gate;
  }

  lemma ConvergeBootSafe(s: Sup)
    requires Inv(s) && (s.os.dead || s.pendingExit.None?)
    ensures Calm(s, ConvergeBoot(s)) && (Gate(s) || (s.process.None? && !s.unverified) ==> Gate(ConvergeBoot(s)))
  {
    hide Inv;
    hide Calm;
    hide Gate;
    hide ConvergeSaved;
    hide BeginStop;
    if s.process.None? && !s.unverified {
      ConvergeSavedSafe(s);
    } else if s.process.Some? && s.runtime.desired == Stopped {
      BeginStopSafe(s, false);
      if Gate(s) { CalmGate(s, BeginStop(s, false)); }
    } else {
      CalmerSafe(s, s);
    }
  }

  /** What a boot makes of the image it finds. */
  ghost predicate Booted(w: World, readable: bool, image: Runtime, t: Sup) {
    && Inv(t) && Balanced(t) && t.loaded == readable && t.os.barred == w.barred + Unvouched(w)
    && (!readable || image.marker.Some? ==> t.os.images == w.images && Frozen(w, t.os))
    && (readable && image.marker.Some? ==> t.runtime == image && !t.clearRequested)
    && (AllStopped(w.images) ==> AtRest(t) && t.os.forks == w.forks)
  }

  lemma StartSafe(w: World, readable: bool, image: Runtime, group: nat, script: seq<Choice>)
    requires WorldOk(w) && (readable ==> image in w.images)
    ensures Booted(w, readable, image, Start(w, readable, image, group, script))
  {
    hide WorldOk;
    hide Candidate;
    hide MemoryOk;
    hide Recall;
    hide ConvergeBoot;
    hide Kernel.Ask;
    FreshOk(w, readable, image, group, script);
    var s := Fresh(w, readable, image, group, script);
    if readable && image.marker.None? {
      RecallSafe(s, w);
      var t := Recall(s);
      ConvergeBootSafe(t);
      var u := ConvergeBoot(t);
      CalmParts(t, u);
    }
  }

  lemma CalmParts(s: Sup, t: Sup)
    requires Calm(s, t)
    ensures Inv(t) && t.loaded == s.loaded && Accounts(s, t) && (AtRest(s) ==> AtRest(t) && t.os.forks == s.os.forks)
  {
    hide Inv;
  }

  /** The durability gate right after a boot, exactly: it fails only for a marker inherited
      from one of several images a crash could still expose. */
  lemma GateAfterBoot(w: World, readable: bool, image: Runtime, group: nat, script: seq<Choice>)
    requires WorldOk(w) && (readable ==> image in w.images)
    ensures var t := Start(w, readable, image, group, script);
            Gate(t) <==> t.os.dead || !readable || image.marker.None? || w.images == {image}
  {
    hide WorldOk;
    hide Candidate;
    hide MemoryOk;
    hide Recall;
    hide ConvergeBoot;
    hide Kernel.Ask;
    FreshOk(w, readable, image, group, script);
    var s := Fresh(w, readable, image, group, script);
    if readable && image.marker.None? {
      RecallSafe(s, w);
      ConvergeBootSafe(Recall(s));
      if image.process.None? { assert Recall(s) == s by { RecallNothing(s); } }
    }
  }

  lemma RecallNothing(s: Sup)
    requires s.runtime.process.None?
    ensures Recall(s) == s
  {
  }

  /** The gate as the source states it, on every boot: refuted. The file held an unmarked
      state, a marker was saved, and the save was uncertain; the new agent finds the marker. */
  lemma GateFailsAfterBoot()
    ensures exists w, image :: WorldOk(w) && image in w.images && !Gate(Start(w, true, image, 5, []))
  {
    var image := DefaultRuntime.(marker := Some(Marker(0, 0)));
    var w := World(0, true, true, 5, map[], {}, {}, {}, {}, {}, {}, {}, {DefaultRuntime, image}, [], 0, 0, None, None, {}, {}, {}, {});
    assert WorldOk(w);
    GateAfterBoot(w, true, image, 5, []);
    assert DefaultRuntime in w.images;
    assert !Start(w, true, image, 5, []).os.dead;
    assert !Gate(Start(w, true, image, 5, []));
  }

  // ---------------------------------------------------------------- every run

  lemma StepSafe(s: Sup, e: Event)
    requires Inv(s)
    ensures Inv(Step(s, e)) && (Balanced(s) ==> Balanced(Step(s, e))) && (!e.Boot? ==> Accounts(s, Step(s, e)))
  {
    hide Start;
    if e.Boot? {
      if !e.readable || e.image in s.os.images {
        StartSafe(s.os, e.readable, e.image, e.group, e.script);
      }
    } else if !s.os.dead {
      EventSafe(s, e);
    }
  }

  /** The invariant over every run. */
  lemma {:induction false} RunSafe(s: Sup, events: seq<Event>)
    requires Inv(s)
    ensures Inv(Run(s, events)) && (Balanced(s) ==> Balanced(Run(s, events)))
    decreases |events|
  {
    hide Inv;
    hide Step;
    hide Accounts;
    if events == [] {
    } else {
      StepSafe(s, events[0]);
      RunSafe(Step(s, events[0]), events[1..]);
    }
  }
}
