/** The same results for whole ticks (`Supervisor::tick`): whatever is due is done by the tick that
    finds it due, with everything else the tick looks at. Where every call succeeds. */
module TickProgress {
  import opened Records
  import opened Kernel
  import opened ProcessGroup
  import opened ProcessIdentity
  import opened ProcessCleanup
  import opened ManagedProcesses
  import opened SupervisorState
  import opened RuntimeDurability
  import opened Lifecycle
  import opened ProcessExit
  import opened Reattach
  import opened Agent
  import opened BoundedRecovery
  import opened AgentProgress
  import opened AgentResumption
  import opened ReattachProgress
  import opened HealthProgress

  const NOTHING := Arrivals(None, false, None, None, None)

  // ---------------------------------------------------------------- what a tick leaves alone

  /** All but the configuration in memory and the attempts. */
  predicate SameRun(t: Sup, u: Sup) {
    && u.process == t.process && u.server == t.server && u.runtime == t.runtime && u.active == t.active
    && u.os.forks == t.os.forks && u.os.signals == t.os.signals && u.stopDeadline == t.stopDeadline
    && u.nextRestart == t.nextRestart && u.restartAfterStop == t.restartAfterStop && u.pendingIntent == t.pendingIntent
    && u.healthFailures == t.healthFailures && u.runningVersion == t.runningVersion
  }

  lemma ReloadServes(t: Sup, at: nat, c: Choice, n: nat, r: Record, config: Config)
    requires n > 0 && Serves(t, c, n, r, config)
    ensures Serves(ReadConfig(t, at), c, n - 1, r, config) && SameRun(t, ReadConfig(t, at))
  {
    HeldSettle(t.os, c, n, r, true);
    hide Settle;
    assert Kernel.Ask(t.os) == (AgentProgress.Later(t.os), c);
    hide Kernel.Ask;
    hide Helps;
    hide Owns;
  }

  lemma RecheckServes(t: Sup, now: nat, c: Choice, n: nat, r: Record, config: Config)
    requires n > 0 && Serves(t, c, n, r, config)
    ensures Serves(RecheckConfig(t, now), c, n - 1, r, config) && SameRun(t, RecheckConfig(t, now))
  {
    hide ReadConfig;
    hide Serves;
    ReloadServes(t, now, c, n, r, config);
    ServesFewer(t, c, n, n - 1, r, config);
  }

  lemma ForgiveServes(t: Sup, now: nat, c: Choice, n: nat, r: Record, config: Config)
    requires Serves(t, c, n, r, config)
    ensures var u := ForgiveAttempts(CredentialNoted(t, None), now); Serves(u, c, n, r, config) && SameRun(t, u)
  {
    hide Helps;
    hide Owns;
  }

  /** The end of a tick that nothing has come in for. */
  lemma EndServes(t: Sup, now: nat, c: Choice, n: nat, r: Record, config: Config)
    requires n > 0 && Serves(t, c, n, r, config)
    ensures var u := TakeArrivals(t, now, NOTHING); Serves(u, c, n - 1, r, config) && SameRun(t, u)
  {
    hide RecheckConfig;
    hide Serves;
    RecheckServes(t, now, c, n, r, config);
    var a := RecheckConfig(t, now);
    ForgiveServes(a, now, c, n - 1, r, config);
    hide CredentialNoted;
    hide ForgiveAttempts;
    assert TakeArrivals(t, now, NOTHING) == ForgiveAttempts(CredentialNoted(a, None), now);
  }

  /** A living child is looked at and left alone. */
  lemma PollServes(s: Sup, c: Choice, n: nat, r: Record, config: Config)
    requires n > 1 && Serves(s, c, n, r, config)
    ensures var t := PollProcess(s); Serves(t, c, n - 2, r, config) && t == s.(os := t.os) && SameRun(s, t)
  {
    var o := Owned(r.pid, r, None, false);
    HeldSettle(s.os, c, n, r, true);
    var a := AgentProgress.Later(s.os);
    assert PeekChildExit(s.os, r.pid) == (a, NotExited);
    HeldSnapshot(a, c, n - 1, r);
    AgentProgress.LaterHelps(a, c, n - 1);
    var v := AgentProgress.Later(a).(lastSeen := Some(Snapshot(r.pid, r.start, true, r.pid, Some(r.executable))));
    assert Helps(v, c, n - 2) && Owns(v, r, true);
    hide Settle;
    hide TakeSnapshot;
    assert OwnedIdentity(a, r) == (v, Same);
    hide OwnedIdentity;
    hide PeekChildExit;
    assert PollOwned(s.os, o) == (v, o, Quiet);
    hide PollOwned;
    hide Helps;
    hide Owns;
    NoUpgrade(s, o);
    hide PollProcess;
    QuietPoll(s, o, v);
  }

  /** The record of a child whose identity could not be read when it was started. */
  function Unread(r: Record): Record {
    r.(start := 0, unconfirmed := true)
  }

  /** The child runs, but its record does not authorize anything yet. */
  ghost predicate Unsettled(s: Sup, c: Choice, n: int, r: Record, config: Config) {
    && n >= 0 && Helps(s.os, c, n) && Owns(s.os, r, true) && s.active == Some(config)
    && s.process == Some(Managed.Child(Owned(r.pid, Unread(r), None, false))) && s.runtime.process == Some(Unread(r))
    && s.runtime.marker.None? && s.loaded && !s.retryPending && !s.clearRequested && !s.unverified
  }

  lemma UpgradeServes(s: Sup, c: Choice, n: nat, r: Record, config: Config)
    requires n > 1 && Unsettled(s, c, n, r, config)
    ensures var (t, saved) := UpgradeIdentity(s);
            saved && Serves(t, c, n - 2, r, config) && t.server == s.server && t.os.forks == s.os.forks && t.os.signals == s.os.signals
  {
    HeldSnapshot(s.os, c, n, r);
    AgentProgress.LaterHelps(s.os, c, n);
    var seen := Snapshot(r.pid, r.start, true, r.pid, Some(r.executable));
    var v := AgentProgress.Later(s.os).(lastSeen := Some(seen));
    var m := Managed.Child(Owned(r.pid, r, None, false));
    hide TakeSnapshot;
    assert Unread(r).(start := r.start, unconfirmed := false) == r;
    assert ConfirmIdentity(s.os, s.process.value) == (v, m, true);
    hide ConfirmIdentity;
    var a := Rerecorded(s, v, m);
    HeldSave(v, c, n - 1, r, true, a.runtime);
    AgentProgress.LaterHelps(v, c, n - 1);
    hide Save;
    var b := Noted(a, AgentProgress.Later(v).(images := {a.runtime}), Durable);
    assert PersistDetailed(a) == (b, Durable);
    hide PersistDetailed;
    assert SaveIdentity(a) == (b, true);
    hide SaveIdentity;
    assert UpgradeIdentity(s) == (b, true);
    hide UpgradeIdentity;
  }

  /** The first poll that can read the identity completes the record, on disk too. */
  lemma PollConfirms(s: Sup, c: Choice, n: nat, r: Record, config: Config)
    requires n > 3 && Unsettled(s, c, n, r, config)
    ensures var t := PollProcess(s);
            Serves(t, c, n - 4, r, config) && t.server == s.server && t.os.forks == s.os.forks && t.os.signals == s.os.signals
  {
    hide UpgradeIdentity;
    hide ObserveExit;
    UpgradeServes(s, c, n, r, config);
    var t := UpgradeIdentity(s).0;
    NoUpgrade(t, Owned(r.pid, r, None, false));
    assert PollProcess(s) == PollProcess(t) by { assert PollProcess(s) == ObserveExit(t); }
    hide PollProcess;
    PollServes(t, c, n - 2, r, config);
  }

  lemma QuietPoll(s: Sup, o: Owned, v: World)
    requires s.process == Some(Managed.Child(o)) && o.cleanup.None? && PollOwned(s.os, o) == (v, o, Quiet)
    ensures ObserveExit(s) == s.(os := v)
  {
    hide PollOwned;
    assert PollExit(s.os, s.process.value) == (v, s.process.value, Quiet);
    hide PollExit;
    assert Reseen(s, v, s.process.value) == s.(os := v);
  }

  lemma NoRetry(s: Sup, now: nat)
    requires !s.retryPending
    ensures RetryIfDue(s, now) == s
  {
    hide RetrySave;
    hide ResumeDeferred;
  }

  lemma NoPoll(s: Sup)
    requires s.process.None?
    ensures PollProcess(s) == s
  {
    assert UpgradeIdentity(s) == (s, true);
    hide UpgradeIdentity;
  }

  /** The timers of a running process that is not asked to end. */
  lemma NoTimers(t: Sup, now: nat)
    requires t.process.Some? && t.server != Stopping
    ensures FireTimers(t, now) == t
  {
    hide FireTimers;
    StopExpires(t, now);
  }

  /** The rest of a tick after a retry that left OpenCode running. */
  lemma SuperviseServes(t: Sup, now: nat, c: Choice, n: nat, r: Record, config: Config)
    requires n > 2 && Serves(t, c, n, r, config) && t.server != Stopping
    ensures var u := Supervise(t, now, NOTHING); Serves(u, c, n - 3, r, config) && SameRun(t, u)
  {
    hide Serves;
    hide PollProcess;
    hide FireTimers;
    hide TakeArrivals;
    ServesProcess(t, c, n, r, config);
    PollServes(t, c, n, r, config);
    var a := PollProcess(t);
    NoTimers(a, now);
    EndServes(a, now, c, n - 2, r, config);
  }

  lemma ServesProcess(t: Sup, c: Choice, n: nat, r: Record, config: Config)
    requires Serves(t, c, n, r, config)
    ensures t.process.Some? && !t.retryPending
  {
  }

  // ---------------------------------------------------------------- timers

  /** A tick of an agent without a process and without a save to repeat fires its timers, in this
      order, and looks at what came in. */
  lemma IdleTick(s: Sup, arrivals: Arrivals)
    requires s.process.None? && !s.retryPending
    ensures TickOnce(s, arrivals) == TakeArrivals(FireTimers(s, s.os.now), s.os.now, arrivals)
  {
    hide TakeArrivals;
    hide FireTimers;
    NoRetry(s, s.os.now);
    hide RetryIfDue;
    NoPoll(s);
    hide PollProcess;
  }

  /** No process, no stop under way and no unverified record: only the two start timers matter. */
  lemma StartTimers(s: Sup, now: nat)
    requires s.process.None? && s.server != Stopping && !s.unverified
    ensures FireTimers(s, now) == FirePortRetry(FireRestart(s, now), now)
  {
    hide FirePortRetry;
    hide FireRestart;
    hide CheckUnverified;
    Expires(s, now);
    hide ExpireStop;
    assert FireUnverified(s, now) == s;
    hide FireUnverified;
  }

  lemma NoPortRetry(t: Sup, now: nat)
    requires t.process.Some? || t.nextPortRetry.None?
    ensures FirePortRetry(t, now) == t
  {
    hide StartNow;
  }

  /** The tick that finds the recovery timer due runs OpenCode again. */
  lemma TickRecovers(s: Sup, c: Choice, n: nat)
    requires n > 7 && Waits(s, c, n) && c.endpoint == Free && Due(s.nextRestart, s.os.now)
    ensures var t := TickOnce(s, NOTHING);
            Serves(t, c, n - 8, NewRecord(c), c.config.value) && t.os.forks == s.os.forks + 1 && t.nextRestart.None?
  {
    hide TickOnce;
    hide FireTimers;
    hide FireRestart;
    hide FirePortRetry;
    hide TakeArrivals;
    hide Serves;
    var now := s.os.now;
    IdleTick(s, NOTHING);
    StartTimers(s, now);
    RecoveryRuns(s, c, n, now);
    var t := FireRestart(s, now);
    ServesProcess(t, c, n - 7, NewRecord(c), c.config.value);
    NoPortRetry(t, now);
    EndServes(t, now, c, n - 7, NewRecord(c), c.config.value);
  }

  /** So does the tick that finds the retry of a refused start due, once the endpoint is free. */
  lemma TickRetriesPort(s: Sup, c: Choice, n: nat)
    requires n > 7 && Idle(s, c, n) && c.endpoint == Free && s.server != Stopping && s.nextRestart.None?
    requires Due(s.nextPortRetry, s.os.now)
    ensures var t := TickOnce(s, NOTHING);
            Serves(t, c, n - 8, NewRecord(c), c.config.value) && t.os.forks == s.os.forks + 1
  {
    hide TickOnce;
    hide FireTimers;
    hide FirePortRetry;
    hide TakeArrivals;
    hide Serves;
    hide StartNow;
    var now := s.os.now;
    IdleTick(s, NOTHING);
    StartTimers(s, now);
    assert FireRestart(s, now) == s;
    hide FireRestart;
    IdleHelped(s, c, n);
    PortRetry(s, c, n, now);
    EndServes(FirePortRetry(s, now), now, c, n - 7, NewRecord(c), c.config.value);
  }

  /** So does the tick that finds the process of an unverified record gone, if that is wanted. */
  lemma TickEndsUnverified(s: Sup, c: Choice, n: nat, r: Record)
    requires n > 10 && Idle(s.(unverified := false), c, n) && s.unverified && s.runtime.process == Some(r) && c.endpoint == Free
    requires ValidGroup(s.os, r.group) && Due(s.unverifiedAt, s.os.now) && s.runtime.desired == Running
    ensures var t := TickOnce(s, NOTHING);
            Serves(t, c, n - 11, NewRecord(c), c.config.value) && t.os.forks == s.os.forks + 1 && !t.unverified
  {
    hide TickOnce;
    hide FireUnverified;
    hide TakeArrivals;
    hide Helps;
    hide Owns;
    var now := s.os.now;
    IdleTick(s, NOTHING);
    IdleHelped(s.(unverified := false), c, n);
    UnverifiedEnds(s, c, n, r, now);
    var t := FireUnverified(s, now);
    FiredRunning(s, t, now);
    EndServes(t, now, c, n - 10, NewRecord(c), c.config.value);
  }

  lemma FiredRunning(s: Sup, t: Sup, now: nat)
    requires t == FireUnverified(s, now) && t.process.Some? && t.server != Stopping
    ensures FireTimers(s, now) == t
  {
    hide FireUnverified;
    Expires(t, now);
    hide ExpireStop;
    TimersPass(t, now);
    hide FireRestart;
    hide FirePortRetry;
  }

  /** A stop that takes too long waits for the user as of the tick after its deadline. */
  lemma TickExpiresStop(s: Sup, c: Choice, n: nat, r: Record, config: Config)
    requires n > 2 && Serves(s, c, n, r, config) && s.server == Stopping && Due(s.stopDeadline, s.os.now)
    ensures var t := TickOnce(s, NOTHING);
            Serves(t, c, n - 3, r, config) && t.server == StopTimedOut && t.stopDeadline.None? && t.os.signals == s.os.signals
  {
    hide TickOnce;
    hide RetryIfDue;
    hide PollProcess;
    hide FireTimers;
    hide TakeArrivals;
    hide Helps;
    hide Owns;
    var now := s.os.now;
    NoRetry(s, now);
    PollServes(s, c, n, r, config);
    var a := PollProcess(s);
    StopExpires(a, now);
    var b := a.(server := StopTimedOut, stopDeadline := None);
    assert Serves(b, c, n - 2, r, config);
    EndServes(b, now, c, n - 2, r, config);
    assert TickOnce(s, NOTHING) == TakeArrivals(FireTimers(a, now), now, NOTHING) by { TickIs(s, NOTHING); }
  }

  lemma TickIs(s: Sup, arrivals: Arrivals)
    requires !s.retryPending
    ensures TickOnce(s, arrivals) == TakeArrivals(FireTimers(PollProcess(s), s.os.now), s.os.now, arrivals)
  {
    NoRetry(s, s.os.now);
    hide RetryIfDue;
    hide PollProcess;
    hide FireTimers;
    hide TakeArrivals;
  }

  // ---------------------------------------------------------------- retries and exits

  /** What a due retry has started goes on running through the rest of its tick. */
  lemma TickResumes(s: Sup, c: Choice, n: nat, r: Record, config: Config)
    requires n > 2 && Serves(RetryIfDue(s, s.os.now), c, n, r, config) && RetryIfDue(s, s.os.now).server != Stopping
    ensures var t := TickOnce(s, NOTHING);
            Serves(t, c, n - 3, r, config) && SameRun(RetryIfDue(s, s.os.now), t)
  {
    hide RetryIfDue;
    hide Supervise;
    hide Serves;
    SuperviseServes(RetryIfDue(s, s.os.now), s.os.now, c, n, r, config);
  }

  /** A Start that waited for its save has OpenCode running at the end of the tick that saves. */
  lemma TickRunsDeferredStart(s: Sup, c: Choice, n: nat)
    requires n > 10 && UnsureIdle(s, c, n, s.os.now) && c.endpoint == Free && s.credential != AccessPending
    requires s.pendingIntent.Some? && s.pendingIntent.value.what == StartIntent
    ensures var t := TickOnce(s, NOTHING);
            Serves(t, c, n - 11, NewRecord(c), c.config.value) && t.os.forks == s.os.forks + 1 && t.pendingIntent.None?
  {
    hide TickOnce;
    hide RetryIfDue;
    hide Serves;
    UnsureHelped(s, c, n);
    DeferredStartRuns(s, c, n, s.os.now);
    TickResumes(s, c, n - 8, NewRecord(c), c.config.value);
  }

  lemma UnsureHelped(s: Sup, c: Choice, n: int)
    requires UnsureIdle(s, c, n, s.os.now)
    ensures c.config.Some?
  {
  }

  /** The tick that sees the exit after a Restart ends with OpenCode running again. */
  lemma TickRestarts(s: Sup, c: Choice, n: nat, r: Record)
    requires n > 12 && AgentProgress.Exited(s, c, n, r) && c.endpoint == Free
    requires StoppingNow(s) && s.runtime.desired == Running && s.restartAfterStop && !s.groupRecovery
    ensures var t := TickOnce(s, NOTHING);
            Serves(t, c, n - 13, NewRecord(c), c.config.value) && t.os.forks == s.os.forks + 1
  {
    hide TickOnce;
    hide PollProcess;
    hide FireTimers;
    hide TakeArrivals;
    hide Serves;
    var now := s.os.now;
    TickIs(s, NOTHING);
    ExitedHelped(s, c, n, r);
    RestartRuns(s, c, n, r);
    var t := PollProcess(s);
    ServesProcess(t, c, n - 12, NewRecord(c), c.config.value);
    NoTimers(t, now);
    EndServes(t, now, c, n - 12, NewRecord(c), c.config.value);
  }

  lemma ExitedHelped(s: Sup, c: Choice, n: nat, r: Record)
    requires AgentProgress.Exited(s, c, n, r)
    ensures c.config.Some?
  {
  }

  // ---------------------------------------------------------------- what comes in

  /** The answers of the workers, where the timers have nothing to do. */
  lemma RunningTick(s: Sup, arrivals: Arrivals, c: Choice, n: nat, r: Record, config: Config)
    requires n > 2 && Watched(s, c, n, r, config)
    ensures var a := RecheckConfig(PollProcess(s), s.os.now);
            && Watched(a, c, n - 3, r, config) && SameRun(s, a) && a.started == s.started && a.healthIncident == s.healthIncident
            && a.recoveryIncident == s.recoveryIncident
            && TickOnce(s, arrivals) ==
                 ForgiveAttempts(
                   TakeCredential(
                     TakeVersion(CheckHealthDue(TakeHealth(a, s.os.now, arrivals.health), arrivals.healthDue), arrivals.version),
                     arrivals.password, arrivals.credential),
                   s.os.now)
  {
    hide TickOnce;
    hide PollProcess;
    hide FireTimers;
    hide RecheckConfig;
    hide TakeHealth;
    hide CheckHealthDue;
    hide TakeVersion;
    hide TakeCredential;
    hide ForgiveAttempts;
    hide Serves;
    ServesProcess(s, c, n, r, config);
    TickIs(s, arrivals);
    PollServes(s, c, n, r, config);
    var p := PollProcess(s);
    NoTimers(p, s.os.now);
    RecheckServes(p, s.os.now, c, n - 2, r, config);
    RecheckIncidents(p, s.os.now);
  }

  lemma RecheckIncidents(s: Sup, now: nat)
    ensures var a := RecheckConfig(s, now);
            a.started == s.started && a.healthIncident == s.healthIncident && a.recoveryIncident == s.recoveryIncident
  {
    hide Kernel.Ask;
  }

  /** A healthy answer that came in counts by the end of the tick. */
  lemma TickHearsHealthy(s: Sup, c: Choice, n: nat, r: Record, config: Config, version: nat)
    requires n > 5 && Watched(s, c, n, r, config) && s.runningVersion != Some(version)
    ensures var t := TickOnce(s, NOTHING.(health := Some(Healthy(version))));
            && Watched(t, c, n - 6, Versioning(r, version), config) && t.server == ServerHealthy && t.healthFailures == 0
            && t.runningVersion == Some(version)
            && t.runtime.notice == (if s.recoveryIncident || s.healthIncident then Some(Recovered) else s.runtime.notice)
  {
    hide TickOnce;
    hide PollProcess;
    hide RecheckConfig;
    hide HealthAnswer;
    hide CredentialNoted;
    hide ForgiveAttempts;
    hide Serves;
    RunningTick(s, NOTHING.(health := Some(Healthy(version))), c, n, r, config);
    var a := RecheckConfig(PollProcess(s), s.os.now);
    HealthyRecovers(a, c, n - 3, r, config, s.os.now, version);
    var b := HealthAnswer(a, s.os.now, Healthy(version));
    ForgiveServes(b, s.os.now, c, n - 6, Versioning(r, version), config);
  }

  /** A failed one is counted. */
  lemma TickHearsFailure(s: Sup, c: Choice, n: nat, r: Record, config: Config)
    requires n > 4 && Watched(s, c, n, r, config) && s.server != Starting
    ensures var t := TickOnce(s, NOTHING.(health := Some(Unhealthy)));
            && Watched(t, c, n - 5, r, config) && t.server == ServerUnhealthy && t.healthFailures == s.healthFailures + 1
            && t.runtime.notice == (if t.healthFailures >= 3 && !s.healthIncident then Some(Failure) else s.runtime.notice)
  {
    hide TickOnce;
    hide PollProcess;
    hide RecheckConfig;
    hide HealthAnswer;
    hide CredentialNoted;
    hide ForgiveAttempts;
    hide Serves;
    RunningTick(s, NOTHING.(health := Some(Unhealthy)), c, n, r, config);
    var a := RecheckConfig(PollProcess(s), s.os.now);
    FailureCounts(a, c, n - 3, r, config, s.os.now, Unhealthy);
    ForgiveServes(HealthAnswer(a, s.os.now, Unhealthy), s.os.now, c, n - 5, r, config);
  }

  /** A running version that was not known yet is on disk by the end of the tick. */
  lemma TickRecordsVersion(s: Sup, c: Choice, n: nat, r: Record, config: Config, version: nat)
    requires n > 3 && Watched(s, c, n, r, config) && r.runningVersion.None? && s.runningVersion.None?
    ensures var t := TickOnce(s, NOTHING.(version := Some(version)));
            Watched(t, c, n - 4, Versioning(r, version), config) && t.runningVersion == Some(version)
  {
    hide TickOnce;
    hide PollProcess;
    hide RecheckConfig;
    hide RecordVersion;
    hide CredentialNoted;
    hide ForgiveAttempts;
    hide Helps;
    hide Owns;
    RunningTick(s, NOTHING.(version := Some(version)), c, n, r, config);
    var a := RecheckConfig(PollProcess(s), s.os.now);
    var b := a.(runningVersion := Some(version));
    assert Versioned(a, version) == b;
    hide Versioned;
    VersionServes(b, c, n - 3, r, config, version);
    var (d, saved) := RecordVersion(b, version);
    assert ApplyVersion(a, version) == FailUnless((d, saved));
    hide ApplyVersion;
    assert FailUnless((d, saved)) == d.(server := d.server);
    ForgiveServes(d, s.os.now, c, n - 4, Versioning(r, version), config);
  }

  /** A password that came in starts what waited for it. */
  lemma TickTakesPassword(s: Sup, c: Choice, n: nat, fingerprint: nat)
    requires n > 7 && Idle(s, c, n) && c.endpoint == Free && s.runtime.desired == Running
    requires s.server != Stopping && s.nextRestart.None? && s.nextPortRetry.None?
    ensures var t := TickOnce(s, NOTHING.(password := Some(fingerprint)));
            Serves(t, c, n - 8, NewRecord(c), c.config.value) && t.os.forks == s.os.forks + 1
  {
    hide TickOnce;
    hide FireTimers;
    hide FirePortRetry;
    hide RecheckConfig;
    hide PasswordApplied;
    hide Serves;
    hide StartNow;
    var now := s.os.now;
    IdleHelped(s, c, n);
    IdleTick(s, NOTHING.(password := Some(fingerprint)));
    StartTimers(s, now);
    assert FireRestart(s, now) == s;
    hide FireRestart;
    NoPortRetry(s, now);
    RecheckIdles(s, now, c, n);
    var a := RecheckConfig(s, now);
    PasswordRuns(a, c, n - 1, fingerprint);
    var t := PasswordApplied(a, fingerprint);
    assert TakeArrivals(s, now, NOTHING.(password := Some(fingerprint))) == ForgiveAttempts(t, now);
    hide TakeArrivals;
    ForgivenServes(t, now, c, n - 8, NewRecord(c), c.config.value);
  }

  lemma ForgivenServes(t: Sup, now: nat, c: Choice, n: nat, r: Record, config: Config)
    requires Serves(t, c, n, r, config)
    ensures var u := ForgiveAttempts(t, now); Serves(u, c, n, r, config) && u.os == t.os
  {
    hide Helps;
    hide Owns;
  }

  lemma RecheckIdles(s: Sup, now: nat, c: Choice, n: nat)
    requires n > 0 && Idle(s, c, n)
    ensures var a := RecheckConfig(s, now); Idle(a, c, n - 1) && a.os.forks == s.os.forks && a.runtime == s.runtime
  {
    hide RefreshConfig;
    RefreshIdles(s, c, n);
  }

  /** The configuration is read again by the first tick a minute after it was read last. */
  lemma TickReadsConfig(s: Sup, c: Choice, n: nat, r: Record, config: Config)
    requires n > 2 && Watched(s, c, n, r, config) && s.os.now >= s.configCheckedAt + CONFIG_RECHECK
    ensures var t := TickOnce(s, NOTHING);
            && Watched(t, c, n - 3, r, config) && t.latest == c.config && t.credential == Available && t.configCheckedAt == s.os.now
  {
    hide TickOnce;
    hide PollProcess;
    hide ForgiveAttempts;
    hide Serves;
    RunningTick(s, NOTHING, c, n, r, config);
    PolledServes(s, c, n, r, config);
    var p := PollProcess(s);
    RereadServes(p, s.os.now, c, n - 2, r, config);
    var a := ReadConfig(p, s.os.now);
    hide ReadConfig;
    assert RecheckConfig(p, s.os.now) == a;
    hide RecheckConfig;
    ForgiveServes(a, s.os.now, c, n - 3, r, config);
    ForgivenSame(a, s.os.now);
  }

  lemma PolledServes(s: Sup, c: Choice, n: nat, r: Record, config: Config)
    requires n > 1 && Serves(s, c, n, r, config)
    ensures var p := PollProcess(s); Serves(p, c, n - 2, r, config) && p.configCheckedAt == s.configCheckedAt
  {
    hide PollProcess;
    PollServes(s, c, n, r, config);
  }

  lemma RereadServes(p: Sup, at: nat, c: Choice, n: nat, r: Record, config: Config)
    requires n > 0 && Serves(p, c, n, r, config)
    ensures var a := ReadConfig(p, at);
            a.latest == c.config && a.credential == Available && a.configCheckedAt == at
  {
    HeldSettle(p.os, c, n, r, true);
    hide Settle;
    assert Kernel.Ask(p.os) == (AgentProgress.Later(p.os), c);
    hide Kernel.Ask;
  }

  lemma ForgivenSame(a: Sup, now: nat)
    ensures var t := ForgiveAttempts(CredentialNoted(a, None), now);
            t.latest == a.latest && t.credential == a.credential && t.configCheckedAt == a.configCheckedAt
  {
  }
}
