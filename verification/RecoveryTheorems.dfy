/** Bounded automatic recovery over whole runs: how often and how late it is armed, what stands
    at its end, and that no unexpected exit goes without it. */
module RecoveryTheorems {
  import opened Records
  import opened Kernel
  import opened KernelFlow
  import opened ProcessGroup
  import opened ProcessIdentity
  import opened ManagedProcesses
  import opened SupervisorState
  import opened RuntimeDurability
  import opened Lifecycle
  import opened ProcessExit
  import opened ReattachPolicy
  import opened Reattach
  import opened Agent
  import opened BoundedRecovery

  // ---------------------------------------------------------------- armings in a run

  /** The state in which a tick looks at its timers. */
  function Polled(s: Sup): Sup {
    PollProcess(RetryIfDue(s, s.os.now))
  }

  /** What gives the agent a fresh set of attempts: a boot, an accepted Start or Restart, also a
      deferred one, an applied password, an unverified record that is given up, and a process
      that has run long enough. */
  predicate Resets(s: Sup, e: Event) {
    match e
    case Boot(readable, image, _, _) => readable ==> image in s.os.images
    case Handle(command, _) => !s.os.dead && command.Act? && command.intent != StopIntent
    case Tick(arrivals, script) =>
      !s.os.dead
      && var a := Scripted(s, script);
         var now := a.os.now;
         || arrivals.password.Some? || StartsDeferred(a, now) || GivesUpRecord(Polled(a), now)
         || Forgives(Served(FireTimers(Polled(a), now), now, arrivals), now)
    case _ => false
  }

  /** The recovery timer is armed in between. */
  predicate Arms(s: Sup, t: Sup) {
    t.nextRestart.Some? && t.nextRestart != s.nextRestart
  }

  function Armings(s: Sup, events: seq<Event>): nat
    decreases |events|
  {
    if events == [] then 0
    else (if Arms(s, Step(s, events[0])) then 1 else 0) + Armings(Step(s, events[0]), events[1..])
  }

  predicate NoReset(s: Sup, events: seq<Event>)
    decreases |events|
  {
    events == [] || (!Resets(s, events[0]) && NoReset(Step(s, events[0]), events[1..]))
  }

  /** `Climbs`, whatever script the event brought. */
  predicate Rises(s: Sup, t: Sup) {
    && s.os.now <= t.os.now
    && s.attempt <= t.attempt && (t.attempt != s.attempt ==> t.attempt <= |RESTART_BACKOFF|)
    && (t.nextRestart.Some? ==>
          (t.nextRestart == s.nextRestart && t.attempt == s.attempt) || (t.attempt > s.attempt && SetMeanwhile(s, t)))
  }

  lemma ClimbsRises(s: Sup, script: seq<Choice>, t: Sup)
    requires Climbs(Scripted(s, script), t)
    ensures Rises(s, t)
  {
    NowFlows(Scripted(s, script).os, t.os);
    hide Flows;
  }

  lemma TickClimbs(s: Sup, arrivals: Arrivals)
    requires arrivals.password.None? && !StartsDeferred(s, s.os.now) && !GivesUpRecord(Polled(s), s.os.now)
    requires !Forgives(Served(FireTimers(Polled(s), s.os.now), s.os.now, arrivals), s.os.now)
    ensures Climbs(s, TickOnce(s, arrivals))
  {
    hide Climbs;
    hide RetryIfDue;
    hide PollProcess;
    hide FireTimers;
    hide TakeArrivals;
    hide StartsDeferred;
    hide GivesUpRecord;
    hide Forgives;
    var now := s.os.now;
    var r := RetryIfDue(s, now);
    RetryClimbs(s, now);
    var p := PollProcess(r);
    PollClimbs(r);
    ClimbsTransitive(s, r, p);
    var f := FireTimers(p, now);
    TimersClimb(p, now);
    ClimbsTransitive(s, p, f);
    ArrivalsClimb(f, now, arrivals);
    ClimbsTransitive(s, f, TakeArrivals(f, now, arrivals));
  }

  lemma HandleClimbs(s: Sup, command: Command)
    requires command.Act? ==> command.intent == StopIntent
    ensures Climbs(s, HandleCommand(s, command).0)
  {
    hide Request;
    hide ForceStop;
    hide Climbs;
    hide Leaves;
    SelfLeaves(s);
    LeavesClimbs(s, s);
    match command
    case Status =>
    case Act(_) => StopRequestClimbs(s);
    case ContinueStopping =>
      ContinueLeaves(s);
      LeavesClimbs(s, ContinueStop(s).0);
    case ForceStopping =>
      ForceStopLeaves(s);
      LeavesClimbs(s, ForceStop(s).0);
    case Credentials(state, reading, fingerprint) =>
      var t := s.(credential := state, reading := reading, latest := WithPassword(s, fingerprint));
      LikeLeaves(s, s, t);
      LeavesClimbs(s, t);
  }

  lemma SelfRises(s: Sup)
    ensures Rises(s, s)
  {
  }

  lemma StepRises(s: Sup, e: Event)
    requires !Resets(s, e)
    ensures Rises(s, Step(s, e))
  {
    hide Climbs;
    hide Rises;
    hide TickOnce;
    hide HandleCommand;
    hide PollProcess;
    hide ReloadConfig;
    hide Start;
    SelfRises(s);
    if e.Boot? || s.os.dead {
    } else {
      var a := Scripted(s, e.script);
      match e
      case Handle(command, script) =>
        HandleClimbs(a, command);
        ClimbsRises(s, script, HandleCommand(a, command).0);
      case Tick(arrivals, script) =>
        TickClimbs(a, arrivals);
        ClimbsRises(s, script, TickOnce(a, arrivals));
      case ChildExit(script) =>
        PollClimbs(a);
        ClimbsRises(s, script, PollProcess(a));
      case ConfigChanged(script) =>
        ReloadNowClimbs(a);
        ClimbsRises(s, script, ReloadConfig(a));
    }
  }

  /** Over every run without a reset recovery is armed at most as often as attempts are left, each
      time counting one. */
  lemma {:induction false} RecoveryIsBounded(s: Sup, events: seq<Event>)
    requires NoReset(s, events)
    ensures s.attempt + Armings(s, events) <= Run(s, events).attempt
    ensures s.attempt <= |RESTART_BACKOFF| ==> Run(s, events).attempt <= |RESTART_BACKOFF|
    ensures s.attempt <= |RESTART_BACKOFF| ==> Armings(s, events) <= |RESTART_BACKOFF| - s.attempt
    decreases |events|
  {
    hide Step;
    hide Resets;
    hide SetMeanwhile;
    if events == [] {
    } else {
      StepRises(s, events[0]);
      RecoveryIsBounded(Step(s, events[0]), events[1..]);
    }
  }

  /** And each of them waits the delay of the attempt it counts, from a moment within its step. */
  lemma ArmingWaits(s: Sup, e: Event)
    requires !Resets(s, e) && Arms(s, Step(s, e))
    ensures var t := Step(s, e);
            && s.attempt < t.attempt <= |RESTART_BACKOFF|
            && s.os.now + RESTART_BACKOFF[t.attempt - 1] <= t.nextRestart.value <= t.os.now + RESTART_BACKOFF[t.attempt - 1]
  {
    hide Step;
    hide Resets;
    StepRises(s, e);
  }

  // ---------------------------------------------------------------- with resets

  /** No more attempts are ever counted than there are delays. */
  predicate Bounded(s: Sup) {
    s.attempt <= |RESTART_BACKOFF|
  }

  lemma ClimbsBounded(s: Sup, t: Sup)
    requires Bounded(s) && Climbs(s, t)
    ensures Bounded(t)
  {
    hide Flows;
  }

  lemma StartBounded(s: Sup, trigger: Trigger)
    requires Bounded(s)
    ensures Bounded(StartNow(s, trigger))
  {
    hide StartNow;
    hide Climbs;
    StartClimbs(s, trigger);
    ClimbsBounded(s, StartNow(s, trigger));
  }

  lemma BeginStopBounded(s: Sup, restarting: bool)
    requires Bounded(s)
    ensures Bounded(BeginStop(s, restarting))
  {
    hide BeginStop;
    hide Climbs;
    BeginStopClimbs(s, restarting);
    ClimbsBounded(s, BeginStop(s, restarting));
  }

  lemma AfreshBounded(s: Sup)
    ensures Bounded(StartAfresh(s))
  {
    hide StartNow;
    StartBounded(Cancelled(s, 0, s.restartAfterStop, s.groupRecovery), Cold);
  }

  lemma ApplyStartBounded(s: Sup)
    requires Bounded(s)
    ensures Bounded(ApplyStart(s).0)
  {
    hide StartAfresh;
    hide StartRefused;
    AfreshBounded(s);
    var t := ApplyStart(s).0;
    if s.process.Some? {
      assert t == s.(pendingExit := None, pendingConvergence := None);
    } else if StartRefused(s) {
      assert t == s.(pendingExit := None, pendingConvergence := None, server := ServerFailed);
    } else {
      assert t == StartAfresh(s);
    }
  }

  lemma ApplyRestartBounded(s: Sup)
    requires Bounded(s)
    ensures Bounded(ApplyRestart(s).0)
  {
    hide StartNow;
    hide BeginStop;
    hide StartRefused;
    var t := ApplyRestart(s).0;
    var c := Cancelled(s, 0, s.process.Some?, false);
    BeginStopBounded(c, true);
    StartBounded(c, AfterStop);
    if StartRefused(s) {
      assert t == Cancelled(s, 0, false, false).(server := ServerFailed);
    } else if s.process.Some? {
      assert t == BeginStop(c, true);
    } else {
      assert t == StartNow(c, AfterStop);
    }
  }

  lemma ApplyStopBounded(s: Sup)
    requires Bounded(s)
    ensures Bounded(ApplyStop(s).0)
  {
    hide BeginStop;
    var c := Cancelled(s, s.attempt, false, false);
    BeginStopBounded(c, false);
    assert ApplyStop(s).0 == BeginStop(c, false);
  }

  lemma ApplyBounded(s: Sup, intent: Intent)
    requires Bounded(s)
    ensures Bounded(ApplyStart(s).0) && Bounded(ApplyStop(s).0) && Bounded(ApplyRestart(s).0) && Bounded(ApplyIntent(s, intent))
  {
    hide ApplyStart;
    hide ApplyStop;
    hide ApplyRestart;
    ApplyStartBounded(s);
    ApplyStopBounded(s);
    ApplyRestartBounded(s);
  }

  lemma RequestBounded(s: Sup, intent: Intent)
    requires Bounded(s)
    ensures Bounded(Request(s, intent).0)
  {
    hide PersistDesired;
    hide ApplyStart;
    hide ApplyStop;
    hide ApplyRestart;
    var desired := if intent == StopIntent then Stopped else Running;
    PersistDesiredLeaves(s, desired, intent);
    ApplyBounded(PersistDesired(s, desired, intent).0, intent);
  }

  lemma HandleBounded(s: Sup, command: Command)
    requires Bounded(s)
    ensures Bounded(HandleCommand(s, command).0)
  {
    hide HandleCommand;
    hide Request;
    hide Climbs;
    if command.Act? {
      RequestBounded(s, command.intent);
      ActIs(s, command);
    } else {
      HandleClimbs(s, command);
      ClimbsBounded(s, HandleCommand(s, command).0);
    }
  }

  lemma ActIs(s: Sup, command: Command)
    requires command.Act?
    ensures HandleCommand(s, command) == Request(s, command.intent)
  {
    hide Request;
  }

  lemma RetryBounded(s: Sup, now: nat)
    requires Bounded(s)
    ensures Bounded(RetryIfDue(s, now))
  {
    hide RetryIfDue;
    hide RetrySave;
    hide Climbs;
    if StartsDeferred(s, now) {
      RetrySaveClimbs(s);
      var t := RetrySave(s).0;
      ClimbsBounded(s, t);
      ApplyBounded(IntentTaken(t), t.pendingIntent.value.what);
      DeferredIs(s, now);
    } else {
      RetryClimbs(s, now);
      ClimbsBounded(s, RetryIfDue(s, now));
    }
  }

  lemma DeferredIs(s: Sup, now: nat)
    requires StartsDeferred(s, now) && RetrySave(s).0.pendingIntent == s.pendingIntent
    ensures RetryIfDue(s, now) == ApplyIntent(IntentTaken(RetrySave(s).0), s.pendingIntent.value.what)
  {
    hide RetrySave;
    hide ApplyIntent;
  }

  lemma FireUnverifiedBounded(s: Sup, now: nat)
    requires Bounded(s)
    ensures Bounded(FireUnverified(s, now))
  {
    hide FireUnverified;
    hide CheckUnverified;
    hide Climbs;
    if GivesUpRecord(s, now) {
      CheckBounded(s, now);
      GivesUpIs(s, now);
    } else {
      FireUnverifiedClimbs(s, now);
      ClimbsBounded(s, FireUnverified(s, now));
    }
  }

  lemma GivesUpIs(s: Sup, now: nat)
    requires GivesUpRecord(s, now)
    ensures FireUnverified(s, now) == CheckUnverified(s, now)
  {
    hide CheckUnverified;
  }

  lemma CheckBounded(s: Sup, now: nat)
    requires Bounded(s)
    ensures Bounded(CheckUnverified(s, now))
  {
    hide Inspect;
    hide ObserveMembers;
    hide EndUnverified;
    if s.runtime.process.Some? {
      var r := s.runtime.process.value;
      var t := s.(unverifiedAt := Some(now + UNVERIFIED_CHECK));
      var (v, identity) := Inspect(t.os, r);
      EndBounded(t.(os := ObserveAttached(v, r).0));
    }
  }

  lemma EndBounded(s: Sup)
    requires Bounded(s)
    ensures Bounded(EndUnverified(s))
  {
    hide DiscardStale;
    hide StartNow;
    DiscardLeaves(s);
    var t := DiscardStale(s).0;
    StartBounded(t.(restartAfterStop := false, attempt := 0, nextRestart := None), if t.restartAfterStop then AfterStop else Cold);
  }

  lemma TimersBounded(s: Sup, now: nat)
    requires Bounded(s)
    ensures Bounded(FireTimers(s, now))
  {
    hide FireUnverified;
    hide FireRestart;
    hide FirePortRetry;
    hide Climbs;
    FireUnverifiedBounded(s, now);
    var b := ExpireStop(FireUnverified(s, now), now);
    FireRestartClimbs(b, now);
    ClimbsBounded(b, FireRestart(b, now));
    FirePortClimbs(FireRestart(b, now), now);
    ClimbsBounded(FireRestart(b, now), FirePortRetry(FireRestart(b, now), now));
  }

  lemma PasswordBounded(s: Sup, fingerprint: nat)
    requires Bounded(s)
    ensures Bounded(PasswordApplied(s, fingerprint))
  {
    hide StartNow;
    var t := s.(credential := Available, reading := false, latest := WithPassword(s, fingerprint));
    StartBounded(t.(attempt := 0, nextRestart := None, nextPortRetry := None, portDeadline := None, networkDeadline := None,
                    pendingTrigger := None), Cold);
  }

  lemma ArrivalsBounded(s: Sup, now: nat, arrivals: Arrivals)
    requires Bounded(s)
    ensures Bounded(TakeArrivals(s, now, arrivals))
  {
    hide RecheckConfig;
    hide TakeHealth;
    hide CheckHealthDue;
    hide TakeVersion;
    hide PasswordApplied;
    hide Climbs;
    hide Flows;
    RecheckClimbs(s, now);
    var a := RecheckConfig(s, now);
    ClimbsBounded(s, a);
    var b := TakeHealth(a, now, arrivals.health);
    TakeHealthLeaves(a, now, arrivals.health);
    var c := CheckHealthDue(b, arrivals.healthDue);
    CheckDueLeaves(b, arrivals.healthDue);
    var d := TakeVersion(c, arrivals.version);
    TakeVersionLeaves(c, arrivals.version);
    if arrivals.password.Some? { PasswordBounded(d, arrivals.password.value); }
  }

  lemma TickBounded(s: Sup, arrivals: Arrivals)
    requires Bounded(s)
    ensures Bounded(TickOnce(s, arrivals))
  {
    hide RetryIfDue;
    hide PollProcess;
    hide FireTimers;
    hide TakeArrivals;
    hide Climbs;
    var now := s.os.now;
    RetryBounded(s, now);
    var r := RetryIfDue(s, now);
    PollClimbs(r);
    ClimbsBounded(r, PollProcess(r));
    TimersBounded(PollProcess(r), now);
    ArrivalsBounded(FireTimers(PollProcess(r), now), now, arrivals);
  }

  /** Dealing with a recorded process at boot counts no attempt. */
  lemma ReattachBounded(s: Sup, r: Record)
    ensures TryReattach(s, r).attempt == s.attempt
  {
    hide Inspect;
    hide ObserveMembers;
    hide Readopt;
    hide MarkUnverified;
    var (v, identity) := Inspect(s.os, r);
    var u := ObserveAttached(v, r).0;
    ReadoptBounded(s.(os := v), r, identity);
    ReadoptBounded(s.(os := u), r, Missing);
    UnverifiedAttempt(s.(os := u), r);
  }

  lemma UnverifiedAttempt(s: Sup, r: Record)
    ensures MarkUnverified(s, r).attempt == s.attempt
  {
    hide PersistRuntime;
    PersistNotes(Unverified(s, r));
  }

  lemma AttachAttempt(s: Sup, r: Record, version: nat, config: Config)
    ensures AttachUnconfirmed(s, r).attempt == s.attempt && AttachStale(s, r).attempt == s.attempt
    ensures AttachHealthy(s, r, version, config).attempt == s.attempt
  {
    hide PersistRuntime;
    PersistNotes(s.(process := Some(Attached(r)), runtime := s.runtime.(process := Some(r)), unverified := true,
                    unverifiedAt := Some(s.os.now + UNVERIFIED_CHECK), server := ServerFailed));
    PersistNotes(s.(process := Some(Attached(r)), runtime := s.runtime.(process := Some(r)), active := None,
                    stale := true, server := ServerUnhealthy));
    PersistNotes(s.(process := Some(Attached(r)), runtime := s.runtime.(process := Some(r)),
                    runningVersion := Some(version), active := Some(config), server := ServerHealthy, started := Some(s.os.now)));
  }

  lemma ReadoptBounded(s: Sup, r: Record, identity: Identity)
    ensures Readopt(s, r, identity).attempt == s.attempt
  {
    hide DiscardStale;
    hide MarkUnverified;
    hide AttachUnconfirmed;
    hide AttachStale;
    hide CheckAndReadopt;
    hide DecideInitial;
    DiscardLeaves(s);
    UnverifiedAttempt(s, r);
    AttachAttempt(s, r, 0, Config(0, 0));
    if s.latest.Some? { CheckBoundedAttempt(s, r, s.latest.value); }
    NeedsLatest(r.unconfirmed, identity, s.latest, s.latest.Some? && s.latest.value.fingerprint == r.fingerprint);
  }

  lemma NeedsLatest(unconfirmed: bool, identity: Identity, config: Option<Config>, matches: bool)
    ensures var d := DecideInitial(unconfirmed, identity, config, matches); d.NeedsHealth? ==> config == Some(d.config)
  {
  }

  lemma CheckBoundedAttempt(s: Sup, r: Record, config: Config)
    ensures CheckAndReadopt(s, r, config).attempt == s.attempt
  {
    hide Kernel.Ask;
    hide Inspect;
    hide DiscardStale;
    hide MarkUnverified;
    hide AttachUnconfirmed;
    hide AttachHealthy;
    hide DecideAfterHealth;
    var (v, c) := Kernel.Ask(s.os);
    var (u, again) := Inspect(v, r);
    var t := s.(os := u);
    DiscardLeaves(t);
    UnverifiedAttempt(t, r);
    AttachAttempt(t, r, 0, Config(0, 0));
    var action := DecideAfterHealth(again, c.health, config);
    if action.FinalReattach? { AttachAttempt(t, Refreshed(r, action.version, action.config), action.version, action.config); }
  }

  lemma BootBounded(w: World, readable: bool, image: Runtime, group: nat, script: seq<Choice>)
    ensures Bounded(Start(w, readable, image, group, script))
  {
    hide TryReattach;
    hide PersistDetailed;
    hide ResumeConvergence;
    hide BeginStop;
    hide Kernel.Ask;
    hide Climbs;
    var (v, c) := Kernel.Ask(Reborn(w, readable, group, script));
    var s := FreshMemory(v, if readable then image else DefaultRuntime, readable, c);
    if image.process.Some? { ReattachBounded(s, image.process.value); }
    var r := Recall(s);
    PersistLeaves(BootSave(r));
    var t := PersistDetailed(BootSave(r)).0;
    if readable && image.marker.None? {
      ConvergenceClimbs(t);
      ClimbsBounded(t, ResumeConvergence(t));
      BeginStopBounded(r, false);
    }
  }

  lemma StepBounded(s: Sup, e: Event)
    requires Bounded(s)
    ensures Bounded(Step(s, e))
  {
    hide TickOnce;
    hide HandleCommand;
    hide PollProcess;
    hide ReloadConfig;
    hide Start;
    hide Climbs;
    match e
    case Boot(readable, image, group, script) => BootBounded(s.os, readable, image, group, script);
    case Handle(command, script) => HandleBounded(Scripted(s, script), command);
    case Tick(arrivals, script) => TickBounded(Scripted(s, script), arrivals);
    case ChildExit(script) =>
      PollClimbs(Scripted(s, script));
      ClimbsBounded(Scripted(s, script), PollProcess(Scripted(s, script)));
    case ConfigChanged(script) =>
      ReloadNowClimbs(Scripted(s, script));
      ClimbsBounded(Scripted(s, script), ReloadConfig(Scripted(s, script)));
  }

  /** Over every run whatsoever, resets included. */
  lemma {:induction false} AttemptsBounded(s: Sup, events: seq<Event>)
    requires Bounded(s)
    ensures Bounded(Run(s, events))
    decreases |events|
  {
    hide Step;
    hide Bounded;
    if events == [] {
    } else {
      StepBounded(s, events[0]);
      AttemptsBounded(Step(s, events[0]), events[1..]);
    }
  }

  // ---------------------------------------------------------------- after an unexpected exit

  /** What an exit will be judged by. */
  predicate SamePlan(s: Sup, t: Sup) {
    && Flows(s.os, t.os)
    && t.server == s.server && t.runtime.desired == s.runtime.desired && t.groupRecovery == s.groupRecovery
    && t.attempt == s.attempt && t.recoveryIncident == s.recoveryIncident && t.pendingExit == s.pendingExit
  }

  lemma UpgradePlans(s: Sup)
    requires s.process.Some? && UpgradeIdentity(s).1
    ensures SamePlan(s, UpgradeIdentity(s).0) && UpgradeIdentity(s).0.process.Some?
  {
    hide ConfirmIdentity;
    hide PersistRuntime;
    hide Flows;
    ConfirmFlows(s.os, s.process.value);
    var (v, m, upgraded) := ConfirmIdentity(s.os, s.process.value);
    var t := Rerecorded(s, v, m);
    PersistLeaves(t);
    FlowsTransitive(s.os, v, PersistRuntime(t).0.os);
  }

  lemma FailedUpgrade(s: Sup)
    requires !UpgradeIdentity(s).1
    ensures UpgradeIdentity(s).0.process.Some?
  {
    hide ConfirmIdentity;
    hide PersistRuntime;
    var (v, m, upgraded) := ConfirmIdentity(s.os, s.process.value);
    PersistNotes(Rerecorded(s, v, m));
  }

  /** The agent goes on after an exit: recovery is armed, or has come to its end. */
  ghost predicate Recovers(s: Sup, t: Sup, told: bool) {
    if s.attempt < |RESTART_BACKOFF| then
      && t.attempt == s.attempt + 1 && SetMeanwhile(s, t) && t.server == WaitingToRestart
      && (told ==> t.recoveryIncident)
      && (told && !s.recoveryIncident && (forall c | c in s.os.script :: !c.fault) ==> t.runtime.notice == Some(Failure))
    else
      && t.attempt == s.attempt && t.nextRestart.None? && t.server == ServerFailed && !t.recoveryIncident
      && (told && (forall c | c in s.os.script :: !c.fault) ==> t.runtime.notice == Some(FinalFailure))
  }

  lemma RecoversLater(s: Sup, u: Sup, t: Sup, told: bool)
    requires SamePlan(s, u) && Recovers(u, t, told) && u.os.now <= t.os.now
    ensures Recovers(s, t, told)
  {
  }

  lemma ScheduleRecovers(s: Sup, told: bool)
    requires told ==> s.recoveryIncident
    ensures Recovers(s, ScheduleNextRestart(s), told) && s.os.now <= ScheduleNextRestart(s).os.now
  {
    hide ScheduleNextRestart;
    hide Kernel.Ask;
    ScheduleSets(s);
    AskFlows(s.os);
    NowFlows(s.os, ScheduleNextRestart(s).os);
  }

  lemma BeginRecovers(s: Sup)
    ensures Recovers(s, BeginRecovery(s), true) && s.os.now <= BeginRecovery(s).os.now
  {
    hide ScheduleNextRestart;
    hide EmitNotification;
    hide Kernel.Ask;
    hide FailsFinally;
    hide Climbs;
    hide Recovers;
    var a := s.(recoveryIncident := true);
    EmitLeaves(a, Failure);
    var b := if s.recoveryIncident then s else EmitNotification(a, Failure);
    FlowsSelf(s.os);
    NowFlows(s.os, b.os);
    ScheduleRecovers(b, true);
    ScheduleSets(b);
    AskFlows(s.os);
    AfterNotice(s, b, ScheduleNextRestart(b));
  }

  lemma AfterNotice(s: Sup, u: Sup, t: Sup)
    requires Recovers(u, t, true) && Leaves(s, u) && u.os.now <= t.os.now
    requires s.attempt < |RESTART_BACKOFF| && !s.recoveryIncident && (forall c | c in s.os.script :: !c.fault) ==>
               t.runtime.notice == Some(Failure)
    ensures Recovers(s, t, true)
  {
  }

  /** An exit that is not the end of a stop: none is under way, or it is the cleanup of a group
      whose leader went by itself. */
  predicate Unexpected(s: Sup) {
    s.runtime.desired == Running && (!StoppingNow(s) || s.groupRecovery)
  }

  lemma ResumeRecovers(s: Sup, explicitStop: bool, reason: ExitReason)
    requires s.runtime.desired == Running && (explicitStop ==> s.groupRecovery)
    ensures var t := ResumeAfterExit(s, ExitNote(explicitStop, reason));
            Recovers(s, t, !explicitStop) && s.os.now <= t.os.now
  {
    hide BeginRecovery;
    hide ScheduleNextRestart;
    if explicitStop {
      ScheduleRecovers(s.(groupRecovery := false), false);
    } else {
      BeginRecovers(s);
    }
  }

  /** The end of a process whose record could be cleared durably. */
  lemma CompleteRecovers(s: Sup, explicitStop: bool, reason: ExitReason)
    requires s.runtime.desired == Running && (explicitStop ==> s.groupRecovery)
    requires var t := CompleteExit(s, ExitNote(explicitStop, reason)); !t.unverified && t.pendingExit.None?
    ensures var t := CompleteExit(s, ExitNote(explicitStop, reason));
            Recovers(s, t, !explicitStop) && s.os.now <= t.os.now
  {
    hide PersistDetailed;
    hide ResumeAfterExit;
    hide Recovers;
    hide CompleteExit;
    var note := ExitNote(explicitStop, reason);
    PersistLeaves(Cleared(s));
    var (t, outcome) := PersistDetailed(Cleared(s));
    CompletesDurably(s, note);
    ClearedPlan(s, t);
    ResumeRecovers(t, explicitStop, reason);
    NowFlows(s.os, t.os);
    RecoversLater(s, t, ResumeAfterExit(t, note), !explicitStop);
  }

  lemma CompletesDurably(s: Sup, note: ExitNote)
    requires !CompleteExit(s, note).unverified && CompleteExit(s, note).pendingExit.None?
    ensures CompleteExit(s, note) == ResumeAfterExit(PersistDetailed(Cleared(s)).0, note)
  {
    hide PersistDetailed;
    hide ResumeAfterExit;
  }

  lemma ClearedPlan(s: Sup, t: Sup)
    requires NotesSave(Cleared(s), t) && Leaves(Cleared(s), t)
    ensures SamePlan(s, t)
  {
    hide Flows;
  }

  lemma UnverifiedMark(s: Sup, r: Record)
    ensures MarkUnverified(s, r).unverified
  {
    hide PersistRuntime;
    PersistNotes(Unverified(s, r));
  }

  lemma AwaitKeepsProcess(s: Sup, explicitStop: bool)
    requires s.process.Some?
    ensures AwaitGroup(s, explicitStop).process.Some?
  {
    hide PersistRuntime;
    PersistNotes(Awaiting(s, explicitStop));
    PersistNotes(s.(stopDeadline := None, server := ServerFailed));
  }

  lemma HandleRecovers(s: Sup, explicitStop: bool, reason: ExitReason)
    requires s.process.Some? && s.runtime.desired == Running && (explicitStop ==> s.groupRecovery)
    requires var t := HandleExit(s, ExitNote(explicitStop, reason)); !t.unverified && t.pendingExit.None?
    ensures var t := HandleExit(s, ExitNote(explicitStop, reason));
            Recovers(s, t, !explicitStop) && s.os.now <= t.os.now
  {
    hide CompleteExit;
    hide MarkUnverified;
    hide ObserveMembers;
    hide Recovers;
    var note := ExitNote(explicitStop, reason);
    if reason == IdentityChanged {
      UnverifiedMark(Unidentified(s, s.process.value), Disowned(s.process.value.Rec()));
    } else if reason == Disappeared && s.process.value.Attached? {
      var record := s.process.value.Rec();
      ObserveFlows(s.os, record.group, None);
      var u := s.(os := ObserveAttached(s.os, record).0);
      NowFlows(s.os, u.os);
      UnverifiedMark(Abandoned(u), Disowned(record));
      if ObserveAttached(s.os, record).1 == Empty {
        CompleteRecovers(u, explicitStop, reason);
        RecoversLater(s, u, CompleteExit(u, note), !explicitStop);
      }
    } else {
      CompleteRecovers(s, explicitStop, reason);
    }
  }

  lemma ObserveRecovers(s: Sup)
    requires s.process.Some? && Unexpected(s)
    requires var t := ObserveExit(s); t.process.None? && !t.unverified && t.pendingExit.None?
    ensures Recovers(s, ObserveExit(s), !StoppingNow(s)) && s.os.now <= ObserveExit(s).os.now
  {
    hide PollExit;
    hide HandleExit;
    hide AwaitGroup;
    hide Recovers;
    PollExitFlows(s.os, s.process.value);
    var (v, m, poll) := PollExit(s.os, s.process.value);
    var u := Reseen(s, v, m);
    NowFlows(s.os, v);
    AwaitKeepsProcess(u, StoppingNow(s));
    if !m.PendingGroupExit() && poll.Gone? {
      HandleRecovers(u, StoppingNow(s), poll.reason);
      RecoversLater(s, u, HandleExit(u, ExitNote(StoppingNow(s), poll.reason)), !StoppingNow(s));
    }
  }

  lemma PollRecovers(s: Sup)
    requires s.process.Some? && Unexpected(s)
    requires var t := PollProcess(s); t.process.None? && !t.unverified && t.pendingExit.None?
    ensures Recovers(s, PollProcess(s), !StoppingNow(s))
  {
    hide UpgradeIdentity;
    hide ObserveExit;
    hide Recovers;
    if UpgradeIdentity(s).1 {
      UpgradePlans(s);
      var u := UpgradeIdentity(s).0;
      ObserveRecovers(u);
      RecoversLater(s, u, ObserveExit(u), !StoppingNow(s));
    } else {
      FailedUpgrade(s);
    }
  }

  /** Whenever an exit that nobody asked for is seen, and its record cleared durably, recovery is
      armed with the next delay as long as attempts are left. After that the agent gives up: no
      timer, a failed server and, if its event could be made, the final notice. */
  lemma UnexpectedExitRecovers(s: Sup, script: seq<Choice>)
    requires !s.os.dead && s.process.Some? && Unexpected(s)
    requires var t := Step(s, ChildExit(script)); t.process.None? && !t.unverified && t.pendingExit.None?
    ensures var t := Step(s, ChildExit(script));
            if s.attempt < |RESTART_BACKOFF| then
              && t.attempt == s.attempt + 1 && t.server == WaitingToRestart && t.nextRestart.Some?
              && s.os.now + RESTART_BACKOFF[s.attempt] <= t.nextRestart.value <= t.os.now + RESTART_BACKOFF[s.attempt]
              && (!StoppingNow(s) ==> t.recoveryIncident)
              && (!StoppingNow(s) && !s.recoveryIncident && (forall c | c in script :: !c.fault) ==> t.runtime.notice == Some(Failure))
            else
              && t.nextRestart.None? && t.server == ServerFailed && !t.recoveryIncident && t.attempt == s.attempt
              && (!StoppingNow(s) && (forall c | c in script :: !c.fault) ==> t.runtime.notice == Some(FinalFailure))
  {
    hide PollProcess;
    var a := Scripted(s, script);
    PollRecovers(a);
  }

  lemma RetriedPlan(s: Sup)
    ensures var a := RetrySave(s).0;
            SamePlan(s, a) && a.pendingIntent == s.pendingIntent
  {
    hide PersistDetailed;
    hide Flows;
    var a := s.(retryAt := None);
    PersistLeaves(a);
    var t := PersistDetailed(a).0;
    PersistLeaves(MarkerTakenBack(t));
    FlowsTransitive(s.os, t.os, PersistDetailed(MarkerTakenBack(t)).0.os);
  }

  lemma TakenPlan(s: Sup)
    requires s.pendingExit.Some?
    ensures SamePlan(s, ExitTaken(s).(pendingExit := s.pendingExit))
  {
    hide Flows;
    JudgedLeaves(s);
    hide Judged;
  }

  /** The same for an exit that had to wait for its save, as soon as a retry is durable. */
  lemma DeferredExitRecovers(s: Sup, now: nat)
    requires RetryDue(s, now) && RetrySave(s).1 == Durable && s.pendingIntent.None? && s.pendingExit.Some?
    requires s.runtime.desired == Running && (s.pendingExit.value.what.explicitStop ==> s.groupRecovery)
    ensures Recovers(s, RetryIfDue(s, now), !s.pendingExit.value.what.explicitStop)
  {
    hide RetrySave;
    hide ResumeAfterExit;
    hide Recovers;
    RetriedPlan(s);
    var a := RetrySave(s).0;
    TakenPlan(a);
    var b := ExitTaken(a);
    var note := a.pendingExit.value.what;
    ResumeRecovers(b, note.explicitStop, note.reason);
    NowFlows(a.os, b.os);
    NowFlows(s.os, a.os);
    var t := ResumeAfterExit(b, note);
    FromTaken(a, t, !note.explicitStop);
    RecoversLater(s, a, t, !note.explicitStop);
  }

  lemma FromTaken(a: Sup, t: Sup, told: bool)
    requires a.pendingExit.Some? && Recovers(ExitTaken(a), t, told) && ExitTaken(a).os.now <= t.os.now
    ensures Recovers(a, t, told)
  {
    TakenPlan(a);
    hide Judged;
  }

  lemma RecoversAfter(s: Sup, u: Sup, t: Sup, told: bool)
    requires Leaves(s, u) && u.recoveryIncident == s.recoveryIncident && Recovers(u, t, told) && u.os.now <= t.os.now
    ensures Recovers(s, t, told)
  {
  }

  /** What the configuration answers leaves nothing to start: there is none, or its password must
      be waited for and nobody reads it. */
  predicate NothingToStart(c: Choice) {
    c.config.None? || (c.credential == AccessPending && !c.reading)
  }

  /** A recovery that finds nothing to start counts as failed and goes on, up to its end; any other
      start ends there. */
  lemma RefusedStartGoesOn(s: Sup, trigger: Trigger)
    requires s.process.None? && RuntimeStateReady(s).1 && NothingToStart(Kernel.Ask(s.os).1)
    ensures var t := StartNow(s, trigger);
            && t.process.None? && t.os.forks == s.os.forks
            && (if trigger == Recovery then Recovers(s, t, s.recoveryIncident)
                else t.attempt == s.attempt && t.nextRestart == s.nextRestart && t.server == ServerFailed)
  {
    hide Kernel.Ask;
    hide ScheduleNextRestart;
    hide Recovers;
    hide Lifecycle.Launch;
    assert RuntimeStateReady(s) == (s, true);
    hide RuntimeStateReady;
    var a := RefreshConfig(s);
    RefreshLeaves(s);
    AskCounts(s.os);
    var b := a.(server := ServerFailed);
    assert a.process.None? && a.recoveryIncident == s.recoveryIncident && a.os.forks == s.os.forks;
    assert a.latest.None? || (a.credential == AccessPending && !a.reading);
    assert StartNow(s, trigger) == (if trigger == Recovery then ScheduleNextRestart(b) else b);
    hide StartNow;
    hide RefreshConfig;
    hide Leaves;
    hide StartRefusedNow;
    LeavesFailed(s, a);
    if trigger == Recovery {
      ScheduleRecovers(b, s.recoveryIncident);
      RecoversAfter(s, b, ScheduleNextRestart(b), s.recoveryIncident);
      ScheduleWaits(b);
    }
  }

  lemma LeavesFailed(s: Sup, a: Sup)
    requires Leaves(s, a)
    ensures Leaves(s, a.(server := ServerFailed))
    ensures a.attempt == s.attempt && a.nextRestart == s.nextRestart
  {
  }
}
