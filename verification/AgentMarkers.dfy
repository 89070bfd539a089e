/** Launch markers over whole runs: an inherited one is never lost, and one whose own save was
    uncertain is taken back only by two durable saves. */
module AgentMarkers {
  import opened Records
  import opened Kernel
  import opened ProcessGroup
  import opened ProcessIdentity
  import opened ManagedProcesses
  import opened SupervisorState
  import opened RuntimeDurability
  import opened SupervisorSafety
  import opened Lifecycle
  import opened LifecycleSafety
  import opened ProcessExit
  import opened ExitSafety
  import opened Reattach
  import opened ReattachPolicy
  import opened Agent
  import opened AgentSafety

  // ---------------------------------------------------------------- inherited markers

  /** The memory of an agent that inherited a launch marker, of one that read nothing, or of
      one that is dead; and every image is marked. */
  predicate Blocked(s: Sup) {
    && AllMarked(s.os.images)
    && (s.os.dead || !s.loaded || (s.runtime.marker.Some? && !s.clearRequested))
  }

  lemma BlockedStep(s: Sup, e: Event)
    requires Inv(s) && Blocked(s)
    ensures Blocked(Step(s, e)) && Frozen(s.os, Step(s, e).os)
  {
    hide Start;
    hide HandleCommand;
    hide TickOnce;
    hide PollProcess;
    hide ReloadConfig;
    if e.Boot? {
      if !e.readable || e.image in s.os.images { StartSafe(s.os, e.readable, e.image, e.group, e.script); }
    } else if !s.os.dead {
      EventSafe(s, e);
    }
    hide Inv;
  }

  /** A launch marker that every image carries when an agent boots is never lost: in every
      later run, reboots included, nothing is launched and nothing is signaled, and every
      image stays marked. */
  lemma {:induction false} InheritedMarkerBlocks(s: Sup, events: seq<Event>)
    requires Inv(s) && Blocked(s)
    ensures Blocked(Run(s, events)) && Frozen(s.os, Run(s, events).os)
    decreases |events|
  {
    hide Inv;
    hide Blocked;
    hide Step;
    if events == [] {
    } else {
      StepSafe(s, events[0]);
      BlockedStep(s, events[0]);
      InheritedMarkerBlocks(Step(s, events[0]), events[1..]);
    }
  }

  /** No start can come from a state whose last save failed, while nothing is supervised. */
  predicate Stuck(s: Sup) {
    s.loaded && s.runtime.marker.None? && s.process.None? && !s.unverified && s.stateError && s.retryPending
  }

  lemma StuckStart(s: Sup, trigger: Trigger)
    requires Stuck(s)
    ensures Stuck(StartNow(s, trigger)) && StartNow(s, trigger).os == s.os
  {
    hide RefreshConfig;
  }

  lemma StuckTimers(s: Sup, now: nat)
    requires Stuck(s)
    ensures Stuck(FireTimers(PollProcess(s), now)) && FireTimers(PollProcess(s), now).os == s.os
  {
    hide StartNow;
    assert PollProcess(s) == s;
    hide PollProcess;
    var b := ExpireStop(s, now);
    StuckStart(b.(nextRestart := None), Recovery);
    var c := FireRestart(b, now);
    StuckStart(c.(nextPortRetry := None, pendingTrigger := None), if c.pendingTrigger.Some? then c.pendingTrigger.value else AfterStop);
  }

  lemma AskFrozen(w: World)
    ensures Frozen(w, Kernel.Ask(w).0)
  {
  }

  lemma StuckReload(s: Sup, now: nat)
    requires Stuck(s)
    ensures Stuck(RecheckConfig(s, now)) && Frozen(s.os, RecheckConfig(s, now).os)
  {
    AskFrozen(s.os);
    hide Kernel.Ask;
  }

  lemma StuckHealth(s: Sup, now: nat, arrivals: Arrivals)
    requires Stuck(s)
    ensures var t := CheckHealthDue(TakeHealth(s, now, arrivals.health), arrivals.healthDue); Stuck(t) && t.os == s.os
  {
    hide ApplyHealth;
    hide ApplyStaleHealth;
  }

  lemma StuckVersion(s: Sup, version: Option<nat>)
    requires Stuck(s)
    ensures Stuck(TakeVersion(s, version)) && TakeVersion(s, version).os == s.os
  {
    hide RecordVersion;
  }

  lemma StuckCredential(s: Sup, password: Option<nat>, credential: Option<CredentialState>)
    requires Stuck(s)
    ensures Stuck(TakeCredential(s, password, credential)) && TakeCredential(s, password, credential).os == s.os
  {
    hide StartNow;
    if password.Some? {
      var t := s.(credential := Available, reading := false, latest := WithPassword(s, password.value));
      StuckStart(t.(attempt := 0, nextRestart := None, nextPortRetry := None, portDeadline := None, networkDeadline := None,
                    pendingTrigger := None), Cold);
    }
  }

  lemma StuckTick(s: Sup, now: nat, arrivals: Arrivals)
    requires Stuck(s)
    ensures Stuck(Supervise(s, now, arrivals)) && Frozen(s.os, Supervise(s, now, arrivals).os)
  {
    StuckTimers(s, now);
    var a := FireTimers(PollProcess(s), now);
    StuckReload(a, now);
    var b := RecheckConfig(a, now);
    StuckHealth(b, now, arrivals);
    var c := CheckHealthDue(TakeHealth(b, now, arrivals.health), arrivals.healthDue);
    StuckVersion(c, arrivals.version);
    StuckCredential(TakeVersion(c, arrivals.version), arrivals.password, arrivals.credential);
    hide FireTimers;
    hide PollProcess;
    hide RecheckConfig;
    hide TakeHealth;
    hide CheckHealthDue;
    hide TakeVersion;
    hide TakeCredential;
  }

  /** While a marker waits to be taken back, a retry that does not get both saves durable
      leaves an agent that cannot start anything. */
  lemma UnwindingRetry(s: Sup)
    requires Inv(s) && !s.os.dead && Unwinding(s)
    ensures var (t, outcome) := RetrySave(s);
            && (outcome == Durable ==> t.runtime.marker.None? && t.os.images == {t.runtime})
            && (PersistDetailed(s.(retryAt := None)).1 == Durable && outcome != Durable && s.loaded ==>
                  Stuck(t) && Frozen(s.os, t.os))
  {
    hide Inv;
    hide Stays;
    hide WorldOk;
    hide PersistDetailed;
    var a := s.(retryAt := None);
    UnwindingIdle(s);
    PersistDetailedSafe(a) by { EvidencePart(s); InvParts(s); }
    var (t, outcome) := PersistDetailed(a);
    StaysFacts(a.os, t.os);
    if outcome == Durable {
      var b := t.(runtime := t.runtime.(marker := None));
      FirstSave(s);
      UnwoundMoves(s, t) by { assert t == t.(pendingExit := None) by { NoHeldExit(s); } }
      PersistDetailedSafe(b) by { EvidencePart(b); InvParts(b); }
      StaysFacts(b.os, PersistDetailed(b).0.os);
    }
  }

  lemma UnwindingIdle(s: Sup)
    requires Inv(s) && !s.os.dead && Unwinding(s)
    ensures s.process.None? && !s.unverified && s.pendingExit.None?
  {
  }

  lemma NoHeldExit(s: Sup)
    requires Inv(s) && !s.os.dead && Unwinding(s)
    ensures var t := PersistDetailed(s.(retryAt := None)).0; t == t.(pendingExit := None)
  {
    UnwindingIdle(s);
    PersistDetailedFrame(s.(retryAt := None));
    hide PersistDetailed;
  }

  // ---------------------------------------------------------------- within one lifetime

  /** The memory of an agent that inherited a launch marker, or of one that is dead. */
  predicate Inherited(s: Sup) {
    s.os.dead || (s.runtime.marker.Some? && !s.clearRequested)
  }

  lemma HeldStep(s: Sup, e: Event)
    requires Inv(s) && Inherited(s) && !e.Boot?
    ensures Inherited(Step(s, e)) && Frozen(s.os, Step(s, e).os)
  {
    hide Start;
    hide HandleCommand;
    hide TickOnce;
    hide PollProcess;
    hide ReloadConfig;
    if !s.os.dead {
      EventSafe(s, e);
    }
    hide Inv;
  }

  /** Whatever images a crash could still expose, an agent that found a launch marker at boot
      launches nothing and signals nothing for as long as it lives. */
  lemma {:induction false} InheritedMarkerHolds(s: Sup, events: seq<Event>)
    requires Inv(s) && Inherited(s) && (forall e | e in events :: !e.Boot?)
    ensures Inherited(Run(s, events)) && Frozen(s.os, Run(s, events).os)
    decreases |events|
  {
    hide Inv;
    hide Inherited;
    hide Step;
    if events == [] {
    } else {
      StepSafe(s, events[0]);
      HeldStep(s, events[0]);
      InheritedMarkerHolds(Step(s, events[0]), events[1..]);
    }
  }

  // ---------------------------------------------------------------- the uncertain marker

  /** A tick whose retry leaves the marked state as the only image a crash could expose. */
  predicate MarkedAlone(s: Sup, e: Event) {
    && e.Tick?
    && var a := Scripted(s, e.script);
    && RetryDue(a, a.os.now)
    && var (t, outcome) := PersistDetailed(a.(retryAt := None));
    && outcome == Durable && t.os.images == {t.runtime} && t.runtime.marker.Some?
  }

  /** A tick whose retry, or a command whose desired state, leaves an unmarked state as the only
      image, before anything else of that event. */
  predicate UnmarkedAlone(s: Sup, e: Event) {
    if e.Tick? then
      var a := Scripted(s, e.script);
      && RetryDue(a, a.os.now)
      && var (t, outcome) := RetrySave(a);
      && outcome == Durable && t.os.images == {t.runtime} && t.runtime.marker.None?
    else
      && e.Handle? && e.command.Act?
      && var (t, saved) := PersistDesired(Scripted(s, e.script), if e.command.intent == StopIntent then Stopped else Running,
                                          e.command.intent);
      && saved && t.os.images == {t.runtime} && t.runtime.marker.None?
  }

  lemma SaveFrozen(s: Sup)
    ensures var (t, outcome) := PersistDetailed(s);
            && Frozen(s.os, t.os) && t.runtime == s.runtime && t.loaded == s.loaded
            && t.process == s.process && t.unverified == s.unverified
            && (outcome == Durable ==> t.os.images == {t.runtime})
            && (outcome != Durable && s.loaded ==> t.stateError && t.retryPending)
  {
  }

  lemma StuckRetry(s: Sup)
    requires Stuck(s)
    ensures var (t, outcome) := RetrySave(s);
            && Frozen(s.os, t.os) && t.runtime.marker.None?
            && (if outcome == Durable then t.os.images == {t.runtime} else Stuck(t))
  {
    hide PersistDetailed;
    SaveFrozen(s.(retryAt := None));
  }

  /** The save of a command that did not go through leaves the agent stuck. */
  lemma StillStuck(t: Sup, previous: Runtime, intent: Intent)
    requires t.loaded && t.process.None? && !t.unverified && t.stateError && t.retryPending && t.runtime.marker.None?
    requires previous.marker.None?
    ensures Stuck(Restored(t, previous)) && Stuck(HeldIntent(t, intent))
    ensures Restored(t, previous).os == t.os && HeldIntent(t, intent).os == t.os
  {
  }

  lemma ForgottenFacts(t: Sup)
    ensures Forgotten(t).os == t.os && Forgotten(t).runtime == t.runtime
  {
  }

  lemma DesiringFacts(s: Sup, desired: DesiredState)
    ensures var d := Desiring(s, desired);
            && d.os == s.os && d.runtime.marker == s.runtime.marker && d.loaded == s.loaded
            && d.process == s.process && d.unverified == s.unverified
  {
  }

  lemma StuckCommand(s: Sup, desired: DesiredState, intent: Intent)
    requires Stuck(s)
    ensures var (t, saved) := PersistDesired(s, desired, intent);
            && Frozen(s.os, t.os)
            && (if saved then t.os.images == {t.runtime} && t.runtime.marker.None? else Stuck(t))
  {
    hide PersistDetailed;
    hide Desiring;
    hide Restored;
    hide HeldIntent;
    hide Forgotten;
    var d := Desiring(s, desired);
    DesiringFacts(s, desired);
    SaveFrozen(d);
    var (t, outcome) := PersistDetailed(d);
    match outcome
    case Durable => ForgottenFacts(t);
    case _ => StillStuck(t, s.runtime, intent);
  }

  lemma StuckTickOnce(s: Sup, arrivals: Arrivals)
    requires Stuck(s) && !(RetryDue(s, s.os.now) && RetrySave(s).1 == Durable)
    ensures Stuck(TickOnce(s, arrivals)) && Frozen(s.os, TickOnce(s, arrivals).os)
  {
    hide RetrySave;
    hide Supervise;
    hide Stuck;
    StuckRetry(s);
    StuckTick(RetryIfDue(s, s.os.now), s.os.now, arrivals);
  }

  lemma StuckHandle(s: Sup, command: Command)
    requires Stuck(s) && !command.Act?
    ensures Stuck(HandleCommand(s, command).0) && Frozen(s.os, HandleCommand(s, command).0.os)
  {
    hide Request;
  }

  lemma StuckRequest(s: Sup, intent: Intent)
    requires !PersistDesired(s, if intent == StopIntent then Stopped else Running, intent).1
    ensures Request(s, intent).0 == PersistDesired(s, if intent == StopIntent then Stopped else Running, intent).0
  {
    hide PersistDesired;
  }

  lemma StuckIdle(s: Sup)
    requires Stuck(s)
    ensures PollProcess(s) == s
    ensures Stuck(ReloadConfig(s)) && Frozen(s.os, ReloadConfig(s).os)
  {
    hide Kernel.Ask;
    AskFrozen(s.os);
  }

  lemma StuckScripted(s: Sup, script: seq<Choice>)
    requires Stuck(s)
    ensures Stuck(Scripted(s, script)) && Frozen(s.os, Scripted(s, script).os)
  {
  }

  /** Until an unmarked state is the only image, an agent that took a marker back only in memory
      does nothing to any process. */
  lemma StuckEvent(s: Sup, e: Event)
    requires Stuck(s) && !s.os.dead && !e.Boot?
    ensures UnmarkedAlone(s, e) || (Stuck(Step(s, e)) && Frozen(s.os, Step(s, e).os))
  {
    hide Stuck;
    hide TickOnce;
    hide RetrySave;
    hide PersistDesired;
    hide Request;
    hide PollProcess;
    hide ReloadConfig;
    hide Scripted;
    var a := Scripted(s, e.script);
    StuckScripted(s, e.script);
    match e
    case Handle(command, _) =>
      if command.Act? {
        StuckCommand(a, if command.intent == StopIntent then Stopped else Running, command.intent);
        if !UnmarkedAlone(s, e) { StuckRequest(a, command.intent); }
      } else {
        StuckHandle(a, command);
      }
    case Tick(arrivals, _) =>
      StuckRetry(a);
      if !UnmarkedAlone(s, e) { StuckTickOnce(a, arrivals); }
    case ChildExit(_) =>
      StuckIdle(a);
    case ConfigChanged(_) =>
      StuckIdle(a);
  }

  /** One event from a marker that waits to be taken back. */
  ghost predicate Unwound(s: Sup, e: Event, t: Sup) {
    || (MarkedAlone(s, e) && UnmarkedAlone(s, e))
    || (Frozen(s.os, t.os) && (t.os.dead || Unwinding(t) || (MarkedAlone(s, e) && Stuck(t))))
  }

  /** A step under the seal of the marker. */
  lemma SealedUnwound(s: Sup, e: Event, t: Sup)
    requires !s.os.dead && Unwinding(s) && Sealed(s, t)
    ensures Unwound(s, e, t)
  {
  }

  lemma UnwindingTick(s: Sup, e: Event)
    requires Inv(s) && !s.os.dead && Unwinding(s) && e.Tick?
    ensures Unwound(s, e, Step(s, e))
  {
    hide Inv;
    hide Calm;
    hide Stuck;
    hide Supervise;
    hide PersistDetailed;
    hide ResumeDeferred;
    var a := Scripted(s, e.script);
    ScriptedSafe(s, e.script);
    CalmInv(s, a);
    var now := a.os.now;
    var (t, outcome) := RetrySave(a);
    FirstSave(a);
    SaveFrozen(a.(retryAt := None));
    if !RetryDue(a, now) {
      SuperviseSafe(a, now, e.arrivals);
      CalmTransitive(s, a, Supervise(a, now, e.arrivals));
      CalmLived(s, Supervise(a, now, e.arrivals));
      SealedUnwound(s, e, Step(s, e));
    } else if PersistDetailed(a.(retryAt := None)).1 != Durable {
      CalmInv(a, t);
      SuperviseSafe(t, now, e.arrivals);
      CalmTransitive(s, a, t);
      CalmTransitive(s, t, Supervise(t, now, e.arrivals));
      CalmLived(s, Supervise(t, now, e.arrivals));
      SealedUnwound(s, e, Step(s, e));
    } else {
      UnwindingRetry(a);
      if outcome != Durable {
        StuckTick(t, now, e.arrivals);
      }
    }
  }

  lemma UnwindingEvent(s: Sup, e: Event)
    requires Inv(s) && !s.os.dead && Unwinding(s) && !e.Boot?
    ensures Unwound(s, e, Step(s, e))
  {
    hide Inv;
    hide Step;
    hide Unwound;
    if e.Tick? {
      UnwindingTick(s, e);
    } else {
      EventSafe(s, e);
      SealedUnwound(s, e, Step(s, e));
    }
  }

  /** The state after `k` events. */
  function After(s: Sup, events: seq<Event>, k: nat): Sup
    requires k <= |events|
  {
    Run(s, events[..k])
  }

  lemma AfterUnfolds(s: Sup, events: seq<Event>, k: nat)
    requires 0 < k <= |events|
    ensures After(s, events, k) == After(Step(s, events[0]), events[1..], k - 1)
  {
    hide Step;
    assert events[..k][1..] == events[1..][..k - 1];
  }

  lemma {:induction false} DeadRun(s: Sup, events: seq<Event>)
    requires s.os.dead && (forall e | e in events :: !e.Boot?)
    ensures Run(s, events) == s
    decreases |events|
  {
    if events == [] {
    } else {
      assert Step(s, events[0]) == s;
      DeadRun(s, events[1..]);
    }
  }

  /** The event of the second save: nothing happened to any process before it. */
  ghost predicate UnmarkedAt(s: Sup, events: seq<Event>, j: nat) {
    j < |events| && UnmarkedAlone(After(s, events, j), events[j]) && Frozen(s.os, After(s, events, j).os)
  }

  ghost predicate MarkedAt(s: Sup, events: seq<Event>, i: nat) {
    i < |events| && MarkedAlone(After(s, events, i), events[i])
  }

  /** What holds at the `j`-th event after the first one holds at the next event of the run. */
  lemma ShiftUnmarked(s: Sup, events: seq<Event>, j: nat)
    requires events != [] && Frozen(s.os, Step(s, events[0]).os) && UnmarkedAt(Step(s, events[0]), events[1..], j)
    ensures UnmarkedAt(s, events, j + 1)
  {
    hide Step;
    hide UnmarkedAlone;
    AfterUnfolds(s, events, j + 1);
  }

  lemma ShiftMarked(s: Sup, events: seq<Event>, i: nat)
    requires events != [] && MarkedAt(Step(s, events[0]), events[1..], i)
    ensures MarkedAt(s, events, i + 1)
  {
    hide Step;
    hide MarkedAlone;
    AfterUnfolds(s, events, i + 1);
  }

  lemma {:induction false} StuckNeedsSave(s: Sup, events: seq<Event>)
    requires Stuck(s) && (forall e | e in events :: !e.Boot?)
    requires !Frozen(s.os, Run(s, events).os)
    ensures exists j: nat :: UnmarkedAt(s, events, j)
    decreases |events|
  {
    hide Stuck;
    hide UnmarkedAlone;
    hide Step;
    if events == [] {
    } else if s.os.dead {
      DeadRun(s, events);
    } else {
      StuckEvent(s, events[0]);
      if UnmarkedAlone(s, events[0]) {
        assert After(s, events, 0) == s;
        assert UnmarkedAt(s, events, 0);
      } else {
        StuckNeedsSave(Step(s, events[0]), events[1..]);
        var j: nat :| UnmarkedAt(Step(s, events[0]), events[1..], j);
        ShiftUnmarked(s, events, j);
      }
    }
  }

  /** From a marker whose own save was uncertain, no run of that agent launches or signals before
      two saves have gone through: at some event the marked state was the only image a crash
      could expose, and at that event or a later one an unmarked state was, with no process
      touched until then. A run may end at any kernel call, so the order is kept within an
      event too. */
  lemma {:induction false} UncertainMarkerNeedsTwoSaves(s: Sup, events: seq<Event>)
    requires Inv(s) && !s.os.dead && Unwinding(s) && (forall e | e in events :: !e.Boot?)
    requires !Frozen(s.os, Run(s, events).os)
    ensures exists i: nat, j: nat :: i <= j && MarkedAt(s, events, i) && UnmarkedAt(s, events, j)
    decreases |events|
  {
    hide Inv;
    hide Step;
    hide Stuck;
    hide Unwinding;
    hide MarkedAlone;
    hide UnmarkedAlone;
    if events == [] {
    } else {
      var e := events[0];
      var t := Step(s, e);
      StepSafe(s, e);
      UnwindingEvent(s, e);
      assert After(s, events, 0) == s;
      if MarkedAlone(s, e) && UnmarkedAlone(s, e) {
        assert MarkedAt(s, events, 0) && UnmarkedAt(s, events, 0);
      } else if t.os.dead {
        DeadRun(t, events[1..]);
      } else if Unwinding(t) {
        UncertainMarkerNeedsTwoSaves(t, events[1..]);
        var i: nat, j: nat :| i <= j && MarkedAt(t, events[1..], i) && UnmarkedAt(t, events[1..], j);
        ShiftMarked(s, events, i);
        ShiftUnmarked(s, events, j);
        assert MarkedAt(s, events, i + 1) && UnmarkedAt(s, events, j + 1);
      } else {
        StuckNeedsSave(t, events[1..]);
        var j: nat :| UnmarkedAt(t, events[1..], j);
        ShiftUnmarked(s, events, j);
        assert MarkedAt(s, events, 0) && UnmarkedAt(s, events, j + 1);
      }
    }
  }
}
