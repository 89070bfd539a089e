/** Inherited launch markers across reboots: the block outlives every reboot exactly when no
    unmarked image is left that a later agent could read. */
module MarkerReboots {
  import opened Records
  import opened Kernel
  import opened ProcessGroup
  import opened ProcessIdentity
  import opened ManagedProcesses
  import opened SupervisorState
  import opened RuntimeDurability
  import opened SupervisorSafety
  import opened Lifecycle
  import opened LifecycleSafety
  import opened ProcessExit
  import opened Reattach
  import opened ReattachPolicy
  import opened ReattachSafety
  import opened Agent
  import opened AgentSafety
  import opened AgentMarkers

  // ---------------------------------------------------------------- a world that lets everything succeed

  /** Every process has gone, every call succeeds, and a fork gives the child (2, `start`). */
  function Fair(start: nat): Choice {
    QUIET.(outcome := Durable, config := Some(Config(0, 0)), credential := Available, endpoint := Free,
           child := 2, start := start)
  }

  ghost predicate Staged(w: World, start: nat, n: nat) {
    && !w.dead && w.readable && w.children == {} && w.ownGroup == 0
    && |w.script| >= n && (forall i :: 0 <= i < n ==> w.script[i] == Fair(start))
    && (2, start) !in w.born
  }

  lemma StagedSettle(w: World, start: nat, n: nat)
    requires n > 0 && Staged(w, start, n)
    ensures Settle(w).1 == Fair(start) && Staged(Settle(w).0, start, n - 1)
    ensures Settle(w).0.procs == map[] && Settle(w).0.forks == w.forks && Settle(w).0.images == w.images
  {
    var v := Settle(w).0;
    assert EnvironmentMay(w, map[]);
    assert v.born == w.born;
    assert forall i :: 0 <= i < n - 1 ==> v.script[i] == w.script[i + 1];
  }

  lemma StagedAsk(w: World, start: nat, n: nat)
    requires n > 0 && Staged(w, start, n)
    ensures var (v, c) := Kernel.Ask(w); Staged(v, start, n - 1) && c == Fair(start) && v.forks == w.forks
  {
    StagedSettle(w, start, n);
    hide Settle;
  }

  lemma StagedSave(w: World, start: nat, n: nat, runtime: Runtime)
    requires n > 0 && Staged(w, start, n)
    ensures var (v, outcome) := Save(w, runtime);
            Staged(v, start, n - 1) && outcome == Durable && v.forks == w.forks && v.images == {runtime}
  {
    StagedSettle(w, start, n);
    hide Settle;
  }

  lemma StagedFork(w: World, start: nat, n: nat, runtime: Runtime)
    requires n > 0 && Staged(w, start, n)
    ensures var (v, child) := Fork(w, runtime); child.Some? && v.forks == w.forks + 1
  {
    StagedSettle(w, start, n);
    hide Settle;
  }

  lemma StagedMissing(w: World, start: nat, n: nat, r: Record)
    requires n > 1 && Staged(w, start, n) && r.pid > 1 && r.group == r.pid
    ensures Inspect(w, r).1 == Missing && Staged(Inspect(w, r).0, start, n - 1) && Inspect(w, r).0.forks == w.forks
    ensures var (v, seen) := ObserveAttached(Inspect(w, r).0, r);
            seen == Empty && Staged(v, start, n - 2) && v.forks == w.forks
  {
    StagedSettle(w, start, n);
    var v := Settle(w).0;
    StagedSettle(v, start, n - 1);
    hide Settle;
  }

  // ---------------------------------------------------------------- a fork that is not lost

  /** From a spawn on, the number of forks only grows. */
  lemma SpawnForks(w: World, config: Config, runtime: Runtime, start: nat, n: nat)
    requires n > 1 && Staged(w, start, n) && WorldOk(w)
    requires NoLeader(w) && w.images == {runtime} && runtime.marker.Some?
    ensures Spawn(w, config, runtime).0.forks > w.forks
  {
    hide Staged;
    hide WorldOk;
    hide NoLeader;
    hide ForkAndConfirm;
    StagedAsk(w, start, n);
    AskKeeps(w);
    var (v, c) := Kernel.Ask(w);
    NoLeaderAfter(w, v);
    ConfirmForks(v, config, runtime, start, n - 1);
  }

  lemma NoLeaderAfter(w: World, v: World)
    requires NoLeader(w) && OnlyLooked(w, v)
    ensures NoLeader(v) && WorldOk(v) && v.images == w.images && v.children == w.children
  {
    hide WorldOk;
  }

  lemma ConfirmForks(w: World, config: Config, runtime: Runtime, start: nat, n: nat)
    requires n > 0 && Staged(w, start, n) && WorldOk(w)
    requires NoLeader(w) && w.images == {runtime} && runtime.marker.Some?
    ensures ForkAndConfirm(w, config, runtime).0.forks > w.forks
  {
    hide WorldOk;
    hide Fork;
    hide WaitForSnapshot;
    hide TerminateUnconfirmed;
    hide OnlyLeader;
    StagedFork(w, start, n, runtime);
    ForkSafe(w, runtime);
    var (v, forked) := Fork(w, runtime);
    var pid := forked.value;
    WaitKeeps(v, pid, config.executable, SNAPSHOT_TRIES, None);
    var (u, seen) := WaitForSnapshot(v, pid, config.executable, SNAPSHOT_TRIES, None);
    LookedForks(v, u, pid);
    match seen
    case Unconfirmed(last) => TerminateSafe(u, pid, last, config);
    case Confirmed(s) => if s.group != pid { TerminateSafe(u, pid, Some(s), config); }
  }

  lemma LookedForks(v: World, u: World, pid: nat)
    requires OnlyLooked(v, u) && v.children == {pid} && pid in v.procs && OnlyLeader(v, pid)
    requires pid !in v.exitSeen && pid !in v.refused && pid !in v.terminated && u.exitSeen == v.exitSeen
    ensures u.forks == v.forks && WorldOk(u) && u.children == {pid} && pid in u.procs && OnlyLeader(u, pid)
    ensures u.procs[pid].start == v.procs[pid].start
    ensures pid !in u.exitSeen && pid !in u.refused && pid !in u.terminated
  {
    hide WorldOk;
  }

  lemma PersistForks(s: Sup)
    ensures PersistRuntime(s).0.os.forks == s.os.forks && PersistDetailed(s).0.os.forks == s.os.forks
  {
  }

  lemma CommitForks(s: Sup, m: Managed)
    ensures CommitSpawned(s, m).0.os.forks == s.os.forks
  {
    hide PersistRuntime;
    PersistForks(s.(runtime := s.runtime.(process := Some(m.Rec()), marker := None), clearRequested := true, process := Some(m)));
  }

  lemma AbortForks(s: Sup)
    ensures AbortLaunch(s).0.os.forks == s.os.forks
  {
    hide PersistRuntime;
    PersistForks(s.(runtime := s.runtime.(marker := None), clearRequested := true));
  }

  lemma GivenUpKeepsWorld(s: Sup, kind: ErrorKind)
    ensures GiveUpStart(s, Cold, kind).os == s.os
  {
    hide ScheduleNextRestart;
    hide FinishRecoveryFailure;
  }

  lemma RetryKeepsWorld(s: Sup)
    ensures NetworkRetrying(s, Cold).os == s.os
  {
  }

  lemma RefusalKeepsWorld(s: Sup, kind: ErrorKind)
    ensures AfterRefusal(s, Cold, kind).os == s.os
  {
    hide GiveUpStart;
    hide NetworkRetrying;
    hide PortRetrying;
    GivenUpKeepsWorld(s, kind);
    RetryKeepsWorld(s);
  }

  lemma FinishForks(s: Sup, config: Config, result: SpawnResult)
    ensures FinishStart(s, Cold, config, result).os.forks == s.os.forks
  {
    hide CommitSpawned;
    hide AbortLaunch;
    hide AfterRefusal;
    match result
    case Started(m) => CommitForks(s, m);
    case Survivor(m) => CommitForks(s, m);
    case NotStarted(kind) =>
      AbortForks(s);
      RefusalKeepsWorld(AbortLaunch(s).0, kind);
  }

  // ---------------------------------------------------------------- a start that launches

  /** A live agent with nothing running and everything durable. */
  ghost predicate Startable(s: Sup, start: nat, n: nat) {
    && Idle(s) && Staged(s.os, start, n)
    && s.loaded && s.reliable && !s.retryPending && !s.stateError && !s.clearRequested
    && s.runtime.marker.None? && s.process.None? && !s.unverified
  }

  lemma StartLaunches(s: Sup, start: nat, n: nat)
    requires n > 3 && Startable(s, start, n)
    ensures StartNow(s, Cold).os.forks > s.os.forks
  {
    hide Inv;
    hide Staged;
    hide Lifecycle.Launch;
    hide Calm;
    hide Steps;
    RefreshStartable(s, start, n);
    var t := RefreshConfig(RuntimeStateReady(s).0);
    LaunchForks(t, t.latest.value, start, n - 1);
  }

  lemma RefreshStartable(s: Sup, start: nat, n: nat)
    requires n > 0 && Startable(s, start, n)
    ensures RuntimeStateReady(s).1
    ensures var t := RefreshConfig(RuntimeStateReady(s).0);
            && Startable(t, start, n - 1) && t.latest == Some(Config(0, 0)) && t.credential == Available
            && t.os.forks == s.os.forks
  {
    hide Inv;
    hide Staged;
    hide Calm;
    hide Kernel.Ask;
    ReadySafe(s);
    var r := RuntimeStateReady(s).0;
    CalmInv(s, r);
    RefreshSafe(r);
    CalmInv(r, RefreshConfig(r));
    StagedAsk(r.os, start, n);
  }

  lemma LaunchForks(s: Sup, config: Config, start: nat, n: nat)
    requires n > 2 && Startable(s, start, n)
    ensures Lifecycle.Launch(s, Cold, config).os.forks > s.os.forks
  {
    hide Inv;
    hide Staged;
    hide BeginLaunch;
    hide Spawn;
    hide FinishStart;
    hide Marked;
    var marker := Marker(config.executable, config.fingerprint);
    BeginLaunchSafe(s, marker);
    MarkStaged(s, marker, start, n);
    var (t, marked) := BeginLaunch(s, marker);
    MarkedWorld(t);
    SpawnForks(t.os, config, t.runtime, start, n - 1);
    var (v, result) := Spawn(t.os, config, t.runtime);
    FinishForks(t.(os := v), config, result);
  }

  lemma MarkedWorld(t: Sup)
    requires Marked(t)
    ensures WorldOk(t.os) && NoLeader(t.os) && t.os.images == {t.runtime} && t.runtime.marker.Some?
  {
    hide WorldOk;
  }

  lemma MarkStaged(s: Sup, marker: Marker, start: nat, n: nat)
    requires n > 0 && Startable(s, start, n)
    ensures var (t, marked) := BeginLaunch(s, marker); marked && Staged(t.os, start, n - 1) && t.os.forks == s.os.forks
  {
    hide Staged;
    hide Save;
    StagedSave(s.os, start, n, Marking(s, marker).runtime);
  }

  // ---------------------------------------------------------------- a boot on an unmarked image

  /** A boot on the way to a clean start: the record it found is gone, nothing is saved yet. */
  ghost predicate Clean(s: Sup, start: nat, n: nat) {
    && Staged(s.os, start, n)
    && s.loaded && s.reliable && !s.retryPending && !s.stateError && !s.clearRequested
    && s.runtime.marker.None? && s.process.None? && !s.unverified && s.pendingConvergence.None?
    && s.credential == Available
  }

  lemma RecallCleans(s: Sup, start: nat, n: nat)
    requires n > 2 && Clean(s, start, n)
    requires s.runtime.process.Some? ==> s.runtime.process.value.pid > 1 && s.runtime.process.value.group == s.runtime.process.value.pid
    ensures var t := Recall(s);
            Clean(t, start, n - 3) && t.os.forks == s.os.forks && t.runtime.desired == s.runtime.desired
  {
    if s.runtime.process.Some? {
      var r := s.runtime.process.value;
      StagedMissing(s.os, start, n, r);
      hide Inspect;
      hide ObserveAttached;
      hide Save;
      hide Staged;
      var v := Inspect(s.os, r).0;
      var u := ObserveAttached(v, r).0;
      StagedSave(u, start, n - 2, Discarded(s.(os := u)).runtime);
    } else {
      assert Staged(s.os, start, n - 3);
    }
  }

  /** The save of a boot, and the start that may follow at once. */
  lemma BootStarts(s: Sup, start: nat, n: nat)
    requires n > 4 && Clean(s, start, n) && Inv(s) && s.pendingExit.None?
    ensures var t := ConvergeSaved(s);
            if s.runtime.desired == Running then t.os.forks > s.os.forks
            else t.os.forks == s.os.forks && Startable(t, start, n - 1) && t.credential == Available
  {
    hide Inv;
    hide Staged;
    hide Save;
    hide StartNow;
    hide Startable;
    hide Calm;
    var a := BootSave(s);
    StagedSave(s.os, start, n, a.runtime);
    var t := PersistDetailed(a).0;
    SavedStartable(s, start, n);
    var c := ConvergenceTaken(t);
    if s.runtime.desired == Running {
      StartLaunches(c, start, n - 1);
    }
  }

  lemma SavedStartable(s: Sup, start: nat, n: nat)
    requires n > 4 && Clean(s, start, n) && Inv(s) && s.pendingExit.None?
    ensures var (t, outcome) := PersistDetailed(BootSave(s));
            && outcome == Durable && t.pendingConvergence.Some? && Startable(ConvergenceTaken(t), start, n - 1)
            && ConvergenceTaken(t).os.forks == s.os.forks
            && Startable(ConvergenceTaken(t).(server := ServerStopped), start, n - 1)
  {
    hide Inv;
    hide Staged;
    hide Save;
    hide Calm;
    hide Edits;
    var a := BootSave(s);
    StagedSave(s.os, start, n, a.runtime);
    BootSaveEdits(s);
    EditsInv(s, a);
    DetailedAfter(s, a);
    var t := PersistDetailed(a).0;
    CalmInv(s, t);
    var c := ConvergenceTaken(t);
    assert c.os == t.os;
    CarriedOutFollows(BooksOf(t), BooksOf(c), t.pendingConvergence.value.ticket);
    CalmerSafe(t, c);
    CalmInv(t, c);
    CalmerSafe(c, c.(server := ServerStopped));
    CalmInv(c, c.(server := ServerStopped));
  }

  /** What a Start command saves and cancels on an agent that the boot left resting. */
  lemma CommandStartable(s: Sup, start: nat, n: nat)
    requires n > 4 && Startable(s, start, n) && s.credential == Available
    ensures var (t, saved) := PersistDesired(s, Running, StartIntent);
            && saved && t.process.None? && !t.unverified && t.credential == Available && t.os.forks == s.os.forks
            && Startable(Cancelled(t, 0, t.restartAfterStop, t.groupRecovery), start, n - 1)
  {
    hide Inv;
    hide Staged;
    hide Save;
    hide Calm;
    hide Steps;
    var d := Desiring(s, Running);
    StagedSave(s.os, start, n, d.runtime);
    PersistDesiredSafe(s, Running, StartIntent);
    var t := PersistDesired(s, Running, StartIntent).0;
    var e := t.(pendingExit := None);
    StepsInv(s, e);
    var c := Cancelled(t, 0, t.restartAfterStop, t.groupRecovery);
    RebookedAccounts(e, c);
    SteadySafe(e, c);
    StepsInv(e, c);
  }

  lemma CommandStarts(s: Sup, start: nat, n: nat)
    requires n > 4 && Startable(s, start, n) && s.credential == Available
    ensures Request(s, StartIntent).0.os.forks > s.os.forks
  {
    hide Startable;
    hide PersistDesired;
    hide StartNow;
    CommandStartable(s, start, n);
    var t := PersistDesired(s, Running, StartIntent).0;
    StartLaunches(Cancelled(t, 0, t.restartAfterStop, t.groupRecovery), start, n - 1);
  }

  // ---------------------------------------------------------------- the whole boot

  /** No process was ever born at this start time or later. */
  predicate Unborn(born: set<(nat, nat)>, start: nat) {
    forall l | l in born :: l.1 < start
  }

  lemma {:induction false} FreshStart(born: set<(nat, nat)>)
    ensures exists start: nat :: Unborn(born, start)
  {
    if born == {} {
      assert Unborn(born, 0);
    } else {
      var k :| k in born;
      FreshStart(born - {k});
      var start: nat :| Unborn(born - {k}, start);
      var top := if start > k.1 then start else k.1 + 1;
      assert Unborn(born, top) by {
        forall l | l in born ensures l.1 < top {
          if l != k { assert l in born - {k}; }
        }
      }
    }
  }

  function Nine(start: nat): seq<Choice> {
    var c := Fair(start);
    [c, c, c, c, c, c, c, c, c]
  }

  function FairBoot(image: Runtime, start: nat): Event {
    Boot(true, image, 0, Nine(start))
  }

  /** The memory with which that boot looks at the record it found. */
  lemma BootCleans(s: Sup, image: Runtime, start: nat)
    requires Inv(s) && image in s.os.images && image.marker.None? && Unborn(s.os.born, start)
    ensures var f := Fresh(s.os, true, image, 0, Nine(start));
            && Clean(f, start, 8) && f.runtime == image && f.pendingExit.None? && f.os.forks == s.os.forks && Balanced(f)
            && (if image.process.Some? then Candidate(f, image.process.value) else Inv(f))
            && (image.process.Some? ==> image.process.value.pid > 1 && image.process.value.group == image.process.value.pid)
  {
    hide MemoryOk;
    var w := Reborn(s.os, true, 0, Nine(start));
    assert Staged(w, start, 9);
    StagedAsk(w, start, 9);
    FreshOk(s.os, true, image, 0, Nine(start)) by { InvParts(s); }
    hide Kernel.Ask;
    hide Staged;
    hide Candidate;
  }

  lemma FairBootStarts(s: Sup, image: Runtime, start: nat)
    requires Inv(s) && image in s.os.images && image.marker.None? && Unborn(s.os.born, start)
    ensures var t := Start(s.os, true, image, 0, Nine(start));
            if image.desired == Running then t.os.forks > s.os.forks
            else t.os.forks == s.os.forks && Startable(t, start, 4) && t.credential == Available
  {
    hide Inv;
    hide Clean;
    hide Candidate;
    hide Recall;
    hide ConvergeSaved;
    hide Startable;
    hide Kernel.Ask;
    hide Balanced;
    BootCleans(s, image, start);
    var f := Fresh(s.os, true, image, 0, Nine(start));
    assert f.loaded && f.runtime.marker.None? && f.process.None? by { CleanFacts(f, start, 8); }
    RecallCleans(f, start, 8);
    RecallSafe(f, s.os);
    var r := Recall(f);
    CleanFacts(r, start, 5);
    BootStarts(r, start, 5);
  }

  lemma CleanFacts(s: Sup, start: nat, n: nat)
    requires Clean(s, start, n)
    ensures s.loaded && s.runtime.marker.None? && s.process.None? && !s.unverified
  {
  }

  lemma ScriptedStartable(t: Sup, start: nat)
    requires Startable(t, start, 4) && t.credential == Available
    ensures var a := Scripted(t, Nine(start));
            Startable(a, start, 9) && a.credential == Available && a.os.forks == t.os.forks
  {
    ScriptedSafe(t, Nine(start));
    CalmInv(t, Scripted(t, Nine(start)));
    hide Inv;
    hide Calm;
    assert Staged(Scripted(t, Nine(start)).os, start, 9);
  }

  lemma StartAfterBoot(t: Sup, start: nat)
    requires Startable(t, start, 4) && t.credential == Available && !t.os.dead
    ensures Step(t, Handle(Act(StartIntent), Nine(start))).os.forks > t.os.forks
  {
    hide Startable;
    hide Request;
    hide Scripted;
    ScriptedStartable(t, start);
    CommandStarts(Scripted(t, Nine(start)), start, 9);
  }

  lemma StartableLives(t: Sup, start: nat, n: nat)
    requires Startable(t, start, n)
    ensures !t.os.dead
  {
    hide Inv;
  }

  /** A boot that reads an unmarked image may launch, at once or on the next Start. */
  lemma UnmarkedLaunches(s: Sup, image: Runtime)
    requires Inv(s) && image in s.os.images && image.marker.None?
    ensures exists events :: !Frozen(s.os, Run(s, events).os)
  {
    hide Inv;
    hide Start;
    hide Startable;
    FreshStart(s.os.born);
    var start: nat :| Unborn(s.os.born, start);
    FairBootStarts(s, image, start);
    LaunchingRun(s, image, start);
  }

  lemma LaunchingRun(s: Sup, image: Runtime, start: nat)
    requires image in s.os.images
    requires var t := Start(s.os, true, image, 0, Nine(start));
             if image.desired == Running then t.os.forks > s.os.forks
             else t.os.forks == s.os.forks && Startable(t, start, 4) && t.credential == Available
    ensures exists events :: !Frozen(s.os, Run(s, events).os)
  {
    hide Start;
    hide Startable;
    hide HandleCommand;
    var boot := FairBoot(image, start);
    var t := Step(s, boot);
    if image.desired == Running {
      assert [boot][1..] == [];
      assert Run(s, [boot]) == Run(t, []);
      assert !Frozen(s.os, Run(s, [boot]).os);
    } else {
      var command := Handle(Act(StartIntent), Nine(start));
      StartableLives(t, start, 4);
      StartAfterBoot(t, start);
      assert [boot, command][1..] == [command] && [command][1..] == [];
      assert Run(s, [boot, command]) == Run(t, [command]) == Run(Step(t, command), []);
      assert !Frozen(s.os, Run(s, [boot, command]).os);
    }
  }

  /** An inherited marker blocks launches and signals across every reboot exactly when every
      image a crash could expose is marked. */
  lemma MarkerOutlivesReboots(s: Sup)
    requires Inv(s) && Inherited(s)
    ensures (forall events :: Frozen(s.os, Run(s, events).os)) <==> AllMarked(s.os.images)
  {
    hide Inv;
    hide Run;
    if AllMarked(s.os.images) {
      forall events ensures Frozen(s.os, Run(s, events).os) {
        InheritedMarkerBlocks(s, events);
      }
    } else {
      var image :| image in s.os.images && image.marker.None?;
      UnmarkedLaunches(s, image);
    }
  }
}
