/** What the commands achieve where every call succeeds: a start runs OpenCode, a stop ends it, a
    restart and a recovery run it again. The counterpart of the safety theorems, for every
    configuration, process and moment. */
module AgentProgress {
  import opened Records
  import opened Kernel
  import opened ProcessGroup
  import opened ProcessIdentity
  import opened ProcessCleanup
  import opened ManagedProcesses
  import opened SupervisorState
  import opened RuntimeDurability
  import opened Lifecycle
  import opened ProcessExit
  import opened Reattach
  import opened Agent

  // ---------------------------------------------------------------- a world that helps

  /** Every call succeeds, and the environment does nothing to an owned child. */
  predicate Helpful(c: Choice) {
    && !c.crash && !c.fault && !c.lag && c.outcome == Durable && c.procs == map[] && c.members == []
    && c.credential == Available
    && c.config.Some? && c.executable == c.config.value.executable && c.child > 1
  }

  /** The next `n` calls are answered by `c`. */
  ghost predicate Helps(w: World, c: Choice, n: int) {
    && !w.dead && w.readable && Helpful(c) && w.ownGroup != c.child
    && |w.script| >= n && (forall i :: 0 <= i < n ==> w.script[i] == c)
  }

  /** The world after a call that only observes. */
  function Later(w: World): World
    requires w.script != []
  {
    w.(script := w.script[1..], now := w.now + w.script[0].elapsed, lastSeen := None, emptySeen := None, dead := false)
  }

  lemma LaterHelps(w: World, c: Choice, n: nat)
    requires n > 0 && Helps(w, c, n)
    ensures Helps(Later(w), c, n - 1)
  {
    assert forall i :: 0 <= i < n - 1 ==> Later(w).script[i] == w.script[i + 1];
  }

  /** The child `r`, alive or not, is the agent's own and not refused. */
  predicate Owns(w: World, r: Record, alive: bool) {
    && w.children == {r.pid} && r.pid in w.procs && r.pid > 1 && w.ownGroup != r.pid && r.group == r.pid && !r.unconfirmed
    && w.procs[r.pid].start == r.start && w.procs[r.pid].ours && w.procs[r.pid].group == r.pid && w.procs[r.pid].alive == alive
    && w.procs[r.pid].executable == Some(r.executable)
    && r.pid !in w.refused && r.pid !in w.terminated
  }

  lemma HeldSettle(w: World, c: Choice, n: nat, r: Record, alive: bool)
    requires n > 0 && Helps(w, c, n) && Owns(w, r, alive)
    ensures Settle(w) == (Later(w), c) && Helps(Later(w), c, n - 1) && Owns(Later(w), r, alive)
  {
    LaterHelps(w, c, n);
    assert !EnvironmentMay(w, map[]) by {
      assert r.pid in w.children && r.pid in w.procs;
    }
    hide EnvironmentMay;
  }

  /** No process is the agent's, and the next child is a new one. */
  predicate Vacant(w: World, c: Choice) {
    w.children == {} && (c.child, c.start) !in w.born
  }

  lemma VacantSettle(w: World, c: Choice, n: nat)
    requires n > 0 && Helps(w, c, n) && Vacant(w, c)
    ensures Settle(w) == (Later(w).(procs := map[]), c)
    ensures Helps(Later(w).(procs := map[]), c, n - 1) && Vacant(Later(w).(procs := map[]), c)
  {
    LaterHelps(w, c, n);
    assert EnvironmentMay(w, map[]);
    hide EnvironmentMay;
    assert Settle(w).0.born == w.born;
  }

  // ---------------------------------------------------------------- single calls

  lemma HeldSnapshot(w: World, c: Choice, n: nat, r: Record)
    requires n > 0 && Helps(w, c, n) && Owns(w, r, true)
    ensures var s := Snapshot(r.pid, r.start, true, r.pid, Some(r.executable));
            TakeSnapshot(w, r.pid) == (Later(w).(lastSeen := Some(s)), Seen(s))
  {
    HeldSettle(w, c, n, r, true);
    hide Settle;
  }

  lemma HeldSave(w: World, c: Choice, n: nat, r: Record, alive: bool, runtime: Runtime)
    requires n > 0 && Helps(w, c, n) && Owns(w, r, alive)
    ensures Save(w, runtime) == (Later(w).(images := {runtime}), Durable)
  {
    HeldSettle(w, c, n, r, alive);
    hide Settle;
  }

  lemma VacantSave(w: World, c: Choice, n: nat, runtime: Runtime)
    requires n > 0 && Helps(w, c, n) && Vacant(w, c)
    ensures Save(w, runtime) == (Later(w).(procs := map[], images := {runtime}), Durable)
  {
    VacantSettle(w, c, n);
    hide Settle;
  }

  lemma VacantAsk(w: World, c: Choice, n: nat)
    requires n > 0 && Helps(w, c, n) && Vacant(w, c)
    ensures Kernel.Ask(w) == (Later(w).(procs := map[]), c)
  {
    VacantSettle(w, c, n);
    hide Settle;
  }

  /** The child that a fork makes. */
  function Child(c: Choice): Proc {
    Proc(c.start, true, c.child, Some(c.executable), true)
  }

  lemma VacantFork(w: World, c: Choice, n: nat, runtime: Runtime)
    requires n > 0 && Helps(w, c, n) && Vacant(w, c) && w.exitSeen == {} && w.refused == {} && w.terminated == {}
    ensures var (v, forked) := Fork(w, runtime);
            && forked == Some(c.child) && Helps(v, c, n - 1) && v.forks == w.forks + 1 && v.signals == w.signals
            && Owns(v, Record(c.child, c.child, c.start, c.executable, None, 0, false), true)
            && v.images == w.images && v.exitSeen == {} && v.refused == {} && v.terminated == {}
            && v.now == w.now + c.elapsed
  {
    VacantSettle(w, c, n);
    hide Settle;
    LaterHelps(w, c, n);
  }

  // ---------------------------------------------------------------- an owned child

  /** A signal that is attempted, and reaches the group of the child. */
  predicate Signaled(w: World, v: World, r: Record) {
    && v.signals == w.signals + 1 && v.struck == w.struck + {(r.pid, r.start)}
    && v.forks == w.forks && v.images == w.images && v.born == w.born && v.leaders == w.leaders
  }

  lemma HeldGroup(w: World, c: Choice, n: nat, r: Record, alive: bool)
    requires n > 0 && Helps(w, c, n) && Owns(w, r, alive)
    ensures ObserveMembers(w, r.pid, Some(r.pid)) == (Later(w), Empty)
  {
    HeldSettle(w, c, n, r, alive);
    hide Settle;
  }

  lemma HeldSend(w: World, c: Choice, n: nat, r: Record, signal: Signal, cause: Cause)
    requires n > 0 && Helps(w, c, n) && Owns(w, r, true) && cause != AfterExit
    ensures var (v, sent) := SendSignal(w, r.pid, signal, cause);
            sent && Signaled(w, v, r) && Helps(v, c, n - 1) && Owns(v, r, true) && v.now == w.now + c.elapsed
  {
    HeldSettle(w, c, n, r, true);
    hide Settle;
    LaterHelps(w, c, n);
  }

  /** A command's signal to a live child that was never refused is sent. */
  lemma HeldSignal(w: World, c: Choice, n: nat, r: Record, signal: Signal, cause: Cause)
    requires n > 2 && Helps(w, c, n) && Owns(w, r, true) && cause != AfterExit
    ensures var (v, sent) := SignalManaged(w, Managed.Child(Owned(r.pid, r, None, false)), signal, cause);
            sent && Signaled(w, v, r) && Helps(v, c, n - 3) && Owns(v, r, true) && v.now == w.now + 3 * c.elapsed
  {
    HeldSnapshot(w, c, n, r);
    var v := Later(w).(lastSeen := Some(Snapshot(r.pid, r.start, true, r.pid, Some(r.executable))));
    LaterHelps(w, c, n);
    HeldGroup(v, c, n - 1, r, true);
    LaterHelps(v, c, n - 1);
    HeldSend(Later(v), c, n - 2, r, signal, cause);
    hide TakeSnapshot;
    hide ObserveMembers;
    hide SendSignal;
    assert ValidateLiveLeader(w, r, r.pid) == (v, true);
  }

  /** A child that exited is seen, its empty group too, and it is reaped. */
  lemma HeldExit(w: World, c: Choice, n: nat, r: Record)
    requires n > 3 && Helps(w, c, n) && Owns(w, r, false)
    ensures var o := Owned(r.pid, r, None, false);
            var (v, m, poll) := PollOwned(w, o);
            && m == o && poll.Gone? && poll.reason != IdentityChanged
            && Helps(v, c, n - 4) && v.children == {} && v.forks == w.forks && v.signals == w.signals && v.images == w.images
            && v.born == w.born && v.exitSeen == w.exitSeen - {r.pid} && v.refused == w.refused && v.terminated == w.terminated
            && v.now == w.now + 4 * c.elapsed && v.struck == w.struck
  {
    HeldSettle(w, c, n, r, false);
    LaterHelps(w, c, n);
    var a := Later(w).(exitSeen := w.exitSeen + {r.pid});
    assert PeekChildExit(w, r.pid) == (a, HasExited(c.reason));
    HeldSettle(a, c, n - 1, r, false);
    LaterHelps(a, c, n - 1);
    var b := Later(a);
    assert TakeSnapshot(a, r.pid) == (b, NoSuchProcess);
    HeldGroup(b, c, n - 2, r, false);
    LaterHelps(b, c, n - 2);
    var d := Later(b).(emptySeen := Some(r.pid));
    assert ObserveOwned(b, r, r.pid) == (d, Empty);
    HeldReap(d, c, n - 3, r);
    hide Settle;
    hide PeekChildExit;
    hide TakeSnapshot;
    hide ObserveOwned;
    hide Reap;
    assert OwnedIdentity(a, r) == (b, Absent);
  }

  lemma HeldReap(w: World, c: Choice, n: nat, r: Record)
    requires n > 0 && Helps(w, c, n) && Owns(w, r, false) && w.emptySeen == Some(r.pid) && r.pid in w.exitSeen
    ensures var (v, exit) := Reap(w, r.pid);
            && exit.Some? && exit.value != IdentityChanged
            && Helps(v, c, n - 1) && v.children == {} && v.forks == w.forks && v.signals == w.signals && v.images == w.images
            && v.born == w.born && v.exitSeen == w.exitSeen - {r.pid} && v.refused == w.refused && v.terminated == w.terminated
            && v.now == w.now + c.elapsed && v.struck == w.struck
  {
    HeldSettle(w, c, n, r, false);
    LaterHelps(w, c, n);
    hide Settle;
    assert w.children - {r.pid} == {};
    assert w.refused - {r.pid} == w.refused && w.terminated - {r.pid} == w.terminated;
  }

  // ---------------------------------------------------------------- a start

  /** The record of the child that the next fork makes, for the configuration it is made with. */
  function NewRecord(c: Choice): Record
    requires c.config.Some?
  {
    Record(c.child, c.child, c.start, c.executable, None, c.config.value.fingerprint, false)
  }

  lemma SpawnRuns(w: World, c: Choice, n: nat, runtime: Runtime)
    requires n > 3 && Helps(w, c, n) && Vacant(w, c) && w.exitSeen == {} && w.refused == {} && w.terminated == {} && c.endpoint == Free
    ensures var (v, result) := Spawn(w, c.config.value, runtime);
            && result == Started(Managed.Child(Owned(c.child, NewRecord(c), None, false)))
            && Helps(v, c, n - 4) && Owns(v, NewRecord(c), true) && v.forks == w.forks + 1 && v.signals == w.signals
            && v.images == w.images && v.now >= w.now
  {
    VacantAsk(w, c, n);
    LaterHelps(w, c, n);
    var a := Later(w).(procs := map[]);
    VacantFork(a, c, n - 1, runtime);
    var (b, forked) := Fork(a, runtime);
    WaitConfirms(b, c, n - 2);
    hide Kernel.Ask;
    hide Fork;
    hide WaitForSnapshot;
  }

  lemma WaitConfirms(w: World, c: Choice, n: nat)
    requires n > 1 && Helps(w, c, n) && Owns(w, Record(c.child, c.child, c.start, c.executable, None, 0, false), true)
    ensures var (v, seen) := WaitForSnapshot(w, c.child, c.executable, SNAPSHOT_TRIES, None);
            && seen == Confirmed(Snapshot(c.child, c.start, true, c.child, Some(c.executable)))
            && Helps(v, c, n - 2) && Owns(v, NewRecord(c), true) && v.forks == w.forks && v.signals == w.signals && v.images == w.images
            && v.now >= w.now
  {
    var r := Record(c.child, c.child, c.start, c.executable, None, 0, false);
    HeldSnapshot(w, c, n, r);
    LaterHelps(w, c, n);
    var s := Snapshot(c.child, c.start, true, c.child, Some(c.executable));
    var a := Sleep(Later(w).(lastSeen := Some(s)), IDENTITY_SETTLE);
    assert Helps(a, c, n - 1) && Owns(a, r, true);
    HeldSnapshot(a, c, n - 1, r);
    LaterHelps(a, c, n - 1);
    hide TakeSnapshot;
  }

  /** An agent that runs nothing, with its state durable and nothing left to do. */
  ghost predicate Idle(s: Sup, c: Choice, n: int) {
    && Helps(s.os, c, n) && Vacant(s.os, c) && s.os.exitSeen == {} && s.os.refused == {} && s.os.terminated == {}
    && s.loaded && s.reliable && !s.retryPending && !s.stateError && !s.clearRequested
    && s.runtime.marker.None? && s.process.None? && !s.unverified
  }

  /** OpenCode runs as the child `r` of the agent, in this configuration, and the state file
      says so and nothing else. */
  ghost predicate Serves(t: Sup, c: Choice, n: nat, r: Record, config: Config) {
    && Helps(t.os, c, n) && Owns(t.os, r, true)
    && t.process == Some(Managed.Child(Owned(r.pid, r, None, false))) && t.active == Some(config)
    && t.runtime.process == Some(r) && t.runtime.marker.None? && t.os.images == {t.runtime}
    && t.loaded && t.reliable && !t.retryPending && !t.stateError && !t.clearRequested && !t.unverified
  }

  lemma BeginLaunchMarks(s: Sup, c: Choice, n: nat, marker: Marker)
    requires n > 0 && Idle(s, c, n)
    ensures var (t, marked) := BeginLaunch(s, marker);
            && marked && Helps(t.os, c, n - 1) && Vacant(t.os, c) && t.os.exitSeen == {} && t.os.refused == {} && t.os.terminated == {}
            && t.os.forks == s.os.forks && t.os.signals == s.os.signals && t.os.now >= s.os.now
            && t == s.(os := t.os, runtime := s.runtime.(marker := Some(marker)), reliable := true, retryPending := false,
                       stateError := false, retryAt := None, clearRequested := false)
  {
    VacantSave(s.os, c, n, s.runtime.(marker := Some(marker)));
    LaterHelps(s.os, c, n);
    hide Save;
    var m := Marking(s, marker);
    var (t, outcome) := PersistDetailed(m);
    assert outcome == Durable && BeginLaunch(s, marker) == (t, true);
  }

  lemma CommitServes(s: Sup, c: Choice, n: nat)
    requires n > 0 && Helps(s.os, c, n) && Owns(s.os, NewRecord(c), true) && s.loaded && !s.retryPending && !s.unverified
    ensures var r := NewRecord(c);
            var (t, saved) := CommitSpawned(s, Managed.Child(Owned(c.child, r, None, false)));
            && saved && Serves(t.(active := c.config), c, n - 1, r, c.config.value) && t.os.forks == s.os.forks && t.os.signals == s.os.signals
            && t.attempt == s.attempt && t.nextRestart == s.nextRestart && t.restartAfterStop == s.restartAfterStop
            && t.runtime == s.runtime.(process := Some(r), marker := None) && t.os.now >= s.os.now
            && t.recoveryIncident == s.recoveryIncident
  {
    var r := NewRecord(c);
    var m := Managed.Child(Owned(c.child, r, None, false));
    var a := s.(runtime := s.runtime.(process := Some(m.Rec()), marker := None), clearRequested := true, process := Some(m));
    HeldSave(s.os, c, n, r, true, a.runtime);
    LaterHelps(s.os, c, n);
    hide Save;
    var (t, outcome) := PersistDetailed(a);
    assert t == Noted(a, Later(s.os).(images := {a.runtime}), Durable);
    assert CommitSpawned(s, m) == (t, true);
  }

  lemma RefreshIdles(s: Sup, c: Choice, n: nat)
    requires n > 0 && Idle(s, c, n)
    ensures var a := RefreshConfig(s);
            && Idle(a, c, n - 1) && a.latest == c.config && a.credential == Available && a.reading == c.reading
            && a.os.forks == s.os.forks && a.os.signals == s.os.signals && a.os.now >= s.os.now
            && a == s.(os := a.os, credential := Available, reading := c.reading, latest := c.config, stale := false)
  {
    VacantAsk(s.os, c, n);
    LaterHelps(s.os, c, n);
    hide Kernel.Ask;
  }

  /** What a run of OpenCode leaves of the memory, as far as later steps look at it. */
  predicate Runs(s: Sup, t: Sup) {
    && t.os.forks == s.os.forks + 1 && t.os.signals == s.os.signals && t.server == Starting && t.os.now >= s.os.now
    && t.started == Some(t.os.now) && t.healthFailures == 0 && t.nextPortRetry.None? && t.portDeadline.None?
    && t.networkDeadline.None? && t.pendingTrigger.None? && !t.groupRecovery
    && t.attempt == s.attempt && t.nextRestart == s.nextRestart && t.restartAfterStop == s.restartAfterStop
    && t.runtime.desired == s.runtime.desired && t.recoveryIncident == s.recoveryIncident
  }

  lemma IdleHelped(s: Sup, c: Choice, n: int)
    requires Idle(s, c, n)
    ensures Helpful(c)
  {
  }

  lemma LaunchRuns(s: Sup, trigger: Trigger, c: Choice, n: nat)
    requires n > 5 && Idle(s, c, n) && c.endpoint == Free
    ensures var t := Lifecycle.Launch(s, trigger, c.config.value);
            Serves(t, c, n - 6, NewRecord(c), c.config.value) && Runs(s, t)
  {
    hide Helps;
    hide Owns;
    hide Vacant;
    hide Serves;
    hide BeginLaunch;
    hide Spawn;
    hide CommitSpawned;
    IdleHelped(s, c, n);
    var config := c.config.value;
    var marker := Marker(config.executable, config.fingerprint);
    BeginLaunchMarks(s, c, n, marker);
    var (b, marked) := BeginLaunch(s, marker);
    SpawnRuns(b.os, c, n - 1, b.runtime);
    var (v, result) := Spawn(b.os, config, b.runtime);
    var d := b.(os := v);
    CommitServes(d, c, n - 5);
    var (e, saved) := CommitSpawned(d, result.process);
    assert Lifecycle.Launch(s, trigger, config) == RunningNow(e, config, true);
    hide Lifecycle.Launch;
    RunningServes(e, c, n - 6);
  }

  lemma RunningServes(e: Sup, c: Choice, n: nat)
    requires Helpful(c) && Serves(e.(active := c.config), c, n, NewRecord(c), c.config.value)
    ensures Serves(RunningNow(e, c.config.value, true), c, n, NewRecord(c), c.config.value)
  {
  }

  /** A start where nothing stands in its way runs OpenCode, once, in the configuration it
      loads, and leaves the record as the only image a crash could expose. */
  lemma StartRuns(s: Sup, trigger: Trigger, c: Choice, n: nat)
    requires n > 6 && Idle(s, c, n) && c.endpoint == Free
    ensures var t := StartNow(s, trigger);
            Serves(t, c, n - 7, NewRecord(c), c.config.value) && Runs(s, t)
  {
    hide RefreshConfig;
    hide Lifecycle.Launch;
    hide StartNow;
    hide Helps;
    hide Vacant;
    hide Serves;
    IdleHelped(s, c, n);
    RefreshIdles(s, c, n);
    var a := RefreshConfig(s);
    LaunchRuns(a, trigger, c, n - 1);
    StartLaunches(s, trigger, c, n);
  }

  lemma StartLaunches(s: Sup, trigger: Trigger, c: Choice, n: nat)
    requires n > 0 && Idle(s, c, n) && RefreshConfig(s).latest == c.config && RefreshConfig(s).credential == Available
    ensures StartNow(s, trigger) == Lifecycle.Launch(RefreshConfig(s), trigger, c.config.value)
  {
    hide RefreshConfig;
    hide Lifecycle.Launch;
    assert RuntimeStateReady(s) == (s, true);
  }

  // ---------------------------------------------------------------- commands to a running process

  /** A command that is saved durably forgets the older ones. */
  lemma DesireServes(s: Sup, c: Choice, n: nat, r: Record, config: Config, desired: DesiredState, intent: Intent)
    requires n > 0 && Serves(s, c, n, r, config)
    ensures var (t, saved) := PersistDesired(s, desired, intent);
            && saved && Serves(t, c, n - 1, r, config) && t.runtime == s.runtime.(desired := desired)
            && t == s.(os := t.os, runtime := t.runtime, retryAt := None, pendingIntent := None, pendingConvergence := None,
                       clearRequested := t.clearRequested, reliable := t.reliable, retryPending := t.retryPending, stateError := t.stateError)
            && t.os.forks == s.os.forks && t.os.signals == s.os.signals && t.os.struck == s.os.struck && t.os.now >= s.os.now
  {
    var d := Desiring(s, desired);
    HeldSave(s.os, c, n, r, true, d.runtime);
    LaterHelps(s.os, c, n);
    hide Save;
    var (t, outcome) := PersistDetailed(d);
    assert t == Noted(d, Later(s.os).(images := {d.runtime}), Durable);
    assert PersistDesired(s, desired, intent) == (Forgotten(t), true);
  }

  /** A stop is on its way to the process: its group got one signal, and the clock runs. */
  predicate Asked(s: Sup, t: Sup, r: Record, restarting: bool) {
    && t.os.signals == s.os.signals + 1 && (r.pid, r.start) in t.os.struck && t.os.forks == s.os.forks
    && t.server == Stopping && t.stopDeadline == Some(t.os.now + GRACEFUL_STOP) && t.restartAfterStop == restarting
    && t.nextRestart.None? && t.nextPortRetry.None? && t.pendingExit.None? && t.pendingIntent.None? && t.pendingConvergence.None?
    && !t.groupRecovery
  }

  lemma StopAsks(s: Sup, c: Choice, n: nat, r: Record, config: Config, attempt: nat, restarting: bool)
    requires n > 2 && Serves(s, c, n, r, config) && s.pendingIntent.None?
    ensures var t := BeginStop(Cancelled(s, attempt, restarting, false), restarting);
            Serves(t, c, n - 3, r, config) && Asked(s, t, r, restarting) && t.runtime == s.runtime && t.attempt == attempt
  {
    HeldSignal(s.os, c, n, r, Terminate, StopRequest);
    hide SignalManaged;
    hide Helps;
    hide Owns;
    SignalIs(s, attempt, restarting);
    hide BeginStop;
    assert (r.pid, r.start) in s.os.struck + {(r.pid, r.start)};
  }

  lemma SignalIs(s: Sup, attempt: nat, restarting: bool)
    requires s.process.Some? && s.runtime.marker.None? && !s.clearRequested
    requires SignalManaged(s.os, s.process.value, Terminate, StopRequest).1
    ensures var v := SignalManaged(s.os, s.process.value, Terminate, StopRequest).0;
            BeginStop(Cancelled(s, attempt, restarting, false), restarting) ==
              Cancelled(s, attempt, restarting, false).(os := v, server := Stopping, stopDeadline := Some(v.now + GRACEFUL_STOP),
                                                        restartAfterStop := restarting)
  {
    hide SignalManaged;
    var a := Cancelled(s, attempt, restarting, false);
    assert a.os == s.os && a.process == s.process && a.runtime == s.runtime && a.clearRequested == s.clearRequested;
    hide Cancelled;
    assert BeginStop(a, restarting) == SignalStop(a, restarting);
    hide BeginStop;
  }

  /** Stop asks the running process to end, and its desired state is the only one on disk. */
  lemma StopCommand(s: Sup, c: Choice, n: nat, r: Record, config: Config)
    requires n > 3 && Serves(s, c, n, r, config)
    ensures var (t, ok) := HandleCommand(s, Act(StopIntent));
            && ok && Serves(t, c, n - 4, r, config) && Asked(s, t, r, false) && t.runtime == s.runtime.(desired := Stopped)
  {
    DesireServes(s, c, n, r, config, Stopped, StopIntent);
    var (a, saved) := PersistDesired(s, Stopped, StopIntent);
    StopAsks(a, c, n - 1, r, config, a.attempt, false);
    hide PersistDesired;
    hide BeginStop;
    var t := BeginStop(Cancelled(a, a.attempt, false, false), false);
    assert ApplyStop(a) == (t, true);
    assert Request(s, StopIntent) == ApplyStop(a);
  }

  /** Restart asks it to end too, and remembers that it is to run again. */
  lemma RestartCommand(s: Sup, c: Choice, n: nat, r: Record, config: Config)
    requires n > 3 && Serves(s, c, n, r, config) && s.credential != AccessPending
    ensures var (t, ok) := HandleCommand(s, Act(RestartIntent));
            && ok && Serves(t, c, n - 4, r, config) && Asked(s, t, r, true) && t.runtime == s.runtime.(desired := Running)
            && t.attempt == 0
  {
    DesireServes(s, c, n, r, config, Running, RestartIntent);
    var (a, saved) := PersistDesired(s, Running, RestartIntent);
    StopAsks(a, c, n - 1, r, config, 0, true);
    hide PersistDesired;
    hide BeginStop;
    var t := BeginStop(Cancelled(a, 0, true, false), true);
    assert RestartAfresh(a) == (t, true);
    assert ApplyRestart(a) == (t, true);
    assert Request(s, RestartIntent) == ApplyRestart(a);
  }

  /** A start of what runs already only drops what was put off. */
  lemma StartCommand(s: Sup, c: Choice, n: nat, r: Record, config: Config)
    requires n > 0 && Serves(s, c, n, r, config)
    ensures var (t, ok) := HandleCommand(s, Act(StartIntent));
            && ok && Serves(t, c, n - 1, r, config) && t.os.signals == s.os.signals && t.os.forks == s.os.forks
            && t.runtime == s.runtime.(desired := Running) && t.server == s.server
            && t.pendingExit.None? && t.pendingIntent.None? && t.pendingConvergence.None?
  {
    DesireServes(s, c, n, r, config, Running, StartIntent);
    var (a, saved) := PersistDesired(s, Running, StartIntent);
    hide PersistDesired;
    assert ApplyStart(a) == (a.(pendingExit := None, pendingConvergence := None), true);
    assert Request(s, StartIntent) == ApplyStart(a);
  }

  /** A stop that takes too long waits for the user, who may wait again, or kill the group. */
  lemma ForceCommand(s: Sup, c: Choice, n: nat, r: Record, config: Config)
    requires n > 2 && Serves(s, c, n, r, config) && s.server == StopTimedOut
    ensures var (t, ok) := HandleCommand(s, ForceStopping);
            && ok && Serves(t, c, n - 3, r, config) && t.server == Stopping && t.stopDeadline.None?
            && t.os.signals == s.os.signals + 1 && (r.pid, r.start) in t.os.struck && t.runtime == s.runtime
            && t.restartAfterStop == s.restartAfterStop
    ensures var (t, ok) := HandleCommand(s, ContinueStopping);
            ok && t == s.(server := Stopping, stopDeadline := Some(s.os.now + GRACEFUL_STOP))
  {
    HeldSignal(s.os, c, n, r, Kill, ForceRequest);
    hide SignalManaged;
    var (v, sent) := SignalManaged(s.os, s.process.value, Kill, ForceRequest);
    assert ForceStop(s) == (s.(os := v, server := Stopping, stopDeadline := None), true);
    assert ContinueStop(s) == (s.(server := Stopping, stopDeadline := Some(s.os.now + GRACEFUL_STOP)), true);
  }

  // ---------------------------------------------------------------- the end of a process

  /** The child has exited since: the same memory, and a zombie. */
  ghost predicate Exited(t: Sup, c: Choice, n: nat, r: Record) {
    && Helps(t.os, c, n) && Owns(t.os, r, false) && (c.child, c.start) !in t.os.born
    && t.os.exitSeen == {} && t.os.refused == {} && t.os.terminated == {}
    && t.process == Some(Managed.Child(Owned(r.pid, r, None, false)))
    && t.runtime.process == Some(r) && t.runtime.marker.None?
    && t.loaded && t.reliable && !t.retryPending && !t.stateError && !t.clearRequested && !t.unverified
  }

  lemma NoUpgrade(s: Sup, o: Owned)
    requires s.process == Some(Managed.Child(o)) && !o.record.unconfirmed
    ensures PollProcess(s) == ObserveExit(s)
  {
    hide ObserveExit;
    assert ConfirmIdentity(s.os, s.process.value) == (s.os, s.process.value, false);
    hide ConfirmIdentity;
    ReseenSame(s);
    assert UpgradeIdentity(s) == (s, true);
    hide UpgradeIdentity;
  }

  lemma ReseenSame(s: Sup)
    requires s.process.Some?
    ensures Reseen(s, s.os, s.process.value) == s
  {
  }

  /** The exited child is reaped, and its exit completed. */
  lemma ExitObserved(s: Sup, c: Choice, n: nat, r: Record)
    requires n > 3 && Exited(s, c, n, r)
    ensures var (v, m, poll) := PollOwned(s.os, Owned(r.pid, r, None, false));
            PollProcess(s) == CompleteExit(s.(os := v), ExitNote(StoppingNow(s), poll.reason))
  {
    HeldExit(s.os, c, n, r);
    NoUpgrade(s, Owned(r.pid, r, None, false));
    hide PollProcess;
    hide PollOwned;
    hide CompleteExit;
    hide Helps;
    var (v, m, poll) := PollOwned(s.os, Owned(r.pid, r, None, false));
    assert PollExit(s.os, s.process.value) == (v, s.process.value, poll);
    hide PollExit;
    assert Reseen(s, v, s.process.value) == s.(os := v);
  }

  lemma CompletesDurably(s: Sup, note: ExitNote)
    requires PersistDetailed(Cleared(s)).1 == Durable
    ensures CompleteExit(s, note) == ResumeAfterExit(PersistDetailed(Cleared(s)).0, note)
  {
    hide PersistDetailed;
    hide ResumeAfterExit;
  }

  /** What a poll does with an exited child: it is reaped, its record cleared, and the agent
      goes on with what the exit means. */
  lemma ExitCompletes(s: Sup, c: Choice, n: nat, r: Record)
    requires n > 4 && Exited(s, c, n, r)
    ensures exists t: Sup, reason: ExitReason :: Completes(s, c, n, t, reason)
  {
    HeldExit(s.os, c, n, r);
    ExitObserved(s, c, n, r);
    hide PollOwned;
    hide PollProcess;
    hide PersistDetailed;
    hide CompleteExit;
    hide ResumeAfterExit;
    hide Helps;
    hide Owns;
    var (v, m, poll) := PollOwned(s.os, Owned(r.pid, r, None, false));
    var a := s.(os := v);
    ClearSaves(a, c, n - 4);
    CompletesDurably(a, ExitNote(StoppingNow(s), poll.reason));
    hide Idle;
    var t := PersistDetailed(Cleared(a)).0;
    assert Completes(s, c, n, t, poll.reason);
  }

  /** The poll completes the exit, and goes on from `t`. */
  ghost predicate Completes(s: Sup, c: Choice, n: nat, t: Sup, reason: ExitReason) {
    && PollProcess(s) == ResumeAfterExit(t, ExitNote(StoppingNow(s), reason))
    && Idle(t, c, n - 5) && t.runtime == s.runtime.(process := None) && t.os.images == {t.runtime}
    && t.os.forks == s.os.forks && t.os.signals == s.os.signals && t.os.now >= s.os.now && Kept(s, t)
  }

  /** What clearing a process leaves alone. */
  predicate Kept(s: Sup, t: Sup) {
    && t.attempt == s.attempt && t.nextRestart == s.nextRestart && t.restartAfterStop == s.restartAfterStop
    && t.groupRecovery == s.groupRecovery && t.recoveryIncident == s.recoveryIncident && t.server == s.server
    && t.pendingExit == s.pendingExit
  }

  lemma ClearSaves(a: Sup, c: Choice, n: nat)
    requires n > 0 && Helps(a.os, c, n) && Vacant(a.os, c) && a.os.exitSeen == {} && a.os.refused == {} && a.os.terminated == {}
    requires a.loaded && a.runtime.marker.None? && !a.clearRequested
    ensures var (t, outcome) := PersistDetailed(Cleared(a));
            && outcome == Durable && Idle(t, c, n - 1) && t.runtime == a.runtime.(process := None) && t.os.images == {t.runtime}
            && t.os.forks == a.os.forks && t.os.signals == a.os.signals && t.os.now >= a.os.now && Kept(a, t)
  {
    VacantSave(a.os, c, n, Cleared(a).runtime);
    LaterHelps(a.os, c, n);
    hide Save;
    var t := PersistDetailed(Cleared(a)).0;
    assert t == Noted(Cleared(a), Later(a.os).(procs := map[], images := {Cleared(a).runtime}), Durable);
  }

  /** After a stop the exit ends in `Stopped`, with no process in memory or on disk, and nothing
      that would start one. */
  lemma StopEnds(s: Sup, c: Choice, n: nat, r: Record)
    requires n > 4 && Exited(s, c, n, r) && StoppingNow(s) && s.runtime.desired == Stopped
    ensures var t := PollProcess(s);
            && t.server == ServerStopped && t.process.None? && t.os.images == {s.runtime.(process := None)}
            && t.nextRestart.None? && !t.restartAfterStop && t.os.forks == s.os.forks && t.os.signals == s.os.signals
  {
    hide PollProcess;
    ExitCompletes(s, c, n, r);
  }

  /** After a restart the exit runs OpenCode again. */
  lemma RestartRuns(s: Sup, c: Choice, n: nat, r: Record)
    requires n > 11 && Exited(s, c, n, r) && c.endpoint == Free
    requires StoppingNow(s) && s.runtime.desired == Running && s.restartAfterStop && !s.groupRecovery
    ensures var t := PollProcess(s);
            && Serves(t, c, n - 12, NewRecord(c), c.config.value) && t.server == Starting && !t.restartAfterStop
            && t.os.forks == s.os.forks + 1 && t.runtime.desired == Running
  {
    hide PollProcess;
    hide StartNow;
    ExitCompletes(s, c, n, r);
    var t: Sup, reason: ExitReason :| Completes(s, c, n, t, reason);
    var u := t.(restartAfterStop := false);
    assert Idle(u, c, n - 5);
    StartRuns(u, AfterStop, c, n - 5);
    assert ResumeAfterExit(t, ExitNote(true, reason)) == StartNow(u, AfterStop);
  }

  // ---------------------------------------------------------------- recovery

  /** An agent that waits for its recovery timer. */
  ghost predicate Waits(s: Sup, c: Choice, n: nat) {
    && Idle(s, c, n) && s.nextRestart.Some?
    && s.pendingIntent.None? && s.pendingExit.None? && s.pendingConvergence.None? && s.server == WaitingToRestart
  }

  /** When the recovery timer is due, it fires once and runs OpenCode again. */
  lemma RecoveryRuns(s: Sup, c: Choice, n: nat, now: nat)
    requires n > 6 && Waits(s, c, n) && Due(s.nextRestart, now) && c.endpoint == Free
    ensures var t := FireRestart(s, now);
            && Serves(t, c, n - 7, NewRecord(c), c.config.value) && Runs(s.(nextRestart := None), t)
  {
    hide StartNow;
    var a := s.(nextRestart := None);
    StartRuns(a, Recovery, c, n);
    assert FireRestart(s, now) == StartNow(a, Recovery);
  }

  // ---------------------------------------------------------------- timers and answers

  /** While a process is supervised the timers of a tick do only one thing: they turn a stop that
      has taken too long into one that waits for the user. */
  lemma StopExpires(s: Sup, now: nat)
    requires s.process.Some?
    ensures FireTimers(s, now) ==
              (if s.server == Stopping && Due(s.stopDeadline, now) then s.(server := StopTimedOut, stopDeadline := None) else s)
  {
    hide FirePortRetry;
    hide FireRestart;
    hide FireUnverified;
    hide ExpireStop;
    Expires(s, now);
    TimersPass(s, now);
    TimersPass(ExpireStop(s, now), now);
  }

  lemma Expires(s: Sup, now: nat)
    ensures ExpireStop(s, now) ==
              (if s.server == Stopping && Due(s.stopDeadline, now) then s.(server := StopTimedOut, stopDeadline := None) else s)
  {
    if !(s.server == Stopping && Due(s.stopDeadline, now)) {
      assert ExpireStop(s, now) == s.(server := s.server, stopDeadline := s.stopDeadline);
    }
  }

  lemma TimersPass(s: Sup, now: nat)
    requires s.process.Some?
    ensures FireUnverified(s, now) == s && FireRestart(s, now) == s && FirePortRetry(s, now) == s
  {
    hide StartNow;
    hide CheckUnverified;
  }

  /** A start that waited for the password runs OpenCode as soon as the password is there. */
  lemma PasswordRuns(s: Sup, c: Choice, n: nat, fingerprint: nat)
    requires n > 6 && Idle(s, c, n) && c.endpoint == Free && s.runtime.desired == Running
    ensures var t := PasswordApplied(s, fingerprint);
            && Serves(t, c, n - 7, NewRecord(c), c.config.value) && t.os.forks == s.os.forks + 1 && t.attempt == 0
  {
    hide StartNow;
    hide Helps;
    hide Serves;
    IdleHelped(s, c, n);
    var a := s.(credential := Available, reading := false, latest := WithPassword(s, fingerprint));
    var b := a.(attempt := 0, nextRestart := None, nextPortRetry := None, portDeadline := None, networkDeadline := None,
                pendingTrigger := None);
    assert Idle(b, c, n);
    StartRuns(b, Cold, c, n);
    var t := StartNow(b, Cold);
    assert ResumeStart(a) == t;
    hide ResumeStart;
    assert PasswordApplied(s, fingerprint) == RecheckStale(t);
    StaleServes(t, c, n - 7, NewRecord(c), c.config.value);
  }

  lemma StaleServes(t: Sup, c: Choice, n: nat, r: Record, config: Config)
    requires Serves(t, c, n, r, config)
    ensures Serves(RecheckStale(t), c, n, r, config)
  {
  }
}
