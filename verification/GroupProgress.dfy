/** What becomes of a process group whose leader has exited (process_cleanup.rs,
    supervisor/process_exit.rs), where every call succeeds: for every listing of the group. */
module GroupProgress {
  import opened Records
  import opened Kernel
  import opened ProcessGroup
  import opened ProcessIdentity
  import opened ProcessCleanup
  import opened ManagedProcesses
  import opened SupervisorState
  import opened RuntimeDurability
  import opened Lifecycle
  import opened ProcessExit
  import opened AgentProgress

  // ---------------------------------------------------------------- a leader that has exited

  /** The child `r` has exited and is not reaped, in this world and in every later one. */
  predicate Zombie(procs: map<nat, Proc>, r: Record) {
    r.pid in procs && procs[r.pid].start == r.start && !procs[r.pid].alive
  }

  /** Every call succeeds; the process table may be any, but does not change any more. */
  ghost predicate Lingers(w: World, c: Choice, n: int, r: Record) {
    && !w.dead && w.readable && w.children == {r.pid} && w.ownGroup != r.pid && r.pid > 1 && r.group == r.pid && !r.unconfirmed
    && !c.crash && !c.fault && !c.lag && c.outcome == Durable && Zombie(w.procs, r) && Zombie(c.procs, r)
    && |w.script| >= n && (forall i :: 0 <= i < n ==> w.script[i] == c)
    && EnvironmentMay(w, c.procs)
  }

  /** The listing has only processes of this user in this group, and dead ones. */
  predicate Listing(c: Choice, members: seq<nat>, group: nat) {
    forall m | m in members :: m > 1 && (m in c.procs && c.procs[m].alive ==> c.procs[m].group == group && c.procs[m].ours)
  }

  /** Somebody in the listing lives on. */
  ghost predicate Outlives(c: Choice, members: seq<nat>, group: nat) {
    exists m | m in members :: m != group && m in c.procs && c.procs[m].alive
  }

  /** Nothing is forked or saved, and the books on signals are what they were. */
  predicate OnlyLooks(w: World, v: World) {
    && v.signals == w.signals && v.forks == w.forks && v.images == w.images && v.terminated == w.terminated && w.now <= v.now
    && v.exitSeen == w.exitSeen
  }

  lemma LingerSettle(w: World, c: Choice, n: nat, r: Record)
    requires n > 0 && Lingers(w, c, n, r)
    ensures var (v, d) := Settle(w);
            d == c && !v.dead && Lingers(v, c, n - 1, r) && v.procs == c.procs && OnlyLooks(w, v)
  {
    var v := Settle(w).0;
    assert forall i :: 0 <= i < n - 1 ==> v.script[i] == w.script[i + 1];
  }

  lemma LingerFewer(w: World, c: Choice, n: int, m: int, r: Record)
    requires Lingers(w, c, n, r) && m <= n
    ensures Lingers(w, c, m, r)
  {
  }

  /** What the agent noted of what it saw is no part of the process table. */
  lemma NotesMay(w: World, procs: map<nat, Proc>)
    ensures forall seen :: EnvironmentMay(w.(lastSeen := seen), procs) == EnvironmentMay(w, procs)
    ensures forall seen :: EnvironmentMay(w.(emptySeen := seen), procs) == EnvironmentMay(w, procs)
    ensures forall seen :: EnvironmentMay(w.(exitSeen := seen), procs) == EnvironmentMay(w, procs)
    ensures forall images :: EnvironmentMay(w.(images := images), procs) == EnvironmentMay(w, procs)
  {
  }

  lemma LingerSnapshot(w: World, c: Choice, n: nat, r: Record, pid: nat)
    requires n > 0 && Lingers(w, c, n, r)
    ensures var (v, seen) := TakeSnapshot(w, pid);
            && Lingers(v, c, n - 1, r) && OnlyLooks(w, v)
            && (if pid in c.procs && c.procs[pid].alive then
                  var p := c.procs[pid]; seen == Seen(Snapshot(pid, p.start, p.ours, p.group, p.executable))
                else seen == NoSuchProcess)
  {
    hide Settle;
    hide EnvironmentMay;
    LingerSettle(w, c, n, r);
    NotesMay(Settle(w).0, c.procs);
  }

  lemma LingerPeek(w: World, c: Choice, n: nat, r: Record)
    requires n > 0 && Lingers(w, c, n, r)
    ensures var (v, peek) := PeekChildExit(w, r.pid);
            peek == HasExited(c.reason) && Lingers(v, c, n - 1, r) && OnlyLooks(w, v.(exitSeen := w.exitSeen)) && r.pid in v.exitSeen
  {
    hide Settle;
    hide EnvironmentMay;
    LingerSettle(w, c, n, r);
    NotesMay(Settle(w).0, c.procs);
  }

  lemma {:induction false} ListedMembers(w: World, c: Choice, n: nat, r: Record, members: seq<nat>, found: bool)
    requires n >= |members| && Lingers(w, c, n, r) && Listing(c, members, r.pid)
    ensures var (v, seen) := ObserveListed(w, r.pid, Some(r.pid), members, found);
            && Lingers(v, c, n - |members|, r) && OnlyLooks(w, v)
            && seen == (if found || Outlives(c, members, r.pid) then HasMembers else Empty)
    decreases |members|
  {
    hide Lingers;
    hide TakeSnapshot;
    if members == [] {
    } else {
      var m := members[0];
      assert members == [m] + members[1..];
      assert Listing(c, members[1..], r.pid) by {
        assert forall k | k in members[1..] :: k in members;
      }
      if m == r.pid {
        LingerFewer(w, c, n, n - 1, r);
        ListedMembers(w, c, n - 1, r, members[1..], found);
      } else {
        LingerSnapshot(w, c, n, r, m);
        var v := TakeSnapshot(w, m).0;
        ListedMembers(v, c, n - 1, r, members[1..], found || (m in c.procs && c.procs[m].alive));
      }
    }
  }

  lemma LingerObserve(w: World, c: Choice, n: nat, r: Record)
    requires n > |c.members| && Lingers(w, c, n, r) && Listing(c, c.members, r.pid)
    ensures var (v, seen) := ObserveMembers(w, r.pid, Some(r.pid));
            && Lingers(v, c, n - 1 - |c.members|, r) && OnlyLooks(w, v)
            && seen == (if Outlives(c, c.members, r.pid) then HasMembers else Empty)
  {
    hide Settle;
    hide EnvironmentMay;
    hide ObserveListed;
    LingerSettle(w, c, n, r);
    ListedMembers(Settle(w).0, c, n - 1, r, c.members, false);
  }

  // ---------------------------------------------------------------- one poll

  /** The signal of the agent to the group of the exited leader. */
  predicate Asks(w: World, v: World, r: Record) {
    v.signals == w.signals + 1 && r.pid in v.terminated && v.forks == w.forks && v.images == w.images && w.now <= v.now
  }

  lemma LingerSend(w: World, c: Choice, n: nat, r: Record)
    requires n > 0 && Lingers(w, c, n, r)
    ensures var (v, sent) := SendSignal(w, r.pid, Terminate, AfterExit);
            sent && Asks(w, v, r) && Lingers(v, c, n - 1, r)
  {
    hide Settle;
    hide EnvironmentMay;
    LingerSettle(w, c, n, r);
    SentMay(Settle(w).0, c.procs);
  }

  lemma SentMay(w: World, procs: map<nat, Proc>)
    ensures forall faults, signals, struck, terminated ::
              EnvironmentMay(w.(faults := faults, signals := signals, struck := struck, terminated := terminated), procs)
              == EnvironmentMay(w, procs)
  {
  }

  lemma LingerReap(w: World, c: Choice, n: nat, r: Record)
    requires n > 0 && Lingers(w, c, n, r)
    ensures var (v, exit) := Reap(w, r.pid);
            && exit.Some? && exit.value != IdentityChanged && !v.dead && v.children == {} && v.signals == w.signals
            && v.forks == w.forks && v.images == w.images && w.now <= v.now && |v.script| >= n - 1
            && (forall i :: 0 <= i < n - 1 ==> v.script[i] == c) && v.readable
  {
    hide EnvironmentMay;
    LingerSettle(w, c, n, r);
    hide Settle;
  }

  /** How many calls a poll may need. */
  function Calls(c: Choice): nat {
    5 + 2 * |c.members|
  }

  /** The agent asked the group to end, once, and waits for it. */
  predicate AsksOnce(w: World, v: World, o: Owned, n: Owned, poll: Poll) {
    && Asks(w, v, o.record) && poll == Quiet
    && n.cleanup.Some? && n.cleanup.value.terminateRequested && n.cleanup.value.signalAllowed && n == o.(cleanup := n.cleanup)
  }

  /** The child was reaped, and there is nothing to signal. */
  predicate Reaps(w: World, v: World, o: Owned, n: Owned, poll: Poll) {
    && n == o.(cleanup := None) && poll.Gone? && poll.reason != IdentityChanged && v.children == {}
    && v.signals == w.signals && v.forks == w.forks && v.images == w.images && w.now <= v.now
  }

  /** The child `r` as the agent holds it. */
  predicate Held(o: Owned, r: Record) {
    o.pid == r.pid && o.record == r && !o.identityFailed && (o.cleanup.Some? ==> o.cleanup.value.signalAllowed)
  }

  lemma LingerOwned(w: World, c: Choice, n: nat, r: Record)
    requires n > |c.members| && Lingers(w, c, n, r) && Listing(c, c.members, r.pid)
    ensures var (v, seen) := ObserveOwned(w, r, r.pid);
            && Lingers(v, c, n - 1 - |c.members|, r) && OnlyLooks(w, v)
            && seen == (if Outlives(c, c.members, r.pid) then HasMembers else Empty)
  {
    hide ObserveMembers;
    hide EnvironmentMay;
    LingerObserve(w, c, n, r);
    NotesMay(ObserveMembers(w, r.pid, Some(r.pid)).0, c.procs);
  }

  lemma LingerAsk(w: World, c: Choice, n: nat, r: Record)
    requires n > 1 + |c.members| && Lingers(w, c, n, r) && Listing(c, c.members, r.pid)
    ensures var (v, sent) := SignalOwned(w, r, r.pid, true, Terminate, AfterExit);
            sent && Asks(w, v, r) && Lingers(v, c, n - 2 - |c.members|, r)
  {
    hide ObserveMembers;
    hide SendSignal;
    hide EnvironmentMay;
    LingerObserve(w, c, n, r);
    LingerSend(ObserveMembers(w, r.pid, Some(r.pid)).0, c, n - 1 - |c.members|, r);
  }

  lemma ConvergeAsks(w: World, c: Choice, n: nat, r: Record, o: Owned, reason: ExitReason)
    requires n > 2 + 2 * |c.members| && Lingers(w, c, n, r) && Listing(c, c.members, r.pid) && Held(o, r) && o.cleanup.None?
    ensures var (v, m, poll) := ConvergeExited(w, o, reason);
            if Outlives(c, c.members, r.pid) then
              AsksOnce(w, v, o, m, poll) && Lingers(v, c, n - 3 - 2 * |c.members|, r)
            else Reaps(w, v, o, m, poll)
  {
    hide ObserveOwned;
    hide SignalOwned;
    hide Reap;
    hide Lingers;
    LingerOwned(w, c, n, r);
    var v := ObserveOwned(w, r, r.pid).0;
    if Outlives(c, c.members, r.pid) {
      LingerAsk(v, c, n - 1 - |c.members|, r);
    } else {
      LingerReap(v, c, n - 1 - |c.members|, r);
    }
  }

  /** The group of an exited leader is asked to end in the poll that sees the exit, if somebody in
      it lives on; otherwise the leader is reaped. */
  lemma ExitAsksGroup(w: World, c: Choice, n: nat, r: Record, o: Owned)
    requires n >= Calls(c) && Lingers(w, c, n, r) && Listing(c, c.members, r.pid) && Held(o, r) && o.cleanup.None?
    ensures var (v, m, poll) := PollOwned(w, o);
            if Outlives(c, c.members, r.pid) then AsksOnce(w, v, o, m, poll) && Lingers(v, c, n - Calls(c), r)
            else Reaps(w, v, o, m, poll)
  {
    hide PeekChildExit;
    hide TakeSnapshot;
    hide ConvergeExited;
    hide Lingers;
    LingerPeek(w, c, n, r);
    var a := PeekChildExit(w, r.pid).0;
    LingerSnapshot(a, c, n - 1, r, r.pid);
    ZombieAbsent(w, c, n, r);
    var b := TakeSnapshot(a, r.pid).0;
    ConvergeAsks(b, c, n - 2, r, o, c.reason);
    assert OwnedIdentity(a, r) == (b, Absent);
  }

  lemma ZombieAbsent(w: World, c: Choice, n: nat, r: Record)
    requires Lingers(w, c, n, r)
    ensures r.pid in c.procs && !c.procs[r.pid].alive && !r.unconfirmed
  {
  }

  /** The polls after that send nothing more, until nobody is left; then the leader is reaped. */
  lemma GroupIsAwaited(w: World, c: Choice, n: nat, r: Record, o: Owned)
    requires n > 1 + |c.members| && Lingers(w, c, n, r) && Listing(c, c.members, r.pid) && Held(o, r)
    requires o.cleanup.Some? && o.cleanup.value.terminateRequested
    ensures var (v, m, poll) := PollOwned(w, o);
            if Outlives(c, c.members, r.pid) then
              OnlyLooks(w, v) && m == o && poll == Quiet && Lingers(v, c, n - 1 - |c.members|, r)
            else Reaps(w, v, o, m, poll)
  {
    hide ObserveOwned;
    hide SignalOwned;
    hide Reap;
    hide Lingers;
    LingerOwned(w, c, n, r);
    LingerReap(ObserveOwned(w, r, r.pid).0, c, n - 1 - |c.members|, r);
  }

  // ---------------------------------------------------------------- the supervisor

  /** The agent supervises the child `o`, whose leader has exited. */
  ghost predicate Supervises(s: Sup, c: Choice, n: int, r: Record, o: Owned) {
    && Lingers(s.os, c, n, r) && Listing(c, c.members, r.pid) && Held(o, r) && s.process == Some(Managed.Child(o))
    && s.loaded && !s.retryPending
  }

  /** The agent waits for the group: as the end of the stop that is under way, or, if nobody asked
      for an end, with a stop of its own, after which it recovers. */
  predicate Awaits(s: Sup, t: Sup) {
    && t.runtime == s.runtime && t.attempt == s.attempt && t.recoveryIncident == s.recoveryIncident
    && (if StoppingNow(s) then
          t.server == s.server && t.stopDeadline == s.stopDeadline && t.groupRecovery == s.groupRecovery
          && t.restartAfterStop == s.restartAfterStop
        else
          t.server == Stopping && t.stopDeadline.Some? && s.os.now + GRACEFUL_STOP <= t.stopDeadline.value <= t.os.now + GRACEFUL_STOP
          && t.groupRecovery && (t.restartAfterStop ==> s.groupRecovery && s.restartAfterStop) && t.os.images == {t.runtime})
  }

  lemma AwaitAwaits(s: Sup, c: Choice, n: nat, r: Record, o: Owned)
    requires n > 0 && Lingers(s.os, c, n, r) && s.loaded && !s.retryPending
    requires s.process == Some(Managed.Child(o)) && Held(o, r)
    ensures var t := AwaitGroup(s, StoppingNow(s));
            && Awaits(s, t) && t.process == s.process && t.os.signals == s.os.signals && t.os.forks == s.os.forks
            && s.os.now <= t.os.now
  {
    var a := Awaiting(s, StoppingNow(s));
    AwaitingIs(s);
    hide Awaiting;
    LingerSave(a.os, c, n, r, a.runtime);
    hide Save;
    hide Lingers;
    var (v, outcome) := Save(a.os, a.runtime);
    if StoppingNow(s) {
      assert AwaitGroup(s, true) == a;
    } else {
      assert PersistRuntime(a) == (Noted(a, v, Durable), true);
      hide PersistRuntime;
      assert AwaitGroup(s, false) == Noted(a, v, Durable);
    }
    hide AwaitGroup;
  }

  lemma AwaitingIs(s: Sup)
    ensures Awaiting(s, StoppingNow(s)) ==
              (if StoppingNow(s) then s
               else s.(groupRecovery := true, restartAfterStop := s.restartAfterStop && s.groupRecovery, server := Stopping,
                       stopDeadline := Some(s.os.now + GRACEFUL_STOP)))
  {
    if StoppingNow(s) {
      assert Awaiting(s, true) == s.(groupRecovery := s.groupRecovery, restartAfterStop := s.restartAfterStop,
                                     server := s.server, stopDeadline := s.stopDeadline);
    }
  }

  lemma LingerSave(w: World, c: Choice, n: nat, r: Record, runtime: Runtime)
    requires n > 0 && Lingers(w, c, n, r)
    ensures var (v, outcome) := Save(w, runtime);
            && outcome == Durable && v.images == {runtime} && v.signals == w.signals && v.forks == w.forks && w.now <= v.now
  {
    hide EnvironmentMay;
    LingerSettle(w, c, n, r);
    hide Settle;
  }

  /** A leader has exited whose group lives on: the agent sends that group one SIGTERM, starts
      nothing, and waits. */
  lemma ExitAwaitsGroup(s: Sup, c: Choice, n: nat, r: Record, o: Owned)
    requires n > Calls(c) && Supervises(s, c, n, r, o) && o.cleanup.None? && Outlives(c, c.members, r.pid)
    ensures var t := PollProcess(s);
            && Awaits(s, t) && t.os.signals == s.os.signals + 1 && t.os.forks == s.os.forks
            && t.process.Some? && t.process.value.Child? && Held(t.process.value.owned, r)
            && t.process.value.owned.cleanup.Some? && t.process.value.owned.cleanup.value.terminateRequested
  {
    hide PollOwned;
    hide AwaitGroup;
    hide PollProcess;
    hide Lingers;
    ZombieAbsent(s.os, c, n, r);
    NoUpgrade(s, o);
    ExitAsksGroup(s.os, c, n, r, o);
    var (v, m, poll) := PollOwned(s.os, o);
    var t := Reseen(s, v, Managed.Child(m));
    AwaitAwaits(t, c, n - Calls(c), r, m);
    assert ObserveExit(s) == AwaitGroup(t, StoppingNow(s));
    hide ObserveExit;
    SeenAwaits(s, v, m, AwaitGroup(t, StoppingNow(s)));
  }

  lemma SeenAwaits(s: Sup, v: World, m: Owned, u: Sup)
    requires s.os.now <= v.now && Awaits(Reseen(s, v, Managed.Child(m)), u)
    ensures Awaits(s, u)
  {
  }

  /** Later polls send nothing more. Once nobody is left, the exit is completed. */
  lemma GroupEnds(s: Sup, c: Choice, n: nat, r: Record, o: Owned)
    requires n > 2 + |c.members| && Supervises(s, c, n, r, o) && StoppingNow(s)
    requires o.cleanup.Some? && o.cleanup.value.terminateRequested
    ensures var t := PollProcess(s);
            if Outlives(c, c.members, r.pid) then
              Awaits(s, t) && t.os.signals == s.os.signals && t.os.forks == s.os.forks && t.process == s.process
            else
              exists v: World, reason: ExitReason :: Completes(s, t, o, v, reason)
  {
    hide PollOwned;
    hide AwaitGroup;
    hide PollProcess;
    hide CompleteExit;
    hide Lingers;
    ZombieAbsent(s.os, c, n, r);
    NoUpgrade(s, o);
    GroupIsAwaited(s.os, c, n, r, o);
    var (v, m, poll) := PollOwned(s.os, o);
    var t := Reseen(s, v, Managed.Child(m));
    if Outlives(c, c.members, r.pid) {
      AwaitAwaits(t, c, n - 1 - |c.members|, r, m);
      assert ObserveExit(s) == AwaitGroup(t, true);
      hide ObserveExit;
      SeenAwaits(s, v, m, AwaitGroup(t, true));
    } else {
      assert ObserveExit(s) == CompleteExit(t, ExitNote(true, poll.reason));
      hide ObserveExit;
      assert Completes(s, PollProcess(s), o, v, poll.reason);
    }
  }

  /** The child was reaped in the world `v`, and its exit completed from there. */
  predicate Completes(s: Sup, t: Sup, o: Owned, v: World, reason: ExitReason) {
    && v.children == {} && v.signals == s.os.signals && v.forks == s.os.forks && reason != IdentityChanged
    && t == CompleteExit(s.(os := v, process := Some(Managed.Child(o.(cleanup := None)))), ExitNote(true, reason))
  }
}
