/** What every observation and effect of the agent does to clock and script: time never runs
    backwards, and the choices still to come are among those that were. */
module KernelFlow {
  import opened Records
  import opened Kernel
  import opened ProcessGroup
  import opened ProcessIdentity
  import opened ProcessCleanup
  import opened ManagedProcesses

  predicate Flows(w: World, v: World) {
    w.now <= v.now && (forall c | c in v.script :: c in w.script)
  }

  lemma FlowsTransitive(w: World, v: World, u: World)
    requires Flows(w, v) && Flows(v, u)
    ensures Flows(w, u)
  {
  }

  lemma SettleFlows(w: World)
    ensures Flows(w, Settle(w).0)
  {
  }

  lemma SnapshotFlows(w: World, pid: nat)
    ensures Flows(w, TakeSnapshot(w, pid).0)
  {
    hide Settle;
    SettleFlows(w);
  }

  lemma PeekFlows(w: World, pid: nat)
    ensures Flows(w, PeekChildExit(w, pid).0)
  {
    hide Settle;
    SettleFlows(w);
  }

  lemma ListFlows(w: World, group: nat)
    ensures Flows(w, ListGroup(w, group).0)
  {
    hide Settle;
    SettleFlows(w);
  }

  lemma SendFlows(w: World, group: nat, signal: Signal, cause: Cause)
    ensures Flows(w, SendSignal(w, group, signal, cause).0)
  {
    hide Settle;
    SettleFlows(w);
  }

  lemma ReapFlows(w: World, pid: nat)
    ensures Flows(w, Reap(w, pid).0)
  {
    hide Settle;
    SettleFlows(w);
  }

  lemma ForkFlows(w: World, runtime: Runtime)
    ensures Flows(w, Fork(w, runtime).0)
  {
    hide Settle;
    SettleFlows(w);
  }

  lemma SaveFlows(w: World, runtime: Runtime)
    ensures Flows(w, Save(w, runtime).0)
  {
    hide Settle;
    SettleFlows(w);
  }

  lemma AskFlows(w: World)
    ensures Flows(w, Kernel.Ask(w).0)
    ensures Kernel.Ask(w).1 in w.script || Kernel.Ask(w).1 == QUIET
  {
    SettleFlows(w);
  }

  // ---------------------------------------------------------------- groups and identities

  lemma {:induction false} ListedFlows(w: World, group: nat, skip: Option<nat>, members: seq<nat>, found: bool)
    ensures Flows(w, ObserveListed(w, group, skip, members, found).0)
    decreases |members|
  {
    hide TakeSnapshot;
    if members == [] {
    } else {
      SnapshotFlows(w, members[0]);
      var v := TakeSnapshot(w, members[0]).0;
      ListedFlows(w, group, skip, members[1..], found);
      ListedFlows(v, group, skip, members[1..], true);
      ListedFlows(v, group, skip, members[1..], found);
    }
  }

  lemma ObserveFlows(w: World, group: nat, skip: Option<nat>)
    ensures Flows(w, ObserveMembers(w, group, skip).0)
  {
    hide ListGroup;
    hide ObserveListed;
    ListFlows(w, group);
    var (v, listed) := ListGroup(w, group);
    if listed.Some? { ListedFlows(v, group, skip, listed.value, false); }
  }

  lemma ObserveOwnedFlows(w: World, r: Record, leader: nat)
    ensures Flows(w, ObserveOwned(w, r, leader).0)
  {
    hide ObserveMembers;
    ObserveFlows(w, r.group, Some(leader));
  }

  lemma SignalOwnedFlows(w: World, r: Record, leader: nat, leaderExited: bool, signal: Signal, cause: Cause)
    ensures Flows(w, SignalOwned(w, r, leader, leaderExited, signal, cause).0)
  {
    hide ObserveMembers;
    hide SendSignal;
    hide TakeSnapshot;
    hide PeekChildExit;
    SnapshotFlows(w, leader);
    PeekFlows(TakeSnapshot(w, leader).0, leader);
    var v := if leaderExited then w else ValidateLiveLeader(w, r, leader).0;
    ObserveFlows(v, r.group, Some(leader));
    SendFlows(ObserveMembers(v, r.group, Some(leader)).0, r.group, signal, cause);
  }

  // ---------------------------------------------------------------- children

  lemma PendingFlows(w: World, o: Owned)
    requires o.cleanup.Some?
    ensures Flows(w, PollPendingGroup(w, o).0)
  {
    hide ObserveOwned;
    hide Reap;
    hide SignalOwned;
    ObserveOwnedFlows(w, o.record, o.pid);
    var v := ObserveOwned(w, o.record, o.pid).0;
    ReapFlows(v, o.pid);
    SignalOwnedFlows(v, o.record, o.pid, true, Terminate, AfterExit);
  }

  lemma IdentityFailedFlows(w: World, o: Owned)
    ensures Flows(w, PollIdentityFailed(w, o).0)
  {
    hide ObserveOwned;
    hide Reap;
    hide PeekChildExit;
    PeekFlows(w, o.pid);
    var v := PeekChildExit(w, o.pid).0;
    ObserveOwnedFlows(v, o.record, o.pid);
    ReapFlows(ObserveOwned(v, o.record, o.pid).0, o.pid);
  }

  lemma ConvergeFlows(w: World, o: Owned, reason: ExitReason)
    ensures Flows(w, ConvergeExited(w, o, reason).0)
  {
    hide ObserveOwned;
    hide Reap;
    hide SignalOwned;
    ObserveOwnedFlows(w, o.record, o.pid);
    var v := ObserveOwned(w, o.record, o.pid).0;
    ReapFlows(v, o.pid);
    SignalOwnedFlows(v, o.record, o.pid, true, Terminate, AfterExit);
  }

  lemma PollOwnedFlows(w: World, o: Owned)
    ensures Flows(w, PollOwned(w, o).0)
  {
    hide PollPendingGroup;
    hide PollIdentityFailed;
    hide ConvergeExited;
    hide TakeSnapshot;
    hide PeekChildExit;
    if o.cleanup.Some? {
      PendingFlows(w, o);
    } else if o.identityFailed {
      IdentityFailedFlows(w, o);
    } else {
      PeekFlows(w, o.pid);
      var (v, peek) := PeekChildExit(w, o.pid);
      SnapshotFlows(v, o.record.pid);
      var u := if o.record.unconfirmed then v else TakeSnapshot(v, o.record.pid).0;
      if peek.HasExited? { ConvergeFlows(u, o, peek.reason); }
    }
  }

  lemma PollExitFlows(w: World, m: Managed)
    ensures Flows(w, PollExit(w, m).0)
  {
    hide PollOwned;
    hide TakeSnapshot;
    match m
    case Child(o) => PollOwnedFlows(w, o);
    case Attached(r) => SnapshotFlows(w, r.pid);
  }

  lemma SignalFlows(w: World, m: Managed, signal: Signal, cause: Cause)
    ensures Flows(w, SignalManaged(w, m, signal, cause).0)
  {
    hide SignalOwned;
    hide TakeSnapshot;
    hide SendSignal;
    match m
    case Child(o) => SignalOwnedFlows(w, o.record, o.pid, o.cleanup.Some?, signal, cause);
    case Attached(r) =>
      SnapshotFlows(w, r.pid);
      SendFlows(TakeSnapshot(w, r.pid).0, r.group, signal, cause);
  }

  lemma ConfirmFlows(w: World, m: Managed)
    ensures Flows(w, ConfirmIdentity(w, m).0)
  {
    hide TakeSnapshot;
    if m.Child? { SnapshotFlows(w, m.owned.pid); }
  }

  // ---------------------------------------------------------------- spawning

  lemma PendingShutdownFlows(w: World, r: Record, pid: nat, pending: Cleanup, requested: bool)
    ensures Flows(w, ShutdownPending(w, r, pid, pending, requested).0)
  {
    hide ObserveOwned;
    hide Reap;
    hide SignalOwned;
    ObserveOwnedFlows(w, r, pid);
    var v := ObserveOwned(w, r, pid).0;
    ReapFlows(v, pid);
    SignalOwnedFlows(v, r, pid, true, Terminate, AfterExit);
  }

  lemma PassFlows(w: World, r: Record, pid: nat, cleanup: Option<Cleanup>, requested: bool)
    ensures Flows(w, ShutdownPass(w, r, pid, cleanup, requested).0)
  {
    hide ShutdownPending;
    hide PeekChildExit;
    hide SignalOwned;
    PeekFlows(w, pid);
    var (v, peek) := PeekChildExit(w, pid);
    if cleanup.Some? { PendingShutdownFlows(w, r, pid, cleanup.value, requested); }
    if peek.HasExited? { PendingShutdownFlows(v, r, pid, Cleanup(peek.reason, false, true), requested); }
    SignalOwnedFlows(v, r, pid, false, Terminate, Unregistered);
  }

  lemma {:induction false} ShutdownFlows(w: World, r: Record, pid: nat, cleanup: Option<Cleanup>, requested: bool, deadline: nat)
    ensures Flows(w, ShutdownFrom(w, r, pid, cleanup, requested, deadline).0)
    decreases if w.now < deadline then deadline - w.now else 0
  {
    hide ShutdownPass;
    PassFlows(w, r, pid, cleanup, requested);
    var (v, pass) := ShutdownPass(w, r, pid, cleanup, requested);
    if pass.Done? || v.now >= deadline {
    } else {
      ShutdownFlows(Sleep(v, UNREGISTERED_POLL), r, pid, pass.cleanup, pass.requested, deadline);
    }
  }

  lemma {:induction false} WaitFlows(w: World, pid: nat, executable: nat, tries: nat, last: Option<Snapshot>)
    ensures Flows(w, WaitForSnapshot(w, pid, executable, tries, last).0)
    decreases tries
  {
    hide TakeSnapshot;
    if tries == 0 {
    } else {
      SnapshotFlows(w, pid);
      var (v, snap) := TakeSnapshot(w, pid);
      SnapshotFlows(Sleep(v, IDENTITY_SETTLE), pid);
      var (u, again) := TakeSnapshot(Sleep(v, IDENTITY_SETTLE), pid);
      WaitFlows(u, pid, executable, tries - 1, if again.Seen? then Some(again.snapshot) else last);
      WaitFlows(Sleep(v, SNAPSHOT_RETRY), pid, executable, tries - 1, if snap.Seen? then Some(snap.snapshot) else last);
    }
  }

  lemma TerminateFlows(w: World, pid: nat, last: Option<Snapshot>, config: Config)
    ensures Flows(w, TerminateUnconfirmed(w, pid, last, config).0)
  {
    hide ShutdownFrom;
    ShutdownFlows(w, SurvivorRecord(pid, last, config), pid, None, false, w.now + UNREGISTERED_GRACE);
  }

  lemma ForkAndConfirmFlows(w: World, config: Config, runtime: Runtime)
    ensures Flows(w, ForkAndConfirm(w, config, runtime).0)
  {
    hide Fork;
    hide WaitForSnapshot;
    hide TerminateUnconfirmed;
    ForkFlows(w, runtime);
    var (v, forked) := Fork(w, runtime);
    if forked.Some? {
      WaitFlows(v, forked.value, config.executable, SNAPSHOT_TRIES, None);
      var (u, seen) := WaitForSnapshot(v, forked.value, config.executable, SNAPSHOT_TRIES, None);
      TerminateFlows(u, forked.value, if seen.Confirmed? then Some(seen.snapshot) else seen.last, config);
    }
  }

  lemma SpawnFlows(w: World, config: Config, runtime: Runtime)
    ensures Flows(w, Spawn(w, config, runtime).0)
  {
    hide ForkAndConfirm;
    hide Kernel.Ask;
    AskFlows(w);
    ForkAndConfirmFlows(Kernel.Ask(w).0, config, runtime);
  }
}
