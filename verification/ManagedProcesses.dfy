/** The supervised OpenCode process: an owned child or one attached after an agent restart
    (process.rs). */
module ManagedProcesses {
  import opened Records
  import opened Kernel
  import opened ProcessGroup
  import opened ProcessIdentity
  import opened ProcessCleanup

  const SNAPSHOT_TRIES: nat := 20
  const IDENTITY_SETTLE: nat := 25
  const SNAPSHOT_RETRY: nat := 10

  datatype Managed = Child(owned: Owned) | Attached(attached: Record) {
    function Rec(): Record {
      match this case Child(o) => o.record case Attached(r) => r
    }

    function Pid(): nat {
      Rec().pid
    }

    function WithRunningVersion(version: nat): Managed {
      match this
      case Child(o) => Child(o.(record := o.record.(runningVersion := Some(version))))
      case Attached(r) => Attached(r.(runningVersion := Some(version)))
    }

    predicate PendingGroupExit() {
      Child? && owned.cleanup.Some?
    }

    predicate PendingGroupAuthorized() {
      Child? && owned.cleanup.Some? ==> !owned.identityFailed && owned.cleanup.value.signalAllowed
    }
  }

  // ---------------------------------------------------------------- supervision

  /** `mark_identity_failed`: from now on the record authorizes no signal. */
  function MarkIdentityFailed(w: World, m: Managed): (r: (World, Managed)) {
    match m
    case Child(o) => (NoteRefusal(w, o.pid), Child(o.(identityFailed := true)))
    case Attached(_) => (w, m)
  }

  /** `poll_exit`. */
  function PollExit(w: World, m: Managed): (r: (World, Managed, Poll)) {
    match m
    case Child(o) =>
      var (v, n, poll) := PollOwned(w, o);
      (v, Child(n), poll)
    case Attached(r) =>
      var (v, snap) := TakeSnapshot(w, r.pid);
      match snap
      case Seen(s) => (v, m, if SameProcess(s, r) then Quiet else Gone(IdentityChanged))
      case NoSuchProcess => (v, m, Gone(Disappeared))
      case SnapshotFailed => (v, m, PollFailed)
  }

  /** `signal`, on behalf of a command. */
  function SignalManaged(w: World, m: Managed, signal: Signal, cause: Cause): (r: (World, bool)) {
    match m
    case Child(o) =>
      if o.identityFailed || (o.cleanup.Some? && !o.cleanup.value.signalAllowed) then (w, false)
      else SignalOwned(w, o.record, o.pid, o.cleanup.Some?, signal, cause)
    case Attached(r) =>
      var (v, snap) := TakeSnapshot(w, r.pid);
      if !snap.Seen? || !SameProcess(snap.snapshot, r) || r.group == v.ownGroup then (v, false)
      else SendSignal(v, r.group, signal, cause)
  }

  /** `confirm_unconfirmed_identity`. */
  function ConfirmIdentity(w: World, m: Managed): (r: (World, Managed, bool)) {
    if !m.Child? || !m.owned.record.unconfirmed then (w, m, false)
    else
      var o := m.owned;
      var (v, snap) := TakeSnapshot(w, o.pid);
      if snap.Seen? && snap.snapshot.pid == o.record.pid && snap.snapshot.group == snap.snapshot.pid &&
         snap.snapshot.executable == Some(o.record.executable)
      then (v, Child(o.(record := o.record.(start := snap.snapshot.start, unconfirmed := false))), true)
      else (v, m, false)
  }

  // ---------------------------------------------------------------- spawning

  datatype ErrorKind = AddrInUse | AddrNotAvailable | OtherError

  datatype SpawnResult = Started(process: Managed) | Survivor(process: Managed) | NotStarted(kind: ErrorKind)

  datatype Confirmation = Confirmed(snapshot: Snapshot) | Unconfirmed(last: Option<Snapshot>)

  /** `wait_for_snapshot_with`: two matching observations in a row, or give up. */
  function WaitForSnapshot(w: World, pid: nat, executable: nat, tries: nat, last: Option<Snapshot>): (r: (World, Confirmation))
    decreases tries
  {
    if tries == 0 then (w, Unconfirmed(last))
    else
      var (v, snap) := TakeSnapshot(w, pid);
      if snap.Seen? && snap.snapshot.executable == Some(executable) then
        var (u, again) := TakeSnapshot(Sleep(v, IDENTITY_SETTLE), pid);
        if again.Seen? && again.snapshot.executable == Some(executable) then (u, Confirmed(again.snapshot))
        else WaitForSnapshot(u, pid, executable, tries - 1, if again.Seen? then Some(again.snapshot) else last)
      else
        WaitForSnapshot(Sleep(v, SNAPSHOT_RETRY), pid, executable, tries - 1, if snap.Seen? then Some(snap.snapshot) else last)
  }

  /** `survivor_record`. */
  function SurvivorRecord(pid: nat, last: Option<Snapshot>, config: Config): Record {
    var unconfirmed := last.None? || last.value.group != pid;
    Record(pid, pid, if unconfirmed then 0 else last.value.start, config.executable, None, config.fingerprint, unconfirmed)
  }

  /** `record_from_snapshot`. */
  function ConfirmedRecord(s: Snapshot, config: Config): Record {
    Record(s.pid, s.group, s.start, if s.executable.Some? then s.executable.value else config.executable,
           None, config.fingerprint, false)
  }

  /** `terminate_unconfirmed_child`. */
  function TerminateUnconfirmed(w: World, pid: nat, last: Option<Snapshot>, config: Config): (r: (World, SpawnResult)) {
    var record := SurvivorRecord(pid, last, config);
    var (v, out) := ShutdownUnregistered(w, record, pid);
    match out
    case Reaped => (v, NotStarted(OtherError))
    case Survived(cleanup) => (v, Survivor(Child(Owned(pid, record, cleanup, false))))
  }

  /** `ManagedProcess::spawn`, once the endpoint is known to be free. */
  function ForkAndConfirm(w: World, config: Config, runtime: Runtime): (r: (World, SpawnResult)) {
    var (v, forked) := Fork(w, runtime);
    if forked.None? then (v, NotStarted(OtherError))
    else
      var pid := forked.value;
      var (u, seen) := WaitForSnapshot(v, pid, config.executable, SNAPSHOT_TRIES, None);
      match seen
      case Unconfirmed(last) => TerminateUnconfirmed(u, pid, last, config)
      case Confirmed(s) =>
        if s.group != pid then TerminateUnconfirmed(u, pid, Some(s), config)
        else (u, Started(Child(Owned(pid, ConfirmedRecord(s, config), None, false))))
  }

  /** `ManagedProcess::spawn`. `runtime` is the state the launch marker was saved with. */
  function Spawn(w: World, config: Config, runtime: Runtime): (r: (World, SpawnResult)) {
    var (v, c) := Ask(w);
    match c.endpoint
    case PortInUse => (v, NotStarted(AddrInUse))
    case AddressMissing => (v, NotStarted(AddrNotAvailable))
    case OtherRefusal => (v, NotStarted(OtherError))
    case Free => ForkAndConfirm(v, config, runtime)
  }

  // ---------------------------------------------------------------- what supervision keeps

  /** What the agent knows of its process agrees with the world. */
  ghost predicate ManagedOk(m: Managed, w: World) {
    match m
    case Child(o) => w.children == {o.pid} && OwnedOk(o, w)
    case Attached(r) => w.children == {} && !r.unconfirmed && RecordOk(r, w.trusted)
  }

  lemma PollExitSafe(w: World, m: Managed)
    requires WorldOk(w) && (w.dead || ManagedOk(m, w))
    ensures var (v, n, poll) := PollExit(w, m);
            && WorldOk(v) && Evolves(w, v)
            && n.Rec() == m.Rec() && n.Child? == m.Child?
            && (n.Child? ==> n.owned.pid == m.owned.pid && n.owned.identityFailed == m.owned.identityFailed)
            && (!v.dead ==>
                  if poll.Gone? && poll.reason != IdentityChanged
                  then v.children == {} && NoneAlive(v, m.Pid())
                  else ManagedOk(n, v))
            && (poll.Gone? ==> !v.dead && (n.Child? ==> n.owned.cleanup.None?))
  {
    hide PollOwned;
    match m
    case Child(o) => PollOwnedSafe(w, o);
    case Attached(r) => SnapshotKeeps(w, r.pid);
  }

  /** Every signal the agent sends for a command is addressed to a leader of this product:
      its own unreaped child, or the recorded process identified again by PID, start time,
      user and group in the call just before. */
  lemma SignalManagedSafe(w: World, m: Managed, signal: Signal, cause: Cause)
    requires WorldOk(w) && (w.dead || ManagedOk(m, w))
    requires cause == StopRequest || cause == ForceRequest
    requires signal == Kill ==> cause == ForceRequest
    ensures var v := SignalManaged(w, m, signal, cause).0;
            && WorldOk(v) && Evolves(w, v) && v.children == w.children
            && (!v.dead ==> ManagedOk(m, v))
  {
    hide SignalOwned;
    hide SendSignal;
    match m
    case Child(o) =>
      if w.dead && o.pid in w.refused {
        assert SignalOwned(w, o.record, o.pid, o.cleanup.Some?, signal, cause).0 == w by { DeadSignal(w, o.record, o.pid, o.cleanup.Some?, signal, cause); }
      } else if !(o.identityFailed || (o.cleanup.Some? && !o.cleanup.value.signalAllowed)) {
        SignalOwnedSafe(w, o.record, o.pid, o.cleanup.Some?, signal, cause);
      }
    case Attached(r) =>
      SnapshotKeeps(w, r.pid);
      var (v, snap) := TakeSnapshot(w, r.pid);
      if snap.Seen? && SameProcess(snap.snapshot, r) && r.group != v.ownGroup {
        SendSafe(v, r.group, signal, cause);
      }
  }

  lemma DeadSignal(w: World, r: Record, leader: nat, leaderExited: bool, signal: Signal, cause: Cause)
    requires w.dead
    ensures SignalOwned(w, r, leader, leaderExited, signal, cause) == (w, false)
  {
  }

  lemma ConfirmSafe(w: World, m: Managed)
    requires WorldOk(w) && (w.dead || ManagedOk(m, w))
    ensures var (v, n, upgraded) := ConfirmIdentity(w, m);
            && WorldOk(v) && Evolves(w, v) && v.children == w.children
            && n.Pid() == m.Pid() && n.Child? == m.Child?
            && (!upgraded ==> n == m)
            && (upgraded ==> m.Child? && !n.Rec().unconfirmed && !v.dead)
            && (!v.dead ==> ManagedOk(n, v))
  {
    SnapshotKeeps(w, m.Pid());
    if m.Child? { SnapshotKeeps(w, m.owned.pid); }
  }

  // ---------------------------------------------------------------- what spawning keeps

  /** A later world in which this product may have one leader more. */
  ghost predicate Advances(w: World, v: World) {
    && v.images == w.images && v.readable == w.readable && v.ownGroup == w.ownGroup
    && w.leaders <= v.leaders && v.barred == w.barred && w.born <= v.born && w.now <= v.now && w.forks <= v.forks
    && (w.dead ==> v.dead && v.signals == w.signals && v.forks == w.forks)
  }

  /** Only leaders with this PID are alive. */
  ghost predicate OnlyLeader(w: World, pid: nat) {
    forall l | Lives(w.leaders, w.procs, l) :: l.0 == pid
  }

  lemma ForkSafe(w: World, runtime: Runtime)
    requires WorldOk(w)
    requires w.dead || (NoLeader(w) && w.images == {runtime} && runtime.marker.Some?)
    ensures var (v, forked) := Fork(w, runtime);
            && WorldOk(v) && Advances(w, v)
            && (forked.None? ==> Evolves(w, v) && v.children == w.children)
            && (forked.Some? ==>
                  !v.dead && v.children == w.children + {forked.value} && OnlyLeader(v, forked.value) &&
                  forked.value in v.procs && (forked.value, v.procs[forked.value].start) in v.trusted &&
                  forked.value !in v.exitSeen && forked.value !in v.refused && forked.value !in v.terminated)
  {
    if !w.dead {
      SettleKeeps(w);
      var u := Settle(w).0;
      var v := Fork(w, runtime).0;
      assert NoLeader(u) by {
        forall l | l in u.leaders ensures !Lives(u.leaders, u.procs, l) {
          assert !Lives(w.leaders, w.procs, l);
        }
      }
      if Fork(w, runtime).1.Some? {
        var pid := Fork(w, runtime).1.value;
        forall l | l in v.leaders && l.0 != pid ensures !Lives(v.leaders, v.procs, l) {
          assert l in u.leaders;
        }
      }
    }
  }

  lemma LookedReflexive(w: World)
    requires WorldOk(w)
    ensures OnlyLooked(w, w)
  {
  }

  lemma {:induction false} WaitKeeps(w: World, pid: nat, executable: nat, tries: nat, last: Option<Snapshot>)
    requires WorldOk(w) && pid in w.children && pid in w.procs
    requires last.Some? ==> last.value.pid == pid && last.value.start == w.procs[pid].start
    ensures var (v, seen) := WaitForSnapshot(w, pid, executable, tries, last);
            && OnlyLooked(w, v) && v.exitSeen == w.exitSeen
            && (seen.Confirmed? ==> seen.snapshot.pid == pid && seen.snapshot.start == v.procs[pid].start && !v.dead)
            && (seen.Unconfirmed? && seen.last.Some? ==> seen.last.value.pid == pid && seen.last.value.start == v.procs[pid].start)
    decreases tries
  {
    hide TakeSnapshot;
    hide WorldOk;
    hide Evolves;
    LookedReflexive(w);
    if tries == 0 {
    } else {
      SnapshotKeeps(w, pid);
      var (v, snap) := TakeSnapshot(w, pid);
      if snap.Seen? && snap.snapshot.executable == Some(executable) {
        SleepKeeps(v, IDENTITY_SETTLE);
        var t := Sleep(v, IDENTITY_SETTLE);
        SnapshotKeeps(t, pid);
        var (u, again) := TakeSnapshot(t, pid);
        LookedTransitive(w, v, t);
        LookedTransitive(w, t, u);
        if !(again.Seen? && again.snapshot.executable == Some(executable)) {
          WaitKeeps(u, pid, executable, tries - 1, if again.Seen? then Some(again.snapshot) else last);
          LookedTransitive(w, u, WaitForSnapshot(w, pid, executable, tries, last).0);
        }
      } else {
        SleepKeeps(v, SNAPSHOT_RETRY);
        var t := Sleep(v, SNAPSHOT_RETRY);
        WaitKeeps(t, pid, executable, tries - 1, if snap.Seen? then Some(snap.snapshot) else last);
        LookedTransitive(w, v, t);
        LookedTransitive(w, t, WaitForSnapshot(w, pid, executable, tries, last).0);
      }
    }
  }

  /** What a spawn attempt leaves behind. */
  ghost predicate SpawnOutcome(w: World, v: World, r: SpawnResult) {
    && WorldOk(v) && Advances(w, v)
    && (!v.dead ==>
          match r
          case NotStarted(_) => v.children == {} && NoLeader(v)
          case Started(m) => m.Child? && ManagedOk(m, v) && OnlyLeader(v, m.Pid()) && RecordOk(m.Rec(), v.trusted)
          case Survivor(m) => m.Child? && ManagedOk(m, v) && OnlyLeader(v, m.Pid()) && RecordOk(m.Rec(), v.trusted))
  }

  lemma TerminateSafe(w: World, pid: nat, last: Option<Snapshot>, config: Config)
    requires WorldOk(w) && w.children == {pid} && pid in w.procs && OnlyLeader(w, pid)
    requires pid !in w.exitSeen && pid !in w.refused && pid !in w.terminated
    requires last.Some? ==> last.value.pid == pid && last.value.start == w.procs[pid].start
    ensures var (v, r) := TerminateUnconfirmed(w, pid, last, config); SpawnOutcome(w, v, r) && Evolves(w, v)
  {
    hide ShutdownUnregistered;
    hide Evolves;
    var record := SurvivorRecord(pid, last, config);
    ShutdownWhole(w, record, pid);
    var (v, out) := ShutdownUnregistered(w, record, pid);
    EvolvesFacts(w, v);
    assert OnlyLeader(v, pid);
  }

  lemma ShutdownWhole(w: World, r: Record, pid: nat)
    requires WorldOk(w) && OwnedOk(Owned(pid, r, None, false), w)
    ensures var (v, out) := ShutdownUnregistered(w, r, pid); PassOutcome(w, v, r, pid, Done(out))
  {
    hide ShutdownFrom;
    hide ShutdownPass;
    ShutdownSafe(w, r, pid, None, false, w.now + UNREGISTERED_GRACE);
  }

  lemma EvolvesFacts(w: World, v: World)
    requires Evolves(w, v)
    ensures Advances(w, v) && v.leaders == w.leaders && v.forks == w.forks
    ensures forall l | Lives(v.leaders, v.procs, l) :: Lives(w.leaders, w.procs, l)
  {
  }

  /** A fork that is allowed starts the only live leader; afterwards the child is supervised,
      reaped, or was never created. */
  lemma ForkAndConfirmSafe(w: World, config: Config, runtime: Runtime)
    requires WorldOk(w) && (w.dead || w.children == {})
    requires w.dead || (NoLeader(w) && w.images == {runtime} && runtime.marker.Some?)
    ensures var (v, r) := ForkAndConfirm(w, config, runtime); SpawnOutcome(w, v, r)
  {
    hide Fork;
    hide WaitForSnapshot;
    hide TerminateUnconfirmed;
    ForkSafe(w, runtime);
    var (v, forked) := Fork(w, runtime);
    if forked.Some? {
      var pid := forked.value;
      WaitKeeps(v, pid, config.executable, SNAPSHOT_TRIES, None);
      var (u, seen) := WaitForSnapshot(v, pid, config.executable, SNAPSHOT_TRIES, None);
      assert OnlyLeader(u, pid);
      if seen.Unconfirmed? {
        TerminateSafe(u, pid, seen.last, config);
      } else if seen.snapshot.group != pid {
        TerminateSafe(u, pid, Some(seen.snapshot), config);
      }
    }
  }

  lemma AskKeeps(w: World)
    requires WorldOk(w)
    ensures OnlyLooked(w, Ask(w).0)
  {
    if !w.dead { SettleKeeps(w); }
  }

  lemma SpawnSafe(w: World, config: Config, runtime: Runtime)
    requires WorldOk(w) && (w.dead || w.children == {})
    requires w.dead || (NoLeader(w) && w.images == {runtime} && runtime.marker.Some?)
    ensures var (v, r) := Spawn(w, config, runtime); SpawnOutcome(w, v, r)
  {
    hide ForkAndConfirm;
    hide WorldOk;
    AskKeeps(w);
    var (v, c) := Ask(w);
    assert !w.dead ==> NoLeader(v) by {
      if !w.dead {
        forall l | l in v.leaders ensures !Lives(v.leaders, v.procs, l) {
          assert !Lives(w.leaders, w.procs, l);
        }
      }
    }
    ForkAndConfirmSafe(v, config, runtime);
  }
}
