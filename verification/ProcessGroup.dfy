/** Process-group observation and signaling (process_group.rs). */
module ProcessGroup {
  import opened Records
  import opened Kernel

  datatype Observation = Empty | HasMembers | Unknown

  predicate ValidGroup(w: World, group: nat) {
    group > 1 && group != w.ownGroup
  }

  predicate ValidAnchor(w: World, r: Record, leader: nat) {
    leader == r.pid && r.group == leader && leader > 1 && leader != w.ownGroup
  }

  predicate LeaderSnapshotOk(r: Record, s: Snapshot) {
    s.pid == r.pid && s.ours && (r.unconfirmed || s.start == r.start) && s.group == r.group
  }

  /** Looks at the listed members one by one; the first untrusted one ends the loop. */
  function ObserveListed(w: World, group: nat, skip: Option<nat>, members: seq<nat>, found: bool): (r: (World, Observation))
    ensures r.0.now >= w.now
    decreases |members|
  {
    if members == [] then (w, if found then HasMembers else Empty)
    else if members[0] <= 1 then (w, Unknown)
    else if skip == Some(members[0]) then ObserveListed(w, group, skip, members[1..], found)
    else
      var (v, snap) := TakeSnapshot(w, members[0]);
      match snap
      case Seen(s) =>
        if s.group == group && s.ours then ObserveListed(v, group, skip, members[1..], true) else (v, Unknown)
      case NoSuchProcess => ObserveListed(v, group, skip, members[1..], found)
      case SnapshotFailed => (v, Unknown)
  }

  function ObserveMembers(w: World, group: nat, skip: Option<nat>): (r: (World, Observation))
    ensures r.0.now >= w.now
  {
    if !ValidGroup(w, group) then (w, Unknown)
    else
      var (v, listed) := ListGroup(w, group);
      if listed.None? then (v, Unknown) else ObserveListed(v, group, skip, listed.value, false)
  }

  /** `observe_owned`: members other than the still-owned leader. An empty group is noted in
      the monitor, which is what authorizes the reaping that may follow at once. */
  function ObserveOwned(w: World, r: Record, leader: nat): (o: (World, Observation))
    ensures o.0.now >= w.now
  {
    if !ValidAnchor(w, r, leader) then (w, Unknown)
    else
      var (v, seen) := ObserveMembers(w, r.group, Some(leader));
      (if seen == Empty && !v.dead then v.(emptySeen := Some(leader)) else v, seen)
  }

  /** `observe_attached`: read-only. */
  function ObserveAttached(w: World, r: Record): (o: (World, Observation)) {
    ObserveMembers(w, r.group, None)
  }

  function ValidateLiveLeader(w: World, r: Record, leader: nat): (o: (World, bool))
    ensures o.0.now >= w.now
  {
    var (v, snap) := TakeSnapshot(w, leader);
    match snap
    case Seen(s) => (v, LeaderSnapshotOk(r, s))
    case NoSuchProcess =>
      var (u, peek) := PeekChildExit(v, leader);
      (u, peek.HasExited?)
    case SnapshotFailed => (v, false)
  }

  /** `signal_owned`: the group of an unreaped child. */
  function SignalOwned(w: World, r: Record, leader: nat, leaderExited: bool, signal: Signal, cause: Cause): (o: (World, bool))
    ensures o.0.now >= w.now
  {
    if !ValidAnchor(w, r, leader) then (w, false)
    else
      var (v, live) := if leaderExited then (w, true) else ValidateLiveLeader(w, r, leader);
      if !live then (v, false)
      else
        var (u, seen) := ObserveMembers(v, r.group, Some(leader));
        if seen == Unknown then (u, false) else SendSignal(u, r.group, signal, cause)
  }

  /** `observe_members` as the loop the agent runs. */
  method ScanMembers(w: World, group: nat, skip: Option<nat>) returns (v: World, seen: Observation)
    ensures (v, seen) == ObserveMembers(w, group, skip)
  {
    if !ValidGroup(w, group) {
      return w, Unknown;
    }
    var (next, listed) := ListGroup(w, group);
    v := next;
    if listed.None? {
      return v, Unknown;
    }
    var members := listed.value;
    var found := false;
    var i := 0;
    while i < |members|
      invariant 0 <= i <= |members|
      invariant ObserveMembers(w, group, skip) == ObserveListed(v, group, skip, members[i..], found)
    {
      var pid := members[i];
      assert members[i..][1..] == members[i + 1..];
      if pid <= 1 {
        return v, Unknown;
      }
      if skip != Some(pid) {
        var (after, snap) := TakeSnapshot(v, pid);
        v := after;
        match snap {
          case Seen(s) =>
            if s.group != group || !s.ours {
              return v, Unknown;
            }
            found := true;
          case NoSuchProcess =>
          case SnapshotFailed => return v, Unknown;
        }
      }
      i := i + 1;
    }
    seen := if found then HasMembers else Empty;
  }

  // ---------------------------------------------------------------- what observation keeps

  /** An observation leaves the world well formed, sends nothing and reaps nothing. */
  ghost predicate OnlyLooked(w: World, v: World) {
    && WorldOk(v) && Evolves(w, v)
    && v.children == w.children && v.signals == w.signals
    && v.refused == w.refused && v.terminated == w.terminated && w.exitSeen <= v.exitSeen
    && (forall p | p in w.children && p in w.procs :: p in v.procs && v.procs[p].start == w.procs[p].start)
  }

  lemma LookedTransitive(u: World, v: World, w: World)
    requires OnlyLooked(u, v) && OnlyLooked(v, w)
    ensures OnlyLooked(u, w)
  {
  }

  lemma SnapshotKeeps(w: World, pid: nat)
    requires WorldOk(w)
    ensures OnlyLooked(w, TakeSnapshot(w, pid).0) && TakeSnapshot(w, pid).0.exitSeen == w.exitSeen
    ensures !TakeSnapshot(w, pid).1.SnapshotFailed? ==> !TakeSnapshot(w, pid).0.dead
    ensures TakeSnapshot(w, pid).1.NoSuchProcess? ==>
              forall l | Lives(w.leaders, TakeSnapshot(w, pid).0.procs, l) :: l.0 != pid
    ensures TakeSnapshot(w, pid).1.Seen? ==>
              (var v, s := TakeSnapshot(w, pid).0, TakeSnapshot(w, pid).1.snapshot;
               s.pid == pid && v.lastSeen == Some(s) && !v.dead &&
               pid in v.procs && v.procs[pid].start == s.start && v.procs[pid].alive && v.procs[pid].ours == s.ours)
  {
    if !w.dead { SettleKeeps(w); }
  }

  lemma PeekKeeps(w: World, pid: nat)
    requires WorldOk(w)
    ensures OnlyLooked(w, PeekChildExit(w, pid).0)
    ensures PeekChildExit(w, pid).1 != PeekFailed ==> !PeekChildExit(w, pid).0.dead
    ensures PeekChildExit(w, pid).1.HasExited? ==> pid in PeekChildExit(w, pid).0.exitSeen
    ensures PeekChildExit(w, pid).0.exitSeen <= w.exitSeen + {pid}
  {
    if !w.dead { SettleKeeps(w); }
  }

  lemma ListKeeps(w: World, group: nat)
    requires WorldOk(w)
    ensures OnlyLooked(w, ListGroup(w, group).0) && ListGroup(w, group).0.exitSeen == w.exitSeen
  {
    if !w.dead { SettleKeeps(w); }
  }

  lemma {:induction false} ObserveListedKeeps(w: World, group: nat, skip: Option<nat>, members: seq<nat>, found: bool)
    requires WorldOk(w)
    ensures OnlyLooked(w, ObserveListed(w, group, skip, members, found).0)
    ensures ObserveListed(w, group, skip, members, found).1 != Unknown && !w.dead ==>
              !ObserveListed(w, group, skip, members, found).0.dead
    ensures ObserveListed(w, group, skip, members, found).0.exitSeen == w.exitSeen
    decreases |members|
  {
    hide TakeSnapshot;
    hide WorldOk;
    LookedSelf(w);
    if members != [] && members[0] > 1 {
      if skip == Some(members[0]) {
        ObserveListedKeeps(w, group, skip, members[1..], found);
      } else {
        SnapshotKeeps(w, members[0]);
        var (v, snap) := TakeSnapshot(w, members[0]);
        ObserveListedKeeps(v, group, skip, members[1..], true);
        ObserveListedKeeps(v, group, skip, members[1..], found);
        LookedTransitive(w, v, ObserveListed(v, group, skip, members[1..], true).0);
        LookedTransitive(w, v, ObserveListed(v, group, skip, members[1..], found).0);
        hide OnlyLooked;
      }
    }
  }

  lemma LookedSelf(w: World)
    requires WorldOk(w)
    ensures OnlyLooked(w, w)
  {
  }

  lemma ObserveKeeps(w: World, group: nat, skip: Option<nat>)
    requires WorldOk(w)
    ensures OnlyLooked(w, ObserveMembers(w, group, skip).0)
    ensures ObserveMembers(w, group, skip).1 != Unknown ==> !ObserveMembers(w, group, skip).0.dead
    ensures ObserveMembers(w, group, skip).0.exitSeen == w.exitSeen
  {
    ListKeeps(w, group);
    var (v, listed) := ListGroup(w, group);
    if listed.Some? { ObserveListedKeeps(v, group, skip, listed.value, false); }
  }

  lemma ObserveOwnedKeeps(w: World, r: Record, leader: nat)
    requires WorldOk(w)
    ensures OnlyLooked(w, ObserveOwned(w, r, leader).0)
    ensures ObserveOwned(w, r, leader).0.exitSeen == w.exitSeen
    ensures ObserveOwned(w, r, leader).1 != Unknown ==> !ObserveOwned(w, r, leader).0.dead
    ensures ObserveOwned(w, r, leader).1 == Empty ==> ObserveOwned(w, r, leader).0.emptySeen == Some(leader)
  {
    if ValidAnchor(w, r, leader) { ObserveKeeps(w, r.group, Some(leader)); }
  }

  lemma ValidateKeeps(w: World, r: Record, leader: nat)
    requires WorldOk(w)
    ensures OnlyLooked(w, ValidateLiveLeader(w, r, leader).0)
    ensures ValidateLiveLeader(w, r, leader).0.exitSeen <= w.exitSeen + {leader}
  {
    SnapshotKeeps(w, leader);
    PeekKeeps(TakeSnapshot(w, leader).0, leader);
  }

  /** What sending a signal may change. */
  ghost predicate OnlySignaled(w: World, v: World, cause: Cause, leader: nat) {
    && WorldOk(v) && Evolves(w, v)
    && v.children == w.children && v.refused == w.refused && w.exitSeen <= v.exitSeen <= w.exitSeen + {leader}
    && (forall p | p in w.children && p in w.procs :: p in v.procs && v.procs[p].start == w.procs[p].start)
    && v.terminated <= (if cause == AfterExit then w.terminated + {leader} else w.terminated)
  }

  /** The signal goes to the group of a trusted leader. */
  predicate Reaches(v: World, group: nat, seen: Option<Snapshot>) {
    || (group in v.children && group in v.procs && (group, v.procs[group].start) in v.trusted)
    || (group !in v.children && seen.Some? && seen.value.pid == group && seen.value.group == group && seen.value.ours
        && (group, seen.value.start) in v.trusted)
  }

  lemma NothingBroken(v: World, group: nat, signal: Signal, cause: Cause, seen: Option<Snapshot>)
    requires v.trusted <= v.leaders && v.barred !! v.trusted && Reaches(v, group, seen)
    requires group != v.ownGroup && group !in v.refused
    requires signal == Kill ==> cause == ForceRequest
    requires cause == AfterExit ==> group !in v.terminated
    ensures SignalFaults(v, group, signal, cause, seen) == {}
    ensures Target(v, group, seen).Some? && Target(v, group, seen).value in v.trusted
  {
  }

  /** The books after a signal that breaks no rule. */
  lemma StruckOk(v: World, struck: set<(nat, nat)>, terminated: set<nat>, signals: nat)
    requires WorldOk(v) && struck <= v.trusted && terminated <= v.children
    ensures WorldOk(v.(signals := signals, struck := struck, terminated := terminated))
  {
    hide TableOk;
    var u := v.(signals := signals, struck := struck, terminated := terminated);
    assert TableOk(u) by { SameTable(v, u); }
  }

  lemma SameTable(v: World, u: World)
    requires TableOk(v)
    requires u.procs == v.procs && u.born == v.born && u.leaders == v.leaders && u.children == v.children && u.trusted == v.trusted
    ensures TableOk(u)
  {
  }

  /** What the environment did before the signal. */
  ghost predicate SettledTo(w: World, v: World) {
    && WorldOk(v) && Evolves(w, v) && v.children == w.children && v.refused == w.refused
    && v.exitSeen == w.exitSeen && v.terminated == w.terminated
    && (forall p | p in w.children && p in w.procs :: p in v.procs && v.procs[p].start == w.procs[p].start)
  }

  lemma SettledOnly(w: World, v: World, cause: Cause, group: nat)
    requires WorldOk(w) && WorldOk(v)
    requires (w.dead && v == w) || (!w.dead && v == Settle(w).0)
    ensures SettledTo(w, v) && OnlySignaled(w, v, cause, group)
  {
    hide Settle;
    if !w.dead { SettleKeeps(w); }
  }

  lemma SentOnly(w: World, v: World, u: World, cause: Cause, group: nat)
    requires SettledTo(w, v) && WorldOk(u) && !w.dead
    requires u == v.(signals := u.signals, struck := u.struck, terminated := u.terminated)
    requires u.terminated <= (if cause == AfterExit then v.terminated + {group} else v.terminated)
    ensures OnlySignaled(w, u, cause, group)
  {
    hide WorldOk;
  }

  lemma ReachesTrusted(w: World, v: World, group: nat)
    requires SettledTo(w, v)
    requires group in w.children ||
             (w.lastSeen.Some? && w.lastSeen.value.pid == group && w.lastSeen.value.group == group && w.lastSeen.value.ours &&
              (group, w.lastSeen.value.start) in w.trusted)
    ensures Reaches(v, group, w.lastSeen) && v.trusted <= v.leaders && v.barred !! v.trusted && v.ownGroup == w.ownGroup
    ensures v.struck <= v.trusted && v.terminated <= v.children && v.refused == w.refused && v.terminated == w.terminated
  {
    ChildTrusted(v, group);
  }

  lemma ChildTrusted(v: World, group: nat)
    requires WorldOk(v)
    ensures group in v.children ==> group in v.procs && (group, v.procs[group].start) in v.trusted
  {
  }

  lemma SendSafe(w: World, group: nat, signal: Signal, cause: Cause)
    requires WorldOk(w) && group != w.ownGroup && group !in w.refused
    requires w.dead || group in w.children ||
             (w.lastSeen.Some? && w.lastSeen.value.pid == group && w.lastSeen.value.group == group && w.lastSeen.value.ours &&
              (group, w.lastSeen.value.start) in w.trusted)
    requires signal == Kill ==> cause == ForceRequest
    requires cause == AfterExit ==> group !in w.terminated
    ensures OnlySignaled(w, SendSignal(w, group, signal, cause).0, cause, group)
    ensures SendSignal(w, group, signal, cause).1 ==> !SendSignal(w, group, signal, cause).0.dead
  {
    hide WorldOk;
    hide Evolves;
    hide OnlySignaled;
    hide SignalFaults;
    hide Target;
    hide Settle;
    hide Reaches;
    if w.dead {
      SettledOnly(w, w, cause, group);
    } else {
      SettleKeeps(w);
      var v := Settle(w).0;
      SettledOnly(w, v, cause, group);
      if !v.dead && group > 1 {
        ReachesTrusted(w, v, group);
        NothingBroken(v, group, signal, cause, w.lastSeen);
        var u := SendSignal(w, group, signal, cause).0;
        assert u == v.(signals := u.signals, struck := u.struck, terminated := u.terminated);
        StruckOk(v, u.struck, u.terminated, u.signals);
        SentOnly(w, v, u, cause, group);
      }
    }
  }

  /** A signal to the group of an unreaped child never breaks a rule: the child's PID cannot
      be recycled, refusals are respected by the caller, and the agent's own group and the
      system groups are never addressed. */
  lemma SignalOwnedSafe(w: World, r: Record, leader: nat, leaderExited: bool, signal: Signal, cause: Cause)
    requires WorldOk(w) && (w.dead || leader in w.children) && leader !in w.refused
    requires signal == Kill ==> cause == ForceRequest
    requires cause == AfterExit ==> leader !in w.terminated
    ensures OnlySignaled(w, SignalOwned(w, r, leader, leaderExited, signal, cause).0, cause, leader)
    ensures SignalOwned(w, r, leader, leaderExited, signal, cause).1 ==>
              !SignalOwned(w, r, leader, leaderExited, signal, cause).0.dead
  {
    hide ValidateLiveLeader;
    hide ObserveMembers;
    hide SendSignal;
    hide WorldOk;
    if ValidAnchor(w, r, leader) {
      ValidateKeeps(w, r, leader);
      var (v, live) := if leaderExited then (w, true) else ValidateLiveLeader(w, r, leader);
      ObserveKeeps(v, r.group, Some(leader));
      var (u, seen) := ObserveMembers(v, r.group, Some(leader));
      if live && seen != Unknown { SendSafe(u, r.group, signal, cause); }
    }
  }
}
