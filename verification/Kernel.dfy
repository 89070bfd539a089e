/** The world the agent runs in: the process table, the state-file images a crash could
    expose, and a script of choices that resolves everything the agent does not control.

    Every kernel call first lets the environment act (`Settle`), so two observations made
    by one agent step may see two different worlds. The script may also kill the agent at
    any kernel call; from then on (`dead`) no call has any effect until the agent boots
    again.

    `faults` is a safety monitor. It starts empty and each kernel call adds to it when the
    agent breaks a rule at that very call. */
module Kernel {
  import opened Records

  /** One occupied PID slot: a live process or a zombie. `ours` says that its effective
      user is the agent's. */
  datatype Proc = Proc(start: nat, ours: bool, group: nat, executable: Option<nat>, alive: bool)

  datatype Snapshot = Snapshot(pid: nat, start: nat, ours: bool, group: nat, executable: Option<nat>)

  datatype SnapshotResult = Seen(snapshot: Snapshot) | NoSuchProcess | SnapshotFailed

  datatype ExitReason = Exited(code: int) | Signaled(signal: int) | Disappeared | IdentityChanged

  datatype PeekResult = NotExited | HasExited(reason: ExitReason) | PeekFailed

  datatype SaveOutcome = Durable | Failed | Uncertain

  datatype Signal = Terminate | Kill

  /** Why a group signal is sent: by the cleanup that follows a leader's exit, by the
      shutdown of a child that could not be registered, or by a command. */
  datatype Cause = AfterExit | Unregistered | StopRequest | ForceRequest

  datatype Fault =
    | SecondInstance        // forked while an earlier leader was alive
    | UnmarkedLaunch        // forked although some crash image lacks this launch's marker
    | BlindOverwrite        // saved over a state file that could not be read
    | BroadSignal           // signaled the agent's own group
    | ForeignSignal         // signaled a group not led by a leader of this product
    | RefusedSignal         // signaled a group to which signals are refused, now or since an earlier agent
    | UnrequestedKill       // sent SIGKILL without a force-stop command
    | RepeatedTerminate     // sent a second automatic SIGTERM after one leader exit
    | EarlyReap             // reaped a child before its exit and its empty group were seen
    | EarlyDeferred         // ran a deferred action before a save was durable

  datatype Endpoint = Free | PortInUse | AddressMissing | OtherRefusal

  /** One resolution of everything outside the agent, used up by one kernel call. */
  datatype Choice = Choice(
    elapsed: nat,
    procs: map<nat, Proc>,
    crash: bool,
    fault: bool,
    lag: bool,
    reason: ExitReason,
    members: seq<nat>,
    child: nat,
    start: nat,
    executable: nat,
    endpoint: Endpoint,
    outcome: SaveOutcome,
    config: Option<Config>,
    credential: CredentialState,
    reading: bool,
    health: HealthVerdict)

  const QUIET := Choice(0, map[], false, false, false, Disappeared, [], 0, 0, 0, OtherRefusal, Failed, None, AccessPending, false, Unreachable)

  /** `leaders` are the processes this product forked, `trusted` those a confirmed record may
      speak of. `shunned` are the leaders to whose group signals were ever refused, `barred`
      those of them that no image vouched for when a later agent booted; `struck` are the
      leaders whose group the current agent signaled. */
  datatype World = World(
    now: nat,
    dead: bool,
    readable: bool,
    ownGroup: nat,
    procs: map<nat, Proc>,
    born: set<(nat, nat)>,
    children: set<nat>,
    leaders: set<(nat, nat)>,
    trusted: set<(nat, nat)>,
    shunned: set<(nat, nat)>,
    barred: set<(nat, nat)>,
    struck: set<(nat, nat)>,
    images: set<Runtime>,
    script: seq<Choice>,
    forks: nat,
    signals: nat,
    lastSeen: Option<Snapshot>,
    emptySeen: Option<nat>,
    exitSeen: set<nat>,
    refused: set<nat>,
    terminated: set<nat>,
    faults: set<Fault>)

  // ---------------------------------------------------------------- facts about a world

  /** The process `l` (PID and start time) is among `leaders`, and lives. */
  predicate Lives(leaders: set<(nat, nat)>, procs: map<nat, Proc>, l: (nat, nat)) {
    l in leaders && l.0 in procs && procs[l.0].start == l.1 && procs[l.0].alive
  }

  /** The process `l` is a leader this product forked, and lives. */
  predicate LeaderAlive(w: World, l: (nat, nat)) {
    Lives(w.leaders, w.procs, l)
  }

  predicate NoLeader(w: World) {
    forall l | l in w.leaders :: !Lives(w.leaders, w.procs, l)
  }

  /** A state-file image that keeps a later agent from missing the leader `l`: a launch
      marker, or a record of `l` itself. */
  predicate Shows(image: Runtime, l: (nat, nat)) {
    image.marker.Some? ||
    (image.process.Some? && image.process.value.pid == l.0 &&
     (image.process.value.unconfirmed || image.process.value.start == l.1))
  }

  /** A confirmed record of the leader `l`: what lets a later agent adopt and signal it. */
  predicate Vouches(image: Runtime, l: (nat, nat)) {
    image.process.Some? && !image.process.value.unconfirmed && (image.process.value.pid, image.process.value.start) == l
  }

  /** A record that, once confirmed, can only speak of a trusted leader. */
  predicate RecordOk(r: Record, trusted: set<(nat, nat)>) {
    r.pid > 1 && r.group == r.pid && (!r.unconfirmed ==> (r.pid, r.start) in trusted)
  }

  ghost predicate RuntimeOk(image: Runtime, leaders: set<(nat, nat)>, trusted: set<(nat, nat)>, procs: map<nat, Proc>) {
    && (image.process.Some? ==> RecordOk(image.process.value, trusted) && image.marker.None?)
    && (forall l | Lives(leaders, procs, l) :: Shows(image, l))
  }

  ghost predicate ImagesOk(images: set<Runtime>, leaders: set<(nat, nat)>, trusted: set<(nat, nat)>, procs: map<nat, Proc>) {
    forall image | image in images :: RuntimeOk(image, leaders, trusted, procs)
  }

  /** The books on whom the agent may signal. */
  ghost predicate TrustOk(w: World) {
    && w.trusted <= w.leaders && w.shunned <= w.leaders && w.barred <= w.leaders
    && w.barred !! w.trusted && w.struck <= w.trusted
    && (forall l | l in w.leaders :: l.0 > 1)
  }

  ghost predicate TableOk(w: World) {
    && (forall p | p in w.procs :: (p, w.procs[p].start) in w.born)
    && w.leaders <= w.born
    && (forall p | p in w.children :: p in w.procs && (p, w.procs[p].start) in w.trusted)
    && (forall p | p in w.procs && (p, w.procs[p].start) in w.leaders :: w.procs[p].ours)
    && (forall l, k | Lives(w.leaders, w.procs, l) && Lives(w.leaders, w.procs, k) :: l == k)
  }

  /** What holds of every reachable world, crashed agents included. */
  ghost predicate WorldOk(w: World) {
    && TableOk(w) && TrustOk(w)
    && w.exitSeen <= w.children && w.refused <= w.children && w.terminated <= w.children
    && (forall p | p in w.exitSeen :: !w.procs[p].alive)
    && ImagesOk(w.images, w.leaders, w.trusted, w.procs)
    && w.faults == {}
  }

  /** What the environment may do to the process table between two kernel calls: processes
      die but never revive, keep their start time and user, and are replaced only by ones
      that never existed before; an unreaped child of the agent keeps its PID. */
  predicate EnvironmentMay(w: World, procs: map<nat, Proc>) {
    && (forall p | p in w.children :: p in w.procs ==> p in procs && procs[p].start == w.procs[p].start)
    && (forall p | p in procs ::
          || (p, procs[p].start) !in w.born
          || (p in w.procs && procs[p].start == w.procs[p].start && procs[p].ours == w.procs[p].ours &&
              (procs[p].alive ==> w.procs[p].alive)))
  }

  /** Nothing a later world adds can bring back a leader or change a saved image. */
  ghost predicate Evolves(w: World, v: World) {
    && v.images == w.images && v.leaders == w.leaders && v.forks == w.forks
    && v.trusted == w.trusted && v.barred == w.barred
    && v.ownGroup == w.ownGroup && v.readable == w.readable
    && w.born <= v.born && w.now <= v.now
    && v.children <= w.children
    && (w.dead ==> v.dead && v.signals == w.signals)
    && (forall l | Lives(v.leaders, v.procs, l) :: Lives(w.leaders, w.procs, l))
  }

  // ---------------------------------------------------------------- kernel calls

  /** The environment acts, time passes, and the agent may die. */
  function Settle(w: World): (r: (World, Choice))
    ensures r.0.now >= w.now
  {
    if w.script == [] then (w.(lastSeen := None, emptySeen := None), QUIET)
    else
      var c := w.script[0];
      var moved := if EnvironmentMay(w, c.procs)
                   then w.(procs := c.procs, born := w.born + set p | p in c.procs :: (p, c.procs[p].start))
                   else w;
      (moved.(script := w.script[1..], now := w.now + c.elapsed, dead := c.crash,
              lastSeen := None, emptySeen := None), c)
  }

  function Blame(w: World, broken: bool, fault: Fault): World {
    if broken then w.(faults := w.faults + {fault}) else w
  }

  /** `process_snapshot`. A terminating process or a zombie is not reported. */
  function TakeSnapshot(w: World, pid: nat): (r: (World, SnapshotResult))
    ensures r.0.now >= w.now
  {
    if w.dead then (w, SnapshotFailed)
    else
      var (v, c) := Settle(w);
      if v.dead || c.fault then (v, SnapshotFailed)
      else if pid in v.procs && v.procs[pid].alive then
        var p := v.procs[pid];
        var s := Snapshot(pid, p.start, p.ours, p.group, p.executable);
        (v.(lastSeen := Some(s)), Seen(s))
      else (v, NoSuchProcess)
  }

  /** `peek_child_exit`: waitid with WNOWAIT on one owned child. The waitable state may lag
      behind the termination. */
  function PeekChildExit(w: World, pid: nat): (r: (World, PeekResult))
    ensures r.0.now >= w.now
  {
    if w.dead then (w, PeekFailed)
    else
      var (v, c) := Settle(w);
      if v.dead || c.fault || pid !in v.children || pid !in v.procs then (v, PeekFailed)
      else if v.procs[pid].alive || c.lag then (v, NotExited)
      else (v.(exitSeen := v.exitSeen + {pid}), HasExited(c.reason))
  }

  /** `process_group_member_ids`: any listing at all, or an error. */
  function ListGroup(w: World, group: nat): (r: (World, Option<seq<nat>>))
    ensures r.0.now >= w.now
  {
    if w.dead then (w, None)
    else
      var (v, c) := Settle(w);
      if v.dead || c.fault || group <= 1 then (v, None) else (v, Some(c.members))
  }

  /** The leader whose group a signal reaches: the unreaped child, or the process just
      identified. */
  function Target(w: World, group: nat, seen: Option<Snapshot>): Option<(nat, nat)> {
    if group in w.children && group in w.procs then Some((group, w.procs[group].start))
    else if seen.Some? && seen.value.pid == group && seen.value.group == group && seen.value.ours then
      Some((group, seen.value.start))
    else None
  }

  /** The rules that a signal to `group` breaks, given what the agent saw just before. */
  function SignalFaults(w: World, group: nat, signal: Signal, cause: Cause, seen: Option<Snapshot>): set<Fault> {
    var target := Target(w, group, seen);
    (if group == w.ownGroup then {BroadSignal} else {}) +
    (if target.Some? && target.value in w.leaders then {} else {ForeignSignal}) +
    (if group in w.refused || (target.Some? && target.value in w.barred) then {RefusedSignal} else {}) +
    (if signal == Kill && cause != ForceRequest then {UnrequestedKill} else {}) +
    (if cause == AfterExit && group in w.terminated then {RepeatedTerminate} else {})
  }

  /** `send_process_group_signal`. An error may follow a delivered signal, so the attempt
      itself is what the monitor judges. */
  function SendSignal(w: World, group: nat, signal: Signal, cause: Cause): (r: (World, bool))
    ensures r.0.now >= w.now
  {
    if w.dead then (w, false)
    else
      var (v, c) := Settle(w);
      if v.dead || group <= 1 then (v, false)
      else
        (v.(faults := v.faults + SignalFaults(v, group, signal, cause, w.lastSeen),
            signals := v.signals + 1,
            struck := v.struck + (var target := Target(v, group, w.lastSeen); if target.Some? then {target.value} else {}),
            terminated := if cause == AfterExit && group in v.children then v.terminated + {group} else v.terminated),
         !c.fault)
  }

  /** `Child::wait` on an owned child. */
  function Reap(w: World, pid: nat): (r: (World, Option<ExitReason>))
    ensures r.0.now >= w.now
  {
    if w.dead then (w, None)
    else
      var early := w.emptySeen != Some(pid) || pid !in w.exitSeen;
      var (v, c) := Settle(w);
      if v.dead || c.fault then (v, None)
      else
        (Blame(v, early, EarlyReap).(
           children := v.children - {pid}, procs := v.procs - {pid},
           exitSeen := v.exitSeen - {pid}, refused := v.refused - {pid}, terminated := v.terminated - {pid}),
         Some(if c.reason == IdentityChanged then Disappeared else c.reason))
  }

  /** `Command::spawn` of OpenCode in its own process group. */
  function Fork(w: World, runtime: Runtime): (r: (World, Option<nat>)) {
    if w.dead then (w, None)
    else
      var (v, c) := Settle(w);
      if v.dead || c.fault || c.child <= 1 || c.child in v.procs || (c.child, c.start) in v.born then (v, None)
      else
        var v1 := Blame(v, !NoLeader(v), SecondInstance);
        var v2 := Blame(v1, runtime.marker.None? || v.images != {runtime}, UnmarkedLaunch);
        (v2.(procs := v2.procs[c.child := Proc(c.start, true, c.child, Some(c.executable), true)],
             born := v2.born + {(c.child, c.start)},
             leaders := v2.leaders + {(c.child, c.start)},
             trusted := v2.trusted + {(c.child, c.start)},
             children := v2.children + {c.child},
             forks := v2.forks + 1),
         Some(c.child))
  }

  /** The images a crash could expose after a save with this outcome (module StateFile derives
      this from the single file operations). */
  function ImagesAfter(images: set<Runtime>, runtime: Runtime, outcome: SaveOutcome): set<Runtime> {
    match outcome
    case Durable => {runtime}
    case Failed => images
    case Uncertain => images + {runtime}
  }

  /** `write_json_atomically` seen from outside. A crash inside it looks like a crash before it
      or like a crash after an uncertain outcome. */
  function Save(w: World, runtime: Runtime): (r: (World, SaveOutcome)) {
    if w.dead then (w, Failed)
    else
      var (v, c) := Settle(w);
      if v.dead then (v, Failed)
      else (Blame(v, c.outcome != Failed && !v.readable, BlindOverwrite).(images := ImagesAfter(v.images, runtime, c.outcome)), c.outcome)
  }

  /** A choice that concerns no process: resolver answers, configuration loads, clocks. */
  function Ask(w: World): (r: (World, Choice)) {
    if w.dead then (w, QUIET) else Settle(w)
  }

  // ---------------------------------------------------------------- what the calls keep

  /** The process table after the environment acted. */
  lemma SettleTable(w: World)
    requires WorldOk(w) && !w.dead
    ensures TableOk(Settle(w).0)
    ensures forall l | Lives(w.leaders, Settle(w).0.procs, l) :: Lives(w.leaders, w.procs, l)
    ensures forall p | p in w.children :: p in Settle(w).0.procs && Settle(w).0.procs[p].start == w.procs[p].start
    ensures forall p | p in w.exitSeen :: !Settle(w).0.procs[p].alive
  {
    hide ImagesOk;
    hide TrustOk;
    var v := Settle(w).0;
    forall p | p in v.procs && (p, v.procs[p].start) in v.leaders ensures v.procs[p].ours {
      assert (p, v.procs[p].start) in w.born;
    }
    forall l | Lives(v.leaders, v.procs, l) ensures Lives(w.leaders, w.procs, l) {
      assert l in w.born;
    }
  }

  lemma SettleKeeps(w: World)
    requires WorldOk(w) && !w.dead
    ensures WorldOk(Settle(w).0) && Evolves(w, Settle(w).0)
    ensures Settle(w).0.children == w.children && Settle(w).0.signals == w.signals
    ensures Settle(w).0.exitSeen == w.exitSeen && Settle(w).0.refused == w.refused && Settle(w).0.terminated == w.terminated
    ensures Settle(w).0.shunned == w.shunned && Settle(w).0.struck == w.struck
    ensures forall p | p in w.children :: Settle(w).0.procs[p].start == w.procs[p].start
  {
    hide TableOk;
    hide EnvironmentMay;
    SettleTable(w);
  }
}
