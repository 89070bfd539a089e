/** Owned-child exit observation and bounded group convergence (process_cleanup.rs). */
module ProcessCleanup {
  import opened Records
  import opened Kernel
  import opened ProcessGroup
  import opened ProcessIdentity

  /** Milliseconds granted to a child whose identity could not be registered. */
  const UNREGISTERED_GRACE: nat := 2000
  const UNREGISTERED_POLL: nat := 10

  datatype Cleanup = Cleanup(leaderExit: ExitReason, terminateRequested: bool, signalAllowed: bool) {
    function Refused(): Cleanup { this.(signalAllowed := false) }
    function Requested(): Cleanup { this.(terminateRequested := true) }
  }

  /** The unreaped direct child, with the cleanup of its group once the leader has exited. */
  datatype Owned = Owned(pid: nat, record: Record, cleanup: Option<Cleanup>, identityFailed: bool)

  datatype Poll = Quiet | Gone(reason: ExitReason) | PollFailed

  /** What comes of the child: still owned, or reaped. */
  datatype Shutdown = Reaped | Survived(cleanup: Option<Cleanup>)

  // ---------------------------------------------------------------- the monitor's notes

  /** The agent decided never to signal this child's group again. */
  function NoteRefusal(w: World, pid: nat): World {
    if w.dead || pid !in w.children || pid !in w.procs then w
    else w.(refused := w.refused + {pid}, shunned := w.shunned + {(pid, w.procs[pid].start)})
  }

  // ---------------------------------------------------------------- polling

  /** `poll_pending_group`: the leader has exited; wait for its group to empty. */
  function PollPendingGroup(w: World, o: Owned): (r: (World, Owned, Poll))
    requires o.cleanup.Some?
  {
    var pending := o.cleanup.value;
    var (v, seen) := ObserveOwned(w, o.record, o.pid);
    match seen
    case Empty =>
      var (u, exit) := Reap(v, o.pid);
      if exit.None? then (u, o, PollFailed) else (u, o.(cleanup := None), Gone(exit.value))
    case HasMembers =>
      if pending.signalAllowed && !pending.terminateRequested then
        var (u, sent) := SignalOwned(v, o.record, o.pid, true, Terminate, AfterExit);
        if sent then (u, o.(cleanup := Some(pending.Requested())), Quiet)
        else (NoteRefusal(u, o.pid), o.(cleanup := Some(pending.Refused())), PollFailed)
      else (v, o, Quiet)
    case Unknown => (NoteRefusal(v, o.pid), o.(cleanup := Some(pending.Refused())), PollFailed)
  }

  /** `poll_identity_failed_child`: read-only until the direct child can be reaped. */
  function PollIdentityFailed(w: World, o: Owned): (r: (World, Owned, Poll)) {
    var (v, peek) := PeekChildExit(w, o.pid);
    match peek
    case PeekFailed => (v, o, PollFailed)
    case NotExited => (v, o, Quiet)
    case HasExited(reason) =>
      var pending := Cleanup(reason, false, false);
      var (u, seen) := ObserveOwned(v, o.record, o.pid);
      match seen
      case Empty =>
        var (t, exit) := Reap(u, o.pid);
        if exit.None? then (t, o, PollFailed) else (t, o, Gone(exit.value))
      case HasMembers => (u, o.(cleanup := Some(pending)), Quiet)
      case Unknown => (u, o.(cleanup := Some(pending)), PollFailed)
  }

  /** The part of `poll_owned_child` after a waitable exit with a matching identity. */
  function ConvergeExited(w: World, o: Owned, reason: ExitReason): (r: (World, Owned, Poll)) {
    var pending := Cleanup(reason, false, true);
    var (v, seen) := ObserveOwned(w, o.record, o.pid);
    match seen
    case Empty =>
      var (u, exit) := Reap(v, o.pid);
      if exit.None? then (u, o, PollFailed) else (u, o, Gone(exit.value))
    case HasMembers =>
      var (u, sent) := SignalOwned(v, o.record, o.pid, true, Terminate, AfterExit);
      if sent then (u, o.(cleanup := Some(pending.Requested())), Quiet)
      else (NoteRefusal(u, o.pid), o.(cleanup := Some(pending.Refused())), PollFailed)
    case Unknown => (NoteRefusal(v, o.pid), o.(cleanup := Some(pending.Refused())), PollFailed)
  }

  /** `poll_owned_child`. */
  function PollOwned(w: World, o: Owned): (r: (World, Owned, Poll)) {
    if o.cleanup.Some? then PollPendingGroup(w, o)
    else if o.identityFailed then PollIdentityFailed(w, o)
    else
      var (v, peek) := PeekChildExit(w, o.pid);
      if peek.PeekFailed? then (v, o, PollFailed)
      else
        var (u, same) := if o.record.unconfirmed then (v, Same) else OwnedIdentity(v, o.record);
        if same == Unreadable then (u, o, PollFailed)
        else if same == Different then (u, o, Gone(IdentityChanged))
        else if peek.NotExited? then (u, o, Quiet)
        else ConvergeExited(u, o, peek.reason)
  }

  // ---------------------------------------------------------------- unregistered children

  /** One pass of the loop of `shutdown_unregistered_child`: either its result, or the
      cleanup and the pre-exit request to go on with. */
  datatype Pass = Done(result: Shutdown) | GoOn(cleanup: Option<Cleanup>, requested: bool)

  function ShutdownPending(w: World, r: Record, pid: nat, pending: Cleanup, requested: bool): (o: (World, Pass))
    ensures o.0.now >= w.now
  {
    var (v, seen) := ObserveOwned(w, r, pid);
    match seen
    case Empty =>
      var (u, exit) := Reap(v, pid);
      (u, Done(if exit.Some? then Reaped else Survived(Some(pending))))
    case HasMembers =>
      if pending.signalAllowed && !pending.terminateRequested then
        var (u, sent) := SignalOwned(v, r, pid, true, Terminate, AfterExit);
        if sent then (u, GoOn(Some(pending.Requested()), requested))
        else (NoteRefusal(u, pid), Done(Survived(Some(pending.Refused()))))
      else (v, GoOn(Some(pending), requested))
    case Unknown => (NoteRefusal(v, pid), Done(Survived(Some(pending.Refused()))))
  }

  function ShutdownLive(w: World, r: Record, pid: nat, requested: bool): (o: (World, Pass))
    ensures o.0.now >= w.now
  {
    var (v, peek) := PeekChildExit(w, pid);
    match peek
    case PeekFailed => (v, Done(Survived(None)))
    case HasExited(reason) => ShutdownPending(v, r, pid, Cleanup(reason, false, true), requested)
    case NotExited =>
      if requested then (v, GoOn(None, true))
      else
        var (u, sent) := SignalOwned(v, r, pid, false, Terminate, Unregistered);
        (u, if sent then GoOn(None, true) else Done(Survived(None)))
  }

  function ShutdownPass(w: World, r: Record, pid: nat, cleanup: Option<Cleanup>, requested: bool): (o: (World, Pass))
    ensures o.0.now >= w.now
  {
    if cleanup.Some? then ShutdownPending(w, r, pid, cleanup.value, requested)
    else ShutdownLive(w, r, pid, requested)
  }

  function Sleep(w: World, duration: nat): World {
    w.(now := w.now + duration)
  }

  /** `shutdown_unregistered_child` from one pass on. */
  function ShutdownFrom(w: World, r: Record, pid: nat, cleanup: Option<Cleanup>, requested: bool, deadline: nat): (o: (World, Shutdown))
    decreases if w.now < deadline then deadline - w.now else 0, 1
  {
    var (v, pass) := ShutdownPass(w, r, pid, cleanup, requested);
    match pass
    case Done(result) => (v, result)
    case GoOn(next, asked) =>
      if v.now >= deadline then (v, Survived(next))
      else ShutdownFrom(Sleep(v, UNREGISTERED_POLL), r, pid, next, asked, deadline)
  }

  function ShutdownUnregistered(w: World, r: Record, pid: nat): (o: (World, Shutdown)) {
    ShutdownFrom(w, r, pid, None, false, w.now + UNREGISTERED_GRACE)
  }

  // ---------------------------------------------------------------- what polling keeps

  /** The agent's record of an unreaped child agrees with the monitor. */
  ghost predicate OwnedOk(o: Owned, w: World) {
    && o.pid in w.children && o.pid in w.procs
    && o.record.pid == o.pid && o.record.group == o.pid
    && (!o.record.unconfirmed ==> o.record.start == w.procs[o.pid].start)
    && (o.cleanup.Some? ==> o.pid in w.exitSeen)
    && (o.identityFailed && o.cleanup.Some? ==> !o.cleanup.value.signalAllowed)
    && (o.pid in w.refused ==> o.identityFailed || (o.cleanup.Some? && !o.cleanup.value.signalAllowed))
    && (o.pid in w.terminated ==>
          o.cleanup.Some? && (o.cleanup.value.terminateRequested || !o.cleanup.value.signalAllowed))
  }

  /** The outcome of polling the child `o`: it stays owned, or it was reaped and no leader
      with its PID is left. */
  ghost predicate PollOutcome(w: World, v: World, o: Owned, n: Owned, poll: Poll) {
    && WorldOk(v) && Evolves(w, v)
    && n.pid == o.pid && n.record == o.record && n.identityFailed == o.identityFailed
    && (!v.dead ==>
          if poll.Gone? && poll.reason != IdentityChanged
          then v.children == w.children - {o.pid} && NoneAlive(v, o.pid)
          else v.children == w.children && OwnedOk(n, v))
    && (poll.Gone? ==> n.cleanup.None? && !v.dead)
  }

  lemma ReapSafe(w: World, pid: nat)
    requires WorldOk(w) && (w.dead || (pid in w.exitSeen && w.emptySeen == Some(pid)))
    ensures var v := Reap(w, pid).0; WorldOk(v) && Evolves(w, v)
    ensures var v, exit := Reap(w, pid).0, Reap(w, pid).1;
            if exit.Some? then
              v.children == w.children - {pid} && NoneAlive(v, pid) && exit.value != IdentityChanged && !v.dead
            else
              v.children == w.children && v.exitSeen == w.exitSeen && v.refused == w.refused && v.terminated == w.terminated
              && (forall p | p in w.children && p in w.procs :: p in v.procs && v.procs[p].start == w.procs[p].start)
  {
    if !w.dead {
      SettleKeeps(w);
      var v := Reap(w, pid).0;
      forall l | Lives(v.leaders, v.procs, l) ensures Lives(w.leaders, w.procs, l) {
        assert Lives(v.leaders, Settle(w).0.procs, l);
      }
    }
  }

  lemma RefusalKeeps(w: World, pid: nat)
    requires WorldOk(w)
    ensures WorldOk(NoteRefusal(w, pid)) && Evolves(w, NoteRefusal(w, pid))
  {
  }

  lemma PollPendingSafe(w: World, o: Owned)
    requires WorldOk(w) && (w.dead || OwnedOk(o, w)) && o.cleanup.Some?
    ensures var (v, n, poll) := PollPendingGroup(w, o); PollOutcome(w, v, o, n, poll)
  {
    hide ObserveOwned;
    hide Reap;
    hide SignalOwned;
    hide WorldOk;
    ObserveOwnedKeeps(w, o.record, o.pid);
    var (v, seen) := ObserveOwned(w, o.record, o.pid);
    RefusalKeeps(v, o.pid);
    if seen == Empty {
      ReapSafe(v, o.pid);
    } else if seen == HasMembers && o.cleanup.value.signalAllowed && !o.cleanup.value.terminateRequested {
      SignalOwnedSafe(v, o.record, o.pid, true, Terminate, AfterExit);
      RefusalKeeps(SignalOwned(v, o.record, o.pid, true, Terminate, AfterExit).0, o.pid);
    }
  }

  lemma PollIdentityFailedSafe(w: World, o: Owned)
    requires WorldOk(w) && (w.dead || OwnedOk(o, w)) && o.cleanup.None? && o.identityFailed
    ensures var (v, n, poll) := PollIdentityFailed(w, o); PollOutcome(w, v, o, n, poll)
  {
    hide ObserveOwned;
    hide Reap;
    hide PeekChildExit;
    PeekKeeps(w, o.pid);
    var (v, peek) := PeekChildExit(w, o.pid);
    if peek.HasExited? {
      ObserveOwnedKeeps(v, o.record, o.pid);
      var (u, seen) := ObserveOwned(v, o.record, o.pid);
      if seen == Empty { ReapSafe(u, o.pid); }
    }
  }

  lemma ConvergeSafe(w: World, o: Owned, reason: ExitReason)
    requires WorldOk(w) && (w.dead || OwnedOk(o, w)) && o.cleanup.None? && !o.identityFailed
    requires w.dead || o.pid in w.exitSeen
    ensures var (v, n, poll) := ConvergeExited(w, o, reason); PollOutcome(w, v, o, n, poll)
    ensures ConvergeExited(w, o, reason).2 != Gone(IdentityChanged)
  {
    hide ObserveOwned;
    hide Reap;
    hide SignalOwned;
    hide WorldOk;
    ObserveOwnedKeeps(w, o.record, o.pid);
    var (v, seen) := ObserveOwned(w, o.record, o.pid);
    RefusalKeeps(v, o.pid);
    if seen == Empty {
      ReapSafe(v, o.pid);
    } else if seen == HasMembers {
      SignalOwnedSafe(v, o.record, o.pid, true, Terminate, AfterExit);
      RefusalKeeps(SignalOwned(v, o.record, o.pid, true, Terminate, AfterExit).0, o.pid);
    }
  }

  /** One poll of an owned child, whatever the world answers: no rule is broken, a reported
      exit means the leader was reaped, and everything else keeps the child owned. */
  lemma PollOwnedSafe(w: World, o: Owned)
    requires WorldOk(w) && (w.dead || OwnedOk(o, w))
    ensures var (v, n, poll) := PollOwned(w, o); PollOutcome(w, v, o, n, poll)
  {
    hide PeekChildExit;
    hide OwnedIdentity;
    hide ConvergeExited;
    hide PollPendingGroup;
    hide PollIdentityFailed;
    if o.cleanup.Some? {
      PollPendingSafe(w, o);
    } else if o.identityFailed {
      PollIdentityFailedSafe(w, o);
    } else {
      PeekKeeps(w, o.pid);
      var (v, peek) := PeekChildExit(w, o.pid);
      OwnedIdentityKeeps(v, o.record);
      var (u, same) := if o.record.unconfirmed then (v, Same) else OwnedIdentity(v, o.record);
      if peek.HasExited? { ConvergeSafe(u, o, peek.reason); }
    }
  }

  // ---------------------------------------------------------------- unregistered children

  ghost predicate PassOutcome(w: World, v: World, r: Record, pid: nat, pass: Pass) {
    && WorldOk(v) && Evolves(w, v)
    && match pass
       case Done(Reaped) => v.children == w.children - {pid} && NoneAlive(v, pid)
       case Done(Survived(c)) => v.dead || (v.children == w.children && OwnedOk(Owned(pid, r, c, false), v))
       case GoOn(c, _) => !v.dead && (v.children == w.children && OwnedOk(Owned(pid, r, c, false), v))
  }

  lemma ShutdownPendingSafe(w: World, r: Record, pid: nat, pending: Cleanup, requested: bool)
    requires WorldOk(w) && (w.dead || OwnedOk(Owned(pid, r, Some(pending), false), w))
    ensures var (v, pass) := ShutdownPending(w, r, pid, pending, requested); PassOutcome(w, v, r, pid, pass)
  {
    hide ObserveOwned;
    hide Reap;
    hide SignalOwned;
    hide WorldOk;
    ObserveOwnedKeeps(w, r, pid);
    var (v, seen) := ObserveOwned(w, r, pid);
    RefusalKeeps(v, pid);
    if seen == Empty {
      ReapSafe(v, pid);
    } else if seen == HasMembers && pending.signalAllowed && !pending.terminateRequested {
      SignalOwnedSafe(v, r, pid, true, Terminate, AfterExit);
      RefusalKeeps(SignalOwned(v, r, pid, true, Terminate, AfterExit).0, pid);
    }
  }

  lemma ShutdownPassSafe(w: World, r: Record, pid: nat, cleanup: Option<Cleanup>, requested: bool)
    requires WorldOk(w) && (w.dead || OwnedOk(Owned(pid, r, cleanup, false), w))
    ensures var (v, pass) := ShutdownPass(w, r, pid, cleanup, requested); PassOutcome(w, v, r, pid, pass)
  {
    hide ShutdownPending;
    hide PeekChildExit;
    hide SignalOwned;
    if cleanup.Some? {
      ShutdownPendingSafe(w, r, pid, cleanup.value, requested);
    } else {
      PeekKeeps(w, pid);
      var (v, peek) := PeekChildExit(w, pid);
      if peek.HasExited? {
        ShutdownPendingSafe(v, r, pid, Cleanup(peek.reason, false, true), requested);
      } else if peek.NotExited? && !requested {
        SignalOwnedSafe(v, r, pid, false, Terminate, Unregistered);
      }
    }
  }

  lemma SleepKeeps(w: World, duration: nat)
    requires WorldOk(w)
    ensures OnlyLooked(w, Sleep(w, duration)) && Sleep(w, duration).exitSeen == w.exitSeen
  {
  }

  /** However long the unregistered child takes, the shutdown only ever asks for a graceful
      stop; it ends with the child reaped or still owned, never dropped. */
  lemma {:induction false} ShutdownSafe(w: World, r: Record, pid: nat, cleanup: Option<Cleanup>, requested: bool, deadline: nat)
    requires WorldOk(w) && (w.dead || OwnedOk(Owned(pid, r, cleanup, false), w))
    ensures var (v, out) := ShutdownFrom(w, r, pid, cleanup, requested, deadline); PassOutcome(w, v, r, pid, Done(out))
    decreases if w.now < deadline then deadline - w.now else 0
  {
    hide ShutdownPass;
    hide WorldOk;
    ShutdownPassSafe(w, r, pid, cleanup, requested);
    var (v, pass) := ShutdownPass(w, r, pid, cleanup, requested);
    if pass.GoOn? && v.now < deadline {
      SleepKeeps(v, UNREGISTERED_POLL);
      var u := Sleep(v, UNREGISTERED_POLL);
      ShutdownSafe(u, r, pid, pass.cleanup, pass.requested, deadline);
    }
  }
}
