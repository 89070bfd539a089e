/** The cleanup of an owned child as the agent runs it: fields updated in place, early
    returns, one loop up to a deadline. Each method computes exactly what module
    ProcessCleanup says. */
module OwnedChildren {
  import opened Records
  import opened Kernel
  import opened ProcessGroup
  import opened ProcessIdentity
  import opened ProcessCleanup

  class OwnedChild {
    var os: World
    const pid: nat
    const record: Record
    var cleanup: Option<Cleanup>
    var identityFailed: bool

    constructor (os: World, pid: nat, record: Record)
      ensures this.os == os && View() == Owned(pid, record, None, false)
    {
      this.os, this.pid, this.record := os, pid, record;
      cleanup, identityFailed := None, false;
    }

    function View(): Owned
      reads this
    {
      Owned(pid, record, cleanup, identityFailed)
    }

    method MarkIdentityFailed()
      modifies this
      ensures View() == old(View()).(identityFailed := true) && os == NoteRefusal(old(os), pid)
    {
      identityFailed := true;
      os := NoteRefusal(os, pid);
    }

    method RefuseSignals()
      requires cleanup.Some?
      modifies this
      ensures View() == old(View()).(cleanup := Some(old(cleanup).value.Refused())) && os == NoteRefusal(old(os), pid)
    {
      cleanup := Some(cleanup.value.Refused());
      os := NoteRefusal(os, pid);
    }

    method Wait() returns (poll: Poll)
      modifies this`os
      ensures os == Reap(old(os), pid).0
      ensures poll == (if Reap(old(os), pid).1.None? then PollFailed else Gone(Reap(old(os), pid).1.value))
    {
      var (v, exit) := Reap(os, pid);
      os := v;
      poll := if exit.None? then PollFailed else Gone(exit.value);
    }

    method PollPending() returns (poll: Poll)
      requires cleanup.Some?
      modifies this
      ensures (os, View(), poll) == PollPendingGroup(old(os), old(View()))
    {
      var (v, seen) := ObserveOwned(os, record, pid);
      os := v;
      match seen {
        case Empty =>
          poll := Wait();
          if poll.Gone? {
            cleanup := None;
          }
        case HasMembers =>
          if cleanup.value.signalAllowed && !cleanup.value.terminateRequested {
            var (u, sent) := SignalOwned(os, record, pid, true, Terminate, AfterExit);
            os := u;
            if !sent {
              RefuseSignals();
              return PollFailed;
            }
            cleanup := Some(cleanup.value.Requested());
          }
          poll := Quiet;
        case Unknown =>
          RefuseSignals();
          poll := PollFailed;
      }
    }

    method PollFailedIdentity() returns (poll: Poll)
      modifies this
      ensures (os, View(), poll) == PollIdentityFailed(old(os), old(View()))
    {
      var (v, peek) := PeekChildExit(os, pid);
      os := v;
      if peek.PeekFailed? {
        return PollFailed;
      }
      if peek.NotExited? {
        return Quiet;
      }
      var (u, seen) := ObserveOwned(os, record, pid);
      os := u;
      match seen {
        case Empty =>
          poll := Wait();
        case HasMembers =>
          cleanup := Some(Cleanup(peek.reason, false, false));
          poll := Quiet;
        case Unknown =>
          cleanup := Some(Cleanup(peek.reason, false, false));
          poll := PollFailed;
      }
    }

    method Poll() returns (poll: Poll)
      modifies this
      ensures (os, View(), poll) == PollOwned(old(os), old(View()))
    {
      if cleanup.Some? {
        poll := PollPending();
        return;
      }
      if identityFailed {
        poll := PollFailedIdentity();
        return;
      }
      var (v, peek) := PeekChildExit(os, pid);
      os := v;
      if peek.PeekFailed? {
        return PollFailed;
      }
      if !record.unconfirmed {
        var (u, same) := OwnedIdentity(os, record);
        os := u;
        if same == Unreadable {
          return PollFailed;
        }
        if same == Different {
          return Gone(IdentityChanged);
        }
      }
      if peek.NotExited? {
        return Quiet;
      }
      var pending := Cleanup(peek.reason, false, true);
      var (t, seen) := ObserveOwned(os, record, pid);
      os := t;
      match seen {
        case Empty =>
          poll := Wait();
        case HasMembers =>
          var (s, sent) := SignalOwned(os, record, pid, true, Terminate, AfterExit);
          os := s;
          if sent {
            cleanup := Some(pending.Requested());
            poll := Quiet;
          } else {
            cleanup := Some(pending);
            RefuseSignals();
            poll := PollFailed;
          }
        case Unknown =>
          cleanup := Some(pending);
          RefuseSignals();
          poll := PollFailed;
      }
    }

    /** One pass of the shutdown loop while the leader's exit is already known. */
    method ShutdownExited(requested: bool) returns (pass: Pass)
      requires cleanup.Some?
      modifies this
      ensures (os, pass) == ShutdownPending(old(os), record, pid, old(cleanup).value, requested)
      ensures identityFailed == old(identityFailed)
      ensures pass.GoOn? ==> cleanup == pass.cleanup
    {
      var (v, seen) := ObserveOwned(os, record, pid);
      os := v;
      match seen {
        case Empty =>
          var poll := Wait();
          pass := Done(if poll.Gone? then Reaped else Survived(cleanup));
        case HasMembers =>
          if cleanup.value.signalAllowed && !cleanup.value.terminateRequested {
            var (u, sent) := SignalOwned(os, record, pid, true, Terminate, AfterExit);
            os := u;
            if !sent {
              RefuseSignals();
              return Done(Survived(cleanup));
            }
            cleanup := Some(cleanup.value.Requested());
          }
          pass := GoOn(cleanup, requested);
        case Unknown =>
          RefuseSignals();
          pass := Done(Survived(cleanup));
      }
    }

    method ShutdownOnce(requested: bool) returns (pass: Pass)
      modifies this
      ensures (os, pass) == ShutdownPass(old(os), record, pid, old(cleanup), requested)
      ensures identityFailed == old(identityFailed)
      ensures pass.GoOn? ==> cleanup == pass.cleanup
    {
      if cleanup.Some? {
        pass := ShutdownExited(requested);
        return;
      }
      var (v, peek) := PeekChildExit(os, pid);
      os := v;
      match peek {
        case PeekFailed =>
          pass := Done(Survived(None));
        case HasExited(reason) =>
          cleanup := Some(Cleanup(reason, false, true));
          pass := ShutdownExited(requested);
        case NotExited =>
          if !requested {
            var (u, sent) := SignalOwned(os, record, pid, false, Terminate, Unregistered);
            os := u;
            if !sent {
              return Done(Survived(None));
            }
          }
          pass := GoOn(None, true);
      }
    }

    /** `shutdown_unregistered_child`: a graceful stop bounded by a deadline. */
    method Shutdown() returns (out: ProcessCleanup.Shutdown)
      requires cleanup.None?
      modifies this
      ensures (os, out) == ShutdownUnregistered(old(os), record, pid)
      ensures identityFailed == old(identityFailed)
    {
      hide ShutdownPass;
      var deadline := os.now + UNREGISTERED_GRACE;
      var requested := false;
      while true
        invariant ShutdownUnregistered(old(os), record, pid) == ShutdownFrom(os, record, pid, cleanup, requested, deadline)
        invariant identityFailed == old(identityFailed)
        decreases if os.now < deadline then deadline - os.now else 0
      {
        var pass := ShutdownOnce(requested);
        if pass.Done? {
          return pass.result;
        }
        requested := pass.requested;
        if os.now >= deadline {
          return Survived(cleanup);
        }
        os := Sleep(os, UNREGISTERED_POLL);
      }
    }
  }
}
