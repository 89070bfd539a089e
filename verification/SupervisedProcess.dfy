/** The supervised process as an object (process.rs): a record and flags updated in place, and
    the bounded loop that confirms a fresh child. Each method computes exactly what module
    ManagedProcesses says. */
module SupervisedProcess {
  import opened Records
  import opened Kernel
  import opened ProcessGroup
  import opened ProcessIdentity
  import opened ProcessCleanup
  import opened ManagedProcesses

  class ManagedProcess {
    var os: World
    const owned: bool
    const pid: nat
    var record: Record
    var cleanup: Option<Cleanup>
    var identityFailed: bool

    /** A child of this agent. */
    constructor Child(os: World, pid: nat, record: Record, cleanup: Option<Cleanup>)
      ensures this.os == os && View() == Managed.Child(Owned(pid, record, cleanup, false))
    {
      this.os, this.pid, this.record, this.cleanup := os, pid, record, cleanup;
      owned, identityFailed := true, false;
    }

    /** A process of an earlier agent, known only by its record. */
    constructor Attached(os: World, record: Record)
      ensures this.os == os && View() == Managed.Attached(record)
    {
      this.os, this.pid, this.record := os, record.pid, record;
      owned, cleanup, identityFailed := false, None, false;
    }

    function View(): Managed
      reads this
    {
      if owned then Managed.Child(Owned(pid, record, cleanup, identityFailed)) else Managed.Attached(record)
    }

    method MarkIdentityFailed()
      modifies this
      ensures (os, View()) == ManagedProcesses.MarkIdentityFailed(old(os), old(View()))
    {
      if owned {
        identityFailed := true;
        os := NoteRefusal(os, pid);
      }
    }

    method PollExit() returns (poll: Poll)
      modifies this
      ensures (os, View(), poll) == ManagedProcesses.PollExit(old(os), old(View()))
    {
      hide PollOwned;
      if owned {
        var (v, next, answer) := PollOwned(os, Owned(pid, record, cleanup, identityFailed));
        SamePid(os, Owned(pid, record, cleanup, identityFailed));
        os, record, cleanup, identityFailed := v, next.record, next.cleanup, next.identityFailed;
        return answer;
      }
      var (v, snap) := TakeSnapshot(os, record.pid);
      os := v;
      match snap {
        case Seen(s) =>
          poll := if SameProcess(s, record) then Quiet else Gone(IdentityChanged);
        case NoSuchProcess =>
          poll := Gone(Disappeared);
        case SnapshotFailed =>
          poll := Poll.PollFailed;
      }
    }

    method SendSignal(signal: Signal, cause: Cause) returns (sent: bool)
      modifies this`os
      ensures (os, sent) == SignalManaged(old(os), old(View()), signal, cause)
    {
      if owned {
        if identityFailed {
          return false;
        }
        if cleanup.Some? && !cleanup.value.signalAllowed {
          return false;
        }
        var (v, ok) := SignalOwned(os, record, pid, cleanup.Some?, signal, cause);
        os := v;
        return ok;
      }
      var (v, snap) := TakeSnapshot(os, record.pid);
      os := v;
      if !snap.Seen? || !SameProcess(snap.snapshot, record) {
        return false;
      }
      if record.group == os.ownGroup {
        return false;
      }
      var (u, ok) := Kernel.SendSignal(os, record.group, signal, cause);
      os := u;
      sent := ok;
    }

    method ConfirmUnconfirmedIdentity() returns (upgraded: bool)
      modifies this
      ensures (os, View(), upgraded) == ConfirmIdentity(old(os), old(View()))
    {
      if !owned || !record.unconfirmed {
        return false;
      }
      var (v, snap) := TakeSnapshot(os, pid);
      os := v;
      if !snap.Seen? {
        return false;
      }
      var s := snap.snapshot;
      if s.pid != record.pid || s.group != s.pid || s.executable != Some(record.executable) {
        return false;
      }
      record := record.(start := s.start, unconfirmed := false);
      upgraded := true;
    }
  }

  /** Polling keeps the child that is polled. */
  lemma SamePid(w: World, o: Owned)
    ensures PollOwned(w, o).1.pid == o.pid
  {
  }

  /** `wait_for_snapshot_with` as the loop the agent runs: at most twenty tries, two agreeing
      observations in a row. */
  method WaitForFreshChild(w: World, pid: nat, executable: nat) returns (os: World, seen: Confirmation)
    ensures (os, seen) == WaitForSnapshot(w, pid, executable, SNAPSHOT_TRIES, None)
  {
    os := w;
    var last: Option<Snapshot> := None;
    var tries := SNAPSHOT_TRIES;
    while tries > 0
      invariant WaitForSnapshot(w, pid, executable, SNAPSHOT_TRIES, None) == WaitForSnapshot(os, pid, executable, tries, last)
      decreases tries
    {
      var (v, snap) := TakeSnapshot(os, pid);
      if snap.Seen? && snap.snapshot.executable == Some(executable) {
        var (u, again) := TakeSnapshot(Sleep(v, IDENTITY_SETTLE), pid);
        os := u;
        if again.Seen? && again.snapshot.executable == Some(executable) {
          return os, Confirmed(again.snapshot);
        }
        if again.Seen? {
          last := Some(again.snapshot);
        }
      } else {
        if snap.Seen? {
          last := Some(snap.snapshot);
        }
        os := Sleep(v, SNAPSHOT_RETRY);
      }
      tries := tries - 1;
    }
    seen := Unconfirmed(last);
  }
}
