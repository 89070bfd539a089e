/** How a live process compares with a persisted record (process.rs, identity inspection). */
module ProcessIdentity {
  import opened Records
  import opened Kernel
  import opened ProcessGroup

  datatype Probe = Match | ExecutableVanished | ExecutableMismatch | GroupEscaped | Mismatch

  /** `identity_probe`. */
  function IdentityProbe(s: Snapshot, r: Record): Probe {
    if !(s.pid == r.pid && s.ours && s.start == r.start) then Mismatch
    else if s.group != r.group || s.group != s.pid then GroupEscaped
    else match s.executable
      case Some(e) => if e == r.executable then Match else ExecutableMismatch
      case None => ExecutableVanished
  }

  /** The probes that still authorize a signal. */
  predicate SameProcess(s: Snapshot, r: Record) {
    IdentityProbe(s, r) != Mismatch && IdentityProbe(s, r) != GroupEscaped
  }

  datatype OwnedMatch = Same | Different | Absent | Unreadable

  /** `owned_identity_matches`. */
  function OwnedIdentity(w: World, r: Record): (o: (World, OwnedMatch)) {
    var (v, snap) := TakeSnapshot(w, r.pid);
    match snap
    case Seen(s) => (v, if SameProcess(s, r) then Same else Different)
    case NoSuchProcess => (v, Absent)
    case SnapshotFailed => (v, Unreadable)
  }

  datatype Identity = Present(probe: Probe) | Missing | Uninspected

  /** `inspect_record_identity`. */
  function Inspect(w: World, r: Record): (o: (World, Identity)) {
    var (v, snap) := TakeSnapshot(w, r.pid);
    match snap
    case Seen(s) => (v, Present(IdentityProbe(s, r)))
    case NoSuchProcess => (v, Missing)
    case SnapshotFailed => (v, Uninspected)
  }

  /** No leader with this PID is alive. */
  predicate NoneAlive(w: World, pid: nat) {
    forall l | l in w.leaders :: l.0 == pid ==> !Lives(w.leaders, w.procs, l)
  }

  lemma OwnedIdentityKeeps(w: World, r: Record)
    requires WorldOk(w)
    ensures OnlyLooked(w, OwnedIdentity(w, r).0)
    ensures OwnedIdentity(w, r).1 == Different ==> !OwnedIdentity(w, r).0.dead
  {
    SnapshotKeeps(w, r.pid);
  }

  /** Inspection never mistakes a live leader for a missing or a different process: a
      missing PID carries no leader, and a confirmed record that mismatches is not the record
      of a live one, even when its PID is in use again. */
  lemma InspectSound(w: World, r: Record)
    requires WorldOk(w)
    ensures var (v, identity) := Inspect(w, r);
            && OnlyLooked(w, v) && v.exitSeen == w.exitSeen
            && (identity.Missing? ==> NoneAlive(v, r.pid))
            && (identity == Present(Mismatch) ==> !Lives(v.leaders, v.procs, (r.pid, r.start)))
            && (identity.Present? && identity.probe != Mismatch && RecordOk(r, w.trusted) && !r.unconfirmed ==>
                  Lives(v.leaders, v.procs, (r.pid, r.start)))
  {
    SnapshotKeeps(w, r.pid);
  }
}
