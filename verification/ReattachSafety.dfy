/** Adopting, keeping or giving up a recorded process keeps the invariant: a record goes only
    when no leader it could speak of is alive. */
module ReattachSafety {
  import opened Records
  import opened Kernel
  import opened ProcessGroup
  import opened ProcessIdentity
  import opened ProcessCleanup
  import opened ManagedProcesses
  import opened SupervisorState
  import opened RuntimeDurability
  import opened SupervisorSafety
  import opened Lifecycle
  import opened LifecycleSafety
  import opened ProcessExit
  import opened ExitSafety
  import opened ReattachPolicy
  import opened Reattach

  /** The same state with its record counted as unverified. */
  function Held(s: Sup): Sup {
    s.(unverified := true)
  }

  /** `s` holds the record `r` of a process that is not supervised: just after a boot it is
      not marked unverified yet, although the invariant would have it so. */
  ghost predicate Candidate(s: Sup, r: Record) {
    && Inv(Held(s)) && s.process.None? && s.runtime.process == Some(r)
    && (s.os.dead || (s.loaded && s.runtime.marker.None?))
  }

  lemma CandidateMoves(s: Sup, r: Record, v: World)
    requires Candidate(s, r) && OnlyLooked(s.os, v)
    ensures Candidate(s.(os := v), r) && Calm(Held(s), Held(s.(os := v)))
  {
    hide Inv;
    hide Calm;
    hide OnlyLooked;
    LookMoves(Held(s), v);
    CalmInv(Held(s), Held(s).(os := v));
    DeadLooks(s.os, v);
    HeldLater(s, v);
    hide Held;
  }

  lemma HeldLater(s: Sup, v: World)
    ensures Held(s.(os := v)) == Held(s).(os := v)
  {
  }

  lemma DeadLooks(w: World, v: World)
    requires OnlyLooked(w, v)
    ensures w.dead ==> v.dead
  {
    hide WorldOk;
  }

  lemma MarkCandidate(s: Sup, r: Record)
    requires Candidate(s, r)
    ensures Calm(Held(s), MarkUnverified(s, r))
  {
    hide MarkUnverified;
    hide WorldOk;
    hide Calm;
    EvolvesReflexive(s.os);
    hide Evolves;
    MarkUnverifiedSafe(Held(s), s, r);
  }

  lemma EvolvesReflexive(w: World)
    ensures Evolves(w, w)
  {
  }

  // ---------------------------------------------------------------- discarding

  /** No leader that `r` could speak of is alive. */
  predicate Silent(r: Record, w: World) {
    forall l | l in w.leaders :: !(Lives(w.leaders, w.procs, l) && l.0 == r.pid && (r.unconfirmed || l.1 == r.start))
  }

  lemma SilentNoLeader(image: Runtime, w: World)
    requires RuntimeOk(image, w.leaders, w.trusted, w.procs) && image.marker.None? && image.process.Some? && Silent(image.process.value, w)
    ensures NoLeader(w)
  {
  }

  lemma DiscardedMoves(s: Sup, r: Record)
    requires Candidate(s, r) && (s.os.dead || Silent(r, s.os))
    ensures Edits(Held(s), Discarded(s)) && Emptied(Discarded(s), r)
  {
    hide WorldOk;
    hide ManagedOk;
    if !s.os.dead { SilentNoLeader(s.runtime, s.os); }
  }

  lemma KeptSafe(a: Sup, r: Record)
    requires Emptied(a, r) && (a.os.dead || (!a.reliable && a.retryPending))
    requires a.os.dead || (a.nextRestart.None? && a.nextPortRetry.None?)
    ensures Calm(a, KeptUnverified(a, Some(r)))
  {
    hide WorldOk;
    hide ManagedOk;
  }

  lemma DiscardLaterSafe(a: Sup)
    requires Inv(a)
    ensures Calm(a, DiscardLater(a))
  {
    hide Inv;
    hide Calm;
    RebookedAccounts(a, DiscardLater(a));
    CalmerSafe(a, DiscardLater(a));
  }

  lemma DiscardSafe(s: Sup, r: Record)
    requires Candidate(s, r) && (s.os.dead || Silent(r, s.os))
    ensures var (d, gone) := DiscardStale(s); Calm(Held(s), d) && (gone ==> Idle(d))
  {
    hide Edits;
    hide Emptied;
    hide Calm;
    hide Inv;
    hide PersistDetailed;
    hide KeptUnverified;
    hide DiscardLater;
    hide Silent;
    DiscardedMoves(s, r);
    var a := Discarded(s);
    EmptiedFacts(a, r);
    DetailedAfter(Held(s), a);
    StillEmptied(a, r);
    var (t, outcome) := PersistDetailed(a);
    EmptiedFacts(t, r);
    if outcome == Failed {
      TimersQuiet(s, r);
      CalmInv(Held(s), t);
      KeptSafe(t, r);
      CalmTransitive(Held(s), t, KeptUnverified(t, Some(r)));
    } else if outcome == Uncertain {
      DiscardLaterSafe(t);
      CalmTransitive(Held(s), t, DiscardLater(t));
    }
  }

  lemma EmptiedFacts(a: Sup, r: Record)
    requires Emptied(a, r)
    ensures Inv(a) && Idle(a) && (a.os.dead || a.pendingExit.None?)
  {
  }

  lemma TimersQuiet(s: Sup, r: Record)
    requires Candidate(s, r)
    ensures var t := PersistDetailed(Discarded(s)).0; s.os.dead || (t.nextRestart.None? && t.nextPortRetry.None?)
  {
    hide PersistDetailed;
    hide WorldOk;
    hide ManagedOk;
    hide RuntimeOk;
    PersistDetailedFrame(Discarded(s));
  }

  // ---------------------------------------------------------------- adopting

  /** The recorded process is adopted: its PID, start time and group are the recorded ones. */
  predicate Adopts(s: Sup, t: Sup, r: Record) {
    && SameBooks(s, t) && t.os == s.os && t.process == Some(Attached(r)) && t.runtime == s.runtime.(process := Some(r))
    && (t.unverified ==> s.unverified) && t.runtime.process.Some?
  }

  predicate SameIdentity(r: Record, n: Record) {
    n.pid == r.pid && n.group == r.group && n.start == r.start && n.unconfirmed == r.unconfirmed
  }

  lemma AdoptMoves(s: Sup, t: Sup, r: Record, n: Record)
    requires Candidate(s, r) && Adopts(Held(s), t, n) && SameIdentity(r, n) && !r.unconfirmed
    ensures Edits(Held(s), t)
  {
    hide WorldOk;
    if !s.os.dead {
      forall l | Lives(s.os.leaders, s.os.procs, l) ensures Shows(t.runtime, l) {
        assert Shows(s.runtime, l);
      }
    }
  }

  lemma FailUnlessSafe(s: Sup, r: (Sup, bool))
    requires Calm(s, r.0)
    ensures Calm(s, FailUnless(r))
  {
    hide Inv;
    hide Calm;
    CalmInv(s, r.0);
    CalmerSafe(r.0, FailUnless(r));
    CalmTransitive(s, r.0, FailUnless(r));
  }

  lemma SaveAdopted(s: Sup, t: Sup, r: Record, n: Record)
    requires Candidate(s, r) && Adopts(Held(s), t, n) && SameIdentity(r, n) && !r.unconfirmed
    ensures Calm(Held(s), PersistRuntime(t).0) && Calm(Held(s), FailUnless(PersistRuntime(t)))
  {
    hide Candidate;
    hide Adopts;
    hide Held;
    hide Edits;
    hide Calm;
    hide Inv;
    hide PersistRuntime;
    AdoptMoves(s, t, r, n);
    SaveAfter(Held(s), t);
    FailUnlessSafe(Held(s), PersistRuntime(t));
  }

  lemma AttachUnconfirmedSafe(s: Sup, r: Record)
    requires Candidate(s, r) && !r.unconfirmed
    ensures Calm(Held(s), AttachUnconfirmed(s, r))
  {
    hide Calm;
    hide Candidate;
    hide PersistRuntime;
    SaveAdopted(s, s.(process := Some(Attached(r)), runtime := s.runtime.(process := Some(r)), unverified := true,
                      unverifiedAt := Some(s.os.now + UNVERIFIED_CHECK), server := ServerFailed), r, r);
  }

  lemma AttachStaleSafe(s: Sup, r: Record)
    requires Candidate(s, r) && !r.unconfirmed
    ensures Calm(Held(s), AttachStale(s, r))
  {
    hide Calm;
    hide Candidate;
    hide PersistRuntime;
    hide FailUnless;
    SaveAdopted(s, s.(process := Some(Attached(r)), runtime := s.runtime.(process := Some(r)), active := None,
                      stale := true, server := ServerUnhealthy), r, r);
  }

  lemma AttachHealthySafe(s: Sup, r: Record, n: Record, version: nat, config: Config)
    requires Candidate(s, r) && SameIdentity(r, n) && !r.unconfirmed
    ensures Calm(Held(s), AttachHealthy(s, n, version, config))
  {
    hide Calm;
    hide Candidate;
    hide PersistRuntime;
    hide FailUnless;
    SaveAdopted(s, s.(process := Some(Attached(n)), runtime := s.runtime.(process := Some(n)),
                      runningVersion := Some(version), active := Some(config), server := ServerHealthy,
                      started := Some(s.os.now)), r, n);
  }

  /** What an inspection says about the recorded process. */
  ghost predicate Inspected(r: Record, identity: Identity, w: World) {
    && (identity.Missing? ==> NoneAlive(w, r.pid))
    && (identity == Present(Mismatch) ==> !Lives(w.leaders, w.procs, (r.pid, r.start)))
  }

  lemma InspectedSilent(r: Record, identity: Identity, w: World)
    requires Inspected(r, identity, w) && (identity.Missing? || (identity == Present(Mismatch) && !r.unconfirmed))
    ensures Silent(r, w)
  {
  }

  lemma OsTwice(s: Sup, w: World, v: World)
    ensures s.(os := w).(os := v) == s.(os := v)
  {
  }

  lemma CandidateLater(s: Sup, r: Record, w: World, v: World)
    requires Candidate(s.(os := w), r) && OnlyLooked(w, v)
    ensures Candidate(s.(os := v), r) && Calm(Held(s.(os := w)), Held(s.(os := v)))
  {
    hide Candidate;
    hide Calm;
    hide Held;
    hide OnlyLooked;
    CandidateMoves(s.(os := w), r, v);
    OsTwice(s, w, v);
  }

  lemma InspectSafe(s: Sup, r: Record, w: World)
    requires Candidate(s.(os := w), r)
    ensures var (v, identity) := Inspect(w, r);
            Candidate(s.(os := v), r) && Calm(Held(s.(os := w)), Held(s.(os := v))) && Inspected(r, identity, v)
  {
    hide WorldOk;
    hide Inspect;
    hide Calm;
    hide Held;
    hide OnlyLooked;
    InspectSound(w, r) by { CandidateWorld(s.(os := w), r); }
    CandidateLater(s, r, w, Inspect(w, r).0);
    hide Candidate;
  }

  /** Each final action suits what the inspections found. */
  lemma FinishReadoptSafe(s: Sup, r: Record, identity: Identity, health: HealthVerdict, config: Config)
    requires Candidate(s, r) && !r.unconfirmed && Inspected(r, identity, s.os)
    ensures Calm(Held(s), FinishReadopt(s, r, DecideAfterHealth(identity, health, config)))
  {
    hide Calm;
    hide Candidate;
    hide Inspected;
    hide AttachHealthy;
    hide DiscardStale;
    hide MarkUnverified;
    hide AttachUnconfirmed;
    MarkCandidate(s, r);
    AttachUnconfirmedSafe(s, r);
    match DecideAfterHealth(identity, health, config)
    case FinalReattach(version, c) => AttachHealthySafe(s, r, Refreshed(r, version, c), version, c);
    case FinalDiscard =>
      InspectedSilent(r, identity, s.os);
      DiscardSafe(s, r);
    case FinalUnverified =>
    case FinalUnconfirmed =>
  }

  lemma CheckAndReadoptSafe(s: Sup, r: Record, config: Config)
    requires Candidate(s, r) && !r.unconfirmed
    ensures Calm(Held(s), CheckAndReadopt(s, r, config))
  {
    hide Calm;
    hide Candidate;
    hide Inspected;
    hide Inspect;
    hide Ask;
    hide OnlyLooked;
    hide FinishReadopt;
    hide Held;
    hide WorldOk;
    AskKeeps(s.os) by { CandidateWorld(s, r); }
    var v := Ask(s.os).0;
    CandidateMoves(s, r, v);
    InspectSafe(s, r, v);
    var (u, again) := Inspect(v, r);
    FinishReadoptSafe(s.(os := u), r, again, Ask(s.os).1.health, config);
    CalmTransitive(Held(s), Held(s.(os := v)), Held(s.(os := u)));
    CalmTransitive(Held(s), Held(s.(os := u)), CheckAndReadopt(s, r, config));
  }

  lemma CandidateWorld(s: Sup, r: Record)
    requires Candidate(s, r)
    ensures WorldOk(s.os)
  {
  }

  lemma ReadoptSafe(s: Sup, r: Record, identity: Identity)
    requires Candidate(s, r) && Inspected(r, identity, s.os)
    ensures Calm(Held(s), Readopt(s, r, identity))
  {
    hide Calm;
    hide Candidate;
    hide Inspected;
    hide DiscardStale;
    hide MarkUnverified;
    hide AttachUnconfirmed;
    hide AttachStale;
    hide CheckAndReadopt;
    MarkCandidate(s, r);
    var matches := s.latest.Some? && s.latest.value.fingerprint == r.fingerprint;
    match DecideInitial(r.unconfirmed, identity, s.latest, matches)
    case InitialDiscard =>
      InspectedSilent(r, identity, s.os);
      DiscardSafe(s, r);
    case InitialUnverified =>
    case InitialUnconfirmed => AttachUnconfirmedSafe(s, r);
    case InitialStale => AttachStaleSafe(s, r);
    case NeedsHealth(config) => CheckAndReadoptSafe(s, r, config);
  }

  lemma ObserveSafe(s: Sup, r: Record, w: World)
    requires Candidate(s.(os := w), r)
    ensures var u := ObserveAttached(w, r).0;
            && Candidate(s.(os := u), r) && Calm(Held(s.(os := w)), Held(s.(os := u)))
            && (NoneAlive(w, r.pid) ==> NoneAlive(u, r.pid))
  {
    hide WorldOk;
    hide ObserveMembers;
    hide Calm;
    hide Held;
    ObserveKeeps(w, r.group, None) by { CandidateWorld(s.(os := w), r); }
    CandidateLater(s, r, w, ObserveAttached(w, r).0);
    hide Candidate;
  }

  /** `try_reattach`, at boot. */
  lemma TryReattachSafe(s: Sup, r: Record)
    requires Candidate(s, r)
    ensures Calm(Held(s), TryReattach(s, r))
  {
    hide Calm;
    hide Candidate;
    hide Inspect;
    hide ObserveMembers;
    hide Readopt;
    hide MarkUnverified;
    hide Held;
    hide NoneAlive;
    var (v, identity) := Inspect(s.os, r);
    assert s.(os := s.os) == s;
    InspectSafe(s, r, s.os);
    if identity.Missing? {
      ObserveSafe(s, r, v);
      var u := ObserveAttached(v, r).0;
      ReadoptSafe(s.(os := u), r, Missing);
      MarkCandidate(s.(os := u), r);
      CalmTransitive(Held(s), Held(s.(os := v)), Held(s.(os := u)));
      CalmTransitive(Held(s), Held(s.(os := u)), TryReattach(s, r));
    } else {
      ReadoptSafe(s.(os := v), r, identity);
      CalmTransitive(Held(s), Held(s.(os := v)), TryReattach(s, r));
    }
  }

  /** Every way of dealing with a recorded process ends in a save. */
  ghost predicate Settled(s: Sup, t: Sup) {
    Gate(t) && t.pendingExit == s.pendingExit
  }

  lemma SavedSettled(s: Sup, t: Sup)
    requires t.pendingExit == s.pendingExit
    ensures Settled(s, PersistRuntime(t).0) && Settled(s, FailUnless(PersistRuntime(t)))
  {
    hide PersistRuntime;
    SaveGates(t);
    PersistRuntimeFrame(t);
    SavedFrame(t, PersistRuntime(t).0);
    hide SavedOnly;
  }

  lemma MarkSettled(s: Sup, r: Record)
    ensures Settled(s, MarkUnverified(s, r)) && Settled(s, AttachUnconfirmed(s, r)) && Settled(s, AttachStale(s, r))
  {
    hide PersistRuntime;
    hide FailUnless;
    hide Settled;
    SavedSettled(s, Unverified(s, r));
    SavedSettled(s, s.(process := Some(Attached(r)), runtime := s.runtime.(process := Some(r)), unverified := true,
                       unverifiedAt := Some(s.os.now + UNVERIFIED_CHECK), server := ServerFailed));
    SavedSettled(s, s.(process := Some(Attached(r)), runtime := s.runtime.(process := Some(r)), active := None,
                       stale := true, server := ServerUnhealthy));
  }

  lemma HealthySettled(s: Sup, r: Record, version: nat, config: Config)
    ensures Settled(s, AttachHealthy(s, r, version, config))
  {
    hide PersistRuntime;
    hide FailUnless;
    hide Settled;
    SavedSettled(s, s.(process := Some(Attached(r)), runtime := s.runtime.(process := Some(r)),
                       runningVersion := Some(version), active := Some(config), server := ServerHealthy,
                       started := Some(s.os.now)));
  }

  lemma DiscardSettled(s: Sup)
    requires s.loaded
    ensures Settled(s, DiscardStale(s).0)
  {
    hide PersistDetailed;
    hide KeptUnverified;
    hide DiscardLater;
    hide Settled;
    hide Discarded;
    DiscardSaved(s);
    var (t, outcome) := PersistDetailed(Discarded(s));
    if outcome != Durable { KeptClosed(s, t); }
  }

  lemma DiscardSaved(s: Sup)
    requires s.loaded
    ensures var (t, outcome) := PersistDetailed(Discarded(s));
            Settled(s, t) && t.pendingExit == s.pendingExit && (outcome != Durable ==> t.retryPending)
  {
    hide PersistDetailed;
    SaveGates(Discarded(s));
    PersistDetailedFrame(Discarded(s));
    SavedFrame(Discarded(s), PersistDetailed(Discarded(s)).0);
    hide SavedOnly;
    if PersistDetailed(Discarded(s)).1 != Durable { NotDurableClosed(Discarded(s)); }
  }

  lemma KeptClosed(s: Sup, t: Sup)
    requires t.retryPending && t.pendingExit == s.pendingExit
    ensures Settled(s, KeptUnverified(t, s.runtime.process)) && Settled(s, DiscardLater(t))
  {
  }

  lemma NotDurableClosed(s: Sup)
    requires s.loaded && PersistDetailed(s).1 != Durable
    ensures PersistDetailed(s).0.retryPending
  {
  }

  lemma ReadoptSettled(s: Sup, r: Record, identity: Identity)
    requires s.loaded
    ensures Settled(s, Readopt(s, r, identity))
  {
    hide Settled;
    hide DiscardStale;
    hide MarkUnverified;
    hide AttachUnconfirmed;
    hide AttachStale;
    hide CheckAndReadopt;
    MarkSettled(s, r);
    DiscardSettled(s);
    var matches := s.latest.Some? && s.latest.value.fingerprint == r.fingerprint;
    match DecideInitial(r.unconfirmed, identity, s.latest, matches)
    case NeedsHealth(config) => CheckSettled(s, r, config);
    case _ =>
  }

  lemma CheckSettled(s: Sup, r: Record, config: Config)
    requires s.loaded
    ensures Settled(s, CheckAndReadopt(s, r, config))
  {
    hide Inspect;
    hide Ask;
    hide DiscardStale;
    hide MarkUnverified;
    hide AttachUnconfirmed;
    hide AttachHealthy;
    hide Gate;
    var v := Ask(s.os).0;
    var (u, again) := Inspect(v, r);
    var t := s.(os := u);
    MarkSettled(t, r);
    DiscardSettled(t);
    match DecideAfterHealth(again, Ask(s.os).1.health, config)
    case FinalReattach(version, c) => HealthySettled(t, Refreshed(r, version, c), version, c);
    case _ =>
  }

  lemma TryReattachSettled(s: Sup, r: Record)
    requires s.loaded
    ensures Settled(s, TryReattach(s, r))
  {
    hide Inspect;
    hide ObserveMembers;
    hide Readopt;
    hide MarkUnverified;
    hide Gate;
    var (v, identity) := Inspect(s.os, r);
    var u := ObserveAttached(v, r).0;
    ReadoptSettled(s.(os := v), r, identity);
    ReadoptSettled(s.(os := u), r, Missing);
    MarkSettled(s.(os := u), r);
  }

  // ---------------------------------------------------------------- the unverified check

  lemma StartCleanlySafe(s: Sup, trigger: Trigger)
    requires Idle(s) && (s.restartAfterStop || s.runtime.desired == Running)
    ensures Calm(s, StartCleanly(s, trigger))
  {
    hide Inv;
    hide Calm;
    hide Steps;
    hide StartNow;
    var t := s.(restartAfterStop := false, attempt := 0, nextRestart := None);
    SteadySafe(s, t);
    StepsInv(s, t);
    StartNowSafe(t, trigger);
    StepsTransitive(s, t, StartNow(t, trigger));
    StepsCalm(s, StartNow(t, trigger));
  }

  lemma ConvergeSafe(s: Sup)
    requires Idle(s)
    ensures Calm(s, Converge(s))
  {
    hide Inv;
    hide Calm;
    hide StartCleanly;
    if s.restartAfterStop || s.runtime.desired == Running {
      StartCleanlySafe(s, if s.restartAfterStop then AfterStop else Cold);
    } else {
      CalmerSafe(s, s.(server := ServerStopped));
    }
  }

  lemma EndUnverifiedSafe(s: Sup, r: Record)
    requires Candidate(s, r) && (s.os.dead || Silent(r, s.os))
    ensures Calm(Held(s), EndUnverified(s))
  {
    hide Calm;
    hide Candidate;
    hide Idle;
    hide Silent;
    hide DiscardStale;
    hide Converge;
    DiscardSafe(s, r);
    var (t, gone) := DiscardStale(s);
    if gone {
      ConvergeSafe(t);
      CalmTransitive(Held(s), t, Converge(t));
    }
  }

  lemma HeldAlready(s: Sup)
    requires s.unverified
    ensures Held(s) == s
  {
  }

  lemma CheckRecordSafe(s: Sup, r: Record)
    requires Candidate(s, r) && s.unverified
    ensures Calm(s, CheckRecord(s, r))
  {
    hide Calm;
    hide Candidate;
    hide Inspect;
    hide ObserveMembers;
    hide EndUnverified;
    hide NoneAlive;
    var (v, identity) := Inspect(s.os, r);
    assert s.(os := s.os) == s;
    InspectSafe(s, r, s.os);
    HeldAlready(s);
    HeldAlready(s.(os := v));
    hide Held;
    if identity.Missing? {
      ObserveSafe(s, r, v);
      var u := ObserveAttached(v, r).0;
      HeldAlready(s.(os := u));
      CalmTransitive(s, s.(os := v), s.(os := u));
      SilentWhenNone(r, u);
      EndUnverifiedSafe(s.(os := u), r);
      CalmTransitive(s, s.(os := u), EndUnverified(s.(os := u)));
    }
  }

  lemma SilentWhenNone(r: Record, w: World)
    requires NoneAlive(w, r.pid)
    ensures Silent(r, w)
  {
  }

  /** `check_unverified_process`. */
  lemma CheckUnverifiedSafe(s: Sup, now: nat)
    requires Inv(s) && s.unverified && s.process.None?
    ensures Calm(s, CheckUnverified(s, now))
  {
    hide Calm;
    hide CheckRecord;
    hide WorldOk;
    hide ManagedOk;
    var t := s.(unverifiedAt := Some(now + UNVERIFIED_CHECK));
    CalmerSafe(s, t);
    CalmInv(s, t);
    if t.runtime.process.Some? {
      var r := t.runtime.process.value;
      HeldAlready(t);
      CheckRecordSafe(t, r);
      CalmTransitive(s, t, CheckRecord(t, r));
    }
  }

  // ---------------------------------------------------------------- worker results

  lemma UnstaleSafe(s: Sup, n: Record, version: nat, config: Config, now: nat)
    requires Inv(s) && s.process.Some?
    requires s.os.dead || (s.process.value.Attached? && SameIdentity(s.process.value.attached, n))
    ensures Calm(s, Unstale(s, n, version, config, now))
  {
    hide WorldOk;
    hide Calm;
    hide Edits;
    hide PersistRuntime;
    var t := s.(process := Some(Attached(n)), runtime := s.runtime.(process := Some(n)),
                runningVersion := Some(version), active := Some(config), stale := false,
                server := ServerHealthy, started := Some(now));
    UnstaleMoves(s, t, n);
    SaveAfter(s, t);
    FailUnlessSafe(s, PersistRuntime(t));
  }

  lemma UnstaleMoves(s: Sup, t: Sup, n: Record)
    requires Inv(s) && s.process.Some?
    requires s.os.dead || (s.process.value.Attached? && SameIdentity(s.process.value.attached, n))
    requires SameBooks(s, t) && t.os == s.os && t.process == Some(Attached(n)) && t.runtime == s.runtime.(process := Some(n))
    requires t.unverified == s.unverified
    ensures Edits(s, t)
  {
    hide WorldOk;
    if !s.os.dead {
      forall l | Lives(s.os.leaders, s.os.procs, l) ensures Shows(t.runtime, l) {
        assert Shows(s.runtime, l);
      }
    }
  }

  lemma VersionMoves(s: Sup, version: nat)
    requires Inv(s) && s.process.Some?
    ensures var m := s.process.value.WithRunningVersion(version);
            Edits(s, s.(process := Some(m), runtime := s.runtime.(process := Some(m.Rec()))))
  {
    hide WorldOk;
    if !s.os.dead {
      var m := s.process.value.WithRunningVersion(version);
      if m.Attached? {
        UnstaleMoves(s, s.(process := Some(m), runtime := s.runtime.(process := Some(m.Rec()))), m.attached);
      } else {
        ManagedShows(m, s.runtime, s.runtime.(process := Some(m.Rec())), s.os);
      }
    }
  }

  lemma RecordVersionSafe(s: Sup, version: nat)
    requires Inv(s)
    ensures Calm(s, RecordVersion(s, version).0)
  {
    hide Inv;
    hide Calm;
    hide Edits;
    hide PersistRuntime;
    if s.process.Some? {
      VersionMoves(s, version);
      var m := s.process.value.WithRunningVersion(version);
      SaveAfter(s, s.(process := Some(m), runtime := s.runtime.(process := Some(m.Rec()))));
    } else {
      CalmerSafe(s, s);
    }
  }

  lemma RecoverSafe(s: Sup)
    requires Inv(s)
    ensures Calm(s, Recover(s))
  {
    hide Inv;
    hide Calm;
    hide EmitNotification;
    CalmerSafe(s, s);
    var t := s.(recoveryIncident := false, healthIncident := false);
    CalmerSafe(s, t);
    CalmInv(s, t);
    EmitSafe(t, Recovered);
    CalmTransitive(s, t, EmitNotification(t, Recovered));
  }

  lemma ServerCalmer(s: Sup, state: ServerState)
    ensures Calmer(s, s.(server := state))
  {
  }

  lemma HealthNotedCalmer(s: Sup, version: nat)
    ensures Calmer(s, HealthNoted(s, version))
  {
  }

  lemma UnhealthNotedCalmer(s: Sup, now: nat)
    ensures Calmer(s, UnhealthNoted(s, now))
  {
  }

  lemma HealthyAnswerSafe(s: Sup, version: nat)
    requires Inv(s)
    ensures Calm(s, HealthyAnswer(s, version))
  {
    hide Inv;
    hide Calm;
    hide RecordVersion;
    hide Recover;
    hide HealthNoted;
    hide Calmer;
    var t := HealthNoted(s, version);
    HealthNotedCalmer(s, version);
    CalmerSafe(s, t);
    CalmInv(s, t);
    RecordVersionSafe(t, version);
    var (u, saved) := if s.runningVersion == Some(version) then (t, true) else RecordVersion(t, version);
    CalmTransitive(s, t, RecordVersion(t, version).0);
    CalmInv(s, u);
    if saved {
      RecoverSafe(u);
      CalmTransitive(s, u, Recover(u));
    } else {
      ServerCalmer(u, ServerFailed);
      CalmerSafe(u, u.(server := ServerFailed));
      CalmTransitive(s, u, u.(server := ServerFailed));
    }
  }

  lemma UnhealthyAnswerSafe(s: Sup, now: nat)
    requires Inv(s)
    ensures Calm(s, UnhealthyAnswer(s, now))
  {
    hide Inv;
    hide Calm;
    hide EmitNotification;
    hide TellUnhealthy;
    hide UnhealthNoted;
    hide Calmer;
    var t := UnhealthNoted(s, now);
    UnhealthNotedCalmer(s, now);
    CalmerSafe(s, t);
    CalmInv(s, t);
    EmitSafe(t, Failure);
    CalmTransitive(s, t, EmitNotification(t, Failure));
  }

  lemma StaleHealthSafe(s: Sup, now: nat, verdict: HealthVerdict)
    requires Inv(s) && s.stale
    ensures Calm(s, ApplyStaleHealth(s, now, verdict))
  {
    hide Inv;
    hide Calm;
    hide WorldOk;
    hide OnlyLooked;
    hide Inspect;
    hide Unstale;
    CalmerSafe(s, s);
    if s.process.Some? && s.latest.Some? && verdict.Healthy? {
      var r := s.process.value.Rec();
      InspectSound(s.os, r) by { InvParts(s); }
      var v := Inspect(s.os, r).0;
      LookMoves(s, v);
      var t := s.(os := v);
      CalmInv(s, t);
      StaleAttached(t);
      var n := Refreshed(r, verdict.version, s.latest.value);
      UnstaleSafe(t, n, verdict.version, s.latest.value, now);
      CalmTransitive(s, t, Unstale(t, n, verdict.version, s.latest.value, now));
    }
  }

  lemma StaleAttached(s: Sup)
    requires Inv(s) && s.stale
    ensures s.os.dead || (s.process.Some? && s.process.value.Attached?)
  {
  }

  /** A current health answer. */
  lemma HealthAnswerSafe(s: Sup, now: nat, verdict: HealthVerdict)
    requires Inv(s)
    ensures Calm(s, HealthAnswer(s, now, verdict))
  {
    hide Inv;
    hide Calm;
    hide HealthyAnswer;
    hide UnhealthyAnswer;
    hide ApplyStaleHealth;
    ReadySafe(s);
    var t := RuntimeStateReady(s).0;
    CalmInv(s, t);
    if t.stale {
      StaleHealthSafe(t, now, verdict);
      CalmTransitive(s, t, ApplyStaleHealth(t, now, verdict));
    }
    if verdict.Healthy? {
      HealthyAnswerSafe(t, verdict.version);
      CalmTransitive(s, t, HealthyAnswer(t, verdict.version));
    } else {
      UnhealthyAnswerSafe(t, now);
      CalmTransitive(s, t, UnhealthyAnswer(t, now));
    }
  }

  lemma ApplyVersionSafe(s: Sup, version: nat)
    requires Inv(s)
    ensures Calm(s, ApplyVersion(s, version))
  {
    hide Inv;
    hide Calm;
    hide RecordVersion;
    hide FailUnless;
    var t := Versioned(s, version);
    CalmerSafe(s, t);
    hide Versioned;
    CalmInv(s, t);
    RecordVersionSafe(t, version);
    CalmTransitive(s, t, RecordVersion(t, version).0);
    FailUnlessSafe(s, RecordVersion(t, version));
  }

  lemma ResumeStartSafe(s: Sup)
    requires Idle(s) && s.runtime.desired == Running
    ensures Calm(s, ResumeStart(s))
  {
    hide Inv;
    hide Calm;
    hide Steps;
    hide StartNow;
    var t := s.(attempt := 0, nextRestart := None, nextPortRetry := None, portDeadline := None, networkDeadline := None,
                pendingTrigger := None);
    SteadySafe(s, t);
    StepsInv(s, t);
    StartNowSafe(t, Cold);
    StepsTransitive(s, t, StartNow(t, Cold));
    StepsCalm(s, StartNow(t, Cold));
  }

  lemma RecheckSafe(s: Sup)
    requires Inv(s)
    ensures Calm(s, RecheckStale(s))
  {
    hide Inv;
    hide Calm;
    CalmerSafe(s, RecheckStale(s));
  }

  lemma PasswordAppliedSafe(s: Sup, fingerprint: nat)
    requires Inv(s)
    ensures Calm(s, PasswordApplied(s, fingerprint))
  {
    hide Inv;
    hide Calm;
    hide ResumeStart;
    hide RecheckStale;
    var t := s.(credential := Available, reading := false, latest := WithPassword(s, fingerprint));
    CalmerSafe(s, t);
    CalmInv(s, t);
    var u := if t.process.None? && !t.unverified && t.runtime.desired == Running then ResumeStart(t) else t;
    if t.process.None? && !t.unverified && t.runtime.desired == Running {
      ResumeStartSafe(t);
      CalmTransitive(s, t, ResumeStart(t));
    }
    CalmInv(s, u);
    RecheckSafe(u);
    CalmTransitive(s, u, RecheckStale(u));
  }
}
