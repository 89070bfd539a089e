/** The invariant that holds of the agent and its world between any two operations, and what
    the persistence layer does to it. */
module SupervisorSafety {
  import opened Records
  import opened Kernel
  import opened ProcessGroup
  import opened ProcessCleanup
  import opened ManagedProcesses
  import opened SupervisorState
  import opened RuntimeDurability

  // ---------------------------------------------------------------- the invariant

  /** The live process, the record in memory and the unreaped children agree. An attached
      process is exactly the recorded one; an owned child may have a disowned record. */
  ghost predicate ProcessOk(s: Sup) {
    match s.process
    case None =>
      && s.os.children == {} && !s.stale
      && (s.loaded && !s.unverified && s.runtime.marker.None? ==> s.runtime.process.None?)
    case Some(m) =>
      && s.loaded && s.runtime.marker.None? && s.runtime.process.Some?
      && s.runtime.process.value.pid == m.Pid()
      && (m.Attached? ==> s.runtime.process == Some(m.attached))
      && (m.Child? ==> !s.stale)
      && ManagedOk(m, s.os)
  }

  /** A retry may clear a marker only when nothing can have been launched under it. */
  ghost predicate MarkerOk(s: Sup) {
    && (s.unverified ==> s.loaded && s.runtime.marker.None? && s.runtime.process.Some?)
    && (s.runtime.marker.Some? && s.clearRequested ==> NoLeader(s.os) && s.runtime.process.None?)
  }

  /** No start timer is armed beside a process this agent did not fork, and an exit waits to
      be completed only while its record may still be on disk. */
  predicate TimersOk(s: Sup) {
    && ((s.process.Some? && s.process.value.Attached?) || (s.unverified && s.process.None?) ==>
          s.nextRestart.None? && s.nextPortRetry.None?)
    && (s.pendingExit.Some? ==>
          s.process.None? && !s.unverified && s.runtime.marker.None? && !s.reliable && s.retryPending)
  }

  /** Memory is evidence of every live leader. */
  ghost predicate EvidenceOk(s: Sup) {
    s.loaded ==> s.os.readable && RuntimeOk(s.runtime, s.os.leaders, s.os.trusted, s.os.procs)
  }

  ghost predicate MemoryOk(s: Sup) {
    ProcessOk(s) && MarkerOk(s) && TimersOk(s) && EvidenceOk(s)
  }

  /** The world is well formed, no rule was ever broken, and a live agent's memory agrees
      with the world. A dead agent's memory is worth nothing. */
  ghost predicate Inv(s: Sup) {
    WorldOk(s.os) && (!s.os.dead ==> MemoryOk(s))
  }

  /** The durability gate. */
  predicate Gate(s: Sup) {
    !s.os.dead && s.loaded && s.reliable && !s.retryPending ==> s.os.images == {s.runtime}
  }

  /** The tickets that wait, were carried out, and are still to be given out. */
  datatype Books = Books(next: nat, ran: seq<nat>, exit: Option<nat>, intent: Option<nat>, convergence: Option<nat>)

  function BooksOf(s: Sup): Books {
    Books(s.ledger.next, s.ledger.ran, Ticket(s.pendingExit), Ticket(s.pendingIntent), Ticket(s.pendingConvergence))
  }

  predicate Waits(b: Books, ticket: nat) {
    b.exit == Some(ticket) || b.intent == Some(ticket) || b.convergence == Some(ticket)
  }

  /** No ticket was carried out twice, and none that waits was carried out or waits twice. */
  ghost predicate Kept(b: Books) {
    && (forall i :: 0 <= i < |b.ran| ==> b.ran[i] < b.next)
    && (forall i, j :: 0 <= i < j < |b.ran| ==> b.ran[i] != b.ran[j])
    && (forall ticket: nat | Waits(b, ticket) :: ticket < b.next && ticket !in b.ran)
    && (b.exit.Some? ==> b.exit != b.intent && b.exit != b.convergence)
    && (b.intent.Some? ==> b.intent != b.convergence)
  }

  /** From `b` to `c` only tickets that waited, or that were given out since, were carried out
      or wait: a cancelled ticket never comes back. */
  ghost predicate Later(b: Books, c: Books) {
    && b.next <= c.next
    && b.ran <= c.ran
    && (forall ticket: nat | Waits(c, ticket) :: Waits(b, ticket) || ticket >= b.next)
    && (forall i :: |b.ran| <= i < |c.ran| ==> Waits(b, c.ran[i]) || c.ran[i] >= b.next)
  }

  ghost predicate Follows(b: Books, c: Books) {
    b == c || (Kept(b) ==> Kept(c) && Later(b, c))
  }

  ghost predicate Balanced(s: Sup) {
    Kept(BooksOf(s))
  }

  /** The monitor's books are kept, and its list of barred leaders is left alone. */
  ghost predicate Accounts(s: Sup, t: Sup) {
    t.os.barred == s.os.barred && Follows(BooksOf(s), BooksOf(t))
  }

  lemma FollowsTransitive(a: Books, b: Books, c: Books)
    requires Follows(a, b) && Follows(b, c)
    ensures Follows(a, c)
  {
  }

  lemma AccountsTransitive(s: Sup, t: Sup, u: Sup)
    requires Accounts(s, t) && Accounts(t, u)
    ensures Accounts(s, u)
  {
    hide Follows;
    FollowsTransitive(BooksOf(s), BooksOf(t), BooksOf(u));
  }

  /** Carrying an action out as it leaves its slot keeps the books. */
  lemma CarriedOutFollows(b: Books, c: Books, ticket: nat)
    requires c.next == b.next && c.ran == b.ran + [ticket]
    requires (c.exit == b.exit || c.exit.None?) && (c.intent == b.intent || c.intent.None?)
    requires c.convergence == b.convergence || c.convergence.None?
    requires (b.exit == Some(ticket) && c.exit.None?) || (b.intent == Some(ticket) && c.intent.None?)
             || (b.convergence == Some(ticket) && c.convergence.None?)
    ensures Follows(b, c)
  {
    assert Waits(b, ticket);
    forall k: nat | Waits(c, k) ensures Waits(b, k) {
    }
  }

  /** What a change of the waiting actions does to the books: some are given up, and at most
      one is put off under the next ticket. */
  ghost predicate Rebooked(b: Books, c: Books) {
    c.ran == b.ran &&
    if c.next == b.next then
      Dropped(b.exit, c.exit) && Dropped(b.intent, c.intent) && Dropped(b.convergence, c.convergence)
    else
      && c.next == b.next + 1
      && (|| (c.exit == Some(b.next) && Dropped(b.intent, c.intent) && Dropped(b.convergence, c.convergence))
          || (c.intent == Some(b.next) && Dropped(b.exit, c.exit) && Dropped(b.convergence, c.convergence))
          || (c.convergence == Some(b.next) && Dropped(b.exit, c.exit) && Dropped(b.intent, c.intent)))
  }

  predicate Dropped(was: Option<nat>, slot: Option<nat>) {
    slot == was || slot.None?
  }

  lemma RebookedFollows(b: Books, c: Books)
    requires Rebooked(b, c)
    ensures Follows(b, c)
  {
    forall k: nat | Waits(c, k) ensures Waits(b, k) || k == b.next {
    }
    assert b.exit.Some? ==> Waits(b, b.exit.value);
    assert b.intent.Some? ==> Waits(b, b.intent.value);
    assert b.convergence.Some? ==> Waits(b, b.convergence.value);
  }

  lemma RebookedAccounts(s: Sup, t: Sup)
    requires t.os.barred == s.os.barred && Rebooked(BooksOf(s), BooksOf(t))
    ensures Accounts(s, t)
  {
    hide Follows;
    RebookedFollows(BooksOf(s), BooksOf(t));
  }

  predicate AllMarked(images: set<Runtime>) {
    forall image | image in images :: image.marker.Some?
  }

  // ---------------------------------------------------------------- steps

  predicate Frozen(w: World, v: World) {
    v.forks == w.forks && v.signals == w.signals
  }

  /** From `s` to `t` by code that keeps the invariant and the books. Beyond that, a dead world
      stands still, and an agent that could not load the state neither writes, launches nor
      signals. */
  ghost predicate Sound(s: Sup, t: Sup) {
    && Inv(t)
    && t.loaded == s.loaded && Accounts(s, t)
    && (s.os.dead ==> t.os.dead && Frozen(s.os, t.os) && t.os.images == s.os.images)
    && (!s.os.dead && !s.loaded ==> Frozen(s.os, t.os) && t.os.images == s.os.images)
  }

  /** A launch marker in memory stays there, and while it is there nothing is launched or
      signaled. */
  predicate Sealed(s: Sup, t: Sup) {
    !s.os.dead && s.runtime.marker.Some? ==>
      && Frozen(s.os, t.os)
      && (AllMarked(s.os.images) ==> AllMarked(t.os.images))
      && (!t.os.dead ==> t.runtime.marker == s.runtime.marker && t.clearRequested == s.clearRequested)
  }

  ghost predicate Moves(s: Sup, t: Sup) {
    Sound(s, t) && Sealed(s, t)
  }

  /** A whole step, which also keeps the durability gate. */
  ghost predicate Steps(s: Sup, t: Sup) {
    Moves(s, t) && (Gate(s) ==> Gate(t))
  }

  lemma MovesTransitive(s: Sup, t: Sup, u: Sup)
    requires Moves(s, t) && Moves(t, u)
    ensures Moves(s, u)
  {
    hide Inv;
    hide Accounts;
    hide AllMarked;
    AccountsTransitive(s, t, u);
  }

  lemma StepsTransitive(s: Sup, t: Sup, u: Sup)
    requires Steps(s, t) && Steps(t, u)
    ensures Steps(s, u)
  {
    hide Gate;
    hide Moves;
    MovesTransitive(s, t, u);
  }

  lemma StepsInv(s: Sup, t: Sup)
    requires Steps(s, t)
    ensures Inv(t) && t.loaded == s.loaded && (s.os.dead ==> t.os.dead)
  {
    hide Inv;
  }

  // ---------------------------------------------------------------- stop finality

  predicate AllStopped(images: set<Runtime>) {
    forall image | image in images :: image.desired == Stopped
  }

  /** Nothing in memory or on disk asks for a start. */
  predicate AtRest(s: Sup) {
    && AllStopped(s.os.images)
    && (!s.os.dead && s.loaded ==>
          && s.runtime.desired == Stopped && s.nextRestart.None? && s.nextPortRetry.None?
          && !s.restartAfterStop && (s.pendingIntent.Some? ==> s.pendingIntent.value.what == StopIntent))
  }

  predicate Rests(s: Sup, t: Sup) {
    AtRest(s) ==> AtRest(t) && t.os.forks == s.os.forks
  }

  /** A step that no start can come from, if nothing asked for one; the retry that takes back
      a launch marker is one. */
  ghost predicate Goes(s: Sup, t: Sup) {
    Sound(s, t) && (Gate(s) ==> Gate(t)) && Rests(s, t)
  }

  lemma GoesTransitive(s: Sup, t: Sup, u: Sup)
    requires Goes(s, t) && Goes(t, u)
    ensures Goes(s, u)
  {
    hide Gate;
    hide Inv;
    hide Accounts;
    hide Rests;
    RestsTransitive(s, t, u);
    AccountsTransitive(s, t, u);
  }

  lemma CalmGoes(s: Sup, t: Sup)
    requires Calm(s, t)
    ensures Goes(s, t)
  {
  }

  /** A step that no start can come from. */
  ghost predicate Calm(s: Sup, t: Sup) {
    Steps(s, t) && Rests(s, t)
  }

  /** A change of memory whose save is still to come. */
  ghost predicate Edits(s: Sup, t: Sup) {
    Moves(s, t) && Rests(s, t)
  }

  lemma RestsTransitive(s: Sup, t: Sup, u: Sup)
    requires Rests(s, t) && Rests(t, u)
    ensures Rests(s, u)
  {
    hide AtRest;
  }

  lemma CalmTransitive(s: Sup, t: Sup, u: Sup)
    requires Calm(s, t) && Calm(t, u)
    ensures Calm(s, u)
  {
    hide Steps;
    hide Rests;
    StepsTransitive(s, t, u);
    RestsTransitive(s, t, u);
  }

  lemma CalmInv(s: Sup, t: Sup)
    requires Calm(s, t)
    ensures Inv(t) && t.loaded == s.loaded && (s.os.dead ==> t.os.dead) && Steps(s, t)
  {
    hide Inv;
  }

  lemma CalmEdits(s: Sup, t: Sup, u: Sup)
    requires Calm(s, t) && Edits(t, u)
    ensures Edits(s, u)
  {
    hide Moves;
    hide Rests;
    MovesTransitive(s, t, u);
    RestsTransitive(s, t, u);
  }

  /** Without a loaded state, and after a crash, nothing can disturb the rest. */
  lemma MovesRest(s: Sup, t: Sup)
    requires Moves(s, t) && (s.os.dead || !s.loaded)
    ensures Rests(s, t)
  {
    hide Inv;
    hide Accounts;
  }

  // ---------------------------------------------------------------- changes of the world

  /** Observations and saves: no process is created, reaped or signaled. */
  ghost predicate Stays(w: World, v: World) {
    && WorldOk(v)
    && v.leaders == w.leaders && v.children == w.children && v.trusted == w.trusted && v.barred == w.barred
    && v.refused == w.refused && v.terminated == w.terminated && w.exitSeen <= v.exitSeen
    && (forall p | p in w.children && p in w.procs :: p in v.procs && v.procs[p].start == w.procs[p].start)
    && (forall l | Lives(v.leaders, v.procs, l) :: Lives(w.leaders, w.procs, l))
    && v.readable == w.readable && v.forks == w.forks && v.signals == w.signals
    && (w.dead ==> v.dead && v.images == w.images)
  }

  lemma ManagedStays(m: Managed, w: World, v: World)
    requires ManagedOk(m, w) && Stays(w, v)
    ensures ManagedOk(m, v)
  {
    hide WorldOk;
  }

  lemma NoLeaderStays(w: World, v: World)
    requires NoLeader(w) && v.leaders == w.leaders
    requires forall l | Lives(v.leaders, v.procs, l) :: Lives(w.leaders, w.procs, l)
    ensures NoLeader(v)
  {
  }

  lemma StaysFacts(w: World, v: World)
    requires Stays(w, v)
    ensures Frozen(w, v) && (w.dead ==> v.dead && v.images == w.images) && v.leaders == w.leaders && v.children == w.children
    ensures v.trusted == w.trusted && v.barred == w.barred
    ensures forall l | Lives(v.leaders, v.procs, l) :: Lives(w.leaders, w.procs, l)
    ensures WorldOk(v) && v.readable == w.readable
  {
    hide WorldOk;
  }

  lemma RuntimeStays(image: Runtime, w: World, v: World)
    requires RuntimeOk(image, w.leaders, w.trusted, w.procs) && Stays(w, v)
    ensures RuntimeOk(image, v.leaders, v.trusted, v.procs) && v.readable == w.readable
  {
    hide WorldOk;
  }

  /** The same memory in a later world. */
  function At(s: Sup, v: World): Sup {
    s.(os := v)
  }

  lemma ProcessStays(s: Sup, v: World)
    requires ProcessOk(s) && Stays(s.os, v)
    ensures ProcessOk(At(s, v))
  {
    hide Stays;
    hide ManagedOk;
    if s.process.Some? { ManagedStays(s.process.value, s.os, v); }
    ChildrenStay(s.os, v);
  }

  lemma ChildrenStay(w: World, v: World)
    requires Stays(w, v)
    ensures v.children == w.children
  {
    hide WorldOk;
  }

  lemma NoneStay(w: World, v: World)
    requires Stays(w, v)
    ensures NoLeader(w) ==> NoLeader(v)
  {
    hide WorldOk;
  }

  lemma MarkerStays(s: Sup, v: World)
    requires MarkerOk(s) && Stays(s.os, v)
    ensures MarkerOk(At(s, v))
  {
    hide Stays;
    hide NoLeader;
    NoneStay(s.os, v);
  }

  lemma EvidenceStays(s: Sup, v: World)
    requires EvidenceOk(s) && Stays(s.os, v)
    ensures EvidenceOk(At(s, v))
  {
    hide Stays;
    hide RuntimeOk;
    if s.loaded { RuntimeStays(s.runtime, s.os, v); }
  }

  lemma TimersStay(s: Sup, v: World)
    requires TimersOk(s)
    ensures TimersOk(At(s, v))
  {
  }

  lemma StaysWorld(w: World, v: World)
    requires Stays(w, v)
    ensures WorldOk(v) && (w.dead ==> v.dead)
  {
    hide WorldOk;
  }

  lemma MemoryAt(s: Sup, v: World)
    requires MemoryOk(s) && Stays(s.os, v)
    ensures MemoryOk(At(s, v))
  {
    hide ProcessOk;
    hide MarkerOk;
    hide TimersOk;
    hide EvidenceOk;
    hide Stays;
    hide At;
    ProcessStays(s, v);
    MarkerStays(s, v);
    TimersStay(s, v);
    EvidenceStays(s, v);
  }

  /** The invariant survives whatever the environment does between two operations. */
  lemma MemoryStays(s: Sup, v: World)
    requires Inv(s) && Stays(s.os, v)
    ensures Inv(s.(os := v))
  {
    hide MemoryOk;
    hide WorldOk;
    hide Stays;
    StaysWorld(s.os, v);
    if !s.os.dead { MemoryAt(s, v); }
  }

  lemma LookedStays(w: World, v: World)
    requires OnlyLooked(w, v)
    ensures Stays(w, v) && v.images == w.images
  {
  }

  lemma LookMoves(s: Sup, v: World)
    requires Inv(s) && OnlyLooked(s.os, v)
    ensures Calm(s, s.(os := v))
  {
    hide WorldOk;
    hide MemoryOk;
    LookedStays(s.os, v);
    MemoryStays(s, v);
  }

  // ---------------------------------------------------------------- persistence

  lemma SaveKeeps(w: World, runtime: Runtime)
    requires WorldOk(w) && (w.dead || (w.readable && RuntimeOk(runtime, w.leaders, w.trusted, w.procs)))
    ensures var (v, outcome) := Save(w, runtime);
            && Stays(w, v)
            && (outcome == Failed ==> v.images == w.images)
            && (outcome == Uncertain ==> v.images == w.images + {runtime})
            && (outcome == Durable ==> v.images == {runtime} && !v.dead)
  {
    if !w.dead { SettleKeeps(w); }
  }

  /** What a save may change in memory. */
  predicate SavedOnly(s: Sup, t: Sup) {
    t == s.(os := t.os, stateError := t.stateError, reliable := t.reliable, retryPending := t.retryPending,
            retryAt := t.retryAt, clearRequested := t.clearRequested)
  }

  /** A durable save leaves the memory as the only image and opens the gate; any other
      outcome closes the gate until a retry. */
  ghost predicate Saved(s: Sup, t: Sup, outcome: SaveOutcome) {
    && SavedOnly(s, t) && Stays(s.os, t.os) && Gate(t)
    && (!s.loaded ==> t == s && outcome == Failed)
    && (outcome == Durable ==>
          && s.loaded && t.reliable && !t.retryPending && !t.stateError
          && t.os.images == {s.runtime} && !t.os.dead
          && t.clearRequested == (s.clearRequested && s.runtime.marker.Some?))
    && (outcome != Durable ==>
          && t.clearRequested == s.clearRequested
          && (s.loaded ==> !t.reliable && t.retryPending && t.stateError))
    && (outcome == Failed ==> t.os.images == s.os.images)
    && (outcome == Uncertain ==> t.os.images == s.os.images + {s.runtime})
  }

  /** `persist_runtime_detailed`, whatever the file system answers. */
  lemma PersistDetailedSafe(s: Sup)
    requires WorldOk(s.os) && (s.os.dead || EvidenceOk(s))
    ensures Saved(s, PersistDetailed(s).0, PersistDetailed(s).1)
  {
    hide Save;
    hide WorldOk;
    hide Stays;
    hide RuntimeOk;
    if s.loaded { SaveKeeps(s.os, s.runtime); } else { StaysReflexive(s.os); }
  }

  /** A save keeps the invariant, save for the completed exit it may have made durable. */
  lemma PersistDetailedInv(s: Sup)
    requires Inv(s)
    ensures var (t, outcome) := PersistDetailed(s);
            && Inv(t.(pendingExit := None)) && (outcome != Durable || s.pendingExit.None? ==> Inv(t))
            && (AllMarked(s.os.images) && s.runtime.marker.Some? ==> AllMarked(t.os.images))
            && (AllStopped(s.os.images) && s.runtime.desired == Stopped ==> AllStopped(t.os.images))
  {
    hide PersistDetailed;
    hide Inv;
    hide MemoryOk;
    hide Stays;
    hide WorldOk;
    hide RuntimeOk;
    PersistDetailedSafe(s) by { EvidencePart(s); InvParts(s); }
    var (t, outcome) := PersistDetailed(s);
    MemoryStays(s, t.os);
    SavedInv(s, t, outcome);
  }

  lemma SavedInv(s: Sup, t: Sup, outcome: SaveOutcome)
    requires Saved(s, t, outcome) && Inv(s.(os := t.os))
    ensures Inv(t.(pendingExit := None)) && (outcome != Durable || s.pendingExit.None? ==> Inv(t))
  {
    hide WorldOk;
    hide ManagedOk;
    hide RuntimeOk;
    hide Stays;
  }

  lemma InvParts(s: Sup)
    requires Inv(s)
    ensures WorldOk(s.os) && (!s.os.dead ==> MemoryOk(s))
  {
  }

  /** No save leaves the gate open on anything but the memory. */
  lemma SaveGates(s: Sup)
    ensures Gate(PersistDetailed(s).0) && Gate(PersistRuntime(s).0)
  {
  }

  lemma PersistDetailedFrame(s: Sup)
    ensures SavedOnly(s, PersistDetailed(s).0)
  {
    hide Save;
  }

  lemma PersistRuntimeFrame(s: Sup)
    ensures SavedOnly(s, PersistRuntime(s).0)
  {
    hide PersistDetailed;
    PersistDetailedFrame(s);
  }

  lemma SavedFrame(s: Sup, t: Sup)
    requires SavedOnly(s, t)
    ensures t.ledger == s.ledger && t.pendingExit == s.pendingExit && t.pendingIntent == s.pendingIntent
    ensures t.pendingConvergence == s.pendingConvergence && t.process == s.process && t.unverified == s.unverified
  {
  }

  /** What comes of a metadata save. */
  ghost predicate Persisted(s: Sup, t: Sup, saved: bool) {
    && Moves(s, t) && Gate(t) && Rests(s, t) && Stays(s.os, t.os) && SavedOnly(s, t)
    && (saved ==> t.os.images == {s.runtime} && !t.os.dead)
  }

  /** `persist_runtime`. */
  lemma PersistRuntimeSafe(s: Sup)
    requires Inv(s)
    ensures Persisted(s, PersistRuntime(s).0, PersistRuntime(s).1)
  {
    hide PersistDetailed;
    hide WorldOk;
    hide MemoryOk;
    hide RuntimeOk;
    StaysReflexive(s.os);
    PersistDetailedSafe(s) by { EvidencePart(s); }
    PersistDetailedInv(s);
    ExitWaits(s);
  }

  /** A metadata save after a change of memory: the gate is right again, whatever came of it. */
  lemma SaveAfter(s: Sup, t: Sup)
    requires Edits(s, t)
    ensures Calm(s, PersistRuntime(t).0)
  {
    hide PersistRuntime;
    hide Moves;
    hide Rests;
    hide Gate;
    hide Stays;
    hide SavedOnly;
    PersistRuntimeSafe(t) by { EditsInv(s, t); }
    var u := PersistRuntime(t).0;
    MovesTransitive(s, t, u);
    RestsTransitive(s, t, u);
  }

  /** The same for a save whose outcome its caller distinguishes. */
  lemma DetailedAfter(s: Sup, t: Sup)
    requires Edits(s, t) && (t.os.dead || t.pendingExit.None?)
    ensures Calm(s, PersistDetailed(t).0)
  {
    hide PersistDetailed;
    hide Moves;
    hide Rests;
    hide Stays;
    hide MemoryOk;
    EditsInv(s, t);
    DetailedMoves(t);
    var u := PersistDetailed(t).0;
    MovesTransitive(s, t, u);
    RestsTransitive(s, t, u);
  }

  lemma DetailedMoves(s: Sup)
    requires Inv(s)
    ensures var (t, outcome) := PersistDetailed(s);
            s.os.dead || s.pendingExit.None? || outcome != Durable ==> Moves(s, t) && Rests(s, t) && Gate(t)
  {
    hide PersistDetailed;
    hide WorldOk;
    hide MemoryOk;
    hide RuntimeOk;
    PersistDetailedSafe(s) by { EvidencePart(s); }
    PersistDetailedInv(s);
  }

  lemma EditsInv(s: Sup, t: Sup)
    requires Edits(s, t)
    ensures Inv(t) && t.loaded == s.loaded
  {
    hide Inv;
  }

  lemma StaysReflexive(w: World)
    requires WorldOk(w)
    ensures Stays(w, w)
  {
  }

  lemma EvidencePart(s: Sup)
    requires Inv(s)
    ensures s.os.dead || EvidenceOk(s)
  {
  }

  lemma ExitWaits(s: Sup)
    requires Inv(s)
    ensures !s.os.dead && s.pendingExit.Some? ==> s.retryPending && !s.reliable
  {
  }
}
