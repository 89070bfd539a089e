/** Refused signals across restarts: a leader to whose group signals were refused is never
    signaled by a later agent exactly when no state-file image vouches for it. */
module AgentRefusals {
  import opened Records
  import opened Kernel
  import opened ProcessGroup
  import opened ProcessIdentity
  import opened ProcessCleanup
  import opened ManagedProcesses
  import opened SupervisorState
  import opened RuntimeDurability
  import opened SupervisorSafety
  import opened Lifecycle
  import opened ProcessExit
  import opened Reattach
  import opened ReattachPolicy
  import opened Agent
  import opened AgentSafety

  // ---------------------------------------------------------------- what stays barred

  /** A boot that the state file allows. */
  predicate Boots(s: Sup, e: Event) {
    e.Boot? && (e.readable ==> e.image in s.os.images)
  }

  lemma BarredStep(s: Sup, e: Event)
    requires Inv(s)
    ensures s.os.barred <= Step(s, e).os.barred
  {
    hide Start;
    hide Inv;
    if e.Boot? {
      if Boots(s, e) {
        StartSafe(s.os, e.readable, e.image, e.group, e.script) by { InvParts(s); }
      }
    } else {
      StepSafe(s, e);
      hide Step;
    }
  }

  /** A barred leader stays barred, and no agent signals its group. */
  lemma {:induction false} BarredForGood(s: Sup, events: seq<Event>, l: (nat, nat))
    requires Inv(s) && l in s.os.barred
    ensures l in Run(s, events).os.barred && l !in Run(s, events).os.struck
    decreases |events|
  {
    hide Step;
    hide MemoryOk;
    if events == [] {
    } else {
      StepSafe(s, events[0]);
      BarredStep(s, events[0]);
      BarredForGood(Step(s, events[0]), events[1..], l);
    }
  }

  /** A boot at which no image vouches for a refused leader bars it. */
  lemma BootBars(s: Sup, boot: Event, l: (nat, nat))
    requires Inv(s) && Boots(s, boot) && l in s.os.shunned
    requires forall image | image in s.os.images :: !Vouches(image, l)
    ensures l in Step(s, boot).os.barred && Inv(Step(s, boot))
  {
    hide Start;
    StartSafe(s.os, boot.readable, boot.image, boot.group, boot.script) by { InvParts(s); }
    hide Inv;
  }

  // ---------------------------------------------------------------- a run that signals

  /** The environment leaves the leader `l` in its own group; everything the agent asks
      succeeds, and the configuration is another one than recorded. */
  function Kind(w: World, l: (nat, nat), fingerprint: nat): Choice {
    QUIET.(procs := w.procs[l.0 := Proc(l.1, true, l.0, None, true)], outcome := Durable,
           config := Some(Config(0, fingerprint + 1)))
  }

  /** A world in which the next `n` kernel calls are answered by `c`, with `l` alive. */
  ghost predicate Staged(w: World, l: (nat, nat), c: Choice, n: nat) {
    && !w.dead && w.readable && w.children == {} && w.ownGroup != l.0 && l.0 > 1
    && |w.script| >= n && (forall i :: 0 <= i < n ==> w.script[i] == c)
    && EnvironmentMay(w, c.procs)
    && l.0 in c.procs && c.procs[l.0] == Proc(l.1, true, l.0, None, true)
    && !c.crash && !c.fault && c.outcome == Durable
  }

  lemma StagedSettle(w: World, l: (nat, nat), c: Choice, n: nat)
    requires n > 0 && Staged(w, l, c, n)
    ensures Settle(w).1 == c && Staged(Settle(w).0, l, c, n - 1)
    ensures Settle(w).0.procs == c.procs && Settle(w).0.struck == w.struck && Settle(w).0.images == w.images
    ensures Settle(w).0.lastSeen == None
  {
    var v := Settle(w).0;
    assert EnvironmentMay(v, c.procs);
    assert forall i :: 0 <= i < n - 1 ==> v.script[i] == w.script[i + 1];
  }

  function Sighting(l: (nat, nat)): Snapshot {
    Snapshot(l.0, l.1, true, l.0, None)
  }

  lemma StagedSnapshot(w: World, l: (nat, nat), c: Choice, n: nat)
    requires n > 0 && Staged(w, l, c, n)
    ensures var (v, seen) := TakeSnapshot(w, l.0);
            Staged(v, l, c, n - 1) && seen == Seen(Sighting(l)) && v.lastSeen == Some(Sighting(l)) && v.struck == w.struck
  {
    StagedSettle(w, l, c, n);
    hide Settle;
  }

  lemma StagedSave(w: World, l: (nat, nat), c: Choice, n: nat, runtime: Runtime)
    requires n > 0 && Staged(w, l, c, n)
    ensures var (v, outcome) := Save(w, runtime);
            Staged(v, l, c, n - 1) && outcome == Durable && v.struck == w.struck
  {
    StagedSettle(w, l, c, n);
    hide Settle;
  }

  lemma StagedSend(w: World, l: (nat, nat), c: Choice, n: nat, signal: Signal, cause: Cause)
    requires n > 0 && Staged(w, l, c, n) && w.lastSeen == Some(Sighting(l))
    ensures l in SendSignal(w, l.0, signal, cause).0.struck
  {
    StagedSettle(w, l, c, n);
    hide Settle;
  }

  /** The record `r` vouches for `l`. */
  predicate Speaks(r: Record, l: (nat, nat)) {
    r.pid == l.0 && r.group == l.0 && r.start == l.1 && !r.unconfirmed
  }

  lemma StagedStop(s: Sup, l: (nat, nat), c: Choice, n: nat, r: Record)
    requires n > 1 && Staged(s.os, l, c, n) && Speaks(r, l)
    requires s.process == Some(Attached(r)) && s.runtime.marker.None? && !s.clearRequested
    ensures l in BeginStop(s, false).os.struck
  {
    StagedSnapshot(s.os, l, c, n);
    var v := TakeSnapshot(s.os, l.0).0;
    StagedSend(v, l, c, n - 1, Terminate, StopRequest);
    hide TakeSnapshot;
    hide SendSignal;
  }

  /** An agent that adopted the process `l` and can save. */
  ghost predicate Adopted(s: Sup, l: (nat, nat), c: Choice, n: nat, r: Record) {
    && Staged(s.os, l, c, n) && Speaks(r, l)
    && s.loaded && s.process == Some(Attached(r)) && s.runtime.marker.None? && !s.clearRequested
  }

  lemma StopCommandSignals(s: Sup, l: (nat, nat), c: Choice, n: nat, r: Record)
    requires n > 2 && Adopted(s, l, c, n, r)
    ensures l in Request(s, StopIntent).0.os.struck
  {
    hide Staged;
    hide Save;
    hide BeginStop;
    StagedSave(s.os, l, c, n, Desiring(s, Stopped).runtime);
    var t := PersistDesired(s, Stopped, StopIntent).0;
    StagedStop(Cancelled(t, t.attempt, false, false), l, c, n - 1, r);
  }

  lemma AdoptStale(s: Sup, l: (nat, nat), c: Choice, n: nat, r: Record)
    requires n > 1 && Staged(s.os, l, c, n) && Speaks(r, l)
    requires s.loaded && !s.retryPending && s.runtime.marker.None? && !s.clearRequested
    requires s.latest.Some? && s.latest.value.fingerprint != r.fingerprint
    ensures Adopted(TryReattach(s, r), l, c, n - 2, r) && TryReattach(s, r).runtime.desired == s.runtime.desired
  {
    StagedSnapshot(s.os, l, c, n);
    var v := TakeSnapshot(s.os, l.0).0;
    hide TakeSnapshot;
    hide Staged;
    hide Save;
    var a := s.(os := v, process := Some(Attached(r)), runtime := s.runtime.(process := Some(r)), active := None,
                stale := true, server := ServerUnhealthy);
    StagedSave(v, l, c, n - 1, a.runtime);
    assert Inspect(s.os, r) == (v, Present(ExecutableVanished));
  }

  function VouchingBoot(s: Sup, l: (nat, nat), image: Runtime): Event
    requires Vouches(image, l)
  {
    var c := Kind(s.os, l, image.process.value.fingerprint);
    Boot(true, image, 0, [c, c, c, c, c])
  }

  /** What that boot makes of the image: the process is adopted, or stopped at once. */
  lemma VouchingBootAdopts(s: Sup, l: (nat, nat), image: Runtime)
    requires Inv(s) && LeaderAlive(s.os, l) && image in s.os.images && Vouches(image, l)
    ensures Boots(s, VouchingBoot(s, l, image))
    ensures var t := Step(s, VouchingBoot(s, l, image));
            if image.desired == Stopped then l in t.os.struck
            else Adopted(t, l, Kind(s.os, l, image.process.value.fingerprint), 0, image.process.value)
  {
    hide Inv;
    hide Start;
    hide Adopted;
    hide Kind;
    hide LeaderAlive;
    VouchedFacts(s, l, image);
    var c := Kind(s.os, l, image.process.value.fingerprint);
    BootAdopts(s, l, image, c, [c, c, c, c, c]);
  }

  /** The boot that reads an image that vouches for `l`, and the Stop after it. */
  lemma VouchedIsSignaled(s: Sup, l: (nat, nat), image: Runtime)
    requires Inv(s) && LeaderAlive(s.os, l) && image in s.os.images && Vouches(image, l)
    ensures exists boot, events :: Boots(s, boot) && l in Run(Step(s, boot), events).os.struck
  {
    hide Inv;
    hide Step;
    hide Adopted;
    hide Kind;
    hide LeaderAlive;
    hide VouchingBoot;
    hide Boots;
    var boot := VouchingBoot(s, l, image);
    VouchingBootAdopts(s, l, image);
    var t := Step(s, boot);
    if image.desired == Stopped {
      assert l in Run(Step(s, boot), []).os.struck;
    } else {
      var c := Kind(s.os, l, image.process.value.fingerprint);
      var stop := Handle(Act(StopIntent), [c, c, c]);
      StopAfterBoot(t, l, c, image.process.value, stop);
      assert [stop][1..] == [];
      assert Run(t, [stop]) == Run(Step(t, stop), []);
      assert l in Run(Step(s, boot), [stop]).os.struck;
    }
  }

  lemma VouchedFacts(s: Sup, l: (nat, nat), image: Runtime)
    requires Inv(s) && LeaderAlive(s.os, l) && image in s.os.images && Vouches(image, l)
    ensures image.marker.None? && Speaks(image.process.value, l) && l.0 > 1
    ensures l.0 in s.os.procs && s.os.procs[l.0].start == l.1 && s.os.procs[l.0].alive && s.os.procs[l.0].ours
  {
    hide MemoryOk;
  }

  lemma StopAfterBoot(t: Sup, l: (nat, nat), c: Choice, r: Record, stop: Event)
    requires Adopted(t, l, c, 0, r) && stop == Handle(Act(StopIntent), [c, c, c])
    ensures l in Step(t, stop).os.struck
  {
    assert Staged(Scripted(t, stop.script).os, l, c, 3);
    hide Staged;
    hide Request;
    StopCommandSignals(Scripted(t, stop.script), l, c, 3, r);
  }

  lemma BootAdopts(s: Sup, l: (nat, nat), image: Runtime, c: Choice, script: seq<Choice>)
    requires image in s.os.images && image.marker.None? && image.process.Some? && Speaks(image.process.value, l) && l.0 > 1
    requires l.0 in s.os.procs && s.os.procs[l.0].start == l.1 && s.os.procs[l.0].alive && s.os.procs[l.0].ours
    requires c == Kind(s.os, l, image.process.value.fingerprint) && script == [c, c, c, c, c]
    ensures var t := Start(s.os, true, image, 0, script);
            if image.desired == Stopped then l in t.os.struck
            else Adopted(t, l, c, 0, image.process.value)
  {
    var w := Reborn(s.os, true, 0, script);
    assert EnvironmentMay(w, c.procs);
    assert Staged(w, l, c, 5);
    StagedSettle(w, l, c, 5);
    var v := Kernel.Ask(w).0;
    hide Settle;
    hide Staged;
    hide TryReattach;
    hide BeginStop;
    hide Adopted;
    var f := FreshMemory(v, image, true, c);
    AdoptStale(f, l, c, 4, image.process.value);
    var t := TryReattach(f, image.process.value);
    assert Recall(f) == t;
    AdoptedStops(t, l, c, image.process.value);
  }

  lemma AdoptedStops(t: Sup, l: (nat, nat), c: Choice, r: Record)
    requires Adopted(t, l, c, 2, r)
    ensures l in BeginStop(t, false).os.struck && Adopted(t, l, c, 0, r) && t.process.Some?
  {
    StagedStop(t, l, c, 2, r);
    hide BeginStop;
  }

  /** A refusal survives every restart exactly when, as the agent goes down, no image that a
      crash could expose holds a confirmed record of the refused leader. */
  lemma RefusalSurvivesExactly(s: Sup, l: (nat, nat))
    requires Inv(s) && l in s.os.shunned && LeaderAlive(s.os, l)
    ensures (forall boot, events :: Boots(s, boot) ==> l !in Run(Step(s, boot), events).os.struck)
            <==> (forall image | image in s.os.images :: !Vouches(image, l))
  {
    hide Inv;
    hide Step;
    if image :| image in s.os.images && Vouches(image, l) {
      VouchedIsSignaled(s, l, image);
    } else {
      forall boot, events | Boots(s, boot) ensures l !in Run(Step(s, boot), events).os.struck {
        BootBars(s, boot, l);
        BarredForGood(Step(s, boot), events, l);
      }
    }
  }

  // ---------------------------------------------------------------- a refusal that does not survive

  const REFUSED := Record(10, 10, 7, 3, None, 5, false)

  /** The child (10, 7) escaped its group: the agent keeps it, never signals it again, and has
      saved a record that vouches for nobody. */
  function Refusing(): Sup {
    var image := Runtime(Running, Some(Disowned(REFUSED)), None, None);
    var w := World(0, false, true, 99, map[10 := Proc(7, true, 10, None, true)], {(10, 7)}, {10}, {(10, 7)},
                   {(10, 7)}, {(10, 7)}, {}, {}, {image}, [], 1, 0, None, None, {}, {10}, {}, {});
    FreshMemory(w, image, true, QUIET).(
      process := Some(Child(Owned(10, REFUSED, None, true))), unverified := true, unverifiedAt := Some(UNVERIFIED_CHECK))
  }

  lemma RefusingOk()
    ensures Inv(Refusing())
  {
    var s := Refusing();
    assert WorldOk(s.os);
    assert ManagedOk(s.process.value, s.os);
  }

  function VersionAnswer(): Event {
    var c := Kind(Refusing().os, (10, 7), 5);
    Tick(Arrivals(None, false, Some(4), None, None), [c, c])
  }

  /** The supervision poll before the answer looks at the child and finds nothing to do. */
  lemma RefusingPoll(a: Sup, c: Choice)
    requires c == Kind(Refusing().os, (10, 7), 5) && a == Scripted(Refusing(), [c, c])
    ensures var p := PollProcess(a);
            p == a.(os := p.os) && p.os.script == [c] && !p.os.dead && p.os.readable && EnvironmentMay(p.os, c.procs)
            && (10, 7) in p.os.leaders
  {
    assert EnvironmentMay(a.os, c.procs);
    var p := PollProcess(a);
    assert p.os.script == [c];
  }

  lemma AnswerApplied(p: Sup, c: Choice)
    requires c == Kind(Refusing().os, (10, 7), 5) && p == Refusing().(os := p.os)
    requires p.os.script == [c] && !p.os.dead && p.os.readable && EnvironmentMay(p.os, c.procs)
    requires (10, 7) in p.os.leaders
    ensures var t := ApplyVersion(p, 4);
            && t.os.images == {t.runtime} && Vouches(t.runtime, (10, 7)) && LeaderAlive(t.os, (10, 7))
            && t == p.(os := t.os, process := t.process, runtime := t.runtime, reliable := t.reliable, retryPending := t.retryPending,
                       retryAt := t.retryAt, stateError := t.stateError, clearRequested := t.clearRequested,
                       server := t.server, runningVersion := t.runningVersion)
  {
  }

  /** A durable answer of the version query copies the live record over the disowned one. */
  lemma VersionAnswerVouches()
    ensures var t := Step(Refusing(), VersionAnswer());
            && t.os.images == {t.runtime} && Vouches(t.runtime, (10, 7)) && LeaderAlive(t.os, (10, 7))
  {
    hide PollProcess;
    hide ApplyVersion;
    hide EnvironmentMay;
    var c := Kind(Refusing().os, (10, 7), 5);
    var a := Scripted(Refusing(), [c, c]);
    RefusingPoll(a, c);
    var p := PollProcess(a);
    AnswerApplied(p, c);
    assert RetryIfDue(a, 0) == a;
    assert FireTimers(p, 0) == p;
    assert RecheckConfig(p, 0) == p;
  }

  lemma RefusingHasNone()
    ensures 10 in Refusing().os.refused
    ensures forall image | image in Refusing().os.images :: !Vouches(image, (10, 7))
  {
  }

  /** Across a restart the refusal of signals can be forgotten: after such an answer some later
      agent adopts the process and signals its group, although nothing of it was on disk when
      the signals were refused. */
  lemma RefusalForgotten()
    ensures Inv(Refusing()) && 10 in Refusing().os.refused
    ensures forall image | image in Refusing().os.images :: !Vouches(image, (10, 7))
    ensures exists boot, events ::
              Boots(Step(Refusing(), VersionAnswer()), boot)
              && (10, 7) in Run(Step(Step(Refusing(), VersionAnswer()), boot), events).os.struck
  {
    hide Refusing;
    hide VersionAnswer;
    hide Step;
    hide Run;
    hide Inv;
    RefusingOk();
    RefusingHasNone();
    VersionAnswerVouches();
    var t := Step(Refusing(), VersionAnswer());
    StepSafe(Refusing(), VersionAnswer());
    VouchedIsSignaled(t, (10, 7), t.runtime);
  }
}
