/** What a new agent makes of the process an earlier one left behind (supervisor/reattach.rs,
    supervisor/reattach_policy.rs, mod.rs), where every call succeeds: for every record,
    process table, configuration and health answer. */
module ReattachProgress {
  import opened Records
  import opened Kernel
  import opened ProcessGroup
  import opened ProcessIdentity
  import opened ManagedProcesses
  import opened SupervisorState
  import opened RuntimeDurability
  import opened Lifecycle
  import opened ProcessExit
  import opened ReattachPolicy
  import opened Reattach
  import opened Agent
  import opened BoundedRecovery
  import opened AgentProgress

  // ---------------------------------------------------------------- a world that stands still

  /** Every call succeeds, and no process is the agent's child. The process table may be any, but
      does not change any more; groups have no members beyond their leaders. */
  ghost predicate Still(w: World, c: Choice, n: int) {
    && !w.dead && w.readable && w.children == {}
    && !c.crash && !c.fault && c.outcome == Durable && c.members == []
    && |w.script| >= n && (forall i :: 0 <= i < n ==> w.script[i] == c)
    && EnvironmentMay(w, c.procs)
  }

  /** Only time passes, and perhaps the state file is written. */
  predicate Passes(w: World, v: World) {
    && v.forks == w.forks && v.signals == w.signals && v.ownGroup == w.ownGroup && w.now <= v.now
  }

  lemma StillSettle(w: World, c: Choice, n: nat)
    requires n > 0 && Still(w, c, n)
    ensures var (v, d) := Settle(w);
            d == c && !v.dead && Still(v, c, n - 1) && v.procs == c.procs && Passes(w, v) && v.images == w.images
  {
    var v := Settle(w).0;
    assert forall i :: 0 <= i < n - 1 ==> v.script[i] == w.script[i + 1];
  }

  lemma StillAsk(w: World, c: Choice, n: nat)
    requires n > 0 && Still(w, c, n)
    ensures var (v, d) := Kernel.Ask(w); d == c && Still(v, c, n - 1) && Passes(w, v) && v.images == w.images
  {
    hide Settle;
    StillSettle(w, c, n);
  }

  /** How the process at the recorded PID compares with the record. */
  function Found(procs: map<nat, Proc>, r: Record): Identity {
    if r.pid in procs && procs[r.pid].alive then
      var p := procs[r.pid];
      Present(IdentityProbe(Snapshot(r.pid, p.start, p.ours, p.group, p.executable), r))
    else Missing
  }

  lemma StillInspect(w: World, c: Choice, n: nat, r: Record)
    requires n > 0 && Still(w, c, n)
    ensures var (v, identity) := Inspect(w, r);
            identity == Found(c.procs, r) && Still(v, c, n - 1) && Passes(w, v) && v.images == w.images
  {
    hide Settle;
    hide EnvironmentMay;
    StillSettle(w, c, n);
    SeenMay(Settle(w).0, c.procs);
  }

  lemma StillFewer(w: World, c: Choice, n: int, m: int)
    requires Still(w, c, n) && m <= n
    ensures Still(w, c, m)
  {
  }

  /** What was last seen is no part of the process table. */
  lemma SeenMay(w: World, procs: map<nat, Proc>)
    ensures forall seen :: EnvironmentMay(w.(lastSeen := seen), procs) == EnvironmentMay(w, procs)
  {
  }

  lemma StillGroup(w: World, c: Choice, n: nat, group: nat)
    requires n > 0 && Still(w, c, n) && ValidGroup(w, group)
    ensures var (v, seen) := ObserveMembers(w, group, None);
            seen == Empty && Still(v, c, n - 1) && Passes(w, v) && v.images == w.images
  {
    hide Settle;
    hide EnvironmentMay;
    StillSettle(w, c, n);
  }

  lemma StillSave(w: World, c: Choice, n: nat, runtime: Runtime)
    requires n > 0 && Still(w, c, n)
    ensures var (v, outcome) := Save(w, runtime);
            outcome == Durable && Still(v, c, n - 1) && Passes(w, v) && v.images == {runtime}
  {
    hide Settle;
    StillSettle(w, c, n);
    ImagesMay(Settle(w).0, c.procs, {runtime});
    hide EnvironmentMay;
  }

  lemma ImagesMay(w: World, procs: map<nat, Proc>, images: set<Runtime>)
    ensures EnvironmentMay(w.(images := images), procs) == EnvironmentMay(w, procs)
  {
  }

  /** The state is durable, and the state file says what the memory says and nothing else. */
  predicate Settled(s: Sup, t: Sup) {
    && Passes(s.os, t.os) && t.os.images == {t.runtime} && t.reliable && !t.retryPending && !t.stateError
    && t.runtime.desired == s.runtime.desired && t.runtime.marker == s.runtime.marker && t.loaded == s.loaded
    && (t.runtime.marker.None? ==> !t.clearRequested)
  }

  lemma StillPersist(s: Sup, c: Choice, n: nat)
    requires n > 0 && Still(s.os, c, n) && s.loaded
    ensures var (t, outcome) := PersistDetailed(s);
            outcome == Durable && Still(t.os, c, n - 1) && Settled(s, t) && NotesSave(s, t) && t.runtime == s.runtime
            && (s.runtime.marker.None? ==> !t.clearRequested)
    ensures !s.retryPending ==> PersistRuntime(s) == (PersistDetailed(s).0, true)
  {
    hide Save;
    hide EnvironmentMay;
    StillSave(s.os, c, n, s.runtime);
    PersistNotes(s);
    hide NotesSave;
    var (v, outcome) := Save(s.os, s.runtime);
    assert PersistDetailed(s) == (Noted(s, v, Durable), Durable);
  }

  // ---------------------------------------------------------------- readopting

  /** Nothing of the recorded process is left to the agent. */
  predicate Discards(t: Sup) {
    t.process.None? && t.runtime.process.None? && !t.unverified && t.unverifiedAt.None?
  }

  /** The record stays, and blocks every start; nothing is supervised. */
  predicate Blocks(t: Sup, r: Record) {
    t.process.None? && t.runtime.process == Some(r) && t.unverified && t.unverifiedAt.Some? && t.server == ServerFailed
  }

  /** The process is supervised, but it is not known to be OpenCode. */
  predicate Doubts(t: Sup, r: Record) {
    t.process == Some(Attached(r)) && t.runtime.process == Some(r) && t.unverified && t.server == ServerFailed
  }

  /** The process is supervised, but does not run the present configuration. */
  predicate Lags(t: Sup, r: Record) {
    && t.process == Some(Attached(r)) && t.runtime.process == Some(r) && t.active.None? && t.stale && !t.unverified
    && t.server == ServerUnhealthy
  }

  /** The process is OpenCode in the present configuration, and healthy. */
  predicate Adopts(t: Sup, r: Record, version: nat, config: Config) {
    && t.process == Some(Attached(Refreshed(r, version, config))) && t.runtime.process == Some(Refreshed(r, version, config))
    && t.active == Some(config) && t.runningVersion == Some(version) && !t.unverified && t.server == ServerHealthy
    && t.started.Some?
  }

  /** The record speaks of a process that is gone, or whose PID was given to another one. */
  predicate Gone(procs: map<nat, Proc>, r: Record) {
    r.pid !in procs || !procs[r.pid].alive || (!r.unconfirmed && (procs[r.pid].start != r.start || !procs[r.pid].ours))
  }

  /** What becomes of the record. */
  predicate Readopts(t: Sup, r: Record, procs: map<nat, Proc>, latest: Option<Config>, health: HealthVerdict) {
    if Gone(procs, r) then Discards(t)
    else
      var p := procs[r.pid];
      if r.unconfirmed || p.group != r.group || r.group != r.pid then Blocks(t, r)
      else if p.executable.Some? && p.executable.value != r.executable then Doubts(t, r)
      else if latest.None? then Blocks(t, r)
      else if latest.value.fingerprint != r.fingerprint then Lags(t, r)
      else if !health.Healthy? then Blocks(t, r)
      else Adopts(t, r, health.version, latest.value)
  }

  /** A new agent before it looks at the record. */
  ghost predicate Looks(s: Sup, c: Choice, n: int, r: Record) {
    && Still(s.os, c, n) && ValidGroup(s.os, r.group) && s.loaded && !s.retryPending && s.process.None? && !s.unverified
    && s.unverifiedAt.None? && !s.stale && s.runtime.process == Some(r)
  }

  lemma DiscardDiscards(s: Sup, c: Choice, n: nat)
    requires n > 0 && Still(s.os, c, n) && s.loaded && s.process.None?
    ensures var (t, gone) := DiscardStale(s);
            gone && Still(t.os, c, n - 1) && Settled(s, t) && Discards(t)
            && NotesSave(Discarded(s), t) && (s.runtime.marker.None? ==> !t.clearRequested)
  {
    hide PersistDetailed;
    hide Still;
    StillPersist(Discarded(s), c, n);
  }

  lemma MarkBlocks(s: Sup, c: Choice, n: nat, r: Record)
    requires n > 0 && Still(s.os, c, n) && s.loaded && !s.retryPending && s.process.None?
    ensures var t := MarkUnverified(s, r); Still(t.os, c, n - 1) && Settled(s, t) && Blocks(t, r)
  {
    hide PersistDetailed;
    hide PersistRuntime;
    hide Still;
    StillPersist(Unverified(s, r), c, n);
  }

  lemma UnconfirmedDoubts(s: Sup, c: Choice, n: nat, r: Record)
    requires n > 0 && Still(s.os, c, n) && s.loaded && !s.retryPending
    ensures var t := AttachUnconfirmed(s, r); Still(t.os, c, n - 1) && Settled(s, t) && Doubts(t, r)
  {
    hide PersistDetailed;
    hide PersistRuntime;
    hide Still;
    StillPersist(s.(process := Some(Attached(r)), runtime := s.runtime.(process := Some(r)), unverified := true,
                    unverifiedAt := Some(s.os.now + UNVERIFIED_CHECK), server := ServerFailed), c, n);
  }

  lemma StaleLags(s: Sup, c: Choice, n: nat, r: Record)
    requires n > 0 && Still(s.os, c, n) && s.loaded && !s.retryPending && !s.unverified
    ensures var t := AttachStale(s, r); Still(t.os, c, n - 1) && Settled(s, t) && Lags(t, r)
  {
    hide PersistDetailed;
    hide PersistRuntime;
    hide Still;
    StillPersist(s.(process := Some(Attached(r)), runtime := s.runtime.(process := Some(r)), active := None,
                    stale := true, server := ServerUnhealthy), c, n);
  }

  lemma HealthyAdopts(s: Sup, c: Choice, n: nat, r: Record, version: nat, config: Config)
    requires n > 0 && Still(s.os, c, n) && s.loaded && !s.retryPending && !s.unverified
    ensures var t := AttachHealthy(s, Refreshed(r, version, config), version, config);
            Still(t.os, c, n - 1) && Settled(s, t) && Adopts(t, r, version, config)
  {
    hide PersistDetailed;
    hide PersistRuntime;
    hide Still;
    var q := Refreshed(r, version, config);
    StillPersist(s.(process := Some(Attached(q)), runtime := s.runtime.(process := Some(q)), runningVersion := Some(version),
                    active := Some(config), server := ServerHealthy, started := Some(s.os.now)), c, n);
  }

  lemma CheckReadopts(s: Sup, c: Choice, n: nat, r: Record, config: Config)
    requires n > 2 && Looks(s, c, n, r) && s.latest == Some(config) && config.fingerprint == r.fingerprint && !r.unconfirmed
    requires Found(c.procs, r) == Present(Match) || Found(c.procs, r) == Present(ExecutableVanished)
    ensures var t := CheckAndReadopt(s, r, config); Still(t.os, c, n - 3) && Settled(s, t) && Readopts(t, r, c.procs, s.latest, c.health)
  {
    hide EnvironmentMay;
    hide Kernel.Ask;
    hide Inspect;
    hide AttachHealthy;
    hide MarkUnverified;
    StillAsk(s.os, c, n);
    var (v, d) := Kernel.Ask(s.os);
    StillInspect(v, c, n - 1, r);
    var (u, again) := Inspect(v, r);
    var a := s.(os := u);
    assert CheckAndReadopt(s, r, config) == FinishReadopt(a, r, DecideAfterHealth(again, c.health, config));
    hide CheckAndReadopt;
    if c.health.Healthy? {
      HealthyAdopts(a, c, n - 2, r, c.health.version, config);
    } else {
      MarkBlocks(a, c, n - 2, r);
    }
    hide Blocks;
    hide Adopts;
  }

  lemma ReadoptReadopts(s: Sup, c: Choice, n: nat, r: Record)
    requires n > 2 && Looks(s, c, n, r)
    ensures var t := Readopt(s, r, Found(c.procs, r)); Still(t.os, c, n - 3) && Settled(s, t) && Readopts(t, r, c.procs, s.latest, c.health)
  {
    hide EnvironmentMay;
    hide CheckAndReadopt;
    hide DiscardStale;
    hide AttachUnconfirmed;
    hide AttachStale;
    hide MarkUnverified;
    hide Discards;
    hide Blocks;
    hide Doubts;
    hide Lags;
    hide Adopts;
    DiscardDiscards(s, c, n);
    MarkBlocks(s, c, n, r);
    UnconfirmedDoubts(s, c, n, r);
    StaleLags(s, c, n, r);
    var probe := Found(c.procs, r);
    StillFewer(DiscardStale(s).0.os, c, n - 1, n - 3);
    StillFewer(MarkUnverified(s, r).os, c, n - 1, n - 3);
    StillFewer(AttachUnconfirmed(s, r).os, c, n - 1, n - 3);
    StillFewer(AttachStale(s, r).os, c, n - 1, n - 3);
    if s.latest.Some? && s.latest.value.fingerprint == r.fingerprint && !r.unconfirmed
       && (probe == Present(Match) || probe == Present(ExecutableVanished)) {
      CheckReadopts(s, c, n, r, s.latest.value);
    }
  }

  /** A new agent that looks at the record of an earlier one signals and forks nothing, and keeps
      the record unless its process is gone: it adopts the process exactly if it is the recorded
      one, runs the present configuration and is healthy; with another configuration it waits
      for a restart, and whatever it cannot tell it leaves alone and starts nothing. */
  lemma ReattachReadopts(s: Sup, c: Choice, n: nat, r: Record)
    requires n > 4 && Looks(s, c, n, r)
    ensures var t := TryReattach(s, r); Still(t.os, c, n - 5) && Settled(s, t) && Readopts(t, r, c.procs, s.latest, c.health)
  {
    hide EnvironmentMay;
    hide Inspect;
    hide ObserveMembers;
    hide Readopt;
    hide Readopts;
    StillInspect(s.os, c, n, r);
    var (v, identity) := Inspect(s.os, r);
    var a := s.(os := v);
    ReadoptReadopts(a, c, n - 1, r);
    if identity.Missing? {
      StillGroup(v, c, n - 1, r.group);
      var u := ObserveAttached(v, r).0;
      ReadoptReadopts(s.(os := u), c, n - 2, r);
      assert TryReattach(s, r) == Readopt(s.(os := u), r, Missing);
    } else {
      assert TryReattach(s, r) == Readopt(a, r, identity);
    }
  }

  // ---------------------------------------------------------------- a process of another configuration

  /** An adopted process that did not run the present configuration when it was found. */
  ghost predicate Stale(s: Sup, c: Choice, n: int, r: Record) {
    && Still(s.os, c, n) && s.process == Some(Attached(r)) && s.active.None? && s.stale && !s.unverified && !StoppingNow(s)
    && s.runtime.marker.None? && s.loaded && s.reliable && !s.retryPending && !s.stateError && !s.clearRequested
  }

  /** The present configuration is the one the process runs, and it is that process. */
  predicate Fits(latest: Option<Config>, procs: map<nat, Proc>, r: Record) {
    && latest.Some? && latest.value.fingerprint == r.fingerprint
    && (Found(procs, r) == Present(Match) || Found(procs, r) == Present(ExecutableVanished))
  }

  /** The first healthy answer after the configuration fits again adopts the process; no other
      answer changes anything. */
  lemma StaleIsAdopted(s: Sup, c: Choice, n: nat, r: Record, now: nat, verdict: HealthVerdict)
    requires n > 1 && Stale(s, c, n, r)
    ensures var t := HealthAnswer(s, now, verdict);
            && t.os.forks == s.os.forks && t.os.signals == s.os.signals
            && (if verdict.Healthy? && Fits(s.latest, c.procs, r) then
                  Settled(s, t) && Adopts(t, r, verdict.version, s.latest.value) && !t.stale
                else t == s.(os := t.os))
  {
    hide EnvironmentMay;
    hide Inspect;
    hide Unstale;
    StillInspect(s.os, c, n, r);
    var v := Inspect(s.os, r).0;
    var a := s.(os := v);
    assert RuntimeStateReady(s) == (s, true);
    hide RuntimeStateReady;
    assert HealthAnswer(s, now, verdict) == ApplyStaleHealth(s, now, verdict);
    hide HealthAnswer;
    if verdict.Healthy? && Fits(s.latest, c.procs, r) {
      UnstaleAdopts(a, c, n - 1, r, verdict.version, s.latest.value, now);
    } else {
      assert ApplyStaleHealth(s, now, verdict) == s || ApplyStaleHealth(s, now, verdict) == a;
    }
  }

  lemma UnstaleAdopts(s: Sup, c: Choice, n: nat, r: Record, version: nat, config: Config, now: nat)
    requires n > 0 && Still(s.os, c, n) && s.loaded && !s.retryPending && !s.unverified
    ensures var t := Unstale(s, Refreshed(r, version, config), version, config, now);
            Settled(s, t) && Adopts(t, r, version, config) && !t.stale
  {
    hide PersistDetailed;
    hide PersistRuntime;
    hide Still;
    var q := Refreshed(r, version, config);
    StillPersist(s.(process := Some(Attached(q)), runtime := s.runtime.(process := Some(q)), runningVersion := Some(version),
                    active := Some(config), stale := false, server := ServerHealthy, started := Some(now)), c, n);
  }

  // ---------------------------------------------------------------- boot

  /** A new agent finds this record in its state file. */
  lemma BootReadopts(w: World, image: Runtime, group: nat, script: seq<Choice>, c: Choice, n: nat, r: Record)
    requires n > 5 && Still(Reborn(w, true, group, script), c, n) && r.group > 1 && r.group != group
    requires image.process == Some(r) && image.marker.None? && image.desired == Running && !Gone(c.procs, r)
    ensures var t := Start(w, true, image, group, script);
            && Readopts(t, r, c.procs, c.config, c.health) && t.os.images == {t.runtime} && t.os.forks == w.forks
            && t.os.signals == w.signals && t.runtime.desired == Running
  {
    hide EnvironmentMay;
    hide Kernel.Ask;
    hide TryReattach;
    hide ConvergeSaved;
    var b := Reborn(w, true, group, script);
    StillAsk(b, c, n);
    var v := Kernel.Ask(b).0;
    var s := FreshMemory(v, image, true, c);
    assert Looks(s, c, n - 1, r);
    ReattachReadopts(s, c, n - 1, r);
    var t := TryReattach(s, r);
    Readopted(t, r, c.procs, c.config, c.health);
    assert ConvergeBoot(t) == t;
  }

  lemma StillSignal(w: World, c: Choice, n: nat, q: Record, signal: Signal, cause: Cause)
    requires n > 1 && Still(w, c, n) && ValidGroup(w, q.group) && Found(c.procs, q).Present?
    requires Found(c.procs, q).probe != Mismatch && Found(c.procs, q).probe != GroupEscaped
    ensures var (v, sent) := SignalManaged(w, Attached(q), signal, cause);
            sent && v.signals == w.signals + 1 && v.forks == w.forks && v.images == w.images
  {
    hide Settle;
    hide EnvironmentMay;
    StillSettle(w, c, n);
    var a := Settle(w).0;
    var p := c.procs[q.pid];
    var seen := Some(Snapshot(q.pid, p.start, p.ours, p.group, p.executable));
    SeenMay(a, c.procs);
    var v := a.(lastSeen := seen);
    assert TakeSnapshot(w, q.pid) == (v, Seen(seen.value));
    StillSettle(v, c, n - 1);
  }

  /** Stopped is what was last asked for: a process that is still there is asked to end. */
  lemma BootStops(w: World, image: Runtime, group: nat, script: seq<Choice>, c: Choice, n: nat, r: Record)
    requires n > 8 && Still(Reborn(w, true, group, script), c, n) && r.group > 1 && r.group != group
    requires image.process == Some(r) && image.marker.None? && image.desired == Stopped && !Gone(c.procs, r)
    ensures var t := Start(w, true, image, group, script);
            && t.os.forks == w.forks && t.os.images == {t.runtime} && t.runtime.desired == Stopped
            && (if t.process.Some? then
                  t.process.value.Pid() == r.pid && t.os.signals == w.signals + 1 && t.server == Stopping && t.stopDeadline.Some?
                else
                  Blocks(t, r) && t.os.signals == w.signals)
  {
    hide EnvironmentMay;
    hide Kernel.Ask;
    hide TryReattach;
    hide ConvergeSaved;
    hide SignalManaged;
    hide Still;
    hide Readopts;
    var b := Reborn(w, true, group, script);
    StillAsk(b, c, n);
    var v := Kernel.Ask(b).0;
    var s := FreshMemory(v, image, true, c);
    ReattachReadopts(s, c, n - 1, r);
    var t := TryReattach(s, r);
    Readopted(t, r, c.procs, c.config, c.health);
    if t.process.Some? {
      StillSignal(t.os, c, n - 6, t.process.value.Rec(), Terminate, StopRequest);
      assert ConvergeBoot(t) == BeginStop(t, false);
      assert BeginStop(t, false) == SignalStop(t, false);
    } else {
      assert ConvergeBoot(t) == t;
    }
  }

  /** What is supervised is the recorded process, and may be signaled. */
  lemma Readopted(t: Sup, r: Record, procs: map<nat, Proc>, latest: Option<Config>, health: HealthVerdict)
    requires Readopts(t, r, procs, latest, health) && !Gone(procs, r)
    ensures if t.process.Some? then
              var q := t.process.value.Rec();
              && t.process == Some(Attached(q)) && q.pid == r.pid && q.group == r.group && Found(procs, q).Present?
              && Found(procs, q).probe != Mismatch && Found(procs, q).probe != GroupEscaped
            else Blocks(t, r)
  {
  }

  // ---------------------------------------------------------------- boot without a process

  /** The group the record speaks of could be looked at. */
  predicate Addressable(w: World, process: Option<Record>) {
    process.Some? ==> ValidGroup(w, process.value.group)
  }

  lemma VacantGone(w: World, c: Choice, n: nat, r: Record)
    requires n > 1 && Helps(w, c, n) && Vacant(w, c) && ValidGroup(w, r.group)
    ensures var (v, identity) := Inspect(w, r);
            var (u, seen) := ObserveAttached(v, r);
            && identity.Missing? && seen == Empty && Helps(u, c, n - 2) && Vacant(u, c)
            && Passes(w, u) && u.exitSeen == w.exitSeen && u.refused == w.refused && u.terminated == w.terminated
  {
    VacantSettle(w, c, n);
    var v := AgentProgress.Later(w).(procs := map[]);
    assert Inspect(w, r) == (v, Missing);
    VacantSettle(v, c, n - 1);
    hide Settle;
  }

  lemma VacantSettled(w: World, c: Choice, n: nat)
    requires n > 0 && Helps(w, c, n) && Vacant(w, c)
    ensures w.script != []
    ensures forall images :: var v := AgentProgress.Later(w).(procs := map[], images := images);
                             Helps(v, c, n - 1) && Vacant(v, c)
  {
    AgentProgress.LaterHelps(w, c, n);
  }

  /** The record of a process that is gone is dropped, durably. */
  lemma DiscardIdles(a: Sup, c: Choice, n: nat)
    requires n > 0 && Idle(a.(unverified := false), c, n)
    ensures var (t, gone) := DiscardStale(a);
            && gone && Idle(t, c, n - 1) && t.runtime == a.runtime.(process := None) && Passes(a.os, t.os)
            && t.pendingConvergence == a.pendingConvergence && t.restartAfterStop == a.restartAfterStop
  {
    hide Save;
    hide Helps;
    VacantSave(a.os, c, n, Discarded(a).runtime);
    VacantSettled(a.os, c, n);
    var v := AgentProgress.Later(a.os).(procs := map[], images := {Discarded(a).runtime});
    assert PersistDetailed(Discarded(a)) == (Noted(Discarded(a), v, Durable), Durable);
    hide PersistDetailed;
    assert DiscardStale(a) == (Noted(Discarded(a), v, Durable), true);
  }

  lemma IdleDiscards(s: Sup, c: Choice, n: nat, r: Record)
    requires n > 2 && Idle(s, c, n) && ValidGroup(s.os, r.group)
    ensures var t := TryReattach(s, r);
            && Idle(t, c, n - 3) && t.runtime == s.runtime.(process := None) && Passes(s.os, t.os)
            && t.pendingConvergence == s.pendingConvergence
  {
    hide Inspect;
    hide ObserveMembers;
    hide DiscardStale;
    hide Helps;
    VacantGone(s.os, c, n, r);
    var u := ObserveAttached(Inspect(s.os, r).0, r).0;
    var a := s.(os := u);
    DiscardIdles(a, c, n - 2);
    assert Readopt(a, r, Missing) == DiscardStale(a).0;
    hide Readopt;
    assert TryReattach(s, r) == Readopt(a, r, Missing);
  }

  /** Once the process of an unverified record is gone, the next check drops the record, and the
      agent does again what was last asked for. */
  lemma UnverifiedEnds(s: Sup, c: Choice, n: nat, r: Record, now: nat)
    requires n > 9 && Idle(s.(unverified := false), c, n) && s.unverified && s.runtime.process == Some(r)
    requires ValidGroup(s.os, r.group) && Due(s.unverifiedAt, now) && c.endpoint == Free
    ensures var t := FireUnverified(s, now);
            if s.restartAfterStop || s.runtime.desired == Running then
              Serves(t, c, n - 10, NewRecord(c), c.config.value) && t.os.forks == s.os.forks + 1 && t.attempt == 0 && t.server == Starting
            else
              t.process.None? && t.runtime.process.None? && t.server == ServerStopped && t.os.forks == s.os.forks && !t.unverified
  {
    hide Inspect;
    hide ObserveMembers;
    hide DiscardStale;
    hide StartNow;
    hide Helps;
    hide Serves;
    var a := s.(unverifiedAt := Some(now + UNVERIFIED_CHECK));
    VacantGone(s.os, c, n, r);
    var u := ObserveAttached(Inspect(s.os, r).0, r).0;
    var b := a.(os := u);
    DiscardIdles(b, c, n - 2);
    assert CheckRecord(a, r) == EndUnverified(b);
    hide CheckRecord;
    assert FireUnverified(s, now) == EndUnverified(b);
    hide FireUnverified;
    var t := DiscardStale(b).0;
    assert EndUnverified(b) == Converge(t);
    hide EndUnverified;
    if s.restartAfterStop || s.runtime.desired == Running {
      var d := t.(restartAfterStop := false, attempt := 0, nextRestart := None);
      assert Idle(d, c, n - 3);
      StartRuns(d, if s.restartAfterStop then AfterStop else Cold, c, n - 3);
    }
  }

  /** Without a process and without a record the agent does what was last asked for. */
  lemma IdleConverges(s: Sup, c: Choice, n: nat)
    requires n > 7 && Idle(s, c, n) && c.endpoint == Free && s.pendingConvergence.None?
    ensures var t := ConvergeBoot(s);
            if s.runtime.desired == Running then
              && Serves(t, c, n - 8, NewRecord(c), c.config.value) && t.os.forks == s.os.forks + 1 && t.server == Starting
              && t.runtime.desired == Running
            else
              && t.process.None? && t.server == ServerStopped && t.os.forks == s.os.forks
              && t.os.images == {s.runtime.(process := None)}
  {
    hide StartNow;
    hide Save;
    hide Helps;
    hide Serves;
    var b := BootSave(s);
    VacantSave(s.os, c, n, b.runtime);
    VacantSettled(s.os, c, n);
    var v := AgentProgress.Later(s.os).(procs := map[], images := {b.runtime});
    var u := Noted(b, v, Durable);
    assert PersistDetailed(b) == (u, Durable);
    hide PersistDetailed;
    assert ConvergeBoot(s) == ResumeConvergence(u);
    hide ConvergeBoot;
    ConvergenceResumes(u, c, n - 1);
    if s.runtime.desired == Running { StartRuns(ConvergenceTaken(u), Cold, c, n - 1); }
  }

  lemma ConvergenceResumes(u: Sup, c: Choice, n: nat)
    requires Idle(u, c, n) && u.os.images == {u.runtime} && u.pendingConvergence.Some?
    requires u.pendingConvergence.value.what == (if u.runtime.desired == Running then StartLater(Cold) else StopLater)
    ensures var d := ConvergenceTaken(u);
            && Idle(d, c, n) && d.os == u.os && d.runtime == u.runtime
            && ResumeConvergence(u) == (if u.runtime.desired == Running then StartNow(d, Cold) else d.(server := ServerStopped))
  {
    hide StartNow;
    hide BeginStop;
    hide Helps;
    assert Judged(u) == u.os;
    hide Judged;
  }

  /** A new agent that finds no living process of an earlier one runs OpenCode, if that is what was
      last asked for, and otherwise comes to rest; either way the old record is gone. */
  lemma BootConverges(w: World, image: Runtime, group: nat, script: seq<Choice>, c: Choice, n: nat)
    requires n > 11 && Helps(Reborn(w, true, group, script), c, n) && (c.child, c.start) !in w.born && c.endpoint == Free
    requires image.marker.None? && Addressable(Reborn(w, true, group, script), image.process)
    ensures var t := Start(w, true, image, group, script);
            if image.desired == Running then
              && (exists m: nat :: Serves(t, c, m, NewRecord(c), c.config.value)) && t.os.forks == w.forks + 1
              && t.server == Starting && t.runtime.desired == Running
            else
              && t.process.None? && t.server == ServerStopped && t.os.forks == w.forks
              && t.os.images == {image.(process := None)}
  {
    hide Kernel.Ask;
    hide TryReattach;
    hide ConvergeBoot;
    hide Helps;
    hide Serves;
    var b := Reborn(w, true, group, script);
    VacantAsk(b, c, n);
    VacantSettled(b, c, n);
    var v := Kernel.Ask(b).0;
    var s := FreshMemory(v, image, true, c);
    assert Idle(s, c, n - 1);
    if image.process.Some? {
      IdleDiscards(s, c, n - 1, image.process.value);
      IdleConverges(TryReattach(s, image.process.value), c, n - 4);
    } else {
      IdleConverges(s, c, n - 1);
    }
  }
}
