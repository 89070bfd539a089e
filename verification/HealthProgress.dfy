/** What health answers achieve (supervisor/health.rs), where every call succeeds: the third
    failure is told, once, and so is the recovery from it. */
module HealthProgress {
  import opened Records
  import opened Kernel
  import opened ProcessCleanup
  import opened ManagedProcesses
  import opened SupervisorState
  import opened RuntimeDurability
  import opened Lifecycle
  import opened Reattach
  import opened AgentProgress

  lemma ServesFewer(s: Sup, c: Choice, n: nat, m: nat, r: Record, config: Config)
    requires Serves(s, c, n, r, config) && m <= n
    ensures Serves(s, c, m, r, config)
  {
  }

  /** A notice in a healthy world is recorded. */
  lemma NoticeServes(s: Sup, c: Choice, n: nat, r: Record, config: Config, kind: NoticeKind)
    requires n > 1 && Serves(s, c, n, r, config)
    ensures var t := EmitNotification(s, kind);
            && Serves(t, c, n - 2, r, config) && t.runtime == s.runtime.(notice := Some(kind))
            && t == s.(os := t.os, runtime := t.runtime, reliable := t.reliable, retryPending := t.retryPending,
                       stateError := t.stateError, retryAt := t.retryAt, clearRequested := t.clearRequested)
            && t.os.forks == s.os.forks && t.os.signals == s.os.signals
  {
    HeldSettle(s.os, c, n, r, true);
    hide Settle;
    var v := AgentProgress.Later(s.os);
    assert Kernel.Ask(s.os) == (v, c);
    hide Kernel.Ask;
    var a := Notified(s, v, kind);
    HeldSave(v, c, n - 1, r, true, a.runtime);
    AgentProgress.LaterHelps(v, c, n - 1);
    hide Save;
    var u := Noted(a, AgentProgress.Later(v).(images := {a.runtime}), Durable);
    assert PersistDetailed(a) == (u, Durable);
    hide PersistDetailed;
    assert EmitNotification(s, kind) == u;
  }

  /** The process is supervised, and no stop is under way. */
  ghost predicate Watched(s: Sup, c: Choice, n: int, r: Record, config: Config) {
    n >= 0 && Serves(s, c, n, r, config) && !StoppingNow(s)
  }

  lemma Ready(s: Sup, c: Choice, n: nat, r: Record, config: Config, now: nat, verdict: HealthVerdict)
    requires Watched(s, c, n, r, config)
    ensures HealthAnswer(s, now, verdict) == ApplyHealth(s, now, verdict)
  {
    hide ApplyHealth;
    assert RuntimeStateReady(s) == (s, true);
  }

  /** A failed answer is counted. Outside the startup allowance the third in a row is told, unless
      its incident has been told already. */
  lemma FailureCounts(s: Sup, c: Choice, n: nat, r: Record, config: Config, now: nat, verdict: HealthVerdict)
    requires n > 1 && Watched(s, c, n, r, config) && !verdict.Healthy?
    ensures var t := HealthAnswer(s, now, verdict);
            var starting := s.started.Some? && now < s.started.value + STARTUP_HEALTH_ALLOWANCE && s.server == Starting;
            && Watched(t, c, n - 2, r, config) && t.healthFailures == s.healthFailures + 1 && t.started == s.started
            && t.server == (if starting then Starting else ServerUnhealthy) && t.os.forks == s.os.forks && t.os.signals == s.os.signals
            && (if !starting && t.healthFailures >= 3 && !s.healthIncident then
                  t.healthIncident && t.runtime == s.runtime.(notice := Some(Failure))
                else t.healthIncident == s.healthIncident && t.runtime == s.runtime)
  {
    hide EmitNotification;
    hide Helps;
    hide Owns;
    Ready(s, c, n, r, config, now, verdict);
    hide HealthAnswer;
    var a := UnhealthNoted(s, now);
    assert Serves(a, c, n, r, config);
    assert ApplyHealth(s, now, verdict) == UnhealthyAnswer(s, now);
    NoticeServes(a, c, n, r, config, Failure);
    ServesFewer(a, c, n, n - 2, r, config);
    hide Serves;
  }

  /** The record of a process whose version is known now. */
  function Versioning(r: Record, version: nat): Record {
    r.(runningVersion := Some(version))
  }

  lemma VersionServes(s: Sup, c: Choice, n: nat, r: Record, config: Config, version: nat)
    requires n > 0 && Serves(s, c, n, r, config)
    ensures var (t, saved) := RecordVersion(s, version);
            && saved && Serves(t, c, n - 1, Versioning(r, version), config)
            && t.runtime == s.runtime.(process := Some(Versioning(r, version)))
            && t == s.(os := t.os, process := t.process, runtime := t.runtime, reliable := t.reliable, retryPending := t.retryPending,
                       stateError := t.stateError, retryAt := t.retryAt, clearRequested := t.clearRequested)
            && t.os.forks == s.os.forks && t.os.signals == s.os.signals
  {
    var q := Versioning(r, version);
    var m := Managed.Child(Owned(r.pid, q, None, false));
    var a := s.(process := Some(m), runtime := s.runtime.(process := Some(q)));
    assert s.process.value.WithRunningVersion(version) == m;
    HeldSave(s.os, c, n, r, true, a.runtime);
    AgentProgress.LaterHelps(s.os, c, n);
    hide Save;
    var u := Noted(a, AgentProgress.Later(s.os).(images := {a.runtime}), Durable);
    assert PersistDetailed(a) == (u, Durable);
    hide PersistDetailed;
    assert RecordVersion(s, version) == (u, true);
  }

  /** A healthy answer ends every incident: the server counts as healthy, its version is on disk,
      and the recovery is told exactly if a failure was. */
  lemma HealthyRecovers(s: Sup, c: Choice, n: nat, r: Record, config: Config, now: nat, version: nat)
    requires n > 2 && Watched(s, c, n, r, config) && s.runningVersion != Some(version)
    ensures var t := HealthAnswer(s, now, Healthy(version));
            var told := s.recoveryIncident || s.healthIncident;
            && Watched(t, c, n - 3, Versioning(r, version), config) && t.server == ServerHealthy && t.healthFailures == 0
            && t.runningVersion == Some(version) && !t.recoveryIncident && !t.healthIncident
            && t.runtime == s.runtime.(process := Some(Versioning(r, version)),
                                       notice := if told then Some(Recovered) else s.runtime.notice)
            && t.os.forks == s.os.forks && t.os.signals == s.os.signals
  {
    hide EmitNotification;
    hide RecordVersion;
    hide Helps;
    hide Owns;
    Ready(s, c, n, r, config, now, Healthy(version));
    hide HealthAnswer;
    var a := HealthNoted(s, version);
    assert Serves(a, c, n, r, config);
    VersionServes(a, c, n, r, config, version);
    var b := RecordVersion(a, version).0;
    var q := Versioning(r, version);
    assert ApplyHealth(s, now, Healthy(version)) == Recover(b);
    var d := b.(recoveryIncident := false, healthIncident := false);
    assert Serves(d, c, n - 1, q, config);
    NoticeServes(d, c, n - 1, q, config, Recovered);
    ServesFewer(b, c, n - 1, n - 3, q, config);
    hide Serves;
  }

  /** The same for a version that is on disk already: nothing is written but a notice. */
  lemma HealthyAgain(s: Sup, c: Choice, n: nat, r: Record, config: Config, now: nat, version: nat)
    requires n > 1 && Watched(s, c, n, r, config) && s.runningVersion == Some(version)
    ensures var t := HealthAnswer(s, now, Healthy(version));
            var told := s.recoveryIncident || s.healthIncident;
            && Watched(t, c, n - 2, r, config) && t.server == ServerHealthy && t.healthFailures == 0
            && !t.recoveryIncident && !t.healthIncident
            && t.runtime == s.runtime.(notice := if told then Some(Recovered) else s.runtime.notice)
  {
    hide EmitNotification;
    hide RecordVersion;
    hide Helps;
    hide Owns;
    Ready(s, c, n, r, config, now, Healthy(version));
    hide HealthAnswer;
    var a := HealthNoted(s, version);
    assert Serves(a, c, n, r, config);
    assert ApplyHealth(s, now, Healthy(version)) == Recover(a);
    var d := a.(recoveryIncident := false, healthIncident := false);
    assert Serves(d, c, n, r, config);
    NoticeServes(d, c, n, r, config, Recovered);
    ServesFewer(a, c, n, n - 2, r, config);
    hide Serves;
  }

  // ---------------------------------------------------------------- failures in a row

  function Failures(s: Sup, now: nat, k: nat): Sup
    decreases k
  {
    if k == 0 then s else Failures(HealthAnswer(s, now, Unhealthy), now, k - 1)
  }

  /** Failures in a row, from the first one on: told as of the third, and once. */
  lemma {:induction false} FailuresAreTold(s: Sup, c: Choice, n: nat, r: Record, config: Config, now: nat, k: nat)
    requires n >= 2 * k && Watched(s, c, n, r, config) && !(s.server == Starting)
    requires s.healthIncident <==> s.healthFailures >= 3
    ensures var t := Failures(s, now, k);
            && t.healthFailures == s.healthFailures + k && (t.healthIncident <==> t.healthFailures >= 3)
            && t.runtime == (if s.healthFailures < 3 <= t.healthFailures then s.runtime.(notice := Some(Failure)) else s.runtime)
            && (k > 0 ==> t.server == ServerUnhealthy)
    decreases k
  {
    hide HealthAnswer;
    hide Serves;
    if k == 0 {
    } else {
      FailureCounts(s, c, n, r, config, now, Unhealthy);
      FailuresAreTold(HealthAnswer(s, now, Unhealthy), c, n - 2, r, config, now, k - 1);
    }
  }
}
