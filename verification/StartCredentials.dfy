/** Where the credential state machine and the start of OpenCode meet: `start_now` reloads the
    configuration with the Keychain merge and forks only on what that merge said
    (supervisor/lifecycle.rs, supervisor/credential.rs). */
module StartCredentials {
  import opened Records
  import opened Kernel
  import opened ManagedProcesses
  import opened SupervisorState
  import opened RuntimeDurability
  import opened Lifecycle
  import Credentials
  import MarkerReboots

  /** The choice behind a reload is what the credential controller says after its merge. */
  ghost predicate Reports(c: Choice, merged: Credentials.Controller) {
    && c.credential == merged.state
    && (c.reading <==> merged.inFlight.Some?)
    && (c.config.Some? ==> merged.latest.Some?)
  }

  /** The reload that `start_now` does once the saved state is known to be durable. */
  function ReloadOf(s: Sup): Choice {
    Kernel.Ask(RuntimeStateReady(s).0.os).1
  }

  // ---------------------------------------------------------------- what does not fork

  lemma AskForks(w: World)
    ensures Kernel.Ask(w).0.forks == w.forks
  {
  }

  lemma EmitForks(s: Sup, kind: NoticeKind)
    ensures EmitNotification(s, kind).os.forks == s.os.forks
  {
    hide Kernel.Ask;
    hide PersistRuntime;
    AskForks(s.os);
    MarkerReboots.PersistForks(Notified(s, Kernel.Ask(s.os).0, kind));
  }

  lemma FinishRecoveryForks(s: Sup)
    ensures FinishRecoveryFailure(s).os.forks == s.os.forks
  {
    hide EmitNotification;
    EmitForks(s.(nextRestart := None, server := ServerFailed, recoveryIncident := false), FinalFailure);
  }

  lemma ScheduleForks(s: Sup)
    ensures ScheduleNextRestart(s).os.forks == s.os.forks
  {
    hide FinishRecoveryFailure;
    FinishRecoveryForks(s);
  }

  lemma RefusedForks(s: Sup, trigger: Trigger)
    ensures StartRefusedNow(s, trigger).os.forks == s.os.forks
  {
    hide ScheduleNextRestart;
    ScheduleForks(s.(server := ServerFailed));
  }

  /** Everything `start_now` does short of the launch. */
  lemma StopsShort(s: Sup, trigger: Trigger)
    requires StartNow(s, trigger).os.forks > s.os.forks
    ensures var t := RefreshConfig(RuntimeStateReady(s).0);
            && RuntimeStateReady(s).1 && t.latest.Some? && t.credential != AccessPending
            && StartNow(s, trigger) == Lifecycle.Launch(t, trigger, t.latest.value)
  {
    hide Kernel.Ask;
    hide StartRefusedNow;
    hide Lifecycle.Launch;
    var r := RuntimeStateReady(s).0;
    AskForks(r.os);
    RefusedForks(RefreshConfig(r), trigger);
  }

  /** OpenCode is forked only with a password that a successful read returned for the account
      of the configuration it is started with, or without one because this very start's own
      probe found none: never with a password taken from elsewhere, never without one because
      the Keychain could not be asked, and never behind a change notice. */
  lemma ForkNeedsCredential(s: Sup, trigger: Trigger,
                            k: Credentials.Controller, account: nat, probe: Credentials.Probe, faults: Credentials.Faults)
    requires s.process.None? && Credentials.Provenance(k)
    requires Reports(ReloadOf(s), Credentials.Merge(k, account, probe, faults))
    requires StartNow(s, trigger).os.forks > s.os.forks
    ensures var merged := Credentials.Merge(k, account, probe, faults);
            && ReloadOf(s).config.Some? && merged.latest.Some? && merged.latest.value.account == account
            && (if merged.latest.value.password == Credentials.EMPTY then probe == Credentials.Absent
                else probe == Credentials.Exists && !k.stale && !k.removed && (account, merged.latest.value.password) in k.found)
            && StartNow(s, trigger) ==
                 Lifecycle.Launch(RefreshConfig(RuntimeStateReady(s).0), trigger, ReloadOf(s).config.value)
  {
    hide Kernel.Ask;
    hide StartNow;
    hide Lifecycle.Launch;
    hide Credentials.Merge;
    StopsShort(s, trigger);
    Credentials.NoSilentDowngrade(k, account, probe, faults);
    Credentials.MergeOnlyCarries(k, account, probe, faults);
  }
}
