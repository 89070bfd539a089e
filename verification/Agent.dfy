/** Whole runs of the agent (supervisor/mod.rs, bin/agent.rs): boots, commands, ticks and
    crashes in any order. */
module Agent {
  import opened Records
  import opened Kernel
  import opened ManagedProcesses
  import opened SupervisorState
  import opened RuntimeDurability
  import opened Lifecycle
  import opened ProcessExit
  import opened Reattach

  /** What the background workers hand to one tick. `password` is the fingerprint of the
      configuration with a newly read password, `credential` any other credential answer. */
  datatype Arrivals = Arrivals(
    health: Option<HealthVerdict>,
    healthDue: bool,
    version: Option<nat>,
    password: Option<nat>,
    credential: Option<CredentialState>)

  /** The commands that reach the process, and any of the three credential commands, by what
      it leaves in memory. */
  datatype Command =
    | Status
    | Act(intent: Intent)
    | ContinueStopping
    | ForceStopping
    | Credentials(state: CredentialState, reading: bool, fingerprint: nat)

  datatype Event =
    | Boot(readable: bool, image: Runtime, group: nat, script: seq<Choice>)
    | Handle(command: Command, script: seq<Choice>)
    | Tick(arrivals: Arrivals, script: seq<Choice>)
    | ChildExit(script: seq<Choice>)
    | ConfigChanged(script: seq<Choice>)

  // ---------------------------------------------------------------- boot

  /** The leaders to whom signals were refused and for whom no image vouches. */
  function Unvouched(w: World): set<(nat, nat)> {
    set l | l in w.shunned && (forall image | image in w.images :: !Vouches(image, l))
  }

  /** What a new agent process finds: a process group of its own, the old agent's children no
      longer its own, and the old agent's notes gone. A refusal that the images agree with is
      the monitor's from then on. */
  function Reborn(w: World, readable: bool, group: nat, script: seq<Choice>): World {
    w.(dead := false, readable := readable, ownGroup := group, children := {}, exitSeen := {}, refused := {}, terminated := {},
       trusted := w.trusted - Unvouched(w), barred := w.barred + Unvouched(w), struck := {},
       lastSeen := None, emptySeen := None, script := script)
  }

  function FreshMemory(w: World, runtime: Runtime, loaded: bool, c: Choice): Sup {
    Sup(w, runtime, loaded, loaded, false, None, !loaded || runtime.marker.Some?, false, None, None, None, None, c.config, None,
        c.credential, c.reading, if !loaded || runtime.marker.Some? then ServerFailed else ServerStopped,
        None, None, None, false, false, None, None, None, None, None, 0,
        false, false, 0, false, None, false, w.now, Ledger(0, []))
  }

  /** The state to save at boot when nothing is supervised and nothing unverified recorded. */
  function BootSave(s: Sup): Sup {
    var later := if s.runtime.desired == Running then StartLater(Cold) else StopLater;
    s.(runtime := s.runtime.(process := None),
       pendingConvergence := if s.pendingConvergence.Some? then s.pendingConvergence else Some(Put(later, s.ledger.next)),
       ledger := if s.pendingConvergence.Some? then s.ledger else s.ledger.PutOff())
  }

  function ConvergeSaved(s: Sup): Sup {
    var (t, outcome) := PersistDetailed(BootSave(s));
    if outcome == Durable then ResumeConvergence(t) else t.(server := ServerFailed)
  }

  /** The part of `with_options` after `try_reattach`. */
  function ConvergeBoot(s: Sup): Sup {
    if s.process.None? && !s.unverified then ConvergeSaved(s)
    else if s.process.Some? && s.runtime.desired == Stopped then BeginStop(s, false)
    else s
  }

  function Recall(s: Sup): Sup {
    if s.runtime.process.Some? then TryReattach(s, s.runtime.process.value) else s
  }

  /** `Supervisor::with_options`, on the state-file image the new agent finds. An unreadable
      file leaves a default runtime in memory, and an inherited launch marker blocks. */
  function Start(w: World, readable: bool, image: Runtime, group: nat, script: seq<Choice>): Sup {
    var (v, c) := Kernel.Ask(Reborn(w, readable, group, script));
    var s := FreshMemory(v, if readable then image else DefaultRuntime, readable, c);
    if readable && image.marker.None? then ConvergeBoot(Recall(s)) else s
  }

  // ---------------------------------------------------------------- commands and ticks

  /** `handle`. */
  function HandleCommand(s: Sup, command: Command): (r: (Sup, bool)) {
    match command
    case Status => (s, true)
    case Act(intent) => Request(s, intent)
    case ContinueStopping => ContinueStop(s)
    case ForceStopping => ForceStop(s)
    case Credentials(state, reading, fingerprint) =>
      (s.(credential := state, reading := reading, latest := WithPassword(s, fingerprint)), true)
  }

  /** `refresh_config`, and the time of it. */
  function ReadConfig(s: Sup, at: nat): Sup {
    RefreshConfig(s).(configCheckedAt := at)
  }

  /** `refresh_config_now`. */
  function ReloadConfig(s: Sup): Sup {
    ReadConfig(s, RefreshConfig(s).os.now)
  }

  function FireUnverified(s: Sup, now: nat): Sup {
    if s.unverified && s.process.None? && Due(s.unverifiedAt, now) then CheckUnverified(s, now) else s
  }

  function ExpireStop(s: Sup, now: nat): Sup {
    var expired := s.server == Stopping && Due(s.stopDeadline, now);
    s.(server := if expired then StopTimedOut else s.server, stopDeadline := if expired then None else s.stopDeadline)
  }

  function FireRestart(s: Sup, now: nat): Sup {
    if Due(s.nextRestart, now) && s.process.None? then StartNow(s.(nextRestart := None), Recovery) else s
  }

  function FirePortRetry(s: Sup, now: nat): Sup {
    if Due(s.nextPortRetry, now) && s.process.None? then
      StartNow(s.(nextPortRetry := None, pendingTrigger := None), if s.pendingTrigger.Some? then s.pendingTrigger.value else AfterStop)
    else s
  }

  function RecheckConfig(s: Sup, now: nat): Sup {
    if now >= s.configCheckedAt + CONFIG_RECHECK then ReadConfig(s, now) else s
  }

  function TakeHealth(s: Sup, now: nat, health: Option<HealthVerdict>): Sup {
    if health.Some? then HealthAnswer(s, now, health.value) else s
  }

  function CheckHealthDue(s: Sup, due: bool): Sup {
    if s.process.Some? && !StoppingNow(s) && due then RuntimeStateReady(s).0 else s
  }

  function TakeVersion(s: Sup, version: Option<nat>): Sup {
    if version.Some? then ApplyVersion(s, version.value) else s
  }

  function CredentialNoted(s: Sup, credential: Option<CredentialState>): Sup {
    s.(credential := if credential.Some? then credential.value else s.credential, reading := s.reading && credential.None?)
  }

  function TakeCredential(s: Sup, password: Option<nat>, credential: Option<CredentialState>): Sup {
    if password.Some? then PasswordApplied(s, password.value)
    else CredentialNoted(s, credential)
  }

  /** A process that has run long enough earns a fresh set of recovery attempts. */
  function ForgiveAttempts(s: Sup, now: nat): Sup {
    var stable := s.process.Some? && s.started.Some? && now >= s.started.value + STABLE_RUN;
    s.(attempt := if stable then 0 else s.attempt)
  }

  /** The timers of `tick`, in its order. */
  function FireTimers(s: Sup, now: nat): Sup {
    FirePortRetry(FireRestart(ExpireStop(FireUnverified(s, now), now), now), now)
  }

  /** The worker results of `tick`, in its order. */
  function TakeArrivals(s: Sup, now: nat, arrivals: Arrivals): Sup {
    ForgiveAttempts(
      TakeCredential(
        TakeVersion(
          CheckHealthDue(TakeHealth(RecheckConfig(s, now), now, arrivals.health), arrivals.healthDue),
          arrivals.version),
        arrivals.password, arrivals.credential),
      now)
  }

  /** `tick` after the retry of a failed save. */
  function Supervise(s: Sup, now: nat, arrivals: Arrivals): Sup {
    TakeArrivals(FireTimers(PollProcess(s), now), now, arrivals)
  }

  /** `tick`. */
  function TickOnce(s: Sup, arrivals: Arrivals): Sup {
    Supervise(RetryIfDue(s, s.os.now), s.os.now, arrivals)
  }

  function Scripted(s: Sup, script: seq<Choice>): Sup {
    s.(os := s.os.(script := script))
  }

  /** One event. A dead agent only boots; a boot reads one of the images a crash may have
      left, or cannot read any. */
  function Step(s: Sup, e: Event): Sup {
    match e
    case Boot(readable, image, group, script) =>
      if readable && image !in s.os.images then s else Start(s.os, readable, image, group, script)
    case Handle(command, script) =>
      if s.os.dead then s else HandleCommand(Scripted(s, script), command).0
    case Tick(arrivals, script) =>
      if s.os.dead then s else TickOnce(Scripted(s, script), arrivals)
    case ChildExit(script) =>
      if s.os.dead then s else PollProcess(Scripted(s, script))
    case ConfigChanged(script) =>
      if s.os.dead then s else ReloadConfig(Scripted(s, script))
  }

  function Run(s: Sup, events: seq<Event>): Sup
    decreases |events|
  {
    if events == [] then s else Run(Step(s, events[0]), events[1..])
  }
}
