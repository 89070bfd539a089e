/** What a user of the agent may rely on, over every run: any sequence of boots (with or
    without a crash before them), commands, ticks, child exits and configuration changes, and
    any answers of the kernel, the file system and the background workers. */
module AgentTheorems {
  import opened Records
  import opened Kernel
  import opened ProcessCleanup
  import opened ManagedProcesses
  import opened SupervisorState
  import opened RuntimeDurability
  import opened SupervisorSafety
  import opened Lifecycle
  import opened LifecycleSafety
  import opened ProcessExit
  import opened ExitSafety
  import opened Reattach
  import opened Agent
  import opened AgentSafety

  /** Before the first boot: no leader was ever forked, and the state file, if it can be read
      at all, stands for the default state. Any other processes may be running. */
  ghost predicate Installed(s: Sup) {
    && s.os.dead && s.os.leaders == {} && s.os.children == {} && s.os.images == {DefaultRuntime} && s.os.faults == {}
    && s.os.trusted == {} && s.os.shunned == {} && s.os.barred == {} && s.os.struck == {}
    && s.os.exitSeen == {} && s.os.refused == {} && s.os.terminated == {}
    && (forall p | p in s.os.procs :: (p, s.os.procs[p].start) in s.os.born)
  }

  lemma InstalledOk(s: Sup)
    requires Installed(s)
    ensures Inv(s)
  {
  }

  // ---------------------------------------------------------------- safety

  /** In no run is any rule of the monitor broken: no second instance, no launch without a
      durable marker, no write over an unreadable file, no signal to a foreign, refused or own
      group, no SIGKILL without a force-stop command, no second automatic SIGTERM, no early
      reaping and no deferred action before its save is durable. A refusal holds for the rest of
      the agent's lifetime, and for good once no image vouched for that leader at a boot; when
      it survives a restart is said exactly in `AgentRefusals`. */
  lemma NoFaultInAnyRun(s: Sup, events: seq<Event>)
    requires Installed(s)
    ensures Run(s, events).os.faults == {}
  {
    hide Run;
    InstalledOk(s);
    RunSafe(s, events);
  }

  /** At most one OpenCode leader lives, across save failures, crashes and reboots. */
  lemma SingleInstance(s: Sup, events: seq<Event>, l: (nat, nat), k: (nat, nat))
    requires Installed(s) && LeaderAlive(Run(s, events).os, l) && LeaderAlive(Run(s, events).os, k)
    ensures l == k
  {
    hide Run;
    InstalledOk(s);
    RunSafe(s, events);
  }

  /** While a leader lives, every state-file image a crash could expose shows it. A run may end
      in a crash inside any step, so this holds at every kernel call. */
  lemma CrashEvidence(s: Sup, events: seq<Event>, l: (nat, nat), image: Runtime)
    requires Installed(s) && LeaderAlive(Run(s, events).os, l) && image in Run(s, events).os.images
    ensures Shows(image, l)
  {
    hide Run;
    InstalledOk(s);
    RunSafe(s, events);
    assert RuntimeOk(image, Run(s, events).os.leaders, Run(s, events).os.trusted, Run(s, events).os.procs);
  }

  /** Deferred actions are one-shot: in every agent lifetime no ticket is carried out twice,
      and no action that waits was carried out already or waits in two places. */
  lemma DeferredAtMostOnce(s: Sup, events: seq<Event>)
    requires Installed(s) && events != [] && events[0].Boot? && (events[0].readable ==> events[0].image in s.os.images)
    ensures var b := BooksOf(Run(s, events));
            && (forall i, j :: 0 <= i < j < |b.ran| ==> b.ran[i] != b.ran[j])
            && (forall ticket: nat | Waits(b, ticket) :: ticket !in b.ran)
            && (b.exit.Some? ==> b.exit != b.intent && b.exit != b.convergence)
            && (b.intent.Some? ==> b.intent != b.convergence)
  {
    hide Run;
    hide Start;
    InstalledOk(s);
    var e := events[0];
    StartSafe(s.os, e.readable, e.image, e.group, e.script);
    RunSafe(Step(s, e), events[1..]);
    RunUnfolds(s, events);
  }

  /** The books only grow within a lifetime. */
  lemma {:induction false} BooksGrow(s: Sup, events: seq<Event>)
    requires Inv(s) && Balanced(s) && (forall e | e in events :: !e.Boot?)
    ensures Later(BooksOf(s), BooksOf(Run(s, events)))
    decreases |events|
  {
    hide Inv;
    hide Step;
    if events == [] {
    } else {
      StepSafe(s, events[0]);
      var t := Step(s, events[0]);
      BooksGrow(t, events[1..]);
      hide Kept;
      LaterTransitive(BooksOf(s), BooksOf(t), BooksOf(Run(t, events[1..])));
    }
  }

  lemma LaterTransitive(a: Books, b: Books, c: Books)
    requires (Follows(a, b) && Kept(a)) && Later(b, c)
    ensures Later(a, c)
  {
  }

  /** An action that was cancelled or overwritten, so that its ticket no longer waits and was
      not carried out, is never carried out later; neither is one that already was. */
  lemma CancelledNeverRuns(s: Sup, events: seq<Event>, ticket: nat)
    requires Inv(s) && Balanced(s) && (forall e | e in events :: !e.Boot?)
    requires ticket < s.ledger.next && !Waits(BooksOf(s), ticket)
    ensures ticket in Run(s, events).ledger.ran <==> ticket in s.ledger.ran
    ensures !Waits(BooksOf(Run(s, events)), ticket)
  {
    hide Run;
    hide Inv;
    BooksGrow(s, events);
  }

  lemma RunUnfolds(s: Sup, events: seq<Event>)
    requires events != []
    ensures Run(s, events) == Run(Step(s, events[0]), events[1..])
  {
  }

  // ---------------------------------------------------------------- the durability gate

  /** No event of a living agent opens the gate on anything but the memory. */
  lemma {:induction false} GateKept(s: Sup, events: seq<Event>)
    requires Inv(s) && Gate(s) && (forall e | e in events :: !e.Boot?)
    ensures Gate(Run(s, events))
    decreases |events|
  {
    hide Inv;
    hide Step;
    hide Gate;
    if events == [] {
    } else {
      var e := events[0];
      StepSafe(s, e);
      if s.os.dead { DeadStep(s, e); } else { EventGate(s, e); }
      GateKept(Step(s, e), events[1..]);
    }
  }

  lemma DeadStep(s: Sup, e: Event)
    requires s.os.dead && !e.Boot?
    ensures Step(s, e) == s
  {
  }

  lemma EventGate(s: Sup, e: Event)
    requires Inv(s) && Gate(s) && !s.os.dead && !e.Boot?
    ensures Gate(Step(s, e))
  {
    hide Step;
    hide Inv;
    EventSafe(s, e);
  }

  /** The durability gate over a whole lifetime. It holds after every event if and only if it
      holds after the boot, that is, unless the boot found a marker among other images. */
  lemma DurabilityGate(s: Sup, boot: Event, events: seq<Event>)
    requires Inv(s) && boot.Boot? && (boot.readable ==> boot.image in s.os.images)
    requires forall e | e in events :: !e.Boot?
    requires !boot.readable || boot.image.marker.None? || s.os.images == {boot.image}
    ensures var t := Run(s, [boot] + events);
            !t.os.dead && t.loaded && t.reliable && !t.retryPending ==> t.os.images == {t.runtime}
  {
    hide Run;
    hide Inv;
    hide Start;
    InvParts(s);
    StepSafe(s, boot);
    GateAfterBoot(s.os, boot.readable, boot.image, boot.group, boot.script);
    RunUnfolds(s, [boot] + events);
    assert ([boot] + events)[1..] == events;
    GateKept(Step(s, boot), events);
  }

  /** An agent that could not read the state file never writes it, launches or signals. */
  lemma {:induction false} UnreadableStaysUntouched(s: Sup, events: seq<Event>)
    requires Inv(s) && !s.loaded && (forall e | e in events :: !e.Boot?)
    ensures var t := Run(s, events);
            t.os.images == s.os.images && t.os.forks == s.os.forks && t.os.signals == s.os.signals
    decreases |events|
  {
    hide Inv;
    hide Step;
    hide Gate;
    hide Accounts;
    hide Sealed;
    if events == [] {
    } else {
      var e := events[0];
      StepSafe(s, e);
      if s.os.dead { DeadStep(s, e); } else { EventSafe(s, e); }
      UnreadableStaysUntouched(Step(s, e), events[1..]);
    }
  }

  // ---------------------------------------------------------------- stop finality

  lemma {:induction false} RestKept(s: Sup, events: seq<Event>)
    requires Inv(s) && AtRest(s) && (forall e | e in events :: !StartCommand(e))
    ensures AtRest(Run(s, events)) && Run(s, events).os.forks == s.os.forks
    decreases |events|
  {
    hide Inv;
    hide AtRest;
    hide Step;
    if events == [] {
    } else {
      var e := events[0];
      StepSafe(s, e);
      RestStep(s, e);
      RestKept(Step(s, e), events[1..]);
    }
  }

  lemma RestStep(s: Sup, e: Event)
    requires Inv(s) && AtRest(s) && !StartCommand(e)
    ensures AtRest(Step(s, e)) && Step(s, e).os.forks == s.os.forks
  {
    hide Start;
    hide HandleCommand;
    hide TickOnce;
    hide PollProcess;
    hide ReloadConfig;
    if e.Boot? {
      if !e.readable || e.image in s.os.images { StartSafe(s.os, e.readable, e.image, e.group, e.script); }
    } else if !s.os.dead {
      EventSafe(s, e);
    }
    hide Inv;
  }

  /** After a Stop whose desired state was saved durably, no ticks, exits, retries, worker
      results, crashes or reboots launch OpenCode, until a later Start or Restart command. */
  lemma StopIsFinal(s: Sup, events: seq<Event>)
    requires Inv(s) && PersistDesired(s, Stopped, StopIntent).1
    requires forall e | e in events :: !StartCommand(e)
    ensures Run(Request(s, StopIntent).0, events).os.forks == s.os.forks
  {
    hide Inv;
    hide Run;
    hide Request;
    hide AtRest;
    hide Calm;
    StopComesToRest(s);
    RequestSafe(s, StopIntent);
    var t := Request(s, StopIntent).0;
    CalmInv(s, t);
    RestKept(t, events);
  }

  // ---------------------------------------------------------------- cancellation

  /** The same agent with other actions waiting. */
  function Waiting(s: Sup, note: Option<Put<ExitNote>>, intent: Option<Put<Intent>>, convergence: Option<Put<Convergence>>): Sup {
    s.(pendingExit := note, pendingIntent := intent, pendingConvergence := convergence)
  }

  lemma SameSave(s: Sup, note: Option<Put<ExitNote>>, intent: Option<Put<Intent>>, convergence: Option<Put<Convergence>>)
    ensures PersistDetailed(Waiting(s, note, intent, convergence)) ==
            (Waiting(PersistDetailed(s).0, note, intent, convergence), PersistDetailed(s).1)
  {
    hide Save;
  }

  function DesiringWaiting(s: Sup, desired: DesiredState, note: Option<Put<ExitNote>>, intent: Option<Put<Intent>>, convergence: Option<Put<Convergence>>): Sup {
    s.(runtime := s.runtime.(desired := desired), pendingExit := note, pendingIntent := intent, pendingConvergence := convergence)
  }

  lemma DesireAfterWait(s: Sup, desired: DesiredState, note: Option<Put<ExitNote>>, intent: Option<Put<Intent>>, convergence: Option<Put<Convergence>>)
    ensures Desiring(Waiting(s, note, intent, convergence), desired) == DesiringWaiting(s, desired, note, intent, convergence)
  {
  }

  lemma WaitAfterDesire(s: Sup, desired: DesiredState, note: Option<Put<ExitNote>>, intent: Option<Put<Intent>>, convergence: Option<Put<Convergence>>)
    ensures Waiting(Desiring(s, desired), note, intent, convergence) == DesiringWaiting(s, desired, note, intent, convergence)
  {
  }

  lemma ClearWaiting(s: Sup, note: Option<Put<ExitNote>>, intent: Option<Put<Intent>>, convergence: Option<Put<Convergence>>)
    ensures Forgotten(Waiting(s, note, intent, convergence)) == Waiting(s, note, None, None)
    ensures Forgotten(s).(pendingExit := note) == Waiting(s, note, None, None)
  {
  }

  lemma CancelWaiting(s: Sup, note: Option<Put<ExitNote>>, attempt: nat, restarting: bool, recovery: bool)
    ensures Cancelled(s.(pendingExit := note), attempt, restarting, recovery) == Cancelled(s, attempt, restarting, recovery)
  {
  }

  lemma SameDesired(s: Sup, desired: DesiredState, cause: Intent, note: Option<Put<ExitNote>>, intent: Option<Put<Intent>>, convergence: Option<Put<Convergence>>)
    requires PersistDesired(s, desired, cause).1
    ensures PersistDesired(Waiting(s, note, intent, convergence), desired, cause).1
    ensures PersistDesired(Waiting(s, note, intent, convergence), desired, cause).0 ==
            PersistDesired(s, desired, cause).0.(pendingExit := note)
  {
    hide PersistDetailed;
    hide Desiring;
    hide Forgotten;
    var a := Desiring(s, desired);
    SameSave(a, note, intent, convergence);
    DesireAfterWait(s, desired, note, intent, convergence);
    WaitAfterDesire(s, desired, note, intent, convergence);
    hide DesiringWaiting;
    ClearWaiting(PersistDetailed(a).0, note, intent, convergence);
    assert Waiting(s, note, intent, convergence).loaded == s.loaded;
    hide Waiting;
  }

  /** Applying a command forgets a held exit. */
  lemma ApplyForgets(s: Sup, intent: Intent, note: Option<Put<ExitNote>>)
    ensures match intent
            case StartIntent => ApplyStart(s.(pendingExit := note)) == ApplyStart(s)
            case StopIntent => ApplyStop(s.(pendingExit := note)) == ApplyStop(s)
            case RestartIntent => ApplyRestart(s.(pendingExit := note)) == ApplyRestart(s)
  {
    hide StartNow;
    hide BeginStop;
    match intent
    case StartIntent =>
      CancelWaiting(s, note, 0, s.restartAfterStop, s.groupRecovery);
      ExitForgotten(s, note);
      hide Cancelled;
    case StopIntent =>
      CancelWaiting(s, note, s.attempt, false, false);
      hide Cancelled;
    case RestartIntent =>
      CancelWaiting(s, note, 0, s.process.Some?, false);
      CancelWaiting(s, note, 0, false, false);
      hide Cancelled;
  }

  lemma ExitForgotten(s: Sup, note: Option<Put<ExitNote>>)
    ensures s.(pendingExit := note).(pendingExit := None, pendingConvergence := None) == s.(pendingExit := None, pendingConvergence := None)
    ensures s.(pendingExit := note).(pendingExit := None, pendingConvergence := None, server := ServerFailed) ==
            s.(pendingExit := None, pendingConvergence := None, server := ServerFailed)
  {
  }

  /** A command whose desired state is saved durably cancels every older deferred action: its
      result is the same whatever was waiting, and nothing older is left to run. */
  lemma NewerCommandCancels(s: Sup, intent: Intent, note: Option<Put<ExitNote>>, older: Option<Put<Intent>>, convergence: Option<Put<Convergence>>)
    requires PersistDesired(s, if intent == StopIntent then Stopped else Running, intent).1
    ensures Request(Waiting(s, note, older, convergence), intent) == Request(s, intent)
  {
    hide PersistDesired;
    hide ApplyStart;
    hide ApplyStop;
    hide ApplyRestart;
    hide Waiting;
    var desired := if intent == StopIntent then Stopped else Running;
    SameDesired(s, desired, intent, note, older, convergence);
    ApplyForgets(PersistDesired(s, desired, intent).0, intent, note);
  }
}
