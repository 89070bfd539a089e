/** The single-flight health check and the generation that keeps an old answer from being
    taken for a new one (supervisor/health.rs, supervisor/health_worker.rs). */
module HealthGuard {
  import opened Records

  /** `u64::MAX`, where the generation stops counting. */
  const SATURATED: nat := 0xFFFF_FFFF_FFFF_FFFF

  /** The process and configuration facts that authorize one request. */
  datatype Basis = Basis(pid: nat, group: nat, start: nat, executable: nat, fingerprint: nat)

  datatype Key = Key(basis: Basis, generation: nat)

  /** The requests are numbered in the order of their dispatch. */
  datatype Flight = Flight(key: Key, number: nat)

  /** What a poll finds in the worker's channel. */
  datatype Answer = Pending | Finished(verdict: HealthVerdict) | Disconnected

  /** A result that reached the supervisor: the request it answers, and every basis the
      supervisor observed from that dispatch to this application. */
  datatype Application = Application(key: Key, number: nat, verdict: HealthVerdict, observed: seq<Option<Basis>>)

  /** The numbers, `observed` and `applied` are the history the properties speak of; `next` is
      the number of the next request. */
  datatype Guard = Guard(
    generation: nat,
    basis: Option<Basis>,
    inFlight: Option<Flight>,
    next: nat,
    observed: seq<Option<Basis>>,
    applied: seq<Application>)

  const IDLE := Guard(0, None, None, 0, [], [])

  /** One visit of the supervisor to the guard. `basis` is what `current_health_task` says at
      the synchronisation, `again` what it says once more before a result is applied;
      `ready` that the runtime state is durable and no stop is under way. */
  datatype Event =
    | Synchronise(basis: Option<Basis>)
    | Dispatch(basis: Option<Basis>, ready: bool, spawned: bool)
    | Poll(basis: Option<Basis>, answer: Answer, ready: bool, again: Option<Basis>)

  /** `sync_health_generation`, with a saturating counter. */
  function Sync(g: Guard, basis: Option<Basis>): Guard {
    var seen := g.(observed := g.observed + [basis]);
    if g.basis == basis then seen
    else seen.(generation := if g.generation >= SATURATED then g.generation else g.generation + 1, basis := basis)
  }

  /** `dispatch_health_check`: one request at a time. */
  function DispatchCheck(g: Guard, basis: Option<Basis>, ready: bool, spawned: bool): Guard {
    var t := Sync(g, basis);
    if !ready || basis.None? || t.inFlight.Some? || !spawned then t
    else t.(inFlight := Some(Flight(Key(basis.value, t.generation), t.next)), next := t.next + 1, observed := [basis])
  }

  function CurrentKey(g: Guard, basis: Option<Basis>): Option<Key> {
    if basis.None? then None else Some(Key(basis.value, g.generation))
  }

  /** `poll_health_check`: an answer counts only for the very key it was dispatched with. */
  function PollCheck(g: Guard, basis: Option<Basis>, answer: Answer, ready: bool, again: Option<Basis>): Guard {
    var t := Sync(g, basis);
    if t.inFlight.None? then t
    else match answer
      case Pending => t
      case Disconnected => t.(inFlight := None)
      case Finished(verdict) =>
        var Flight(key, number) := t.inFlight.value;
        var u := t.(inFlight := None, observed := t.observed + [again]);
        if CurrentKey(t, basis) == Some(key) && ready && CurrentKey(t, again) == Some(key)
        then u.(applied := u.applied + [Application(key, number, verdict, u.observed)]) else u
  }

  function Step(g: Guard, e: Event): Guard {
    match e
    case Synchronise(basis) => Sync(g, basis)
    case Dispatch(basis, ready, spawned) => DispatchCheck(g, basis, ready, spawned)
    case Poll(basis, answer, ready, again) => PollCheck(g, basis, answer, ready, again)
  }

  function Run(g: Guard, events: seq<Event>): Guard
    decreases |events|
  {
    if events == [] then g else Run(Step(g, events[0]), events[1..])
  }

  // ---------------------------------------------------------------- the guard is sound

  predicate Constant(observed: seq<Option<Basis>>, basis: Basis) {
    forall b | b in observed :: b == Some(basis)
  }

  /** A key of the present generation means that nothing changed since it was made. */
  predicate Sound(g: Guard) {
    && (g.inFlight.Some? ==>
          var key := g.inFlight.value.key;
          && key.generation <= g.generation
          && (key.generation == g.generation < SATURATED ==>
                Constant(g.observed, key.basis) && g.basis == Some(key.basis)))
    && (forall a | a in g.applied :: a.key.generation < SATURATED ==> Constant(a.observed, a.key.basis))
  }

  lemma SyncSound(g: Guard, basis: Option<Basis>)
    requires Sound(g)
    ensures Sound(Sync(g, basis))
  {
  }

  lemma StepSound(g: Guard, e: Event)
    requires Sound(g)
    ensures Sound(Step(g, e))
  {
    SyncSound(g, e.basis);
  }

  lemma {:induction false} RunSound(g: Guard, events: seq<Event>)
    requires Sound(g)
    ensures Sound(Run(g, events))
    decreases |events|
  {
    if events == [] {
    } else {
      StepSound(g, events[0]);
      RunSound(Step(g, events[0]), events[1..]);
    }
  }

  /** Below saturation, a result changes the supervisor only if the basis was the same at every
      observation between its dispatch and its application, so A, B, A again never passes. */
  lemma AppliedOnlyUnchanged(events: seq<Event>, a: Application, i: nat)
    requires a in Run(IDLE, events).applied && a.key.generation < SATURATED && i < |a.observed|
    ensures a.observed[i] == Some(a.key.basis)
  {
    RunSound(IDLE, events);
    assert a.observed[i] in a.observed;
  }

  // ---------------------------------------------------------------- where the guard ends

  /** After `visits` visits: only a counter that was already at its end when the request was
      dispatched lets a change go unnoticed, and that takes as many visits. */
  predicate SoundAfter(g: Guard, visits: nat) {
    && g.generation <= visits
    && (g.inFlight.Some? && visits <= SATURATED ==>
          var key := g.inFlight.value.key;
          key.generation == g.generation ==> Constant(g.observed, key.basis) && g.basis == Some(key.basis))
    && (g.inFlight.Some? ==> g.inFlight.value.key.generation <= g.generation)
    && (g.inFlight.Some? && g.inFlight.value.key.generation == SATURATED ==> visits >= SATURATED)
    && (visits < SATURATED + 2 ==> forall a | a in g.applied :: Constant(a.observed, a.key.basis))
  }

  lemma StepSoundAfter(g: Guard, e: Event, visits: nat)
    requires Sound(g) && SoundAfter(g, visits)
    ensures SoundAfter(Step(g, e), visits + 1)
  {
  }

  lemma {:induction false} RunSoundAfter(g: Guard, events: seq<Event>, visits: nat)
    requires Sound(g) && SoundAfter(g, visits)
    ensures SoundAfter(Run(g, events), visits + |events|)
    decreases |events|
  {
    hide Sound;
    hide SoundAfter;
    hide Step;
    if events == [] {
    } else {
      StepSound(g, events[0]);
      StepSoundAfter(g, events[0], visits);
      RunSoundAfter(Step(g, events[0]), events[1..], visits + 1);
    }
  }

  lemma {:induction false} RunConcat(g: Guard, first: seq<Event>, second: seq<Event>)
    ensures Run(g, first + second) == Run(Run(g, first), second)
    decreases |first|
  {
    hide Step;
    if first == [] {
      assert first + second == second;
    } else {
      assert (first + second)[1..] == first[1..] + second;
      RunConcat(Step(g, first[0]), first[1..], second);
    }
  }

  /** `n` visits that find the basis changed each time, `a` the last. */
  function Alternating(a: Basis, b: Basis, n: nat): seq<Event> {
    if n == 0 then [] else [Synchronise(Some(if n % 2 == 1 then a else b))] + Alternating(a, b, n - 1)
  }

  lemma {:induction false} AlternatingCounts(g: Guard, a: Basis, b: Basis, n: nat)
    requires a != b && g.generation + n <= SATURATED && g.inFlight.None? && g.applied == []
    requires g.basis != Some(if n % 2 == 1 then a else b)
    ensures |Alternating(a, b, n)| == n
    ensures var t := Run(g, Alternating(a, b, n));
            t.generation == g.generation + n && t.inFlight.None? && t.applied == [] && t.basis == (if n == 0 then g.basis else Some(a))
    decreases n
  {
    if n == 0 {
    } else {
      var e := Synchronise(Some(if n % 2 == 1 then a else b));
      assert Alternating(a, b, n)[1..] == Alternating(a, b, n - 1);
      AlternatingCounts(Step(g, e), a, b, n - 1);
    }
  }

  /** `n` visits that find no process. */
  function Idling(n: nat): seq<Event> {
    seq(n, _ => Synchronise(None))
  }

  lemma {:induction false} IdlingIdles(g: Guard, n: nat)
    requires g.generation == 0 && g.basis.None? && g.inFlight.None? && g.applied == []
    ensures var t := Run(g, Idling(n)); t.generation == 0 && t.basis.None? && t.inFlight.None? && t.applied == []
    decreases n
  {
    if n == 0 {
    } else {
      assert Idling(n)[0] == Synchronise(None) && Idling(n)[1..] == Idling(n - 1);
      IdlingIdles(Step(g, Synchronise(None)), n - 1);
    }
  }

  /** At saturation the guard no longer guards: after A, B, A an answer for the first A is
      applied. */
  lemma SaturatedGuardFails(g: Guard, a: Basis, b: Basis)
    requires a != b && g.inFlight.None? && g.applied == []
    requires g.generation + (if g.basis == Some(a) then 0 else 1) >= SATURATED
    ensures var t := Run(g, Unnoticed(a, b));
            |t.applied| == 1 && t.applied[0].key.basis == a && !Constant(t.applied[0].observed, a)
  {
    var e1, e2, e3 := Dispatch(Some(a), true, true), Synchronise(Some(b)), Poll(Some(a), Finished(Unhealthy), true, Some(a));
    var g1 := Step(g, e1);
    var g2 := Step(g1, e2);
    var g3 := Step(g2, e3);
    assert [e1, e2, e3][1..] == [e2, e3] && [e2, e3][1..] == [e3] && [e3][1..] == [];
    assert Run(g, [e1, e2, e3]) == Run(g1, [e2, e3]) == Run(g2, [e3]) == Run(g3, []) == g3;
    assert g2.observed == [Some(a)] + [Some(b)] && g2.inFlight == Some(Flight(Key(a, g1.generation), g.next));
    assert g3.applied == [Application(Key(a, g1.generation), g.next, Unhealthy, g2.observed + [Some(a)] + [Some(a)])];
    assert g3.applied[0].observed[1] == Some(b);
    assert Some(b) in g3.applied[0].observed && Some(b) != Some(a);
  }

  /** A request for `a`, a change to `b` and back, and then the answer. */
  function Unnoticed(a: Basis, b: Basis): seq<Event> {
    [Dispatch(Some(a), true, true), Synchronise(Some(b)), Poll(Some(a), Finished(Unhealthy), true, Some(a))]
  }

  /** Idle visits, then changes until the counter is exhausted, then an unnoticed change. */
  function Exhausting(a: Basis, b: Basis, idle: nat, changes: nat): seq<Event> {
    Idling(idle) + (Alternating(b, a, changes) + Unnoticed(a, b))
  }

  lemma ExhaustingFails(a: Basis, b: Basis, idle: nat, changes: nat)
    requires a != b && changes + 1 == SATURATED
    ensures |Exhausting(a, b, idle, changes)| == idle + changes + 3
    ensures var t := Run(IDLE, Exhausting(a, b, idle, changes));
            |t.applied| == 1 && t.applied[0].key.basis == a && !Constant(t.applied[0].observed, a)
  {
    hide Step;
    hide Unnoticed;
    IdlingIdles(IDLE, idle);
    var g := Run(IDLE, Idling(idle));
    AlternatingCounts(g, b, a, changes);
    var h := Run(g, Alternating(b, a, changes));
    SaturatedGuardFails(h, a, b);
    RunConcat(IDLE, Idling(idle), Alternating(b, a, changes) + Unnoticed(a, b));
    RunConcat(g, Alternating(b, a, changes), Unnoticed(a, b));
    assert |Unnoticed(a, b)| == 3 by { ThreeVisits(a, b); }
  }

  lemma ThreeVisits(a: Basis, b: Basis)
    ensures |Unnoticed(a, b)| == 3
  {
  }

  /** Some run of `visits` visits applies a result although the basis changed under it. */
  ghost predicate Fooled(events: seq<Event>) {
    exists a :: a in Run(IDLE, events).applied && !Constant(a.observed, a.key.basis)
  }

  /** Exactly: from a fresh agent on, every result that is applied saw one basis from its
      dispatch to its application in every run of `visits` visits, if and only if the visits
      are fewer than the counter can count, and two. */
  lemma GuardIsExact(visits: nat)
    ensures (forall events: seq<Event> | |events| == visits :: !Fooled(events)) <==> visits < SATURATED + 2
  {
    if visits < SATURATED + 2 {
      forall events: seq<Event> | |events| == visits ensures !Fooled(events) {
        RunSoundAfter(IDLE, events, 0);
      }
    } else {
      SomeRunFooled(visits, SATURATED - 1);
    }
  }

  lemma SomeRunFooled(visits: nat, changes: nat)
    requires changes + 1 == SATURATED && visits >= changes + 3
    ensures exists events: seq<Event> :: |events| == visits && Fooled(events)
  {
    var a, b := Basis(1, 1, 1, 1, 1), Basis(2, 2, 2, 2, 2);
    var events := Exhausting(a, b, visits - changes - 3, changes);
    ExhaustingFails(a, b, visits - changes - 3, changes);
    var t := Run(IDLE, events);
    assert t.applied[0] in t.applied;
    assert Fooled(events);
  }

  // ---------------------------------------------------------------- single flight

  /** Results are applied in the order of their requests, each once; the request in flight is
      younger than all of them. */
  predicate Serial(g: Guard) {
    && (forall i, j | 0 <= i < j < |g.applied| :: g.applied[i].number < g.applied[j].number)
    && (forall i | 0 <= i < |g.applied| :: g.applied[i].number < g.next)
    && (g.inFlight.Some? ==>
          && g.inFlight.value.number < g.next
          && forall i | 0 <= i < |g.applied| :: g.applied[i].number < g.inFlight.value.number)
  }

  lemma StepSerial(g: Guard, e: Event)
    requires Serial(g)
    ensures Serial(Step(g, e)) && g.next <= Step(g, e).next <= g.next + 1
    ensures Step(g, e).inFlight != g.inFlight && Step(g, e).inFlight.Some? ==>
              g.inFlight.None? && Step(g, e).inFlight.value.number == g.next
  {
  }

  lemma {:induction false} RunSerial(g: Guard, events: seq<Event>)
    requires Serial(g)
    ensures Serial(Run(g, events))
    decreases |events|
  {
    hide Step;
    hide Serial;
    if events == [] {
    } else {
      StepSerial(g, events[0]);
      RunSerial(Step(g, events[0]), events[1..]);
    }
  }

  /** Over every run: no request is answered to the supervisor twice, however many others were
      lost, none that is still in flight was, and an older answer never follows a younger. */
  lemma AppliedAtMostOnce(events: seq<Event>, i: nat, j: nat)
    requires i < j < |Run(IDLE, events).applied|
    ensures var t := Run(IDLE, events);
            && t.applied[i].number < t.applied[j].number
            && (t.inFlight.Some? ==> t.applied[j].number < t.inFlight.value.number)
  {
    RunSerial(IDLE, events);
  }

  // ---------------------------------------------------------------- the guard lets through

  /** Nothing changes, and no answer is there yet. */
  predicate Steady(e: Event, b: Basis) {
    e.basis == Some(b) && (e.Poll? ==> e.answer.Pending?)
  }

  predicate Awaits(g: Guard, flight: Flight, b: Basis, applied: seq<Application>) {
    && g.inFlight == Some(flight) && flight.key == Key(b, g.generation) && g.basis == Some(b) && g.applied == applied
  }

  lemma {:induction false} SteadyAwaits(g: Guard, events: seq<Event>, flight: Flight, b: Basis, applied: seq<Application>)
    requires Awaits(g, flight, b, applied) && (forall e | e in events :: Steady(e, b))
    ensures Awaits(Run(g, events), flight, b, applied)
    decreases |events|
  {
    if events == [] {
    } else {
      assert events[0] in events;
      SteadyAwaits(Step(g, events[0]), events[1..], flight, b, applied);
    }
  }

  /** Whatever the generation, a request is made as soon as none is under way, and its answer
      is applied, once, if nothing changes in between. */
  lemma UndisturbedIsApplied(g: Guard, b: Basis, events: seq<Event>, verdict: HealthVerdict)
    requires g.inFlight.None? && (forall e | e in events :: Steady(e, b))
    ensures var t := Run(Step(g, Dispatch(Some(b), true, true)), events);
            var u := Step(t, Poll(Some(b), Finished(verdict), true, Some(b)));
            && t.inFlight.Some? && t.inFlight.value.number == g.next && t.applied == g.applied
            && u.inFlight.None? && |u.applied| == |g.applied| + 1 && u.applied[..|g.applied|] == g.applied
            && u.applied[|g.applied|].verdict == verdict && u.applied[|g.applied|].number == g.next
  {
    hide Run;
    var d := Step(g, Dispatch(Some(b), true, true));
    SteadyAwaits(d, events, d.inFlight.value, b, g.applied);
  }

  // ---------------------------------------------------------------- the coordinator itself

  class HealthCoordinator {
    var generation: nat
    var basis: Option<Basis>
    var inFlight: Option<Key>
    ghost var number: nat  // of the request in flight
    ghost var next: nat
    ghost var observed: seq<Option<Basis>>
    ghost var applied: seq<Application>

    ghost function View(): Guard
      reads this
    {
      Guard(generation, basis, if inFlight.Some? then Some(Flight(inFlight.value, number)) else None, next, observed, applied)
    }

    constructor ()
      ensures View() == IDLE
    {
      generation, basis, inFlight, next, observed, applied := 0, None, None, 0, [], [];
    }

    method SyncHealthGeneration(now: Option<Basis>)
      modifies this
      ensures View() == Sync(old(View()), now)
    {
      observed := observed + [now];
      if basis != now {
        if generation < SATURATED {
          generation := generation + 1;
        }
        basis := now;
      }
    }

    method DispatchHealthCheck(now: Option<Basis>, ready: bool, spawned: bool) returns (dispatched: bool)
      modifies this
      ensures View() == DispatchCheck(old(View()), now, ready, spawned)
      ensures dispatched ==> old(inFlight).None? && inFlight.Some?
    {
      SyncHealthGeneration(now);
      if !ready || now.None? {
        return false;
      }
      if inFlight.Some? || !spawned {
        return false;
      }
      inFlight := Some(Key(now.value, generation));
      number, next, observed := next, next + 1, [now];
      dispatched := true;
    }

    method PollHealthCheck(now: Option<Basis>, answer: Answer, ready: bool, again: Option<Basis>) returns (verdict: Option<HealthVerdict>)
      modifies this
      ensures View() == PollCheck(old(View()), now, answer, ready, again)
      ensures verdict.Some? <==> applied != old(applied)
    {
      SyncHealthGeneration(now);
      if inFlight.None? {
        return None;
      }
      match answer {
        case Pending =>
          verdict := None;
        case Disconnected =>
          inFlight := None;
          verdict := None;
        case Finished(result) =>
          var key := inFlight.value;
          inFlight := None;
          observed := observed + [again];
          if now != Some(key.basis) || generation != key.generation {
            return None;
          }
          if !ready || again != Some(key.basis) {
            return None;
          }
          applied := applied + [Application(key, number, result, observed)];
          verdict := Some(result);
      }
    }
  }
}
