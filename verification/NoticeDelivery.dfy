/** What the delivery of credential notices achieves (CredentialMutationCoordinator.swift): with
    an agent that applies what it is told, every notice is delivered and every action runs. */
module NoticeDelivery {
  import opened Records
  import opened CredentialJournal
  import opened MutationCoordinator

  /** The status of an agent that has applied the notice. */
  function StatusFor(p: Pending): Status {
    Status(p.account, if p.notice.Changed? then AccessPending else NotConfigured)
  }

  /** The agent's answer that it applied what it was told, written durably. */
  function Applied(p: Pending): Event {
    Answered(Some(Response(true, Some(StatusFor(p)))), Durable)
  }

  /** A notice is under way as soon as the agent shows that it runs the notice's account, and none
      is under way twice. */
  lemma ObservedIsSent(c: Coordinator, status: Status)
    requires c.available && c.journal.pending.Some? && status.account == c.journal.pending.value.account
    ensures var t := Step(c, Observe(Some(status)));
            if c.inFlight.Some? then t.inFlight == c.inFlight && t.sent == c.sent
            else t.inFlight == c.journal.pending && t.sent == c.sent + [c.journal.pending.value]
    ensures var t := Step(c, Observe(Some(status)));
            t.journal == c.journal && t.available && t.deferred == c.deferred && t.ran == c.ran && t.submitted == c.submitted
  {
  }

  /** The notice of a save is under way at once, when nothing else is and the agent last seen runs
      its account. */
  lemma CommittedIsSent(c: Coordinator, generation: nat, notice: Notice)
    requires c.available && c.inFlight.None? && c.latest.Some?
    requires c.journal.staged.Some? && c.journal.staged.value.generation == generation
    requires c.latest.value.account == c.journal.staged.value.account
    ensures var t := Step(c, Mutate(Operation.Commit(generation, notice), Durable));
            && t.journal.pending == Some(Pending(c.journal.staged.value.account, notice, generation)) && t.journal.staged.None?
            && t.inFlight == t.journal.pending && t.sent == c.sent + [t.journal.pending.value]
  {
  }

  /** The notice that takes the place of the pending one, once that is acknowledged. */
  function Next(j: Journal): Option<Pending> {
    if j.staged.Some? then Some(Promoted(j.staged.value)) else None
  }

  /** A journal that opens at last is used from then on: its pending notice, or else the staged one
      as a change, is under way if the agent runs that account. */
  lemma ReopenedIsSent(c: Coordinator, visible: Journal)
    requires !c.available && Ordered(visible) && c.inFlight.None?
    ensures var t := Step(c, Reopen(visible, Durable));
            var pending := if visible.pending.Some? then visible.pending else Next(visible);
            && t.available && t.journal.pending == pending && t.journal.migration == visible.migration
            && t.inFlight == (if pending.Some? && c.latest.Some? && c.latest.value.account == pending.value.account then pending else None)
            && (t.inFlight.Some? ==> t.sent == c.sent + [t.inFlight.value])
  {
  }

  /** An answer to the pending notice clears it, brings the staged one forward, and starts what
      waited as soon as nothing blocks it. */
  lemma AppliedIsCleared(c: Coordinator)
    requires c.available && c.inFlight.Some? && c.inFlight == c.journal.pending
    ensures var t := Step(c, Applied(c.inFlight.value));
            && t.journal == c.journal.(pending := Next(c.journal), staged := None) && t.available && t.submitted == c.submitted
            && (t.inFlight.Some? ==> t.inFlight == t.journal.pending)
            && (if Blocked(t) then t.ran == c.ran && t.deferred == c.deferred else t.ran == c.ran + c.deferred && t.deferred == [])
  {
    var p := c.inFlight.value;
    var j := c.journal.(pending := Next(c.journal), staged := None);
    assert Perform(c.journal, PlanAcknowledge(c.journal, p.generation), Durable) == Outcome(j, None);
    var seen := c.(inFlight := None, journal := j, latest := Some(StatusFor(p)));
    assert Step(c, Applied(p)) == Attempt(Drain(seen));
  }

  /** An answer to a notice that a younger one has replaced clears nothing. */
  lemma OutdatedAnswer(c: Coordinator)
    requires c.available && c.inFlight.Some? && c.journal.pending.Some?
    requires c.inFlight.value.generation != c.journal.pending.value.generation
    ensures var t := Step(c, Applied(c.inFlight.value));
            && t.journal == c.journal && t.available && t.submitted == c.submitted && t.ran == c.ran && t.deferred == c.deferred
            && (t.inFlight.Some? ==> t.inFlight == t.journal.pending)
  {
  }

  /** One round with the agent: its status is seen, and it answers what is under way. */
  function Round(c: Coordinator): Coordinator
    requires c.journal.pending.Some?
  {
    var t := Step(c, Observe(Some(StatusFor(c.journal.pending.value))));
    if t.inFlight.None? then t else Step(t, Applied(t.inFlight.value))
  }

  function Rounds(c: Coordinator, n: nat): Coordinator
    decreases n
  {
    if n == 0 || c.journal.pending.None? then c else Rounds(Round(c), n - 1)
  }

  /** A bound on the rounds until no notice is pending. */
  function Remaining(c: Coordinator): nat {
    (if c.journal.pending.None? then 0 else 1 + (if c.journal.staged.Some? then 1 else 0))
    + (if c.inFlight.Some? && c.inFlight != c.journal.pending then 1 else 0)
  }

  lemma RoundAdvances(c: Coordinator)
    requires Inv(c) && c.available && c.journal.pending.Some?
    ensures var t := Round(c);
            && Inv(t) && t.available && Remaining(t) < Remaining(c)
            && t.submitted == c.submitted && t.journal.migration == c.journal.migration
            && (if Blocked(t) then t.ran == c.ran && t.deferred == c.deferred else t.ran == c.ran + c.deferred && t.deferred == [])
            && (t.journal.pending.None? ==> t.journal.staged.None? && t.inFlight.None?)
  {
    var p := c.journal.pending.value;
    var e := Observe(Some(StatusFor(p)));
    ObservedIsSent(c, StatusFor(p));
    StepKeeps(c, e);
    var t := Step(c, e);
    hide Step;
    var f := Applied(t.inFlight.value);
    StepKeeps(t, f);
    if t.inFlight == t.journal.pending {
      AppliedIsCleared(t);
    } else {
      InFlightFits(t);
      OutdatedAnswer(t);
    }
    hide Inv;
  }

  lemma InFlightFits(c: Coordinator)
    requires Inv(c) && c.inFlight.Some? && c.journal.pending.Some? && c.inFlight != c.journal.pending
    ensures c.inFlight.value.generation != c.journal.pending.value.generation
  {
  }

  /** From any state of any run: after three rounds at most with an agent that applies its notices,
      no notice is pending, staged or under way, and, unless an account move goes on, every
      action that waited has run, in the order of the requests. */
  lemma {:induction false} NoticesAreDelivered(c: Coordinator, n: nat)
    requires Inv(c) && c.available && c.journal.pending.Some? && n >= Remaining(c)
    ensures var t := Rounds(c, n);
            && t.journal.pending.None? && t.journal.staged.None? && t.inFlight.None? && t.submitted == c.submitted
            && (MigrationQuiet(c.journal) ==> t.deferred == [] && t.ran == c.ran + c.deferred)
    ensures Remaining(c) <= 3
    decreases n
  {
    hide Inv;
    hide Round;
    RoundAdvances(c);
    var t := Round(c);
    if t.journal.pending.None? {
      assert Rounds(t, n - 1) == t;
    } else {
      NoticesAreDelivered(t, n - 1);
    }
  }
}
