/** When the agent offers a password to OpenCode, and when it asks the Keychain for one: the
    other half of the credential rules, beside `Credentials`, which says what it must not do. */
module CredentialOffers {
  import opened Records
  import opened Credentials

  /** The configuration in memory has this account, with a password. */
  predicate Holds(c: Controller, account: nat) {
    c.latest.Some? && c.latest.value.account == account && c.latest.value.password != EMPTY
  }

  /** Two controllers that differ in no history: neither a read nor an application happened. */
  predicate SameReads(c: Controller, t: Controller) {
    t.inFlight == c.inFlight && t.log == c.log
  }

  /** The one read that was dispatched in between. */
  predicate Reads(c: Controller, t: Controller, account: nat, reason: Reason) {
    && c.inFlight.None? && t.inFlight == Some(InFlight(account, t.epoch))
    && t.log == c.log + [Dispatched(account, reason, c.grant)]
  }

  /** The marker on disk names this account and this very build. */
  predicate ThisBuild(c: Controller, account: nat) {
    c.grant.Some? && (c.grant.value.account, c.grant.value.version) == (account, c.version)
  }

  /** The marker on disk names this account, and this build's own signing team. */
  predicate ThisTeam(c: Controller, account: nat) {
    c.grant.Some? && c.team.Some? && (c.grant.value.account, c.grant.value.team) == (account, c.team)
  }

  // ---------------------------------------------------------------- a reload

  /** What a reload makes of the state. An item that exists is offered exactly when the
      password of this very account is held and no change of it is outstanding; there is none
      exactly when the probe found none; anything else waits for access. */
  lemma ReloadOffers(c: Controller, account: nat, running: bool, probe: Probe, faults: Faults)
    ensures var t := Step(c, ReloadConfig(Some(account), running, probe, faults));
            && (t.state == Available <==> probe == Exists && !c.stale && Holds(c, account))
            && (t.state == NotConfigured <==> probe == Absent)
            && (Holds(t, account) <==> probe != Absent && Holds(c, account))
            && (Holds(t, account) ==> t.latest == c.latest)
            && t.latest.Some? && t.latest.value.account == account
            && (t.stale <==> c.stale && probe != Absent) && t.removed == c.removed && t.found == c.found && t.epoch == c.epoch
            && t.grant == (if probe == Absent && !faults.clear && c.grant.Some? && c.grant.value.account == account then None else c.grant)
  {
    MergeDispatches(c, account, probe, faults);
  }

  /** When a reload needs a read of its own: there is an item, no change of it is outstanding,
      and no password is held. */
  predicate Needs(c: Controller, account: nat, probe: Probe) {
    probe == Exists && !c.stale && !Holds(c, account)
  }

  lemma MergeDispatches(c: Controller, account: nat, probe: Probe, faults: Faults)
    ensures var t := Merge(c, account, probe, faults);
            && (ThisBuild(c, account) <==> Covers(c, account)) && (ThisTeam(c, account) <==> TeamMatches(c, account))
            && t.found == c.found && t.epoch == c.epoch && t.removed == c.removed
            && t.grant == (if probe == Absent && !faults.clear && c.grant.Some? && c.grant.value.account == account then None else c.grant)
  {
  }

  /** When a reload dispatches a read, and on what ground: on the marker of this build, however
      often; else on that of this team, once for each account; and never beside another read. */
  lemma ReloadReads(c: Controller, account: nat, running: bool, probe: Probe, faults: Faults)
    ensures var t := Step(c, ReloadConfig(Some(account), running, probe, faults));
            if !Needs(c, account, probe) || c.inFlight.Some? then SameReads(c, t) && t.attempted == c.attempted
            else if ThisBuild(c, account) then
              t.attempted == c.attempted && (if faults.spawn then SameReads(c, t) else Reads(c, t, account, ByMarker))
            else if ThisTeam(c, account) && account !in c.attempted then
              t.attempted == c.attempted + {account} && (if faults.spawn then SameReads(c, t) else Reads(c, t, account, ByTeam))
            else SameReads(c, t) && t.attempted == c.attempted
  {
    MergeDispatches(c, account, probe, faults);
  }

  /** Without a configuration that can be loaded, only a running process keeps the old one. */
  lemma UnreadableReload(c: Controller, running: bool, probe: Probe, faults: Faults)
    ensures var t := Step(c, ReloadConfig(None, running, probe, faults));
            t == c.(latest := t.latest) && t.latest == (if running then c.latest else None)
  {
  }

  // ---------------------------------------------------------------- notices, requests and answers

  /** A change notice lowers the barrier and withdraws the password from later starts; the
      marker of this team earns one read, and any other marker of the account is cleared. */
  lemma ChangeNotice(c: Controller, faults: Faults)
    ensures var t := Step(c, Changed(faults));
            var account := if c.latest.Some? then c.latest.value.account else DEFAULT_ACCOUNT;
            && t.state == AccessPending && t.stale && !t.removed && t.latest == c.latest && t.epoch == c.epoch + 1
            && (if ThisTeam(c, account) && c.inFlight.None? && account !in c.attempted && !faults.spawn
                then Reads(c, t, account, ByTeam) else SameReads(c, t))
            && t.grant == (if !ThisTeam(c, account) && !faults.clear && c.grant.Some? && c.grant.value.account == account
                           then None else c.grant)
  {
    MergeDispatches(c, if c.latest.Some? then c.latest.value.account else DEFAULT_ACCOUNT, Exists, faults);
  }

  /** A removal raises the barrier and forgets password and marker. */
  lemma RemovalNotice(c: Controller, faults: Faults)
    ensures var t := Step(c, Removed(faults));
            var account := if c.latest.Some? then c.latest.value.account else DEFAULT_ACCOUNT;
            && t.state == NotConfigured && !t.stale && t.removed && t.epoch == c.epoch + 1 && SameReads(c, t)
            && !Holds(t, account) && (c.latest.Some? <==> t.latest.Some?) && (c.latest.Some? ==> t.latest.value.account == account)
            && t.grant == (if !faults.clear && c.grant.Some? && c.grant.value.account == account then None else c.grant)
  {
  }

  /** The user's own request reads at once, for the configured account, unless a read is under
      way; the barrier falls with it, and only then. */
  lemma RequestReads(c: Controller, faults: Faults)
    ensures var t := Step(c, Request(faults));
            var account := if c.latest.Some? then c.latest.value.account else DEFAULT_ACCOUNT;
            && (if c.inFlight.None? && !faults.spawn then Reads(c, t, account, Explicit) else SameReads(c, t))
            && (t.removed <==> c.removed && c.inFlight.Some?)
            && t == c.(inFlight := t.inFlight, log := t.log, removed := t.removed)
  {
  }

  /** The answer counts: it is for the configured account and not behind the barrier. */
  predicate Counts(c: Controller) {
    c.inFlight.Some? && !c.removed && c.latest.Some? && c.latest.value.account == c.inFlight.value.account
  }

  /** What each answer to a read leaves. A password is applied, and its marker recorded; a
      denial and a missing item clear the marker; an error leaves everything but the state. */
  lemma AnswerApplies(c: Controller, read: Read, faults: Faults)
    requires c.inFlight.Some?
    ensures var t := Step(c, PollRead(Answered(read), faults));
            var account := c.inFlight.value.account;
            && t.inFlight.None?
            && (!Counts(c) ==> t.state == c.state && t.latest == c.latest && t.grant == c.grant && t.stale == c.stale && t.attempted == c.attempted)
            && (Counts(c) ==>
                  && t.state == (match read case Found(_) => Available case NoItem => NotConfigured case _ => AccessPending)
                  && t.latest == (match read
                                  case Found(p) => Some(Configuration(account, p))
                                  case NoItem => Some(Configuration(account, EMPTY))
                                  case _ => c.latest)
                  && (t.stale <==> c.stale && !read.Found? && !read.NoItem?)
                  && t.attempted == (if read.Found? then c.attempted - {account} else c.attempted)
                  && t.grant == (match read
                                 case Found(_) => if faults.record then c.grant else Some(Grant(account, c.version, c.team))
                                 case ReadFailed => c.grant
                                 case _ => if !faults.clear && c.grant.Some? && c.grant.value.account == account then None else c.grant))
  {
  }

  /** A worker that died or has not answered yet changes nothing but, at most, the slot. */
  lemma NoAnswer(c: Controller, answer: Answer, faults: Faults)
    requires !answer.Answered?
    ensures var t := Step(c, PollRead(answer, faults));
            t == c.(inFlight := t.inFlight, log := t.log) && t.inFlight == (if answer.Died? then None else c.inFlight)
  {
  }

  // ---------------------------------------------------------------- over runs

  /** Nothing that concerns the password of `account`: no notice, no other account, no probe
      that finds the item gone, and no answer of a read that replaces or withdraws it. */
  predicate LeavesPassword(e: Event, account: nat) {
    match e
    case ReloadConfig(other, running, probe, _) => if other.Some? then other.value == account && probe != Absent else running
    case Changed(_) => false
    case Removed(_) => false
    case Request(_) => true
    case PollRead(answer, _) => !answer.Answered? || answer.read.Denied? || answer.read.ReadFailed?
  }

  /** The password `p` of `account` is held, and no change of it is outstanding. */
  predicate Keeps(c: Controller, account: nat, p: nat) {
    p != EMPTY && c.latest == Some(Configuration(account, p)) && !c.stale
  }

  lemma StepKeepsPassword(c: Controller, e: Event, account: nat, p: nat)
    requires Keeps(c, account, p) && LeavesPassword(e, account)
    ensures Keeps(Step(c, e), account, p)
  {
  }

  lemma {:induction false} RunKeepsPassword(c: Controller, events: seq<Event>, account: nat, p: nat)
    requires Keeps(c, account, p) && (forall e | e in events :: LeavesPassword(e, account))
    ensures Keeps(Run(c, events), account, p)
    decreases |events|
  {
    hide Step;
    hide Keeps;
    hide LeavesPassword;
    if events == [] {
    } else {
      StepKeepsPassword(c, events[0], account, p);
      RunKeepsPassword(Step(c, events[0]), events[1..], account, p);
    }
  }

  /** From the answer that brought a password on, until the next notice, change of account or
      removal of the item, every reload that finds the item offers this very password. */
  lemma AppliedPasswordIsOffered(c: Controller, p: nat, faults: Faults, events: seq<Event>, running: bool, again: Faults)
    requires Counts(c) && p != EMPTY
    requires forall e | e in events :: LeavesPassword(e, c.inFlight.value.account)
    ensures var account := c.inFlight.value.account;
            var t := Run(Step(c, PollRead(Answered(Found(p)), faults)), events);
            var u := Step(t, ReloadConfig(Some(account), running, Exists, again));
            u.state == Available && u.latest == Some(Configuration(account, p))
  {
    hide Step;
    hide Run;
    var account := c.inFlight.value.account;
    AnswerApplies(c, Found(p), faults);
    var s := Step(c, PollRead(Answered(Found(p)), faults));
    RunKeepsPassword(s, events, account, p);
    ReloadOffers(Run(s, events), account, running, Exists, again);
  }

  /** A marker of this build or team brings the password by itself: the first reload reads, and
      once the answer is there the next reload offers it. */
  lemma MarkerBringsPassword(version: nat, team: Option<nat>, grant: Grant, p: nat, faults: Faults)
    requires p != EMPTY && !faults.spawn
    requires grant.version == version || (team.Some? && grant.team == team)
    ensures var reload := ReloadConfig(Some(grant.account), false, Exists, faults);
            var t := Run(Fresh(version, team, Some(grant)), [reload, PollRead(Answered(Found(p)), faults), reload]);
            t.state == Available && t.latest == Some(Configuration(grant.account, p))
  {
    hide Step;
    var c := Fresh(version, team, Some(grant));
    var reload := ReloadConfig(Some(grant.account), false, Exists, faults);
    ReloadReads(c, grant.account, false, Exists, faults);
    ReloadOffers(c, grant.account, false, Exists, faults);
    var c1 := Step(c, reload);
    assert Counts(c1);
    RunThree(c, reload, PollRead(Answered(Found(p)), faults), reload);
    AppliedPasswordIsOffered(c1, p, faults, [], false, faults);
  }

  /** Without one, nothing is read until the user asks; then the same follows. */
  lemma RequestBringsPassword(version: nat, team: Option<nat>, account: nat, p: nat, faults: Faults)
    requires p != EMPTY && !faults.spawn
    ensures var reload := ReloadConfig(Some(account), false, Exists, faults);
            var c := Step(Fresh(version, team, None), reload);
            var t := Run(c, [Request(faults), PollRead(Answered(Found(p)), faults), reload]);
            && c.state == AccessPending && c.inFlight.None?
            && t.state == Available && t.latest == Some(Configuration(account, p))
  {
    hide Step;
    var reload := ReloadConfig(Some(account), false, Exists, faults);
    var first := Fresh(version, team, None);
    ReloadReads(first, account, false, Exists, faults);
    ReloadOffers(first, account, false, Exists, faults);
    var c := Step(first, reload);
    RequestReads(c, faults);
    var c1 := Step(c, Request(faults));
    RunThree(c, Request(faults), PollRead(Answered(Found(p)), faults), reload);
    AppliedPasswordIsOffered(c1, p, faults, [], false, faults);
  }
}
