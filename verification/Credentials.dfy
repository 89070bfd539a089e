/** The agent's credential state machine (supervisor/credential.rs) and its grant marker
    (credential_grant.rs): when a Keychain decrypt may be dispatched, and which password may
    reach OpenCode. */
module Credentials {
  import opened Records

  /** The empty password: OpenCode runs without authentication. */
  const EMPTY: nat := 0

  /** The account used while no configuration is loaded. */
  const DEFAULT_ACCOUNT: nat := 0

  datatype Probe = Exists | Absent | ProbeFailed

  datatype Read = Found(password: nat) | NoItem | Denied | ReadFailed

  /** The grant marker: a decrypt succeeded for this account with this build and team. */
  datatype Grant = Grant(account: nat, version: nat, team: Option<nat>)

  datatype Configuration = Configuration(account: nat, password: nat)

  /** `epoch` is the number of change notices before the dispatch. */
  datatype InFlight = InFlight(account: nat, epoch: nat)

  /** Why a decrypt was dispatched: on request, or by the marker it found. */
  datatype Reason = Explicit | ByMarker | ByTeam

  datatype Entry =
    | Dispatched(account: nat, reason: Reason, grant: Option<Grant>)
    | Completed(account: nat)
    | Applied(account: nat)

  /** `version` and `team` are this build's own. The last four fields are history: the results
      every read returned, the log of reads, the change notices, and how many of them the read
      behind an available password had seen. */
  datatype Controller = Controller(
    version: nat,
    team: Option<nat>,
    state: CredentialState,
    grant: Option<Grant>,
    inFlight: Option<InFlight>,
    stale: bool,
    removed: bool,
    attempted: set<nat>,
    latest: Option<Configuration>,
    found: set<(nat, nat)>,
    log: seq<Entry>,
    epoch: nat,
    readEpoch: nat)

  /** Which of the file and thread operations fail. */
  datatype Faults = Faults(spawn: bool, record: bool, clear: bool)

  function Fresh(version: nat, team: Option<nat>, grant: Option<Grant>): Controller {
    Controller(version, team, NotConfigured, grant, None, false, false, {}, None, {}, [], 0, 0)
  }

  // ---------------------------------------------------------------- the grant marker

  /** `covers`: exactly this account and this build. */
  predicate Covers(c: Controller, account: nat) {
    c.grant.Some? && c.grant.value.account == account && c.grant.value.version == c.version
  }

  /** `team_evidence_matches`: a recorded team, and this build's own, and the same. */
  predicate TeamMatches(c: Controller, account: nat) {
    c.grant.Some? && c.grant.value.account == account && c.grant.value.team.Some? && c.grant.value.team == c.team
  }

  /** `clear_for`: another account's marker is left alone. */
  function ClearGrant(c: Controller, account: nat, fails: bool): Controller {
    if !fails && c.grant.Some? && c.grant.value.account == account then c.(grant := None) else c
  }

  function RecordGrant(c: Controller, account: nat, fails: bool): Controller {
    if fails then c else c.(grant := Some(Grant(account, c.version, c.team)))
  }

  // ---------------------------------------------------------------- dispatching reads

  /** `request_credential_refresh_for`: one read at a time. */
  function Dispatch(c: Controller, account: nat, reason: Reason, fails: bool): Controller {
    if c.inFlight.Some? || fails then c
    else c.(inFlight := Some(InFlight(account, c.epoch)), log := c.log + [Dispatched(account, reason, c.grant)])
  }

  /** `dispatch_automatic_credential_read`: once for each account. */
  function DispatchAutomatic(c: Controller, account: nat, fails: bool): Controller {
    if c.inFlight.Some? || account in c.attempted then c
    else Dispatch(c.(attempted := c.attempted + {account}), account, ByTeam, fails)
  }

  // ---------------------------------------------------------------- configuration

  /** `carry_over_password`, from the previous configuration of the same account. */
  function CarriedOver(c: Controller, account: nat): nat {
    if c.latest.Some? && c.latest.value.account == account then c.latest.value.password else EMPTY
  }

  /** `merge_credentials`, its result taken as the latest configuration. */
  function Merge(c: Controller, account: nat, probe: Probe, faults: Faults): Controller {
    var password := CarriedOver(c, account);
    var kept := c.(latest := Some(Configuration(account, password)));
    match probe
    case Absent =>
      ClearGrant(c.(latest := Some(Configuration(account, EMPTY)), stale := false, state := NotConfigured), account, faults.clear)
    case ProbeFailed => kept.(state := AccessPending)
    case Exists =>
      if c.stale then kept.(state := AccessPending)
      else if password != EMPTY then kept.(state := Available)
      else if Covers(c, account) then Dispatch(kept.(state := AccessPending), account, ByMarker, faults.spawn)
      else if TeamMatches(c, account) then DispatchAutomatic(kept.(state := AccessPending), account, faults.spawn)
      else kept.(state := AccessPending)
  }

  /** `refresh_config` as far as credentials go. `running` says that a process is supervised,
      whose configuration outlives a file that cannot be loaded. */
  function Reload(c: Controller, account: Option<nat>, running: bool, probe: Probe, faults: Faults): Controller {
    if account.Some? then Merge(c, account.value, probe, faults)
    else if running then c
    else c.(latest := None)
  }

  function Account(c: Controller): nat {
    if c.latest.Some? then c.latest.value.account else DEFAULT_ACCOUNT
  }

  // ---------------------------------------------------------------- notices and requests

  /** `mark_credential_changed`. */
  function MarkChanged(c: Controller, faults: Faults): Controller {
    var account := Account(c);
    var t := c.(removed := false, stale := true, state := AccessPending, epoch := c.epoch + 1);
    if TeamMatches(t, account) then DispatchAutomatic(t, account, faults.spawn) else ClearGrant(t, account, faults.clear)
  }

  /** `mark_credential_removed`. */
  function MarkRemoved(c: Controller, faults: Faults): Controller {
    var account := Account(c);
    var t := c.(removed := true, stale := false, state := NotConfigured, epoch := c.epoch + 1,
                latest := if c.latest.Some? then Some(c.latest.value.(password := EMPTY)) else None);
    ClearGrant(t, account, faults.clear)
  }

  /** `request_credential_refresh`: the one read that is expected to prompt. */
  function RequestRefresh(c: Controller, faults: Faults): Controller {
    Dispatch(c.(removed := c.removed && c.inFlight.Some?), Account(c), Explicit, faults.spawn)
  }

  // ---------------------------------------------------------------- results

  /** `apply_credential_read`. A result is discarded behind the removal barrier, and when the
      configuration has moved to another account. */
  function ApplyRead(c: Controller, read: Read, from: InFlight, faults: Faults): Controller {
    var account := from.account;
    if c.removed || c.latest.None? || c.latest.value.account != account then c
    else match read
      case Found(password) =>
        RecordGrant(c.(state := Available, stale := false, attempted := c.attempted - {account},
                       latest := Some(Configuration(account, password)), log := c.log + [Applied(account)],
                       readEpoch := from.epoch),
                    account, faults.record)
      case NoItem =>
        ClearGrant(c.(state := NotConfigured, stale := false, latest := Some(Configuration(account, EMPTY))), account, faults.clear)
      case Denied => ClearGrant(c.(state := AccessPending), account, faults.clear)
      case ReadFailed => c.(state := AccessPending)
  }

  /** What `poll_credential_refresh` finds in the worker's channel. */
  datatype Answer = Waiting | Died | Answered(read: Read)

  /** `poll_credential_refresh`. */
  function Poll(c: Controller, answer: Answer, faults: Faults): Controller {
    if c.inFlight.None? || answer.Waiting? then c
    else
      var from := c.inFlight.value;
      var t := c.(inFlight := None, log := c.log + [Completed(from.account)]);
      if answer.Died? then t
      else
        var u := if answer.read.Found? then t.(found := t.found + {(from.account, answer.read.password)}) else t;
        ApplyRead(u, answer.read, from, faults)
  }

  // ---------------------------------------------------------------- runs

  datatype Event =
    | ReloadConfig(account: Option<nat>, running: bool, probe: Probe, faults: Faults)
    | Changed(faults: Faults)
    | Removed(faults: Faults)
    | Request(faults: Faults)
    | PollRead(answer: Answer, faults: Faults)

  function Step(c: Controller, e: Event): Controller {
    match e
    case ReloadConfig(account, running, probe, faults) => Reload(c, account, running, probe, faults)
    case Changed(faults) => MarkChanged(c, faults)
    case Removed(faults) => MarkRemoved(c, faults)
    case Request(faults) => RequestRefresh(c, faults)
    case PollRead(answer, faults) => Poll(c, answer, faults)
  }

  function Run(c: Controller, events: seq<Event>): Controller
    decreases |events|
  {
    if events == [] then c else Run(Step(c, events[0]), events[1..])
  }

  // ---------------------------------------------------------------- provenance and the barrier

  /** A password in memory came from a read for its own account, and there is none behind the
      removal barrier. */
  predicate Provenance(c: Controller) {
    c.latest.Some? && c.latest.value.password != EMPTY ==>
      (c.latest.value.account, c.latest.value.password) in c.found && !c.removed
  }

  lemma StepProvenance(c: Controller, e: Event)
    requires Provenance(c)
    ensures Provenance(Step(c, e))
  {
  }

  /** Over every run: a non-empty password always came from a `Found` read for that same
      account, and while the removal barrier is up it stays empty, whatever reads were in
      flight. */
  lemma {:induction false} PasswordProvenance(c: Controller, events: seq<Event>)
    requires Provenance(c)
    ensures Provenance(Run(c, events))
    decreases |events|
  {
    if events == [] {
    } else {
      StepProvenance(c, events[0]);
      PasswordProvenance(Step(c, events[0]), events[1..]);
    }
  }

  /** What a start may use. It merges first; unless it is refused for missing access, it runs
      with a password read for this very account, or with none because this start's own probe
      proved that there is none. */
  lemma NoSilentDowngrade(c: Controller, account: nat, probe: Probe, faults: Faults)
    requires Provenance(c)
    ensures var t := Merge(c, account, probe, faults);
            && t.latest.Some? && t.latest.value.account == account
            && match t.state
               case AccessPending => true
               case NotConfigured => t.latest.value.password == EMPTY && probe == Absent
               case Available => t.latest.value.password != EMPTY && (account, t.latest.value.password) in t.found && probe == Exists && !c.stale
  {
  }

  /** A merge finds no password: what it makes available was carried over, and with one held
      the removal barrier is down. */
  lemma MergeOnlyCarries(c: Controller, account: nat, probe: Probe, faults: Faults)
    requires Provenance(c)
    ensures var t := Merge(c, account, probe, faults);
            && t.found == c.found
            && (t.latest.Some? && t.latest.value.password != EMPTY ==> !c.removed)
  {
  }

  // ---------------------------------------------------------------- the read budget

  function TeamReads(log: seq<Entry>, account: nat): nat {
    if log == [] then 0
    else (if log[|log| - 1].Dispatched? && log[|log| - 1].account == account && log[|log| - 1].reason == ByTeam then 1 else 0) +
         TeamReads(log[..|log| - 1], account)
  }

  function AppliedReads(log: seq<Entry>, account: nat): nat {
    if log == [] then 0
    else (if log[|log| - 1] == Applied(account) then 1 else 0) + AppliedReads(log[..|log| - 1], account)
  }

  function Dispatches(log: seq<Entry>): nat {
    if log == [] then 0 else (if log[|log| - 1].Dispatched? then 1 else 0) + Dispatches(log[..|log| - 1])
  }

  function Completions(log: seq<Entry>): nat {
    if log == [] then 0 else (if log[|log| - 1].Completed? then 1 else 0) + Completions(log[..|log| - 1])
  }

  lemma LogGrows(log: seq<Entry>, e: Entry, account: nat)
    ensures TeamReads(log + [e], account) == TeamReads(log, account) + (if e.Dispatched? && e.account == account && e.reason == ByTeam then 1 else 0)
    ensures AppliedReads(log + [e], account) == AppliedReads(log, account) + (if e == Applied(account) then 1 else 0)
    ensures Dispatches(log + [e]) == Dispatches(log) + (if e.Dispatched? then 1 else 0)
    ensures Completions(log + [e]) == Completions(log) + (if e.Completed? then 1 else 0)
  {
    assert (log + [e])[..|log|] == log;
  }

  /** A dispatch is explicit, or the marker on disk covered exactly this account and build, or
      it named this account under this build's own team. */
  predicate Authorized(e: Entry, version: nat, team: Option<nat>) {
    e.Dispatched? ==>
      match e.reason
      case Explicit => true
      case ByMarker => e.grant.Some? && e.grant.value.account == e.account && e.grant.value.version == version
      case ByTeam => e.grant.Some? && e.grant.value.account == e.account && team.Some? && e.grant.value.team == team
  }

  ghost predicate Budgeted(c: Controller) {
    && (forall a :: TeamReads(c.log, a) <= AppliedReads(c.log, a) + (if a in c.attempted then 1 else 0))
    && (forall i | 0 <= i < |c.log| :: Authorized(c.log[i], c.version, c.team))
    && Dispatches(c.log) == Completions(c.log) + (if c.inFlight.Some? then 1 else 0)
  }

  lemma DispatchBudgeted(c: Controller, account: nat, reason: Reason, fails: bool)
    requires Budgeted(c)
    requires reason == ByMarker ==> Covers(c, account)
    requires reason != ByTeam
    ensures Budgeted(Dispatch(c, account, reason, fails))
  {
    var e := Dispatched(account, reason, c.grant);
    forall a ensures TeamReads(c.log + [e], a) == TeamReads(c.log, a) && AppliedReads(c.log + [e], a) == AppliedReads(c.log, a) {
      LogGrows(c.log, e, a);
    }
    LogGrows(c.log, e, account);
  }

  lemma AutomaticBudgeted(c: Controller, account: nat, fails: bool)
    requires Budgeted(c) && TeamMatches(c, account)
    ensures Budgeted(DispatchAutomatic(c, account, fails))
  {
    var e := Dispatched(account, ByTeam, c.grant);
    var t := DispatchAutomatic(c, account, fails);
    forall a ensures TeamReads(t.log, a) <= AppliedReads(t.log, a) + (if a in t.attempted then 1 else 0) {
      LogGrows(c.log, e, a);
    }
    LogGrows(c.log, e, account);
  }

  /** A change of anything but the log, the read in flight and the budget. */
  predicate SameBudget(c: Controller, t: Controller) {
    t.log == c.log && t.inFlight == c.inFlight && t.attempted == c.attempted && t.version == c.version && t.team == c.team
  }

  lemma SameBudgeted(c: Controller, t: Controller)
    requires Budgeted(c) && SameBudget(c, t)
    ensures Budgeted(t)
  {
  }

  lemma MergeBudgeted(c: Controller, account: nat, probe: Probe, faults: Faults)
    requires Budgeted(c)
    ensures Budgeted(Merge(c, account, probe, faults))
  {
    hide Budgeted;
    var kept := c.(latest := Some(Configuration(account, CarriedOver(c, account))), state := AccessPending);
    SameBudgeted(c, kept);
    if probe == Exists && !c.stale && CarriedOver(c, account) == EMPTY && Covers(c, account) {
      DispatchBudgeted(kept, account, ByMarker, faults.spawn);
    } else if probe == Exists && !c.stale && CarriedOver(c, account) == EMPTY && TeamMatches(c, account) {
      AutomaticBudgeted(kept, account, faults.spawn);
    } else {
      SameBudgeted(c, Merge(c, account, probe, faults));
    }
  }

  lemma ChangedBudgeted(c: Controller, faults: Faults)
    requires Budgeted(c)
    ensures Budgeted(MarkChanged(c, faults))
  {
    hide Budgeted;
    var t := c.(removed := false, stale := true, state := AccessPending, epoch := c.epoch + 1);
    SameBudgeted(c, t);
    if TeamMatches(t, Account(c)) {
      AutomaticBudgeted(t, Account(c), faults.spawn);
    } else {
      SameBudgeted(t, ClearGrant(t, Account(c), faults.clear));
    }
  }

  lemma CompletedBudgeted(c: Controller, t: Controller)
    requires Budgeted(c) && c.inFlight.Some?
    requires t.log == c.log + [Completed(c.inFlight.value.account)] && t.inFlight.None? && t.attempted == c.attempted
    requires t.version == c.version && t.team == c.team
    ensures Budgeted(t)
  {
    forall a ensures TeamReads(t.log, a) == TeamReads(c.log, a) && AppliedReads(t.log, a) == AppliedReads(c.log, a) {
      LogGrows(c.log, Completed(c.inFlight.value.account), a);
    }
    LogGrows(c.log, Completed(c.inFlight.value.account), 0);
  }

  lemma AppliedBudgeted(c: Controller, t: Controller, account: nat)
    requires Budgeted(c) && t.log == c.log + [Applied(account)] && t.inFlight == c.inFlight
    requires t.attempted == c.attempted - {account} && t.version == c.version && t.team == c.team
    ensures Budgeted(t)
  {
    forall a ensures TeamReads(t.log, a) <= AppliedReads(t.log, a) + (if a in t.attempted then 1 else 0) {
      LogGrows(c.log, Applied(account), a);
    }
    LogGrows(c.log, Applied(account), account);
  }

  lemma PollBudgeted(c: Controller, answer: Answer, faults: Faults)
    requires Budgeted(c)
    ensures Budgeted(Poll(c, answer, faults))
  {
    hide Budgeted;
    if c.inFlight.Some? && !answer.Waiting? {
      var from := c.inFlight.value;
      var t := c.(inFlight := None, log := c.log + [Completed(from.account)]);
      CompletedBudgeted(c, t);
      if answer.Answered? {
        var u := if answer.read.Found? then t.(found := t.found + {(from.account, answer.read.password)}) else t;
        SameBudgeted(t, u);
        var v := ApplyRead(u, answer.read, from, faults);
        if v.log != u.log { AppliedBudgeted(u, v, from.account); } else { SameBudgeted(u, v); }
      }
    }
  }

  lemma StepBudgeted(c: Controller, e: Event)
    requires Budgeted(c)
    ensures Budgeted(Step(c, e))
  {
    hide Budgeted;
    match e
    case ReloadConfig(account, running, probe, faults) =>
      if account.Some? { MergeBudgeted(c, account.value, probe, faults); } else { SameBudgeted(c, Step(c, e)); }
    case Changed(faults) => ChangedBudgeted(c, faults);
    case Removed(faults) => SameBudgeted(c, MarkRemoved(c, faults));
    case Request(faults) =>
      var t := c.(removed := c.removed && c.inFlight.Some?);
      SameBudgeted(c, t);
      DispatchBudgeted(t, Account(c), Explicit, faults.spawn);
    case PollRead(answer, faults) => PollBudgeted(c, answer, faults);
  }

  lemma {:induction false} RunBudgeted(c: Controller, events: seq<Event>)
    requires Budgeted(c)
    ensures Budgeted(Run(c, events))
    decreases |events|
  {
    hide Budgeted;
    hide Step;
    if events == [] {
    } else {
      StepBudgeted(c, events[0]);
      RunBudgeted(Step(c, events[0]), events[1..]);
    }
  }

  /** Over every run of a fresh agent: for each account at most one automatic read more than
      passwords were applied; every dispatch authorized; and at most one read in flight. */
  lemma AutomaticReadBudget(version: nat, team: Option<nat>, grant: Option<Grant>, events: seq<Event>, account: nat, i: nat)
    requires i < |Run(Fresh(version, team, grant), events).log|
    ensures var c := Run(Fresh(version, team, grant), events);
            && TeamReads(c.log, account) <= 1 + AppliedReads(c.log, account)
            && Authorized(c.log[i], c.version, c.team)
            && Completions(c.log) <= Dispatches(c.log) <= Completions(c.log) + 1
  {
    RunBudgeted(Fresh(version, team, grant), events);
  }

  // ---------------------------------------------------------------- is the password current?

  /** An available password was read after the last change notice. */
  predicate Current(c: Controller) {
    c.state == Available ==> c.readEpoch == c.epoch
  }

  /** A read in flight was dispatched after the last change notice. */
  predicate InFlightCurrent(c: Controller) {
    c.inFlight.Some? ==> c.inFlight.value.epoch == c.epoch
  }

  /** A password is carried over only after an available one, until the next notice. */
  predicate CarriedCurrent(c: Controller) {
    && Current(c) && InFlightCurrent(c)
    && (c.latest.Some? && c.latest.value.password != EMPTY && !c.stale ==> c.readEpoch == c.epoch)
  }

  /** No read is in flight when a change notice comes. */
  predicate QuietNotice(c: Controller, e: Event) {
    e.Changed? || e.Removed? ==> c.inFlight.None?
  }

  lemma MergeCurrent(c: Controller, account: nat, probe: Probe, faults: Faults)
    requires CarriedCurrent(c)
    ensures CarriedCurrent(Merge(c, account, probe, faults))
  {
  }

  lemma NoticeCurrent(c: Controller, faults: Faults)
    requires CarriedCurrent(c) && c.inFlight.None?
    ensures CarriedCurrent(MarkChanged(c, faults)) && CarriedCurrent(MarkRemoved(c, faults))
  {
  }

  lemma PollCurrent(c: Controller, answer: Answer, faults: Faults)
    requires CarriedCurrent(c)
    ensures CarriedCurrent(Poll(c, answer, faults))
  {
  }

  lemma StepCurrent(c: Controller, e: Event)
    requires CarriedCurrent(c) && QuietNotice(c, e)
    ensures CarriedCurrent(Step(c, e))
  {
    hide Merge;
    hide MarkChanged;
    hide MarkRemoved;
    hide Poll;
    match e
    case ReloadConfig(account, running, probe, faults) =>
      if account.Some? { MergeCurrent(c, account.value, probe, faults); }
    case Changed(faults) => NoticeCurrent(c, faults);
    case Removed(faults) => NoticeCurrent(c, faults);
    case Request(faults) =>
    case PollRead(answer, faults) => PollCurrent(c, answer, faults);
  }

  predicate QuietNotices(c: Controller, events: seq<Event>)
    decreases |events|
  {
    events == [] || (QuietNotice(c, events[0]) && QuietNotices(Step(c, events[0]), events[1..]))
  }

  /** If no read is in flight at any change notice, an available password is always one read
      after the last notice. */
  lemma {:induction false} CurrentWhenQuiet(c: Controller, events: seq<Event>)
    requires CarriedCurrent(c) && QuietNotices(c, events)
    ensures Current(Run(c, events))
    decreases |events|
  {
    if events == [] {
    } else {
      StepCurrent(c, events[0]);
      CurrentWhenQuiet(Step(c, events[0]), events[1..]);
    }
  }

  /** Exactly: whatever password the next read returns, it is current after a change notice if
      and only if no read for the configured account was in flight when the notice came.
      Otherwise the password just replaced may be applied, and counts as available. */
  lemma NoticeIsExact(c: Controller, faults: Faults)
    requires CarriedCurrent(c)
    ensures (forall p: nat :: Current(Poll(MarkChanged(c, faults), Answered(Found(p)), faults))) <==>
            !(c.inFlight.Some? && c.latest.Some? && c.latest.value.account == c.inFlight.value.account)
  {
    var t := MarkChanged(c, faults);
    forall p: nat ensures Current(Poll(t, Answered(Found(p)), faults)) <==>
                          !(c.inFlight.Some? && c.latest.Some? && c.latest.value.account == c.inFlight.value.account) {
      NoticeThenRead(c, p, faults);
    }
    assert Current(Poll(t, Answered(Found(1)), faults)) <==>
           !(c.inFlight.Some? && c.latest.Some? && c.latest.value.account == c.inFlight.value.account);
  }

  lemma NoticeThenRead(c: Controller, password: nat, faults: Faults)
    requires CarriedCurrent(c)
    ensures Current(Poll(MarkChanged(c, faults), Answered(Found(password)), faults)) <==>
            !(c.inFlight.Some? && c.latest.Some? && c.latest.value.account == c.inFlight.value.account)
  {
  }

  /** No read from before the notice numbered `since` is in flight, and no password from such a
      read is held, except one that is stale already. */
  predicate ReadSince(c: Controller, since: nat) {
    && since <= c.epoch
    && (c.inFlight.Some? ==> c.inFlight.value.epoch >= since || c.removed)
    && (c.latest.Some? && c.latest.value.password != EMPTY && !c.stale ==> c.readEpoch >= since)
    && (c.state == Available ==> c.readEpoch >= since)
  }

  /** A password is held that was read before the notice numbered `since`. */
  predicate HoldsOlder(c: Controller, since: nat) {
    c.latest.Some? && c.latest.value.password != EMPTY && c.readEpoch < since
  }

  /** OpenCode may be started with a password read before the notice numbered `since`. */
  predicate OffersOlder(c: Controller, since: nat) {
    c.state == Available && c.readEpoch < since
  }

  predicate NoChange(events: seq<Event>) {
    forall i | 0 <= i < |events| :: !events[i].Changed?
  }

  /** Reads are numbered by the notices before their dispatch. */
  predicate Numbered(c: Controller) {
    c.inFlight.Some? ==> c.inFlight.value.epoch <= c.epoch
  }

  lemma StepNumbered(c: Controller, e: Event)
    requires Numbered(c)
    ensures Numbered(Step(c, e)) && c.epoch <= Step(c, e).epoch
  {
  }

  lemma {:induction false} RunNumbered(c: Controller, events: seq<Event>)
    requires Numbered(c)
    ensures Numbered(Run(c, events))
    decreases |events|
  {
    hide Step;
    if events == [] {
    } else {
      StepNumbered(c, events[0]);
      RunNumbered(Step(c, events[0]), events[1..]);
    }
  }

  /** A read in flight is no older than the notice. */
  predicate YoungFlight(c: Controller, since: nat) {
    c.inFlight.None? || c.inFlight.value.epoch >= since
  }

  /** What must not come for `ReadSince` to last: a change notice while an older read is in
      flight, which lowers the removal barrier under it. */
  predicate Unraised(c: Controller, e: Event, since: nat) {
    e.Changed? ==> YoungFlight(c, since)
  }

  ghost predicate StaysSince(c: Controller, t: Controller, since: nat) {
    && ReadSince(t, since)
    && (!HoldsOlder(c, since) ==> !HoldsOlder(t, since))
    && (YoungFlight(c, since) ==> YoungFlight(t, since))
  }

  lemma MergeReadSince(c: Controller, account: nat, probe: Probe, faults: Faults, since: nat)
    requires ReadSince(c, since)
    ensures StaysSince(c, Merge(c, account, probe, faults), since)
  {
  }

  lemma PollReadSince(c: Controller, answer: Answer, faults: Faults, since: nat)
    requires ReadSince(c, since)
    ensures StaysSince(c, Poll(c, answer, faults), since)
  {
  }

  lemma StepReadSince(c: Controller, e: Event, since: nat)
    requires ReadSince(c, since) && Unraised(c, e, since)
    ensures StaysSince(c, Step(c, e), since)
  {
    hide Merge;
    hide Poll;
    match e
    case ReloadConfig(account, running, probe, faults) =>
      if account.Some? { MergeReadSince(c, account.value, probe, faults, since); }
    case PollRead(answer, faults) => PollReadSince(c, answer, faults, since);
    case Changed(_) =>
    case Removed(_) =>
    case Request(_) =>
  }

  /** No read older than the notice is left, or none will be let through. */
  predicate Settled(c: Controller, events: seq<Event>, since: nat) {
    YoungFlight(c, since) || NoChange(events)
  }

  lemma {:induction false} RunReadSince(c: Controller, events: seq<Event>, since: nat)
    requires ReadSince(c, since) && Settled(c, events, since)
    ensures ReadSince(Run(c, events), since)
    ensures !HoldsOlder(c, since) ==> !HoldsOlder(Run(c, events), since)
    decreases |events|
  {
    hide Step;
    hide ReadSince;
    hide HoldsOlder;
    if events == [] {
    } else {
      StepReadSince(c, events[0], since);
      RunReadSince(Step(c, events[0]), events[1..], since);
    }
  }

  /** The configuration turns to `account`, whose older read is in flight; a change notice
      comes; the read returns a password. */
  function LateRead(account: nat, faults: Faults): seq<Event> {
    [ReloadConfig(Some(account), true, ProbeFailed, faults), Changed(faults), PollRead(Answered(Found(1)), faults)]
  }

  lemma LateReadApplies(c: Controller, faults: Faults)
    requires c.inFlight.Some?
    ensures var t := Run(c, LateRead(c.inFlight.value.account, faults));
            && t.state == Available && t.readEpoch == c.inFlight.value.epoch
            && t.latest == Some(Configuration(c.inFlight.value.account, 1))
  {
    var account := c.inFlight.value.account;
    var e1, e2, e3 := ReloadConfig(Some(account), true, ProbeFailed, faults), Changed(faults), PollRead(Answered(Found(1)), faults);
    var c1 := Step(c, e1);
    var c2 := Step(c1, e2);
    var c3 := Step(c2, e3);
    assert c1.inFlight == c2.inFlight == c.inFlight && !c2.removed && Account(c2) == account && c2.latest.Some?;
    RunThree(c, e1, e2, e3);
  }

  lemma RunThree(c: Controller, e1: Event, e2: Event, e3: Event)
    ensures Run(c, [e1, e2, e3]) == Step(Step(Step(c, e1), e2), e3)
  {
    hide Step;
    var c1 := Step(c, e1);
    var c2 := Step(c1, e2);
    assert [e1, e2, e3][1..] == [e2, e3] && [e2, e3][1..] == [e3] && [e3][1..] == [];
    assert Run(c, [e1, e2, e3]) == Run(c1, [e2, e3]) == Run(c2, [e3]) == Run(Step(c2, e3), []);
  }

  /** Exactly, over whole runs: after a removal no password read before it is ever held again,
      whatever happens, if and only if no read at all was in flight when the removal came. With
      one in flight a later change notice lowers the barrier under it; until then the barrier
      holds whatever is in flight. */
  lemma RemovalIsExact(version: nat, team: Option<nat>, grant: Option<Grant>, before: seq<Event>, faults: Faults)
    ensures var c := Run(Fresh(version, team, grant), before);
            var t := MarkRemoved(c, faults);
            && ((forall events: seq<Event> :: !HoldsOlder(Run(t, events), t.epoch)) <==> c.inFlight.None?)
            && (forall events: seq<Event> | NoChange(events) :: !HoldsOlder(Run(t, events), t.epoch))
  {
    hide Step;
    var c := Run(Fresh(version, team, grant), before);
    var t := MarkRemoved(c, faults);
    RunNumbered(Fresh(version, team, grant), before);
    forall events: seq<Event> | c.inFlight.None? || NoChange(events) ensures !HoldsOlder(Run(t, events), t.epoch) {
      RunReadSince(t, events, t.epoch);
    }
    if c.inFlight.Some? {
      LateReadApplies(t, faults);
      assert HoldsOlder(Run(t, LateRead(t.inFlight.value.account, faults)), t.epoch);
    }
  }

  /** The same for a change notice and the passwords it replaced, which may be carried over
      but are not offered. */
  lemma ChangeIsExact(version: nat, team: Option<nat>, grant: Option<Grant>, before: seq<Event>, faults: Faults)
    ensures var c := Run(Fresh(version, team, grant), before);
            var t := MarkChanged(c, faults);
            (forall events: seq<Event> :: !OffersOlder(Run(t, events), t.epoch)) <==> c.inFlight.None?
  {
    hide Step;
    hide Run;
    var c := Run(Fresh(version, team, grant), before);
    var t := MarkChanged(c, faults);
    RunNumbered(Fresh(version, team, grant), before);
    if c.inFlight.None? {
      ChangedReadSince(c, faults);
      forall events: seq<Event> ensures !OffersOlder(Run(t, events), t.epoch) {
        RunReadSince(t, events, t.epoch);
      }
    } else {
      LateReadApplies(t, faults);
      assert OffersOlder(Run(t, LateRead(t.inFlight.value.account, faults)), t.epoch);
    }
  }

  lemma ChangedReadSince(c: Controller, faults: Faults)
    requires c.inFlight.None?
    ensures ReadSince(MarkChanged(c, faults), c.epoch + 1)
    ensures YoungFlight(MarkChanged(c, faults), c.epoch + 1)
  {
  }

  /** One notice and one answer: a removed password comes back if and only if the read in
      flight at the removal was for the configured account. */
  lemma RemovedPasswordReturns(c: Controller, faults: Faults)
    requires CarriedCurrent(c)
    ensures (forall p: nat | p != EMPTY :: !HoldsOlder(Poll(MarkChanged(MarkRemoved(c, faults), faults), Answered(Found(p)), faults), c.epoch + 1)) <==>
            !(c.inFlight.Some? && c.latest.Some? && c.latest.value.account == c.inFlight.value.account)
  {
    var t := MarkChanged(MarkRemoved(c, faults), faults);
    assert t.latest.Some? ==> t.latest.value.password == EMPTY;
    var again := Poll(t, Answered(Found(1)), faults);
    assert HoldsOlder(again, c.epoch + 1) <==> (c.inFlight.Some? && c.latest.Some? && c.latest.value.account == c.inFlight.value.account);
  }

  // ---------------------------------------------------------------- the controller itself

  class CredentialController {
    const version: nat
    const team: Option<nat>
    var state: CredentialState
    var grant: Option<Grant>
    var inFlight: Option<InFlight>
    var stale: bool
    var removed: bool
    var attempted: set<nat>
    var latest: Option<Configuration>  // the supervisor's, which every call is handed
    ghost var found: set<(nat, nat)>
    ghost var log: seq<Entry>
    ghost var readEpoch: nat
    var epoch: nat

    ghost function View(): Controller
      reads this
    {
      Controller(version, team, state, grant, inFlight, stale, removed, attempted, latest, found, log, epoch, readEpoch)
    }

    constructor (version: nat, team: Option<nat>, grant: Option<Grant>)
      ensures View() == Fresh(version, team, grant)
    {
      this.version, this.team, this.grant := version, team, grant;
      state, inFlight, stale, removed, attempted, latest := NotConfigured, None, false, false, {}, None;
      found, log, epoch, readEpoch := {}, [], 0, 0;
    }

    method ClearCredentialGrant(account: nat, fails: bool)
      modifies `grant
      ensures View() == ClearGrant(old(View()), account, fails)
    {
      if grant.Some? && grant.value.account == account && !fails {
        grant := None;
      }
    }

    method RecordCredentialGrant(account: nat, fails: bool)
      modifies `grant
      ensures View() == RecordGrant(old(View()), account, fails)
    {
      if !fails {
        grant := Some(Grant(account, version, team));
      }
    }

    predicate TeamEvidenceMatches(account: nat)
      reads this
      ensures TeamEvidenceMatches(account) == TeamMatches(View(), account)
    {
      grant.Some? && grant.value.account == account && grant.value.team.Some? && grant.value.team == team
    }

    method RequestRefreshFor(account: nat, reason: Reason, fails: bool)
      modifies `inFlight, `log
      ensures View() == Dispatch(old(View()), account, reason, fails)
    {
      if inFlight.Some? {
        return;
      }
      if !fails {
        inFlight := Some(InFlight(account, epoch));
        log := log + [Dispatched(account, reason, grant)];
      }
    }

    method DispatchAutomaticRead(account: nat, fails: bool)
      modifies `inFlight, `log, `attempted
      ensures View() == DispatchAutomatic(old(View()), account, fails)
    {
      if inFlight.Some? || account in attempted {
        return;
      }
      attempted := attempted + {account};
      RequestRefreshFor(account, ByTeam, fails);
    }

    /** What the previous configuration of the same account still holds. */
    method CarryOverPassword(account: nat) returns (password: nat)
      ensures password == CarriedOver(View(), account)
    {
      if latest.None? || latest.value.account != account {
        return EMPTY;
      }
      password := latest.value.password;
    }

    method MergeCredentials(account: nat, probe: Probe, faults: Faults)
      modifies this
      ensures View() == Merge(old(View()), account, probe, faults)
    {
      hide Dispatch;
      hide DispatchAutomatic;
      hide ClearGrant;
      var password := CarryOverPassword(account);
      match probe {
        case Absent =>
          latest := Some(Configuration(account, EMPTY));
          stale := false;
          state := NotConfigured;
          ClearCredentialGrant(account, faults.clear);
        case ProbeFailed =>
          latest := Some(Configuration(account, password));
          state := AccessPending;
        case Exists =>
          latest := Some(Configuration(account, password));
          if !stale && password != EMPTY {
            state := Available;
            return;
          }
          state := AccessPending;
          if stale {
            return;
          }
          if grant.Some? && grant.value.account == account && grant.value.version == version {
            RequestRefreshFor(account, ByMarker, faults.spawn);
          } else if TeamEvidenceMatches(account) {
            DispatchAutomaticRead(account, faults.spawn);
          }
      }
    }

    method MarkCredentialChanged(faults: Faults)
      modifies this
      ensures View() == MarkChanged(old(View()), faults)
    {
      hide DispatchAutomatic;
      hide ClearGrant;
      var account := if latest.Some? then latest.value.account else DEFAULT_ACCOUNT;
      removed := false;
      stale := true;
      state := AccessPending;
      epoch := epoch + 1;
      if TeamEvidenceMatches(account) {
        DispatchAutomaticRead(account, faults.spawn);
      } else {
        ClearCredentialGrant(account, faults.clear);
      }
    }

    method MarkCredentialRemoved(faults: Faults)
      modifies this
      ensures View() == MarkRemoved(old(View()), faults)
    {
      hide ClearGrant;
      var account := if latest.Some? then latest.value.account else DEFAULT_ACCOUNT;
      removed := true;
      stale := false;
      state := NotConfigured;
      epoch := epoch + 1;
      if latest.Some? {
        latest := Some(latest.value.(password := EMPTY));
      }
      ClearCredentialGrant(account, faults.clear);
    }

    method RequestCredentialRefresh(faults: Faults)
      modifies this
      ensures View() == RequestRefresh(old(View()), faults)
    {
      hide Dispatch;
      if inFlight.None? {
        removed := false;
      }
      RequestRefreshFor(if latest.Some? then latest.value.account else DEFAULT_ACCOUNT, Explicit, faults.spawn);
    }

    method ApplyFound(account: nat, password: nat, from: InFlight)
      modifies `state, `stale, `attempted, `latest, `log, `readEpoch
      ensures View() == old(View()).(state := Available, stale := false, attempted := old(attempted) - {account},
                                     latest := Some(Configuration(account, password)), log := old(log) + [Applied(account)],
                                     readEpoch := from.epoch)
    {
      state := Available;
      stale := false;
      attempted := attempted - {account};
      latest := Some(Configuration(account, password));
      log := log + [Applied(account)];
      readEpoch := from.epoch;
    }

    method ApplyCredentialRead(read: Read, from: InFlight, faults: Faults) returns (applied: bool)
      modifies this
      ensures View() == ApplyRead(old(View()), read, from, faults)
      ensures applied <==> log != old(log)
    {
      hide ClearGrant;
      hide RecordGrant;
      if removed || latest.None? || latest.value.account != from.account {
        return false;
      }
      var account := from.account;
      applied := false;
      match read {
        case Found(password) =>
          ApplyFound(account, password, from);
          RecordCredentialGrant(account, faults.record);
          applied := true;
        case NoItem =>
          state := NotConfigured;
          stale := false;
          latest := Some(Configuration(account, EMPTY));
          ClearCredentialGrant(account, faults.clear);
        case Denied =>
          state := AccessPending;
          ClearCredentialGrant(account, faults.clear);
        case ReadFailed =>
          state := AccessPending;
      }
    }

    method PollCredentialRefresh(answer: Answer, faults: Faults)
      modifies this
      ensures View() == Poll(old(View()), answer, faults)
    {
      hide ApplyRead;
      if inFlight.None? || answer.Waiting? {
        return;
      }
      var from := inFlight.value;
      inFlight := None;
      log := log + [Completed(from.account)];
      if answer.Answered? {
        if answer.read.Found? {
          found := found + {(from.account, answer.read.password)};
        }
        var applied := ApplyCredentialRead(answer.read, from, faults);
      }
    }
  }
}
