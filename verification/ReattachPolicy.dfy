/** The pure reattachment decision (supervisor/reattach_policy.rs). */
module ReattachPolicy {
  import opened Records
  import opened ProcessIdentity

  datatype InitialAction = InitialDiscard | InitialUnverified | InitialUnconfirmed | InitialStale | NeedsHealth(config: Config)

  datatype FinalAction = FinalReattach(version: nat, config: Config) | FinalDiscard | FinalUnverified | FinalUnconfirmed

  /** `decide_initial`: gates 0 to 3. */
  function DecideInitial(unconfirmed: bool, identity: Identity, config: Option<Config>, matches: bool): InitialAction {
    if unconfirmed then (if identity.Missing? then InitialDiscard else InitialUnverified)
    else match identity
      case Missing => InitialDiscard
      case Uninspected => InitialUnverified
      case Present(Mismatch) => InitialDiscard
      case Present(ExecutableMismatch) => InitialUnconfirmed
      case Present(GroupEscaped) => InitialUnverified
      case Present(_) =>
        if config.None? then InitialUnverified
        else if !matches then InitialStale
        else NeedsHealth(config.value)
  }

  /** `decide_after_health`: gate 4. */
  function DecideAfterHealth(identity: Identity, health: HealthVerdict, config: Config): FinalAction {
    match health
    case Unhealthy => FinalUnverified
    case Unreachable => FinalUnverified
    case Healthy(version) =>
      match identity
      case Missing => FinalDiscard
      case Uninspected => FinalUnverified
      case Present(Mismatch) => FinalDiscard
      case Present(ExecutableMismatch) => FinalUnconfirmed
      case Present(GroupEscaped) => FinalUnverified
      case Present(_) => FinalReattach(version, config)
  }
}
