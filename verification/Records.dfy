/** Values shared by the agent model: options, the persisted runtime state and the
    validated configuration. Text that no decision reads (messages, timestamps shown to
    the user) is left out; executables and configurations are compared by identity, so a
    number stands for each canonical path and each configuration fingerprint. */
module Records {

  datatype Option<+T> = None | Some(value: T)

  datatype DesiredState = Running | Stopped

  datatype NoticeKind = Failure | Recovered | FinalFailure

  /** A recorded OpenCode leader. `start` stands for the kernel start time (seconds and
      microseconds together); it is 0 when `unconfirmed`. */
  datatype Record = Record(
    pid: nat,
    group: nat,
    start: nat,
    executable: nat,
    runningVersion: Option<nat>,
    fingerprint: nat,
    unconfirmed: bool)

  /** The two-phase launch marker. */
  datatype Marker = Marker(executable: nat, fingerprint: nat)

  /** One image of the runtime state file. */
  datatype Runtime = Runtime(
    desired: DesiredState,
    process: Option<Record>,
    marker: Option<Marker>,
    notice: Option<NoticeKind>)

  /** What a missing state file stands for: the first run of the agent. */
  const DefaultRuntime: Runtime := Runtime(Running, None, None, None)

  datatype CredentialState = NotConfigured | AccessPending | Available

  datatype HealthVerdict = Healthy(version: nat) | Unhealthy | Unreachable

  /** A validated configuration after the Keychain merge. */
  datatype Config = Config(executable: nat, fingerprint: nat)
}
