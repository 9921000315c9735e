/** What a worker daemon may report for a command, and what it may do to its stack directory
    (agent_daemon/worker_daemon.py). */
module WorkerExecution {
  import opened Options
  import opened Sequences
  import opened CommandQueue
  import opened TenantRegistry
  import StackState

  type Disk = StackState.Disk

  /** The handler answered before running anything: docker unreachable, or an incomplete payload. */
  function Unable(kind: Kind): CommandResult {
    match kind
    case Verify => CommandResult(1, Nothing, None)
    case Bootstrap => CommandResult(1, Nothing, Some(BootstrapStatus.Failed))
    case _ => CommandResult(1, Status(RuntimeStatus.Failed), None)
  }

  /** The report of an exception caught around the handler. */
  const EXCEPTION := CommandResult(1, Nothing, None)

  predicate ProvisionReport(outcome: StackState.Outcome, ok: bool, r: CommandResult) {
    match outcome
    case Done => ok && r == CommandResult(0, Status(Running), None)
    case Failed => !ok && r == CommandResult(1, Status(RuntimeStatus.Failed), None)
    case Raised => !ok && r == EXCEPTION
  }

  predicate DeprovisionReport(outcome: StackState.Outcome, ok: bool, r: CommandResult) {
    match outcome
    case Done => ok && r == CommandResult(0, Unlisted, None)
    case Failed => !ok && r.exitCode != 0 && r.runtime == Status(RuntimeStatus.Failed) && r.bootstrap.None?
    case Raised => !ok && r == EXCEPTION
  }

  /** One command executed: a failed refusal, a caught exception, or a real run. */
  ghost predicate Executed(cmd: TenantCommand, d: Disk, d': Disk, ok: bool, r: CommandResult) {
    || (d' == d && !ok && r == Unable(cmd.kind))
    || (match cmd.kind
        case Provision =>
          exists outcome :: StackState.Provisioned(d, d', cmd.body, outcome) && ProvisionReport(outcome, ok, r)
        case Deprovision =>
          exists outcome :: StackState.Deprovisioned(d, d', cmd.body.slug, cmd.body.dbName, cmd.body.network, outcome)
                            && DeprovisionReport(outcome, ok, r)
        case Start => d' == d && RuntimeReport(Running, ok, r)
        case Stop => d' == d && RuntimeReport(Stopped, ok, r)
        case Verify => d' == d && r.runtime.Nothing? && r.bootstrap.None? && (ok <==> r.exitCode == 0)
        case Bootstrap =>
          d' == d && r.runtime.Nothing? && (ok <==> r.exitCode == 0)
          && (if ok then r.bootstrap == Some(Bootstrapped) else r == EXCEPTION || r.bootstrap == Some(BootstrapStatus.Failed)))
  }

  predicate RuntimeReport(success: RuntimeStatus, ok: bool, r: CommandResult) {
    if ok then r == CommandResult(0, Status(success), None)
    else r == EXCEPTION || (r.exitCode != 0 && r.runtime == Status(RuntimeStatus.Failed) && r.bootstrap.None?)
  }

  /** A failed runtime action names that failure or, after an exception, nothing. */
  predicate NamesFailure(r: CommandResult) {
    r.runtime == Status(RuntimeStatus.Failed) || r.runtime == Nothing
  }

  /** What a report says fits the kind of command and whether it is a success. */
  predicate Truthful(kind: Kind, ok: bool, r: CommandResult) {
    match kind
    case Provision => r.bootstrap.None? && (if ok then r.runtime == Status(Running) else NamesFailure(r))
    case Start => r.bootstrap.None? && (if ok then r.runtime == Status(Running) else NamesFailure(r))
    case Stop => r.bootstrap.None? && (if ok then r.runtime == Status(Stopped) else NamesFailure(r))
    case Deprovision => r.bootstrap.None? && (if ok then r.exitCode == 0 else NamesFailure(r))
    case Verify => r.bootstrap.None? && r.runtime == Nothing
    case Bootstrap =>
      r.runtime == Nothing
      && (if ok then r.bootstrap == Some(Bootstrapped) else r.bootstrap.None? || r.bootstrap == Some(BootstrapStatus.Failed))
  }

  lemma ExecutedFacts(cmd: TenantCommand, d: Disk, d': Disk, ok: bool, r: CommandResult)
    requires Executed(cmd, d, d', ok, r) && StackState.Valid(d)
    ensures StackState.Valid(d')
    ensures r.runtime != Status(RuntimeStatus.Pending) && Truthful(cmd.kind, ok, r)
    ensures cmd.kind.Deprovision? && ok ==> cmd.body.slug !in d'.State().tenants
    ensures cmd.kind.Provision? && ok ==> cmd.body.slug in d'.State().tenants
  {
  }
}
