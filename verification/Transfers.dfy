/** The transfer saga as functions: its state transitions, and the orchestrator with compensation. */
module Transfers {
  import opened Results
  import opened Money
  import opened Accounts
  import opened Ledger

  datatype SagaState = Initiated | Debited | Completed | Failed | Compensated

  datatype SagaStep = SagaStep(action: string, state: SagaState)

  datatype FailReason = NoReason | DebitFailed(error: Error) | CreditFailed(error: Error)

  datatype Saga = Saga(
    from: AccountID,
    to: AccountID,
    amount: Money,
    description: string,
    state: SagaState,
    failReason: FailReason,
    steps: seq<SagaStep>)
  {
    function Enter(action: string, next: SagaState): Saga {
      this.(state := next, steps := steps + [SagaStep(action, next)])
    }
  }

  function NewSaga(from: AccountID, to: AccountID, amount: Money, description: string): Result<Saga> {
    if from == to then Err(SameAccount)
    else Ok(Saga(from, to, amount, description, Initiated, NoReason, []).Enter("transfer.initiated", Initiated))
  }

  function MarkDebited(s: Saga): Result<Saga> {
    if !s.state.Initiated? then Err(InvalidTransition) else Ok(s.Enter("source.debited", Debited))
  }

  function MarkCompleted(s: Saga): Result<Saga> {
    if !s.state.Debited? then Err(InvalidTransition) else Ok(s.Enter("destination.credited", Completed))
  }

  function MarkFailed(s: Saga, reason: FailReason): Saga {
    s.(failReason := reason).Enter("transfer.failed", Failed)
  }

  function MarkCompensated(s: Saga): Saga {
    s.Enter("debit.reversed", Compensated)
  }

  datatype TransferCmd = TransferCmd(from: AccountID, to: AccountID, amount: int64, currency: Currency, description: string)

  datatype Failure =
    | Invalid(error: Error)
    | DebitStep(error: Error)
    | Transition(error: Error)
    | CreditReversed(error: Error)
    | Critical(creditError: Error, compensationError: Error)

  /** No saga when the command is rejected outright; no failure when the transfer completed. */
  datatype Outcome = Outcome(saga: Option<Saga>, failure: Option<Failure>)

  ghost function Execute(st: State, env: Env, cmd: TransferCmd): (State, Outcome) {
    match NewMoney(cmd.amount, cmd.currency)
    case Err(e) => (st, Outcome(None, Some(Invalid(e))))
    case Ok(money) =>
      match NewSaga(cmd.from, cmd.to, money, cmd.description)
      case Err(e) => (st, Outcome(None, Some(Invalid(e))))
      case Ok(saga) =>
        var (st1, suspense) := SuspenseAccountID(st, env, cmd.currency);
        var (st2, r) := RecordTransaction(st1, env, Pair(cmd.from, suspense, cmd.amount, cmd.currency), "Transfer out: " + cmd.description);
        if r.Err? then (st2, Outcome(Some(MarkFailed(saga, DebitFailed(r.error))), Some(DebitStep(r.error))))
        else match MarkDebited(saga)
          case Err(e) => (st2, Outcome(Some(saga), Some(Transition(e))))
          case Ok(debited) => CreditDestination(st2, env, cmd, debited)
  }

  ghost function CreditDestination(st: State, env: Env, cmd: TransferCmd, saga: Saga): (State, Outcome) {
    var (st1, suspense) := SuspenseAccountID(st, env, cmd.currency);
    var (st2, r) := RecordTransaction(st1, env, Pair(suspense, cmd.to, cmd.amount, cmd.currency), "Transfer in: " + cmd.description);
    if r.Err? then Compensate(st2, env, cmd, MarkFailed(saga, CreditFailed(r.error)), r.error)
    else match MarkCompleted(saga)
      case Err(e) => (st2, Outcome(Some(saga), Some(Transition(e))))
      case Ok(completed) => (st2, Outcome(Some(completed), None))
  }

  const COMPENSATION := "Compensation: reverse debit for failed transfer: "

  ghost function Compensate(st: State, env: Env, cmd: TransferCmd, saga: Saga, creditError: Error): (State, Outcome) {
    var (st1, suspense) := SuspenseAccountID(st, env, cmd.currency);
    var (st2, r) := RecordTransaction(st1, env, Pair(suspense, cmd.from, cmd.amount, cmd.currency), COMPENSATION + cmd.description);
    if r.Err? then (st2, Outcome(Some(saga), Some(Critical(creditError, r.error))))
    else (st2, Outcome(Some(MarkCompensated(saga)), Some(CreditReversed(creditError))))
  }
}
