/**
 The saga aggregate and the orchestrator, working in place. Each method is proved to do exactly what the
 function of the same name in module Transfers says.
 */
module TransferService {
  import opened Results
  import opened Money
  import opened Accounts
  import opened Ledger
  import opened LedgerService
  import opened T = Transfers

  /** The saga aggregate, updated in place. */
  class Transfer {
    const from: AccountID
    const to: AccountID
    const amount: Money
    const description: string
    var state: SagaState
    var failReason: FailReason
    var steps: seq<SagaStep>

    constructor (from: AccountID, to: AccountID, amount: Money, description: string)
      ensures Contents() == Saga(from, to, amount, description, Initiated, NoReason, []).Enter("transfer.initiated", Initiated)
    {
      this.from, this.to, this.amount, this.description := from, to, amount, description;
      state, failReason := Initiated, NoReason;
      steps := [SagaStep("transfer.initiated", Initiated)];
    }

    ghost function Contents(): Saga
      reads this
    {
      Saga(from, to, amount, description, state, failReason, steps)
    }

    method AddStep(action: string, next: SagaState)
      modifies this`steps
      ensures steps == old(steps) + [SagaStep(action, next)]
    {
      steps := steps + [SagaStep(action, next)];
    }

    method MarkDebited() returns (r: Result<()>)
      modifies this
      ensures match T.MarkDebited(old(Contents()))
              case Ok(s) => r.Ok? && Contents() == s
              case Err(e) => r == Err(e) && Contents() == old(Contents())
    {
      if !state.Initiated? {
        return Err(InvalidTransition);
      }
      state := Debited;
      AddStep("source.debited", Debited);
      return Ok(());
    }

    method MarkCompleted() returns (r: Result<()>)
      modifies this
      ensures match T.MarkCompleted(old(Contents()))
              case Ok(s) => r.Ok? && Contents() == s
              case Err(e) => r == Err(e) && Contents() == old(Contents())
    {
      if !state.Debited? {
        return Err(InvalidTransition);
      }
      state := Completed;
      AddStep("destination.credited", Completed);
      return Ok(());
    }

    method MarkFailed(reason: FailReason)
      modifies this
      ensures Contents() == T.MarkFailed(old(Contents()), reason)
    {
      state := Failed;
      failReason := reason;
      AddStep("transfer.failed", Failed);
    }

    method MarkCompensated()
      modifies this
      ensures Contents() == T.MarkCompensated(old(Contents()))
    {
      state := Compensated;
      AddStep("debit.reversed", Compensated);
    }
  }

  class Orchestrator {
    const ledger: Service

    constructor (ledger: Service)
      ensures this.ledger == ledger
    {
      this.ledger := ledger;
    }

    /** Debit the source, credit the destination, reverse the debit if the credit fails. */
    method Execute(cmd: TransferCmd) returns (saga: Transfer?, failure: Option<Failure>)
      modifies ledger, ledger.accounts, ledger.transactions, ledger.outbox, ledger.projector
      ensures var (st', outcome) := T.Execute(old(ledger.Contents()), ledger.env, cmd);
              && ledger.Contents() == st'
              && failure == outcome.failure
              && outcome.saga == if saga == null then None else Some(saga.Contents())
      ensures saga != null ==> fresh(saga)
    {
      var money := NewMoney(cmd.amount, cmd.currency);
      if money.Err? {
        return null, Some(Invalid(money.error));
      }
      if cmd.from == cmd.to {
        return null, Some(Invalid(SameAccount));
      }
      saga := new Transfer(cmd.from, cmd.to, money.value, cmd.description);
      var suspense := ledger.SuspenseAccountID(cmd.currency);
      var r := ledger.RecordTransaction(Pair(cmd.from, suspense, cmd.amount, cmd.currency), "Transfer out: " + cmd.description);
      if r.Err? {
        saga.MarkFailed(DebitFailed(r.error));
        return saga, Some(DebitStep(r.error));
      }
      var marked := saga.MarkDebited();
      if marked.Err? {
        return saga, Some(Transition(InvalidTransition));
      }
      failure := CreditDestination(cmd, saga);
    }

    method CreditDestination(cmd: TransferCmd, saga: Transfer) returns (failure: Option<Failure>)
      modifies saga, ledger, ledger.accounts, ledger.transactions, ledger.outbox, ledger.projector
      ensures var (st', outcome) := T.CreditDestination(old(ledger.Contents()), ledger.env, cmd, old(saga.Contents()));
              ledger.Contents() == st' && outcome == Outcome(Some(saga.Contents()), failure)
    {
      var suspense := ledger.SuspenseAccountID(cmd.currency);
      var r := ledger.RecordTransaction(Pair(suspense, cmd.to, cmd.amount, cmd.currency), "Transfer in: " + cmd.description);
      if r.Err? {
        saga.MarkFailed(CreditFailed(r.error));
        failure := Compensate(cmd, saga, r.error);
        return;
      }
      var marked := saga.MarkCompleted();
      return if marked.Err? then Some(Transition(marked.error)) else None;
    }

    method Compensate(cmd: TransferCmd, saga: Transfer, creditError: Error) returns (failure: Option<Failure>)
      modifies saga, ledger, ledger.accounts, ledger.transactions, ledger.outbox, ledger.projector
      ensures var (st', outcome) := T.Compensate(old(ledger.Contents()), ledger.env, cmd, old(saga.Contents()), creditError);
              ledger.Contents() == st' && outcome == Outcome(Some(saga.Contents()), failure)
    {
      var suspense := ledger.SuspenseAccountID(cmd.currency);
      var r := ledger.RecordTransaction(Pair(suspense, cmd.from, cmd.amount, cmd.currency), COMPENSATION + cmd.description);
      if r.Err? {
        return Some(Critical(creditError, r.error));
      }
      saga.MarkCompensated();
      return Some(CreditReversed(creditError));
    }
  }
}
