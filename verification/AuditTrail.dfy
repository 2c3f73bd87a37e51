/** What a transfer saga says of itself, under any faults: its audit trail, its reason and the error it answers with. */
module AuditTrail {
  import opened Results
  import opened Money
  import opened Accounts
  import opened Transactions
  import opened Ledger
  import opened Transfers
  import opened Steps
  import opened Moments
  import opened SagaPlan

  /** Stored transactions are never lost or changed. */
  ghost predicate Keeps(st: State, st': State) {
    forall id :: id in st.transactions ==> id in st'.transactions && st'.transactions[id] == st.transactions[id]
  }

  /** Transaction `id` was stored between st and st', with this debit, this credit and this description. */
  ghost predicate StoredBetween(st: State, st': State, id: TransactionID, d: Entry, c: Entry, description: string) {
    && st.nextId <= id && id !in st.transactions
    && id in st'.transactions && st'.transactions[id] == Transaction(id, [d, c], description)
  }

  lemma LookupKeeps(st: State, env: Env, currency: Currency)
    ensures SuspenseAccountID(st, env, currency).0.transactions == st.transactions
    ensures SuspenseAccountID(st, env, currency).0.nextId >= st.nextId
  {
  }

  lemma {:induction false} ApplyKeeps(st: State, env: Env, es: seq<Entry>)
    ensures ApplyEntries(st, env, es).0.transactions == st.transactions
    decreases es
  {
    if es != [] {
      ApplyKeeps(ApplyEntry(st, env, es[0]).0, env, es[1..]);
    }
  }

  lemma FinishKeeps(st: State, env: Env, tx: Transaction)
    requires tx.id !in st.transactions
    ensures Keeps(st, Finish(st, env, tx).0)
    ensures Finish(st, env, tx).1.Ok? ==> tx.id in Finish(st, env, tx).0.transactions && Finish(st, env, tx).0.transactions[tx.id] == tx
  {
  }

  /** A pair recorded successfully is stored by that call, under the next free id, and nothing stored before is lost. */
  lemma PairEvidence(st: State, env: Env, from: AccountID, to: AccountID, cmd: TransferCmd, description: string)
    requires WellFormed(st) && ValidCurrency(cmd.currency)
    ensures var (st', r) := RecordTransaction(st, env, Pair(from, to, cmd.amount, cmd.currency), description);
            && Keeps(st, st')
            && (r.Ok? ==> StoredBetween(st, st', st.nextId, DebitOf(from, cmd), CreditOf(to, cmd), description))
  {
    hide Rejection, ApplyEntries, Finish, WellFormed;
    PairEntries(from, to, cmd.amount, cmd.currency);
    FreshId(st);
    if cmd.amount != 0 {
      var tx := Transaction(st.nextId, [DebitOf(from, cmd), CreditOf(to, cmd)], description);
      ApplyKeeps(st.Draw(), env, tx.entries);
      FinishKeeps(ApplyEntries(st.Draw(), env, tx.entries).0, env, tx);
    }
  }

  /** The outward leg of this saga is stored as transaction `out`. */
  ghost predicate OutStored(st: State, st': State, out: TransactionID, s: AccountID, cmd: TransferCmd) {
    StoredBetween(st, st', out, DebitOf(cmd.from, cmd), CreditOf(s, cmd), "Transfer out: " + cmd.description)
  }

  ghost predicate InStored(st: State, st': State, id: TransactionID, s: AccountID, cmd: TransferCmd) {
    StoredBetween(st, st', id, DebitOf(s, cmd), CreditOf(cmd.to, cmd), "Transfer in: " + cmd.description)
  }

  ghost predicate BackStored(st: State, st': State, id: TransactionID, s: AccountID, cmd: TransferCmd) {
    StoredBetween(st, st', id, DebitOf(s, cmd), CreditOf(cmd.from, cmd), "Compensation: reverse debit for failed transfer: " + cmd.description)
  }

  /** The saga is about the command it was made for. */
  ghost predicate Carries(saga: Saga, cmd: TransferCmd) {
    saga.from == cmd.from && saga.to == cmd.to && saga.amount == Money(cmd.amount, cmd.currency) && saga.description == cmd.description
  }

  ghost predicate OutAndBack(st: State, st': State, cmd: TransferCmd) {
    exists out, s, back, s' :: OutStored(st, st', out, s, cmd) && BackStored(st, st', back, s', cmd) && out < back
  }

  ghost predicate OutAndIn(st: State, st': State, cmd: TransferCmd) {
    exists out, s, into, s' :: OutStored(st, st', out, s, cmd) && InStored(st, st', into, s', cmd) && out < into
  }

  /**
   A saga that ran from st to st', told from the error it answers with: its state, every step of its trail,
   its reason, which carries the same error, and the transactions that justify the steps, each stored by
   this very call, with the leg's own description, the later one under the larger id.
   */
  ghost predicate Justified(saga: Saga, failure: Option<Failure>, st: State, st': State, cmd: TransferCmd) {
    && Carries(saga, cmd)
    && match failure
       case None =>
         && saga.state == Completed && saga.failReason == NoReason && OutAndIn(st, st', cmd)
         && saga.steps == [SagaStep("transfer.initiated", Initiated), SagaStep("source.debited", Debited),
                           SagaStep("destination.credited", Completed)]
       case Some(DebitStep(e)) =>
         && saga.state == Failed && saga.failReason == DebitFailed(e)
         && saga.steps == [SagaStep("transfer.initiated", Initiated), SagaStep("transfer.failed", Failed)]
       case Some(CreditReversed(e)) =>
         && saga.state == Compensated && saga.failReason == CreditFailed(e) && OutAndBack(st, st', cmd)
         && saga.steps == [SagaStep("transfer.initiated", Initiated), SagaStep("source.debited", Debited),
                           SagaStep("transfer.failed", Failed), SagaStep("debit.reversed", Compensated)]
       case Some(Critical(e, _)) =>
         && saga.state == Failed && saga.failReason == CreditFailed(e) && (exists out, s :: OutStored(st, st', out, s, cmd))
         && saga.steps == [SagaStep("transfer.initiated", Initiated), SagaStep("source.debited", Debited), SagaStep("transfer.failed", Failed)]
       case Some(_) => false
  }

  lemma StillStored(st: State, st1: State, st2: State, id: TransactionID, d: Entry, c: Entry, description: string)
    requires StoredBetween(st, st1, id, d, c, description) && Keeps(st1, st2)
    ensures StoredBetween(st, st2, id, d, c, description)
  {
  }

  /** What a later call of the same saga stores comes after what it stored before. */
  lemma StoredLater(st: State, st1: State, st2: State, out: TransactionID, d: Entry, c: Entry, description: string)
    requires WellFormed(st) && WellFormed(st1)
    requires st.nextId <= out && out in st1.transactions
    requires StoredBetween(st1, st2, st1.nextId, d, c, description)
    ensures StoredBetween(st, st2, st1.nextId, d, c, description) && out < st1.nextId
  {
  }

  /** A saga after its outward leg, and after the failure of the inward one. */
  ghost predicate AtDebited(saga: Saga, cmd: TransferCmd) {
    && Carries(saga, cmd) && saga.state == Debited && saga.failReason == NoReason
    && saga.steps == [SagaStep("transfer.initiated", Initiated), SagaStep("source.debited", Debited)]
  }

  ghost predicate AtFailed(saga: Saga, cmd: TransferCmd, e: Error) {
    && Carries(saga, cmd) && saga.state == Failed && saga.failReason == CreditFailed(e)
    && saga.steps == [SagaStep("transfer.initiated", Initiated), SagaStep("source.debited", Debited), SagaStep("transfer.failed", Failed)]
  }

  lemma CompensateTrail(st0: State, st: State, env: Env, cmd: TransferCmd, saga: Saga, error: Error, out: TransactionID, s0: AccountID)
    requires WellFormed(st0) && WellFormed(st) && ValidCurrency(cmd.currency)
    requires AtFailed(saga, cmd, error) && OutStored(st0, st, out, s0, cmd)
    ensures var (st', outcome) := Compensate(st, env, cmd, saga, error);
            outcome.saga.Some? && Justified(outcome.saga.value, outcome.failure, st0, st', cmd)
  {
    hide RecordTransaction, SuspenseAccountID, WellFormed, Pair, StoredBetween, Keeps;
    var (st1, s) := SuspenseAccountID(st, env, cmd.currency);
    SuspenseWellFormed(st, env, cmd.currency);
    var (st', r) := RecordTransaction(st1, env, Pair(s, cmd.from, cmd.amount, cmd.currency), COMPENSATION + cmd.description);
    PairEvidence(st1, env, s, cmd.from, cmd, COMPENSATION + cmd.description);
    KeepsBoth(st, st1, st');
    StillStored(st0, st, st', out, DebitOf(cmd.from, cmd), CreditOf(s0, cmd), "Transfer out: " + cmd.description);
    assert OutStored(st0, st', out, s0, cmd);
    if r.Ok? {
      StoredHere(st0, st, st1, out, s0, cmd);
      StoredLater(st0, st1, st', out, DebitOf(s, cmd), CreditOf(cmd.from, cmd), COMPENSATION + cmd.description);
      assert BackStored(st0, st', st1.nextId, s, cmd);
    }
  }

  lemma StoredHere(st0: State, st: State, st1: State, out: TransactionID, s0: AccountID, cmd: TransferCmd)
    requires OutStored(st0, st, out, s0, cmd) && Keeps(st, st1)
    ensures st0.nextId <= out && out in st1.transactions
  {
  }

  lemma SuspenseWellFormed(st: State, env: Env, currency: Currency)
    requires WellFormed(st)
    ensures WellFormed(SuspenseAccountID(st, env, currency).0)
    ensures Keeps(st, SuspenseAccountID(st, env, currency).0)
    ensures SuspenseAccountID(st, env, currency).0.audit == st.audit
  {
    hide Traces, LookupMoments;
    LookupTraces(st, env, SuspenseName(currency), "LIABILITY", currency, true);
    LookupKeeps(st, env, currency);
  }

  lemma KeepsBoth(st: State, st1: State, st2: State)
    requires Keeps(st, st1) && Keeps(st1, st2)
    ensures Keeps(st, st2)
  {
  }

  lemma InwardTrail(st0: State, st: State, env: Env, cmd: TransferCmd, saga: Saga, out: TransactionID, s0: AccountID)
    requires WellFormed(st0) && WellFormed(st) && ValidCurrency(cmd.currency) && st.audit.pending == []
    requires AtDebited(saga, cmd) && OutStored(st0, st, out, s0, cmd)
    ensures var (st', outcome) := CreditDestination(st, env, cmd, saga);
            outcome.saga.Some? && Justified(outcome.saga.value, outcome.failure, st0, st', cmd)
  {
    hide RecordTransaction, SuspenseAccountID, WellFormed, Pair, StoredBetween, Keeps, Compensate, Traces, RecordMoments;
    var (st1, s) := SuspenseAccountID(st, env, cmd.currency);
    SuspenseWellFormed(st, env, cmd.currency);
    var pair := Pair(s, cmd.to, cmd.amount, cmd.currency);
    var (st2, r) := RecordTransaction(st1, env, pair, "Transfer in: " + cmd.description);
    PairEvidence(st1, env, s, cmd.to, cmd, "Transfer in: " + cmd.description);
    KeepsBoth(st, st1, st2);
    StillStored(st0, st, st2, out, DebitOf(cmd.from, cmd), CreditOf(s0, cmd), "Transfer out: " + cmd.description);
    if r.Err? {
      RecordTraces(st1, env, pair, "Transfer in: " + cmd.description);
      CompensateTrail(st0, st2, env, cmd, MarkFailed(saga, CreditFailed(r.error)), r.error, out, s0);
    } else {
      StoredHere(st0, st, st1, out, s0, cmd);
      StoredLater(st0, st1, st2, out, DebitOf(s, cmd), CreditOf(cmd.to, cmd), "Transfer in: " + cmd.description);
      assert OutStored(st0, st2, out, s0, cmd) && InStored(st0, st2, st1.nextId, s, cmd);
    }
  }

  /**
   Under every fault pattern: an unknown currency and a transfer to oneself are refused with that error and
   no saga; otherwise there is a saga, and the error it answers with tells its state, its whole trail and
   its reason. DEBITED is backed by its debit of the source, COMPLETED by its later credit of the
   destination, COMPENSATED by its later credit back to the source.
   */
  lemma AuditTrailIsJustified(st: State, env: Env, cmd: TransferCmd)
    requires WellFormed(st) && st.audit.pending == []
    ensures var (st', outcome) := Execute(st, env, cmd);
            if cmd.currency !in {"USD", "MYR", "SGD", "EUR", "GBP"} then outcome == Outcome(None, Some(Invalid(InvalidCurrency))) && st' == st
            else if cmd.from == cmd.to then outcome == Outcome(None, Some(Invalid(SameAccount))) && st' == st
            else outcome.saga.Some? && Justified(outcome.saga.value, outcome.failure, st, st', cmd)
  {
    hide RecordTransaction, SuspenseAccountID, WellFormed, Pair, StoredBetween, Keeps, CreditDestination, Traces, RecordMoments;
    if ValidCurrency(cmd.currency) && cmd.from != cmd.to {
      var saga := NewSaga(cmd.from, cmd.to, Money(cmd.amount, cmd.currency), cmd.description).value;
      var (st1, s) := SuspenseAccountID(st, env, cmd.currency);
      SuspenseWellFormed(st, env, cmd.currency);
      var pair := Pair(cmd.from, s, cmd.amount, cmd.currency);
      var (st2, r) := RecordTransaction(st1, env, pair, "Transfer out: " + cmd.description);
      PairEvidence(st1, env, cmd.from, s, cmd, "Transfer out: " + cmd.description);
      if r.Ok? {
        RecordTraces(st1, env, pair, "Transfer out: " + cmd.description);
        LookupKeeps(st, env, cmd.currency);
        FirstLegStored(st, st1, st2, s, cmd);
        InwardTrail(st, st2, env, cmd, MarkDebited(saga).value, st1.nextId, s);
      }
    }
  }

  lemma FirstLegStored(st: State, st1: State, st2: State, s: AccountID, cmd: TransferCmd)
    requires st1.transactions == st.transactions && st.nextId <= st1.nextId
    requires StoredBetween(st1, st2, st1.nextId, DebitOf(cmd.from, cmd), CreditOf(s, cmd), "Transfer out: " + cmd.description)
    ensures OutStored(st, st2, st1.nextId, s, cmd)
  {
  }
}
