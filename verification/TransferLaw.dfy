/**
 What a transfer does to the money. A saga that is lawful fails without moving anything, completes by
 moving the amount from source to destination, or is compensated with the amount missing from the
 suspense account. This module proves exactly when fault-free transfers are lawful, which of the three
 ends they reach, and when they conserve the total.
 */
module TransferLaw {
  import opened Results
  import opened Money
  import opened Accounts
  import opened Transactions
  import opened Transfers
  import opened Posting
  import opened SagaPlan

  // ---------------------------------------------------------------- conditions a caller can check

  /** The source exists and takes the debit. */
  predicate SourcePays(m: Table, cmd: TransferCmd) {
    Accepts(m, DebitOf(cmd.from, cmd))
  }

  /** The destination exists, is active and has the currency. */
  predicate DestinationOpen(m: Table, cmd: TransferCmd) {
    Usable(m, CreditOf(cmd.to, cmd))
  }

  predicate SuspenseOpen(m: Table, s: AccountID, cmd: TransferCmd) {
    Usable(m, CreditOf(s, cmd))
  }

  /** The suspense balance once the source has paid in and the first debit has taken it out again. */
  function Reserve(m: Table, s: AccountID, cmd: TransferCmd): int {
    BalanceIn(m, s) - if cmd.from == s then cmd.amount else 0
  }

  /** The suspense account may go negative, or the given balance is not negative. */
  predicate Covers(m: Table, s: AccountID, balance: int) {
    s in m && (AllowsNegativeBalance(m[s]) || Wrap(balance) >= 0)
  }

  /** Active, in the right currency, and allowed to go negative. */
  predicate Healthy(m: Table, s: AccountID, cmd: TransferCmd) {
    s in m && m[s].status.Active? && m[s].currency == cmd.currency && AllowsNegativeBalance(m[s])
  }

  /** The suspense account can carry this transfer. */
  predicate SuspenseFits(m: Table, s: AccountID, cmd: TransferCmd) {
    || !SourcePays(m, cmd)
    || (&& SuspenseOpen(m, s, cmd) && Covers(m, s, Reserve(m, s, cmd))
        && (DestinationOpen(m, cmd) || Covers(m, s, Reserve(m, s, cmd) - cmd.amount)))
  }

  // ---------------------------------------------------------------- the plan, case by case

  lemma NextAccepted(m: Table, done: seq<Entry>, e: Entry)
    requires CoherentTable(m) && AllAccepted(m, done)
    ensures AllAccepted(m, done + [e]) <==>
              Usable(m, e) && (Guarded(m, e) ==> Wrap(BalanceIn(m, e.account) + AccountSum(done, e.account) + Signed(e)) >= 0)
  {
    var es := done + [e];
    assert es[..|done|] == done && es[..|done| + 1] == es;
    LastAcceptedIff(m, es);
    PushAccount(done, e, e.account);
  }

  /** Entries of the saga posted so far: out, into suspense, out of suspense, and on or back. */
  function Out(s: AccountID, cmd: TransferCmd): seq<Entry> {
    [] + [DebitOf(cmd.from, cmd)] + [CreditOf(s, cmd)]
  }

  function Halfway(s: AccountID, cmd: TransferCmd): seq<Entry> {
    Out(s, cmd) + [DebitOf(s, cmd)]
  }

  function Forward(s: AccountID, cmd: TransferCmd): seq<Entry> {
    Halfway(s, cmd) + [CreditOf(cmd.to, cmd)]
  }

  function Backward(s: AccountID, cmd: TransferCmd): seq<Entry> {
    Halfway(s, cmd) + [DebitOf(s, cmd)] + [CreditOf(cmd.from, cmd)]
  }

  function At(a: AccountID, b: AccountID, amount: int): int {
    if a == b then amount else 0
  }

  lemma SagaSums(s: AccountID, cmd: TransferCmd, a: AccountID)
    ensures AccountSum([] + [DebitOf(cmd.from, cmd)], a) == 0 - At(a, cmd.from, cmd.amount)
    ensures AccountSum(Out(s, cmd), a) == At(a, s, cmd.amount) - At(a, cmd.from, cmd.amount)
    ensures AccountSum(Halfway(s, cmd), a) == 0 - At(a, cmd.from, cmd.amount)
    ensures AccountSum(Forward(s, cmd), a) == At(a, cmd.to, cmd.amount) - At(a, cmd.from, cmd.amount)
    ensures AccountSum(Halfway(s, cmd) + [DebitOf(s, cmd)], a) == 0 - At(a, cmd.from, cmd.amount) - At(a, s, cmd.amount)
    ensures AccountSum(Backward(s, cmd), a) == 0 - At(a, s, cmd.amount)
  {
    PushAccount([], DebitOf(cmd.from, cmd), a);
    PushAccount([] + [DebitOf(cmd.from, cmd)], CreditOf(s, cmd), a);
    PushAccount(Out(s, cmd), DebitOf(s, cmd), a);
    PushAccount(Halfway(s, cmd), CreditOf(cmd.to, cmd), a);
    PushAccount(Halfway(s, cmd), DebitOf(s, cmd), a);
    PushAccount(Halfway(s, cmd) + [DebitOf(s, cmd)], CreditOf(cmd.from, cmd), a);
  }

  /** Where the plan goes once source and suspense account have taken the first leg. */
  lemma InwardCases(m: Table, s: AccountID, cmd: TransferCmd)
    requires CoherentTable(m) && SourcePays(m, cmd) && SuspenseOpen(m, s, cmd) && AllAccepted(m, Out(s, cmd))
    ensures var d := DebitOf(s, cmd);
            var plan := PlanInward(m, s, s, Out(s, cmd), cmd);
            if !Covers(m, s, Reserve(m, s, cmd)) then plan == Plan(Out(s, cmd), Failed, [[], []], Some(Critical(InsufficientFunds, InsufficientFunds)))
            else if DestinationOpen(m, cmd) then plan == Plan(Forward(s, cmd), Completed, [], None)
            else if !Covers(m, s, Reserve(m, s, cmd) - cmd.amount) then plan == Plan(Halfway(s, cmd), Failed, [[d], []], Some(Critical(Refusal(m, CreditOf(cmd.to, cmd)), InsufficientFunds)))
            else plan == Plan(Backward(s, cmd), Compensated, [[d]], Some(CreditReversed(Refusal(m, CreditOf(cmd.to, cmd)))))
  {
    hide AllAccepted, PostAll, AccountSum, Accepts, CoherentTable;
    SagaSums(s, cmd, s);
    NextAccepted(m, Out(s, cmd), DebitOf(s, cmd));
    if Covers(m, s, Reserve(m, s, cmd)) {
      assert AllAccepted(m, Halfway(s, cmd));
      NextAccepted(m, Halfway(s, cmd), CreditOf(cmd.to, cmd));
      NextAccepted(m, Halfway(s, cmd), DebitOf(s, cmd));
      if Covers(m, s, Reserve(m, s, cmd) - cmd.amount) {
        NextAccepted(m, Halfway(s, cmd) + [DebitOf(s, cmd)], CreditOf(cmd.from, cmd));
        AcceptsIff(m, DebitOf(cmd.from, cmd));
      }
    }
  }

  lemma PlanCases(m: Table, s: AccountID, cmd: TransferCmd)
    requires CoherentTable(m)
    ensures var plan := PlanTransfer(m, s, cmd);
            if !SourcePays(m, cmd) then plan == Plan([], Failed, [[]], Some(DebitStep(Refusal(m, DebitOf(cmd.from, cmd)))))
            else if !SuspenseOpen(m, s, cmd) then plan == Plan([] + [DebitOf(cmd.from, cmd)], Failed, [[DebitOf(cmd.from, cmd)]], Some(DebitStep(Refusal(m, CreditOf(s, cmd)))))
            else AllAccepted(m, Out(s, cmd)) && plan == PlanInward(m, s, s, Out(s, cmd), cmd)
  {
    AcceptNext(m, [], DebitOf(cmd.from, cmd));
    if SourcePays(m, cmd) {
      NextAccepted(m, [] + [DebitOf(cmd.from, cmd)], CreditOf(s, cmd));
    }
  }

  // ---------------------------------------------------------------- the law

  ghost predicate Unmoved(m: Table, m': Table) {
    forall a: AccountID :: BalanceIn(m', a) == BalanceIn(m, a)
  }

  ghost predicate Moved(m: Table, m': Table, cmd: TransferCmd) {
    forall a: AccountID :: BalanceIn(m', a) == Wrap(BalanceIn(m, a) + At(a, cmd.to, cmd.amount) - At(a, cmd.from, cmd.amount))
  }

  ghost predicate ShortBy(m: Table, m': Table, s: AccountID, amount: int64) {
    forall a: AccountID :: BalanceIn(m', a) == Wrap(BalanceIn(m, a) - At(a, s, amount))
  }

  /** FAILED moves nothing; COMPLETED moves the amount; COMPENSATED leaves only suspense short by it. */
  ghost predicate Lawful(m: Table, m': Table, state: SagaState, s: AccountID, cmd: TransferCmd) {
    match state
    case Failed => Unmoved(m, m')
    case Completed => Moved(m, m', cmd)
    case Compensated => ShortBy(m, m', s, cmd.amount)
    case _ => false
  }

  lemma ForwardMoves(m: Table, s: AccountID, cmd: TransferCmd)
    requires CoherentTable(m) && AllAccepted(m, Forward(s, cmd))
    ensures Moved(m, PostAll(m, Forward(s, cmd)), cmd)
  {
    forall a: AccountID
      ensures BalanceIn(PostAll(m, Forward(s, cmd)), a) == Wrap(BalanceIn(m, a) + At(a, cmd.to, cmd.amount) - At(a, cmd.from, cmd.amount))
    {
      PostAllBalance(m, Forward(s, cmd), a);
      SagaSums(s, cmd, a);
    }
  }

  lemma BackwardShorts(m: Table, s: AccountID, cmd: TransferCmd)
    requires CoherentTable(m) && AllAccepted(m, Backward(s, cmd))
    ensures ShortBy(m, PostAll(m, Backward(s, cmd)), s, cmd.amount)
  {
    forall a: AccountID ensures BalanceIn(PostAll(m, Backward(s, cmd)), a) == Wrap(BalanceIn(m, a) - At(a, s, cmd.amount)) {
      PostAllBalance(m, Backward(s, cmd), a);
      SagaSums(s, cmd, a);
    }
  }

  /** A list that takes the amount from the source, net, does move something. */
  lemma SourceChanged(m: Table, es: seq<Entry>, cmd: TransferCmd)
    requires CoherentTable(m) && AllAccepted(m, es) && cmd.amount != 0
    requires AccountSum(es, cmd.from) == 0 - cmd.amount
    ensures !Unmoved(m, PostAll(m, es))
  {
    PostAllBalance(m, es, cmd.from);
    WrapCongruent(BalanceIn(m, cmd.from) - cmd.amount, BalanceIn(m, cmd.from));
  }

  lemma InwardLawful(m: Table, s: AccountID, cmd: TransferCmd)
    requires CoherentTable(m) && s in m && cmd.from != cmd.to && cmd.amount != 0
    requires SourcePays(m, cmd) && SuspenseOpen(m, s, cmd) && AllAccepted(m, Out(s, cmd))
    ensures var plan := PlanInward(m, s, s, Out(s, cmd), cmd);
            Lawful(m, PostAll(m, plan.posted), plan.state, s, cmd) <==> SuspenseFits(m, s, cmd)
  {
    hide PlanInward, AllAccepted, PostAll, Unmoved, Moved, ShortBy, Forward, Backward, Halfway, Out;
    InwardCases(m, s, cmd);
    SagaSums(s, cmd, cmd.from);
    if !Covers(m, s, Reserve(m, s, cmd)) {
      assert cmd.from != s by {
        AcceptsIff(m, DebitOf(cmd.from, cmd));
      }
      SourceChanged(m, Out(s, cmd), cmd);
    } else if DestinationOpen(m, cmd) {
      ForwardMoves(m, s, cmd);
    } else if !Covers(m, s, Reserve(m, s, cmd) - cmd.amount) {
      SourceChanged(m, Halfway(s, cmd), cmd);
    } else {
      BackwardShorts(m, s, cmd);
    }
  }

  lemma NothingPosted(m: Table)
    ensures AllAccepted(m, []) && Unmoved(m, PostAll(m, []))
  {
  }

  /**
   The law, exactly: on every table of accounts and for every amount, wrapping included, a fault-free
   saga is lawful if and only if its suspense account fits the transfer.
   */
  lemma LawfulIffSuspenseFits(m: Table, s: AccountID, cmd: TransferCmd)
    requires CoherentTable(m) && s in m && cmd.from != cmd.to && cmd.amount != 0
    ensures var plan := PlanTransfer(m, s, cmd);
            Lawful(m, PostAll(m, plan.posted), plan.state, s, cmd) <==> SuspenseFits(m, s, cmd)
  {
    hide PlanTransfer, PlanInward, Out, AllAccepted, PostAll, Unmoved, Moved, ShortBy, Accepts, Covers, AccountSum, CoherentTable;
    PlanCases(m, s, cmd);
    if !SourcePays(m, cmd) {
      NothingPosted(m);
    } else if !SuspenseOpen(m, s, cmd) {
      SagaSums(s, cmd, cmd.from);
      SourceChanged(m, [] + [DebitOf(cmd.from, cmd)], cmd);
    } else {
      InwardLawful(m, s, cmd);
    }
  }

  /** With a healthy suspense account the three ends are decided by the source and the destination alone. */
  lemma HealthyOutcome(m: Table, s: AccountID, cmd: TransferCmd)
    requires CoherentTable(m) && cmd.from != cmd.to && cmd.amount != 0 && Healthy(m, s, cmd)
    ensures var plan := PlanTransfer(m, s, cmd);
            if !SourcePays(m, cmd) then plan == Plan([], Failed, [[]], Some(DebitStep(Refusal(m, DebitOf(cmd.from, cmd)))))
            else if DestinationOpen(m, cmd) then plan == Plan(Forward(s, cmd), Completed, [], None)
            else plan == Plan(Backward(s, cmd), Compensated, [[DebitOf(s, cmd)]], Some(CreditReversed(Refusal(m, CreditOf(cmd.to, cmd)))))
  {
    PlanCases(m, s, cmd);
    if SourcePays(m, cmd) {
      InwardCases(m, s, cmd);
    }
  }

  // ---------------------------------------------------------------- several accounts of the reserved name

  /** What a completed saga posts when the second lookup may return another account than the first. */
  function ForwardVia(s1: AccountID, s2: AccountID, cmd: TransferCmd): seq<Entry> {
    Out(s1, cmd) + [DebitOf(s2, cmd)] + [CreditOf(cmd.to, cmd)]
  }

  lemma ForwardViaSum(s1: AccountID, s2: AccountID, cmd: TransferCmd, a: AccountID)
    ensures AccountSum(ForwardVia(s1, s2, cmd), a)
         == At(a, cmd.to, cmd.amount) - At(a, cmd.from, cmd.amount) + At(a, s1, cmd.amount) - At(a, s2, cmd.amount)
  {
    SagaSums(s1, cmd, a);
    PushAccount(Out(s1, cmd), DebitOf(s2, cmd), a);
    PushAccount(Out(s1, cmd) + [DebitOf(s2, cmd)], CreditOf(cmd.to, cmd), a);
  }

  lemma CompletedPosts(m: Table, s1: AccountID, s2: AccountID, s3: AccountID, cmd: TransferCmd)
    requires PlanVia(m, s1, s2, s3, cmd).state.Completed?
    ensures PlanVia(m, s1, s2, s3, cmd).posted == ForwardVia(s1, s2, cmd)
  {
    hide AllAccepted;
  }

  /**
   If clients have opened several accounts under the reserved name, a completed transfer moves the amount
   from source to destination and nothing else if and only if both lookups gave the same account.
   */
  lemma CompletedLawfulIff(m: Table, s1: AccountID, s2: AccountID, s3: AccountID, cmd: TransferCmd)
    requires CoherentTable(m) && cmd.amount != 0 && PlanVia(m, s1, s2, s3, cmd).state.Completed?
    ensures Moved(m, PostAll(m, PlanVia(m, s1, s2, s3, cmd).posted), cmd) <==> s1 == s2
  {
    hide PlanVia, AllAccepted, PostAll, AccountSum, CoherentTable, ForwardVia, BalanceIn, Wrap;
    CompletedPosts(m, s1, s2, s3, cmd);
    var es := ForwardVia(s1, s2, cmd);
    forall a: AccountID
      ensures BalanceIn(PostAll(m, es), a) == Wrap(BalanceIn(m, a) + At(a, cmd.to, cmd.amount) - At(a, cmd.from, cmd.amount))
         <==> At(a, s1, cmd.amount) == At(a, s2, cmd.amount)
    {
      PostAllBalance(m, es, a);
      ForwardViaSum(s1, s2, cmd, a);
      var moved := BalanceIn(m, a) + At(a, cmd.to, cmd.amount) - At(a, cmd.from, cmd.amount);
      WrapCongruent(moved + (At(a, s1, cmd.amount) - At(a, s2, cmd.amount)), moved);
    }
    assert At(s1, s1, cmd.amount) == cmd.amount;
  }
}
