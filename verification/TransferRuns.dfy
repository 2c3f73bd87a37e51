/** The transfer service seen from outside: after any run, and under any faults. */
module TransferRuns {
  import opened Results
  import opened Money
  import opened Accounts
  import opened Transactions
  import opened Ledger
  import opened Transfers
  import opened Steps
  import opened Commands
  import opened Moments
  import opened Posting
  import opened SagaPlan
  import opened AuditTrail
  import opened RecordLaw
  import opened SystemAccounts
  import opened TransferLaw
  import opened Books

  // ---------------------------------------------------------------- fault-free transfers

  lemma ReadyBalances(st: State, c: Currency, a: AccountID)
    requires WellFormed(st)
    ensures BalanceIn(Ready(st, c), a) == Balance(st, a)
  {
  }

  lemma ReadyIsHealthy(st: State, cmd: TransferCmd)
    requires WellFormed(st) && SuspenseSound(st.accounts, cmd.currency)
    ensures Healthy(Ready(st, cmd.currency), SuspenseId(st, cmd.currency), cmd)
  {
    NamesDiffer(SuspenseRole, cmd.currency, SuspenseRole, cmd.currency);
  }

  /** A zero amount is refused before anything moves. */
  lemma ZeroAmountFails(st: State, env: Env, cmd: TransferCmd)
    requires FaultFree(env) && ValidEnv(env) && WellFormed(st)
    requires AtMostOneNamed(st.accounts, SuspenseName(cmd.currency))
    requires ValidCurrency(cmd.currency) && cmd.from != cmd.to && cmd.amount == 0
    ensures var (st', out) := Execute(st, env, cmd);
            && st'.accounts == Ready(st, cmd.currency) && st'.audit == st.audit
            && out.saga.Some? && out.saga.value.state == Failed
            && out.failure == Some(DebitStep(ZeroAmount))
  {
    hide SuspenseAccountID, WellFormed, Ready, SuspenseId, CreditDestination;
    SuspenseResolves(st, env, cmd.currency);
    PairEntries(cmd.from, SuspenseId(st, cmd.currency), cmd.amount, cmd.currency);
  }

  /** How a transfer ends, on the balances of st and st'. */
  ghost predicate EndsBy(st: State, st': State, state: SagaState, cmd: TransferCmd) {
    var m, s := Ready(st, cmd.currency), SuspenseId(st, cmd.currency);
    if !SourcePays(m, cmd) then
      state == Failed && forall a: AccountID :: Balance(st', a) == Balance(st, a)
    else if DestinationOpen(m, cmd) then
      state == Completed && forall a: AccountID ::
        Balance(st', a) == Wrap(Balance(st, a) + At(a, cmd.to, cmd.amount) - At(a, cmd.from, cmd.amount))
    else
      state == Compensated && forall a: AccountID ::
        Balance(st', a) == Wrap(Balance(st, a) - At(a, s, cmd.amount))
  }

  /** The error a transfer answers with, told from the accounts alone; none if it completes. */
  function Told(m: Table, cmd: TransferCmd): Option<Failure> {
    if cmd.amount == 0 then Some(DebitStep(ZeroAmount))
    else if !SourcePays(m, cmd) then Some(DebitStep(Refusal(m, DebitOf(cmd.from, cmd))))
    else if !DestinationOpen(m, cmd) then Some(CreditReversed(Refusal(m, CreditOf(cmd.to, cmd))))
    else None
  }

  lemma PlanEnds(st: State, st': State, cmd: TransferCmd)
    requires WellFormed(st) && cmd.from != cmd.to && cmd.amount != 0
    requires var m, s := Ready(st, cmd.currency), SuspenseId(st, cmd.currency);
             CoherentTable(m) && Healthy(m, s, cmd) && st'.accounts == PostAll(m, PlanTransfer(m, s, cmd).posted)
    ensures EndsBy(st, st', PlanTransfer(Ready(st, cmd.currency), SuspenseId(st, cmd.currency), cmd).state, cmd)
  {
    hide PlanTransfer, Ready, SuspenseId, Forward, Backward, Healthy, SourcePays, DestinationOpen, WellFormed;
    var m, s := Ready(st, cmd.currency), SuspenseId(st, cmd.currency);
    HealthyOutcome(m, s, cmd);
    forall a: AccountID ensures BalanceIn(m, a) == Balance(st, a) && BalanceIn(st'.accounts, a) == Balance(st', a) {
      ReadyBalances(st, cmd.currency, a);
    }
    if !SourcePays(m, cmd) {
      assert PostAll(m, []) == m;
    } else if DestinationOpen(m, cmd) {
      ForwardMoves(m, s, cmd);
    } else {
      BackwardShorts(m, s, cmd);
    }
  }

  /** With a sound suspense account, a fault-free transfer ends in exactly one of three ways, and says which and why. */
  lemma TransferEnds(st: State, env: Env, cmd: TransferCmd)
    requires FaultFree(env) && ValidEnv(env) && WellFormed(st) && st.audit.pending == []
    requires SuspenseSound(st.accounts, cmd.currency)
    requires ValidCurrency(cmd.currency) && cmd.from != cmd.to
    ensures var (st', out) := Execute(st, env, cmd);
            && out.saga.Some? && EndsBy(st, st', out.saga.value.state, cmd)
            && out.failure == Told(Ready(st, cmd.currency), cmd)
  {
    hide WellFormed, Execute, Ready, SuspenseId, PlanTransfer, Healthy;
    var m, s := Ready(st, cmd.currency), SuspenseId(st, cmd.currency);
    ReadyIsHealthy(st, cmd);
    if cmd.amount == 0 {
      ZeroAmountFails(st, env, cmd);
      forall a: AccountID ensures BalanceIn(m, a) == Balance(st, a) {
        ReadyBalances(st, cmd.currency, a);
      }
    } else {
      ExecuteFollowsOnePlan(st, env, cmd);
      HealthyOutcome(m, s, cmd);
      PlanEnds(st, Execute(st, env, cmd).0, cmd);
    }
  }

  /** On any table, and with any suspense account, the saga is lawful exactly when that account fits. */
  lemma ExecuteLawfulIff(st: State, env: Env, cmd: TransferCmd)
    requires FaultFree(env) && ValidEnv(env) && WellFormed(st) && st.audit.pending == []
    requires AtMostOneNamed(st.accounts, SuspenseName(cmd.currency))
    requires ValidCurrency(cmd.currency) && cmd.from != cmd.to && cmd.amount != 0
    ensures var (st', out) := Execute(st, env, cmd);
            var m, s := Ready(st, cmd.currency), SuspenseId(st, cmd.currency);
            && out.saga.Some?
            && (Lawful(m, st'.accounts, out.saga.value.state, s, cmd) <==> SuspenseFits(m, s, cmd))
  {
    hide Execute, WellFormed, PlanTransfer, Lawful, SuspenseFits;
    ExecuteFollowsOnePlan(st, env, cmd);
    LawfulIffSuspenseFits(Ready(st, cmd.currency), SuspenseId(st, cmd.currency), cmd);
  }

  // ---------------------------------------------------------------- after any run

  lemma DriftAfter(st: State, st': State, left: seq<seq<Entry>>, c: Currency)
    requires st.audit.pending == [] && st'.audit.pending == []
    requires st'.audit.stranded == st.audit.stranded + left && |left| <= 1
    ensures Drift(st', c) == Drift(st, c) + if left == [] then 0 else CurrencySum(left[0], c)
  {
    if |left| == 1 {
      assert (st.audit.stranded + left)[..|st.audit.stranded|] == st.audit.stranded;
    } else {
      assert st.audit.stranded + left == st.audit.stranded;
    }
  }

  /** The prefix a plan strands, if any, is the debit of suspense that a compensated transfer leaves behind. */
  lemma PlanDrift(st: State, st': State, plan: Plan, s: AccountID, cmd: TransferCmd, c: Currency)
    requires st.audit.pending == [] && st'.audit.pending == [] && st'.audit.stranded == st.audit.stranded + plan.left
    requires plan.state.Compensated? ==> plan.left == [[DebitOf(s, cmd)]]
    requires !plan.state.Compensated? ==> plan.left == [] || plan.left == [[]]
    ensures Drift(st', c) == Drift(st, c) - if plan.state.Compensated? && c == cmd.currency then cmd.amount else 0
  {
    hide Drift;
    DriftAfter(st, st', plan.left, c);
    PushCurrency([], DebitOf(s, cmd), c);
    assert [] + [DebitOf(s, cmd)] == [DebitOf(s, cmd)];
  }

  lemma ZeroDrift(st: State, env: Env, cmd: TransferCmd, c: Currency)
    requires FaultFree(env) && ValidEnv(env) && WellFormed(st) && st.audit.pending == []
    requires SuspenseSound(st.accounts, cmd.currency) && ValidCurrency(cmd.currency) && cmd.from != cmd.to && cmd.amount == 0
    ensures var (st', out) := Execute(st, env, cmd);
            out.saga.Some? && out.saga.value.state == Failed && Drift(st', c) == Drift(st, c)
  {
    hide Execute, WellFormed, Ready, Drift, ValidEnv, FaultFree;
    ZeroAmountFails(st, env, cmd);
    var st' := Execute(st, env, cmd).0;
    assert st.audit.stranded + [] == st.audit.stranded;
    DriftAfter(st, st', [], c);
  }

  /** Only a compensated transfer leaves a non-empty prefix behind: the debit of suspense. */
  lemma TransferDrift(st: State, env: Env, cmd: TransferCmd, c: Currency)
    requires FaultFree(env) && ValidEnv(env) && WellFormed(st) && st.audit.pending == []
    requires SuspenseSound(st.accounts, cmd.currency)
    requires ValidCurrency(cmd.currency) && cmd.from != cmd.to
    ensures var (st', out) := Execute(st, env, cmd);
            && out.saga.Some?
            && Drift(st', c) == Drift(st, c) - if out.saga.value.state == Compensated && c == cmd.currency then cmd.amount else 0
  {
    hide Execute, WellFormed, Ready, SuspenseId, PlanTransfer, Healthy, Drift, CommandMoments, Traces, ValidEnv, FaultFree;
    hide SourcePays, DestinationOpen, PostAll, AllAccepted, CoherentTable, IsSuspense, SuspenseSound, Forward, Backward;
    if cmd.amount == 0 {
      ZeroDrift(st, env, cmd, c);
    } else {
      var m, s := Ready(st, cmd.currency), SuspenseId(st, cmd.currency);
      ReadyIsHealthy(st, cmd);
      assert AtMostOneNamed(st.accounts, SuspenseName(cmd.currency)) by { SoundIsUnique(st.accounts, cmd.currency); }
      ExecuteFollowsOnePlan(st, env, cmd);
      HealthyOutcome(m, s, cmd);
      CommandTraces(st, env, MoveCmd(cmd));
      PlanDrift(st, Execute(st, env, cmd).0, PlanTransfer(m, s, cmd), s, cmd, c);
    }
  }

  lemma SoundIsUnique(m: Table, c: Currency)
    requires SuspenseSound(m, c)
    ensures AtMostOneNamed(m, SuspenseName(c))
  {
    NamesDiffer(SuspenseRole, c, SuspenseRole, c);
  }

  lemma ExecuteKeepsSound(st: State, env: Env, cmd: TransferCmd)
    requires Sound(st) && st.audit.pending == []
    ensures Sound(Execute(st, env, cmd).0)
  {
    hide Sound, Execute, WellFormed, Traces, CommandMoments;
    SoundIsWellFormed(st);
    CommandTraces(st, env, MoveCmd(cmd));
    TracesAreSound(st, CommandMoments(st, env, MoveCmd(cmd)), Execute(st, env, cmd).0, 6 * Abs(cmd.amount), cmd.amount > 0);
  }

  lemma SoundTotal(st: State, c: Currency)
    requires Sound(st)
    ensures Wrap(WriteTotal(st, c)) == Wrap(Drift(st, c))
  {
    hide WellFormed, WriteTotal, Drift, OverdraftOK;
    assert TotalOK(st, c);
  }

  /** The debit can be taken from the source, and the destination cannot take the credit. */
  predicate Undeliverable(m: Table, cmd: TransferCmd) {
    SourcePays(m, cmd) && !DestinationOpen(m, cmd)
  }

  lemma CompensatedIffUndeliverable(st: State, st': State, state: SagaState, cmd: TransferCmd)
    requires EndsBy(st, st', state, cmd)
    ensures state == Compensated <==> Undeliverable(Ready(st, cmd.currency), cmd)
  {
    hide SourcePays, DestinationOpen, Ready, Balance;
  }

  /** A source never pays a zero amount. */
  lemma PaysSomething(m: Table, cmd: TransferCmd)
    requires SourcePays(m, cmd)
    ensures cmd.amount != 0
  {
  }

  /**
   After any run under any faults in which no client opened a reserved name, a fault-free transfer
   fails moving nothing, completes moving the amount, or is compensated with suspense short by the
   amount; the source and the destination decide which, and which error the client is told; compensation
   never fails; and the total of the currency is conserved unless, and only unless, the source can pay and the destination cannot be paid.
   */
  lemma TransferAfterAnyRun(before: Env, cmds: seq<Command>, env: Env, cmd: TransferCmd)
    requires ValidEnv(before) && ValidEnv(env) && FaultFree(env)
    requires forall i :: 0 <= i < |cmds| ==> Avoids(cmds[i], SuspenseRole, cmd.currency)
    requires ValidCurrency(cmd.currency) && cmd.from != cmd.to
    ensures var st := Run(Init, before, cmds);
            var (st', out) := Execute(st, env, cmd);
            && out.saga.Some? && EndsBy(st, st', out.saga.value.state, cmd)
            && out.failure == Told(Ready(st, cmd.currency), cmd)
            && (Wrap(WriteTotal(st', cmd.currency)) == Wrap(WriteTotal(st, cmd.currency))
                <==> !Undeliverable(Ready(st, cmd.currency), cmd))
  {
    hide Execute, WellFormed, Run, Sound, EndsBy, RoleSound, WriteTotal, Drift, RunMoments, Traces, SourcePays, DestinationOpen, Ready, Wrap;
    var st := Run(Init, before, cmds);
    var c := cmd.currency;
    EveryMomentIsSound(before, cmds);
    SoundIsWellFormed(st);
    RunKeepsRole(before, cmds, SuspenseRole, c);
    TransferEnds(st, env, cmd);
    var (st', out) := Execute(st, env, cmd);
    CompensatedIffUndeliverable(st, st', out.saga.value.state, cmd);
    if Undeliverable(Ready(st, c), cmd) {
      PaysSomething(Ready(st, c), cmd);
    }
    ExecuteKeepsSound(st, env, cmd);
    TransferDrift(st, env, cmd, c);
    SoundTotal(st, c);
    SoundTotal(st', c);
    WrapCongruent(Drift(st, c) - cmd.amount, Drift(st, c));
  }

  /** In particular, paying to an account that does not exist destroys the amount, every time. */
  lemma PaymentToNowhereDestroysMoney(before: Env, cmds: seq<Command>, env: Env, cmd: TransferCmd)
    requires ValidEnv(before) && ValidEnv(env) && FaultFree(env)
    requires forall i :: 0 <= i < |cmds| ==> Avoids(cmds[i], SuspenseRole, cmd.currency)
    requires ValidCurrency(cmd.currency) && cmd.from != cmd.to && cmd.amount != 0
    requires var m := Ready(Run(Init, before, cmds), cmd.currency);
             SourcePays(m, cmd) && cmd.to !in m
    ensures var st := Run(Init, before, cmds);
            Wrap(WriteTotal(Execute(st, env, cmd).0, cmd.currency)) != Wrap(WriteTotal(st, cmd.currency))
  {
    hide Execute, WellFormed, Run, WriteTotal, Ready, SourcePays, EndsBy;
    TransferAfterAnyRun(before, cmds, env, cmd);
  }

  // ---------------------------------------------------------------- no suspense account

  /** The source takes the debit and the save of it takes effect. */
  ghost predicate DebitGetsSaved(st: State, env: Env, cmd: TransferCmd) {
    env.reply(Finding, st.ops).Done? && SourcePays(st.accounts, cmd) && !env.reply(Updating, st.ops + 1).Refused?
  }

  /** With no account under the nil id, the first entry at most is saved. */
  lemma SavesBeforeNil(st: State, env: Env, cmd: TransferCmd)
    requires WellFormed(st)
    ensures Saves(st.accounts, env, st.ops, [DebitOf(cmd.from, cmd), CreditOf(0, cmd)]) == if DebitGetsSaved(st, env, cmd) then 1 else 0
  {
    var d, c := DebitOf(cmd.from, cmd), CreditOf(0, cmd);
    assert [d, c][1..] == [c];
    if Accepts(st.accounts, d) {
      Coheres(st);
      PostMeans(st.accounts, d);
      assert !Accepts(Post(st.accounts, d), c);
    }
  }

  /**
   When the suspense account can be neither found nor opened, the saga does not fail at validation. It ends
   FAILED, and the debit of the source stays saved, and stranded, if and only if the source is found and
   takes it and the save is not refused; in every other case no balance moves.
   */
  lemma MissingSuspenseStrandsDebitIff(st: State, env: Env, cmd: TransferCmd)
    requires WellFormed(st) && st.audit.pending == []
    requires ValidCurrency(cmd.currency) && cmd.from != cmd.to
    requires GetOrCreateSystemAccount(st, env, "System Suspense (" + cmd.currency + ")", "LIABILITY", cmd.currency).1.Err?
    ensures var (st', out) := Execute(st, env, cmd);
            var saved := DebitGetsSaved(SuspenseAccountID(st, env, cmd.currency).0, env, cmd);
            && out.saga.Some? && out.saga.value.state == Failed
            && (st'.audit.stranded == st.audit.stranded + [[DebitOf(cmd.from, cmd)]] <==> saved)
            && forall a: AccountID :: Balance(st', a) == Wrap(Balance(st, a) - if saved && a == cmd.from then cmd.amount else 0)
  {
    hide GetOrCreateSystemAccount, SuspenseAccountID, CreditDestination, Rejection, WellFormed, RecordTransaction, Saves, DebitGetsSaved, MovedBy, FundedPrefix, Balance, ToEntries, Wrap;
    NilWithoutSuspense(st, env, cmd.currency);
    var st1 := SuspenseAccountID(st, env, cmd.currency).0;
    var d, c := DebitOf(cmd.from, cmd), CreditOf(0, cmd);
    var pair := Pair(cmd.from, 0, cmd.amount, cmd.currency);
    SuspenseWellFormed(st, env, cmd.currency);
    PairEntries(cmd.from, 0, cmd.amount, cmd.currency);
    SavesBeforeNil(st1, env, cmd);
    RecordMoves(st1, env, pair, "Transfer out: " + cmd.description);
    var (st', r) := RecordTransaction(st1, env, pair, "Transfer out: " + cmd.description);
    assert [d, c][..1] == [d] && [d, c][..0] == [];
    var es := if DebitGetsSaved(st1, env, cmd) then [d] else [];
    if cmd.amount == 0 {
      NoDebitOfZero(st1, env, cmd);
      NothingIsMoved(st1);
    }
    assert MovedBy(st1, st', es);
    assert r.Err?;
    var before := st.audit.stranded;
    assert (before + [[d]])[|before|] == [d] && (before + [[]])[|before|] == [] && |before + [[d]]| == |before| + 1;
    LookupMovesNothing(st, env, cmd.currency);
    forall a: AccountID
      ensures Balance(st', a) == Wrap(Balance(st, a) - if DebitGetsSaved(st1, env, cmd) && a == cmd.from then cmd.amount else 0)
    {
      OneDebitMoved(st, st1, st', es, d, a);
    }
  }

  lemma NilWithoutSuspense(st: State, env: Env, currency: Currency)
    requires GetOrCreateSystemAccount(st, env, "System Suspense (" + currency + ")", "LIABILITY", currency).1.Err?
    ensures SuspenseAccountID(st, env, currency).1 == 0
  {
    hide GetOrCreateSystemAccount;
    NamesDiffer(SuspenseRole, currency, SuspenseRole, currency);
  }

  lemma NoDebitOfZero(st: State, env: Env, cmd: TransferCmd)
    requires cmd.amount == 0
    ensures !DebitGetsSaved(st, env, cmd)
  {
  }

  lemma NothingIsMoved(st: State)
    ensures MovedBy(st, st, [])
  {
  }

  lemma LookupMovesNothing(st: State, env: Env, currency: Currency)
    requires WellFormed(st)
    ensures MovedBy(st, SuspenseAccountID(st, env, currency).0, [])
  {
    hide WellFormed, Traces, LookupMoments, MovedBy;
    LookupTraces(st, env, SuspenseName(currency), "LIABILITY", currency, true);
    StillMoves(st, LookupMoments(st, env, SuspenseName(currency), "LIABILITY", currency), SuspenseAccountID(st, env, currency).0);
  }

  lemma OneDebitMoved(st: State, st1: State, st': State, es: seq<Entry>, d: Entry, a: AccountID)
    requires MovedBy(st, st1, []) && MovedBy(st1, st', es) && d.kind.Debit? && (es == [d] || es == [])
    ensures Balance(st', a) == Wrap(Balance(st, a) - if es == [d] && a == d.account then d.amount.amount else 0)
  {
    hide Balance;
    assert Balance(st1, a) == Wrap(Balance(st, a) + AccountSum([], a));
    PushAccount([], d, a);
    assert [] + [d] == [d];
  }
}
