/** Runs at literal inputs that meet the premises of the theorems about transfers, and what they lead to. */
module Scenarios {
  import opened Results
  import opened Money
  import opened Accounts
  import opened Ledger
  import opened Transfers
  import opened Steps
  import opened Posting
  import opened Commands
  import opened Moments
  import opened SagaPlan
  import opened SystemAccounts
  import opened TransferLaw
  import opened Books
  import opened Promises
  import opened TransferRuns

  // ---------------------------------------------------------------- storage

  ghost function Enumerate(m: map<AccountID, Account>): seq<Account>
    decreases |m|
  {
    if m == map[] then []
    else
      var id :| id in m;
      assert (m - {id}).Keys < m.Keys;
      [m[id]] + Enumerate(m - {id})
  }

  /** Listing one account and then the others. */
  lemma ListsOneMore(m: map<AccountID, Account>, id: AccountID, rest: seq<Account>)
    requires id in m && (forall i :: i in m ==> m[i].id == i) && Lists(rest, m - {id})
    ensures Lists([m[id]] + rest, m)
  {
    var all := [m[id]] + rest;
    forall i | i in m ensures m[i] in all {
      assert all[0] == m[id];
      assert i != id ==> (m - {id})[i] in rest;
    }
  }

  lemma {:induction false} Enumerates(m: map<AccountID, Account>)
    requires forall id :: id in m ==> m[id].id == id
    ensures Lists(Enumerate(m), m)
    decreases |m|
  {
    if m != map[] {
      hide Lists;
      var id :| id in m && Enumerate(m) == [m[id]] + Enumerate(m - {id});
      assert (m - {id}).Keys < m.Keys;
      Enumerates(m - {id});
      ListsOneMore(m, id, Enumerate(m - {id}));
    }
  }

  /** Storage that never fails. */
  ghost function Reliable(): Env {
    Env((site: Site, n: nat) => Done, (n: nat, m: map<AccountID, Account>) => Enumerate(m))
  }

  /** Storage that never lists accounts and never fails otherwise. */
  ghost function Unlisting(): Env {
    Reliable().(reply := (site: Site, n: nat) => if site.Listing? then Refused else Done)
  }

  lemma ReliableIsValid()
    ensures ValidEnv(Reliable()) && FaultFree(Reliable()) && ValidEnv(Unlisting())
  {
    forall n: nat, m: map<AccountID, Account> | forall id :: id in m ==> m[id].id == id
      ensures Lists(Reliable().listing(n, m), m)
    {
      Enumerates(m);
    }
  }

  // ---------------------------------------------------------------- one liability account

  const OneLoan: seq<Command> := [OpenCmd("Loan", "LIABILITY", "USD")]

  function Loan(): Account {
    Account(1, "Loan", Liability, "USD", Money(0, "USD"), Active)
  }

  /** From the account to an id that was never issued. */
  const Payment := TransferCmd(1, 99, 5, "USD", "")

  lemma AfterOneLoan(env: Env)
    requires forall n: nat :: env.reply(Opening, n).Done? && env.reply(Appending, n).Done?
    ensures var st := Run(Init, env, OneLoan);
            WellFormed(st) && st.audit == Init.audit && st.accounts == map[1 := Loan()] && st.nextId == 2
  {
    hide OpenAccount, WellFormed, OpenMoments, Traces;
    assert WellFormed(Init) by { InitIsSound(); SoundIsWellFormed(Init); }
    OpensAccount(Init, env, "Loan", "LIABILITY", "USD");
    OpenTraces(Init, env, "Loan", "LIABILITY", "USD", true);
    var st1 := OpenAccount(Init, env, "Loan", "LIABILITY", "USD").0;
    assert OneLoan[1..] == [] && Run(st1, env, []) == st1;
    assert Init.accounts[1 := Loan()] == map[1 := Loan()];
  }

  lemma LoanPays(m: Table)
    requires 1 in m && m[1] == Loan()
    ensures SourcePays(m, Payment)
  {
  }

  lemma LoanIsUnreserved(c: Currency)
    ensures Avoids(OneLoan[0], SuspenseRole, c)
  {
    assert Reserved(SuspenseRole, c)[0] == 'S' && "Loan"[0] == 'L';
  }

  /** A run that meets every premise of PaymentToNowhereDestroysMoney: money is destroyed although nothing failed. */
  lemma MoneyIsDestroyed()
    ensures var st := Run(Init, Reliable(), OneLoan);
            var (st', out) := Execute(st, Reliable(), Payment);
            && Wrap(WriteTotal(st', "USD")) != Wrap(WriteTotal(st, "USD"))
            && out.saga.Some? && out.saga.value.state == Compensated && out.failure == Some(CreditReversed(AccountNotFound))
  {
    hide Run, Execute, WriteTotal, WellFormed, SourcePays, FaultFree, ValidEnv;
    ReliableIsValid();
    assert forall n: nat :: Reliable().reply(Opening, n).Done? && Reliable().reply(Appending, n).Done?;
    AfterOneLoan(Reliable());
    var st := Run(Init, Reliable(), OneLoan);
    LoanPays(Ready(st, "USD"));
    LoanIsUnreserved("USD");
    PaymentToNowhereDestroysMoney(Reliable(), OneLoan, Reliable(), Payment);
    TransferAfterAnyRun(Reliable(), OneLoan, Reliable(), Payment);
  }

  /** A run in which the suspense account cannot be found: the debit of 5 stays, and the saga has failed. */
  lemma DebitIsStranded()
    ensures var st := Run(Init, Unlisting(), OneLoan);
            var (st', out) := Execute(st, Unlisting(), Payment);
            && out.saga.Some? && out.saga.value.state == Failed
            && st'.audit.stranded == [[DebitOf(1, Payment)]] && Balance(st', 1) == -5
  {
    hide Run, Execute, WellFormed, SuspenseAccountID, SourcePays;
    var env := Unlisting();
    AfterOneLoan(env);
    var st := Run(Init, env, OneLoan);
    assert SuspenseAccountID(st, env, "USD") == (st.Tick(), 0) by { NotListed(st); }
    MissingSuspenseStrandsDebitIff(st, env, Payment);
    LoanPays(st.accounts);
    assert DebitGetsSaved(st.Tick(), env, Payment);
    assert [] + [[DebitOf(1, Payment)]] == [[DebitOf(1, Payment)]];
  }

  lemma NotListed(st: State)
    ensures SuspenseAccountID(st, Unlisting(), "USD") == (st.Tick(), 0)
  {
  }
}
