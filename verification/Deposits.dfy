/** Deposits: how money enters, from the system equity account of the currency. */
module Deposits {
  import opened Results
  import opened Money
  import opened Accounts
  import opened Transactions
  import opened Ledger
  import opened Transfers
  import opened Steps
  import opened Posting
  import opened Commands
  import opened Moments
  import opened SagaPlan
  import opened SystemAccounts
  import opened TransferLaw
  import opened Books
  import opened RecordLaw
  import opened AccountOpening

  /** The account a lookup returns is in the table under the asked name, and no balance has moved. */
  lemma LookupFinds(st: State, env: Env, name: string, kind: string, currency: Currency)
    requires ValidEnv(env) && WellFormed(st)
    ensures var (st', r) := GetOrCreateSystemAccount(st, env, name, kind, currency);
            && WellFormed(st') && MovedBy(st, st', []) && st'.audit == st.audit
            && (r.Ok? ==> Named(st'.accounts, r.value.id, name))
  {
    hide WellFormed, MovedBy, Traces, LookupMoments;
    LookupTraces(st, env, name, kind, currency, true);
    StillMoves(st, LookupMoments(st, env, name, kind, currency), GetOrCreateSystemAccount(st, env, name, kind, currency).0);
    assert CoherentTable(st.accounts) by { Coheres(st); }
    ListingFinds(st, env, name);
  }

  lemma PairSum(from: AccountID, to: AccountID, amount: int64, currency: Currency, a: AccountID)
    requires ValidCurrency(currency)
    ensures ToEntries(Pair(from, to, amount, currency)).Ok?
    ensures AccountSum(ToEntries(Pair(from, to, amount, currency)).value, a)
         == (if a == to then amount else 0) - (if a == from then amount else 0)
  {
    hide Rejection;
    PairEntries(from, to, amount, currency);
    var d := Entry(from, Money(amount, currency), EntryType.Debit);
    var c := Entry(to, Money(amount, currency), EntryType.Credit);
    PushAccount([], d, a);
    PushAccount([d], c, a);
    assert [] + [d] == [d] && [d] + [c] == [d, c];
  }

  lemma {:induction false} NeedsCurrency(cmds: seq<EntryCmd>, i: nat)
    requires ToEntries(cmds).Ok? && i < |cmds|
    ensures ValidCurrency(cmds[i].currency)
  {
    if i < |cmds| - 1 {
      NeedsCurrency(cmds[..|cmds| - 1], i);
    }
  }

  /** Nothing moved on the way to st1, then a pair of entries was recorded in full. */
  lemma PairMoved(st: State, st1: State, st': State, from: AccountID, to: AccountID, amount: int64, currency: Currency, a: AccountID)
    requires ValidCurrency(currency) && ToEntries(Pair(from, to, amount, currency)).Ok?
    requires MovedBy(st, st1, []) && MovedBy(st1, st', ToEntries(Pair(from, to, amount, currency)).value)
    ensures Balance(st', a) == Wrap(Balance(st, a) + (if a == to then amount else 0) - (if a == from then amount else 0))
  {
    hide ToEntries, Pair, Balance;
    PairSum(from, to, amount, currency, a);
    assert Balance(st1, a) == Wrap(Balance(st, a) + AccountSum([], a));
  }

  /**
   A deposit that succeeds, whatever happened on the way, takes the amount from the system equity account
   of the currency, gives it to the account, and moves no other balance.
   */
  lemma DepositMoves(st: State, env: Env, account: AccountID, amount: int64, currency: Currency, description: string)
    returns (equity: AccountID)
    requires ValidEnv(env) && WellFormed(st) && st.audit.pending == []
    ensures var (st', r) := Deposit(st, env, account, amount, currency, description);
            r.Ok? ==>
              && Named(st'.accounts, equity, EquityName(currency))
              && forall a: AccountID :: Balance(st', a)
                   == Wrap(Balance(st, a) + (if a == account then amount else 0) - (if a == equity then amount else 0))
  {
    hide WellFormed, GetOrCreateSystemAccount, RecordTransaction, ToEntries, Saves, FundedPrefix, Rejection, MovedBy, Balance, Wrap, EquityName;
    equity := 0;
    var (st1, found) := GetOrCreateSystemAccount(st, env, EquityName(currency), "EQUITY", currency);
    LookupFinds(st, env, EquityName(currency), "EQUITY", currency);
    if found.Ok? {
      equity := found.value.id;
      var cmds := Pair(equity, account, amount, currency);
      RecordMoves(st1, env, cmds, description);
      RecordKeepsIdentity(st1, env, cmds, description);
      var (st', r) := RecordTransaction(st1, env, cmds, description);
      if r.Ok? {
        NeedsCurrency(cmds, 0);
        var es := ToEntries(cmds).value;
        assert es[..|es|] == es;
        forall a: AccountID
          ensures Balance(st', a) == Wrap(Balance(st, a) + (if a == account then amount else 0) - (if a == equity then amount else 0))
        {
          PairMoved(st, st1, st', equity, account, amount, currency, a);
        }
      }
    }
  }

  // ---------------------------------------------------------------- when a deposit succeeds

  /** A debit and then a credit get through if and only if the debit is accepted and the credited account is usable. */
  lemma LegGetsThroughIff(m: Table, from: AccountID, cmd: TransferCmd)
    requires CoherentTable(m)
    ensures AllAccepted(m, [])
    ensures PlanLeg(m, [], DebitOf(from, cmd), CreditOf(cmd.to, cmd)).ok
       <==> Accepts(m, DebitOf(from, cmd)) && Usable(m, CreditOf(cmd.to, cmd))
  {
    hide AllAccepted, PostAll, CoherentTable, AccountSum, Wrap;
    assert AllAccepted(m, []) && PostAll(m, []) == m by { PostNone(m); }
    AcceptNext(m, [], DebitOf(from, cmd));
    if Accepts(m, DebitOf(from, cmd)) {
      NextAccepted(m, [] + [DebitOf(from, cmd)], CreditOf(cmd.to, cmd));
    }
  }

  /**
   Without storage faults a deposit succeeds if and only if the equity account is found or opened, the
   currency is known, the equity account takes the debit, and the account is active with that currency.
   */
  lemma DepositSucceedsIff(st: State, env: Env, account: AccountID, amount: int64, currency: Currency, description: string)
    requires FaultFree(env) && WellFormed(st) && st.audit.pending == []
    ensures var (st1, equity) := GetOrCreateSystemAccount(st, env, EquityName(currency), "EQUITY", currency);
            Deposit(st, env, account, amount, currency, description).1.Ok? <==>
              && equity.Ok? && ValidCurrency(currency)
              && Accepts(st1.accounts, Entry(equity.value.id, Money(amount, currency), EntryType.Debit))
              && Usable(st1.accounts, Entry(account, Money(amount, currency), EntryType.Credit))
  {
    hide WellFormed, GetOrCreateSystemAccount, RecordTransaction, AllAccepted, PostAll, CoherentTable, PlanLeg, EquityName, Traces, LookupMoments;
    var (st1, found) := GetOrCreateSystemAccount(st, env, EquityName(currency), "EQUITY", currency);
    LookupTraces(st, env, EquityName(currency), "EQUITY", currency, true);
    if found.Ok? {
      if !ValidCurrency(currency) {
        NoCurrencyNoRecord(st1, env, found.value.id, account, amount, currency, description);
      } else if amount == 0 {
        ZeroPairFails(st1, env, found.value.id, account, currency, description);
      } else {
        var cmd := TransferCmd(found.value.id, account, amount, currency, description);
        Coheres(st1);
        LegGetsThroughIff(st1.accounts, found.value.id, cmd);
        PostNone(st1.accounts);
        LegRecord(st1, env, st1.accounts, [], found.value.id, account, cmd, description);
      }
    }
  }

  lemma NoCurrencyNoRecord(st: State, env: Env, from: AccountID, to: AccountID, amount: int64, currency: Currency, description: string)
    requires !ValidCurrency(currency)
    ensures RecordTransaction(st, env, Pair(from, to, amount, currency), description).1.Err?
  {
    hide Commit, Rejection, ToEntries;
    if ToEntries(Pair(from, to, amount, currency)).Ok? {
      NeedsCurrency(Pair(from, to, amount, currency), 0);
    }
  }

  lemma ZeroPairFails(st: State, env: Env, from: AccountID, to: AccountID, currency: Currency, description: string)
    requires ValidCurrency(currency)
    ensures RecordTransaction(st, env, Pair(from, to, 0, currency), description) == (st, Err(ZeroAmount))
  {
    hide Commit, ToEntries;
    PairEntries(from, to, 0, currency);
  }

  // ---------------------------------------------------------------- the whole answer

  /** Fault-free, the equity lookup returns the one account of the reserved name, and leaves the others as they were. */
  lemma EquityResolves(st: State, env: Env, c: Currency)
    requires FaultFree(env) && ValidEnv(env) && WellFormed(st) && st.audit.pending == []
    requires RoleSound(st.accounts, EquityRole, c) && ValidCurrency(c)
    ensures var (st', r) := GetOrCreateSystemAccount(st, env, EquityName(c), "EQUITY", c);
            && r.Ok? && Named(st'.accounts, r.value.id, "System Equity (" + c + ")") && WellFormed(st') && st'.audit == st.audit
            && st'.accounts[r.value.id].status.Active? && st'.accounts[r.value.id].currency == c
            && AllowsNegativeBalance(st'.accounts[r.value.id])
            && (forall a: AccountID :: Balance(st', a) == Balance(st, a))
            && forall id: AccountID :: id != r.value.id ==> (id in st'.accounts <==> id in st.accounts) && (id in st.accounts ==> st'.accounts[id] == st.accounts[id])
  {
    hide OpenAccount, WellFormed, CoherentTable, Traces, LookupMoments, ValidEnv, FaultFree, EquityName;
    assert EquityName(c) == "System Equity (" + c + ")" by { NamesDiffer(EquityRole, c, EquityRole, c); }
    assert env.reply(Listing, st.ops).Done? by { AlwaysDone(env, Listing, st.ops); }
    TickKeeps(st);
    LookupTraces(st, env, EquityName(c), "EQUITY", c, true);
    Coheres(st);
    ListingFinds(st, env, EquityName(c));
    if forall id: AccountID :: !Named(st.accounts, id, EquityName(c)) {
      OpensEquity(st.Tick(), env, c);
      FreshId(st);
    }
  }

  lemma AlwaysDone(env: Env, site: Site, n: nat)
    requires FaultFree(env)
    ensures env.reply(site, n).Done?
  {
  }

  lemma OpensEquity(st: State, env: Env, c: Currency)
    requires FaultFree(env) && WellFormed(st) && ValidCurrency(c)
    ensures var (st', r) := OpenAccount(st, env, EquityName(c), "EQUITY", c);
            var acc := Account(st.nextId, EquityName(c), Equity, c, Money(0, c), Active);
            r == Ok(acc) && st'.accounts == st.accounts[st.nextId := acc]
  {
  }

  /** The account can be credited in the currency. */
  predicate CanReceive(m: Table, account: AccountID, currency: Currency) {
    account in m && m[account].status == Active && m[account].currency == currency
  }

  /** A deposit and its answer, as the accounts before it decide them; `equity` is the account it comes from. */
  ghost predicate DepositLaw(st: State, st': State, r: Result<Transaction>, equity: AccountID, account: AccountID, amount: int64, currency: Currency, description: string) {
    if currency !in {"USD", "MYR", "SGD", "EUR", "GBP"} then r == Err(InvalidCurrency) && MovedBy(st, st', [])
    else if amount == 0 then r == Err(ZeroAmount) && MovedBy(st, st', [])
    else
      var debit := Entry(equity, Money(amount, currency), EntryType.Debit);
      var credit := Entry(account, Money(amount, currency), EntryType.Credit);
      && Named(st'.accounts, equity, "System Equity (" + currency + ")")
      && if account == equity || CanReceive(st.accounts, account, currency)
         then r.Ok? && r.value.entries == [debit, credit] && r.value.description == description && MovedBy(st, st', [debit, credit])
         else r == Err(Refusal(st.accounts, credit)) && MovedBy(st, st', [debit])
  }

  lemma NoCurrency(st: State, env: Env, account: AccountID, amount: int64, currency: Currency, description: string)
    requires FaultFree(env) && ValidEnv(env) && WellFormed(st) && RoleSound(st.accounts, EquityRole, currency) && !ValidCurrency(currency)
    ensures Deposit(st, env, account, amount, currency, description).1 == Err(InvalidCurrency)
    ensures Deposit(st, env, account, amount, currency, description).0.accounts == st.accounts
  {
    hide RecordTransaction, EquityName, CoherentTable;
    assert EquityName(currency) == "System Equity (" + currency + ")" by { NamesDiffer(EquityRole, currency, EquityRole, currency); }
    assert CoherentTable(st.accounts) by { Coheres(st); }
    ListingFinds(st, env, EquityName(currency));
    forall id: AccountID ensures !Named(st.accounts, id, EquityName(currency)) {
    }
    assert EquityName(currency) != "";
  }

  lemma SameAccountsStill(st: State, st': State)
    requires forall a: AccountID :: Balance(st', a) == Balance(st, a)
    ensures MovedBy(st, st', [])
  {
  }

  lemma MovedFrom(st: State, st1: State, st': State, es: seq<Entry>)
    requires (forall a: AccountID :: Balance(st1, a) == Balance(st, a)) && MovedBy(st1, st', es)
    ensures MovedBy(st, st', es)
  {
    hide Balance, AccountSum, Wrap;
    forall a: AccountID ensures Balance(st', a) == Wrap(Balance(st, a) + AccountSum(es, a)) {
      assert Balance(st1, a) == Balance(st, a);
    }
  }

  /** From an equity account that takes the debit, the receiving account alone decides. */
  lemma PairAnswer(st: State, env: Env, equity: AccountID, account: AccountID, amount: int64, currency: Currency, description: string)
    requires FaultFree(env) && WellFormed(st) && st.audit.pending == [] && ValidCurrency(currency) && amount != 0
    requires CanReceive(st.accounts, equity, currency) && AllowsNegativeBalance(st.accounts[equity])
    ensures var debit := Entry(equity, Money(amount, currency), EntryType.Debit);
            var credit := Entry(account, Money(amount, currency), EntryType.Credit);
            var (st', r) := RecordTransaction(st, env, Pair(equity, account, amount, currency), description);
            if CanReceive(st.accounts, account, currency)
            then r == Ok(Transaction(st.nextId, [debit, credit], description)) && MovedBy(st, st', [debit, credit])
            else r == Err(Refusal(st.accounts, credit)) && MovedBy(st, st', [debit])
  {
    hide WellFormed, RecordTransaction, Rejection, FundedPrefix, MovedBy, FaultFree, Pair, Saves, Refusal;
    var debit, credit := Entry(equity, Money(amount, currency), EntryType.Debit), Entry(account, Money(amount, currency), EntryType.Credit);
    PairEntries(equity, account, amount, currency);
    var cmds := Pair(equity, account, amount, currency);
    FaultFreeAnswers(st, env, cmds, description);
    RecordMoves(st, env, cmds, description);
    PairFunded(st.accounts, equity, account, amount, currency);
    assert [debit, credit][..2] == [debit, credit] && [debit, credit][..1] == [debit];
  }

  lemma PairFunded(m: Table, equity: AccountID, account: AccountID, amount: int64, currency: Currency)
    requires amount != 0 && CanReceive(m, equity, currency) && AllowsNegativeBalance(m[equity])
    ensures var debit := Entry(equity, Money(amount, currency), EntryType.Debit);
            var credit := Entry(account, Money(amount, currency), EntryType.Credit);
            FundedPrefix(m, [debit, credit]) == if CanReceive(m, account, currency) then 2 else 1
  {
    hide Wrap, AccountSum;
    var debit, credit := Entry(equity, Money(amount, currency), EntryType.Debit), Entry(account, Money(amount, currency), EntryType.Credit);
    assert [debit, credit][..1] == [debit] && [debit][..0] == [];
    assert Funded(m, [debit], 0) && FundedPrefix(m, [debit]) == 1;
    assert Funded(m, [debit, credit], 1) <==> CanReceive(m, account, currency);
  }

  /** With a sound equity account, a fault-free deposit does what the law says. */
  lemma DepositIsLawful(st: State, env: Env, account: AccountID, amount: int64, currency: Currency, description: string)
    returns (equity: AccountID)
    requires FaultFree(env) && ValidEnv(env) && WellFormed(st) && st.audit.pending == []
    requires RoleSound(st.accounts, EquityRole, currency)
    ensures var (st', r) := Deposit(st, env, account, amount, currency, description);
            DepositLaw(st, st', r, equity, account, amount, currency, description)
  {
    hide WellFormed, GetOrCreateSystemAccount, RecordTransaction, RoleSound, FaultFree, ValidEnv, MovedBy, Pair, EquityName, Refusal;
    equity := 0;
    var st' := Deposit(st, env, account, amount, currency, description).0;
    if !ValidCurrency(currency) {
      NoCurrency(st, env, account, amount, currency, description);
      SameAccountsStill(st, st');
    } else {
      var (st1, found) := GetOrCreateSystemAccount(st, env, EquityName(currency), "EQUITY", currency);
      EquityResolves(st, env, currency);
      equity := found.value.id;
      if amount == 0 {
        ZeroPairFails(st1, env, equity, account, currency, description);
        SameAccountsStill(st, st1);
      } else {
        PairAnswer(st1, env, equity, account, amount, currency, description);
        var debit, credit := Entry(equity, Money(amount, currency), EntryType.Debit), Entry(account, Money(amount, currency), EntryType.Credit);
        if CanReceive(st1.accounts, account, currency) {
          MovedFrom(st, st1, st', [debit, credit]);
        } else {
          MovedFrom(st, st1, st', [debit]);
          SameReason(st.accounts, st1.accounts, credit);
        }
        RecordKeepsIdentity(st1, env, Pair(equity, account, amount, currency), description);
      }
    }
  }

  lemma SameReason(m: Table, m': Table, e: Entry)
    requires (e.account in m' <==> e.account in m) && (e.account in m ==> m'[e.account] == m[e.account])
    ensures Refusal(m', e) == Refusal(m, e)
  {
  }

  /**
   After any run under any faults in which no client opened the equity name of the currency, a fault-free
   deposit is answered by the accounts alone: refused for an unknown currency or a zero amount; successful,
   moving the amount from that currency's own equity account, if and only if the account exists, is active
   and has the currency (or is that equity account); otherwise refused for the reason the account gives,
   with the debit of the equity account left behind.
   */
  lemma DepositAfterAnyRun(before: Env, cmds: seq<Command>, env: Env, account: AccountID, amount: int64, currency: Currency, description: string)
    returns (equity: AccountID)
    requires ValidEnv(before) && ValidEnv(env) && FaultFree(env)
    requires forall i :: 0 <= i < |cmds| ==> Avoids(cmds[i], EquityRole, currency)
    ensures var st := Run(Init, before, cmds);
            var (st', r) := Deposit(st, env, account, amount, currency, description);
            DepositLaw(st, st', r, equity, account, amount, currency, description)
  {
    hide Run, Sound, RoleSound, Deposit, RunMoments, Traces, DepositLaw, ValidEnv, FaultFree, Avoids;
    EveryMomentIsSound(before, cmds);
    SoundIsWellFormed(Run(Init, before, cmds));
    RunKeepsRole(before, cmds, EquityRole, currency);
    equity := DepositIsLawful(Run(Init, before, cmds), env, account, amount, currency, description);
  }

  /**
   Under any faults, a deposit in a known currency whose equity account can be neither found nor opened
   answers with a storage fault and moves nothing.
   */
  lemma DepositWithoutEquity(st: State, env: Env, account: AccountID, amount: int64, currency: Currency, description: string)
    requires ValidEnv(env) && WellFormed(st) && currency in {"USD", "MYR", "SGD", "EUR", "GBP"}
    requires GetOrCreateSystemAccount(st, env, "System Equity (" + currency + ")", "EQUITY", currency).1.Err?
    ensures var (st', r) := Deposit(st, env, account, amount, currency, description);
            r == Err(StorageFault) && MovedBy(st, st', [])
  {
    hide WellFormed, GetOrCreateSystemAccount, OpenAccount, RecordTransaction, MovedBy, EquityName, ValidEnv;
    assert EquityName(currency) == "System Equity (" + currency + ")" by { NamesDiffer(EquityRole, currency, EquityRole, currency); }
    LookupFinds(st, env, EquityName(currency), "EQUITY", currency);
    LookupLaw(st, env, EquityName(currency), "EQUITY", currency);
    TickKeeps(st);
    OpenAccountLaw(st.Tick(), env, EquityName(currency), "EQUITY", currency);
  }
}
