/**
 Two invariants the repository documents, "account balance equals sum of all entries" and "event replay
 produces same state as direct computation", taken literally. Neither holds in every run, not even without
 storage faults. This module proves exactly which calls keep them.
 */
module Promises {
  import opened Money
  import opened Accounts
  import opened Transactions
  import opened Repositories
  import opened EventStore
  import opened Ledger
  import opened Steps
  import opened Posting
  import opened Commands
  import opened Moments
  import opened SagaPlan
  import opened Books
  import opened RecordLaw
  import opened EventLog

  /** Every balance is the sum of the account's entries in the stored transactions. */
  ghost predicate SumsHold(st: State) {
    forall a: AccountID :: Balance(st, a) == Wrap(SavedSum(st.transactions, st.nextId, a))
  }

  /** Every balance is what replaying the event log gives. */
  ghost predicate ReplayHolds(st: State) {
    forall a: AccountID :: Balance(st, a) == Wrap(Replayed(st.tables.events, a))
  }

  /** The entries cancel out on every account, as int64 arithmetic sees it. */
  ghost predicate NetsToZero(es: seq<Entry>) {
    forall a: AccountID :: Wrap(AccountSum(es, a)) == 0
  }

  /** The call is refused up front, or every entry is funded at its turn, or the funded ones cancel out. */
  ghost predicate Harmless(m: Table, cmds: seq<EntryCmd>) {
    || !Admitted(cmds)
    || FundedPrefix(m, ToEntries(cmds).value) == |cmds|
    || NetsToZero(ToEntries(cmds).value[..FundedPrefix(m, ToEntries(cmds).value)])
  }

  // ---------------------------------------------------------------- one call without storage faults

  /** Fully funded: stored and emitted. Otherwise the funded prefix stays applied and nothing tells of it. */
  lemma FaultFreeRecord(st: State, env: Env, cmds: seq<EntryCmd>, description: string)
    requires FaultFree(env) && WellFormed(st) && st.audit.pending == [] && Admitted(cmds)
    ensures var (st', r) := RecordTransaction(st, env, cmds, description);
            var es := ToEntries(cmds).value;
            var k := FundedPrefix(st.accounts, es);
            var tx := Transaction(st.nextId, es, description);
            && |es| == |cmds| && MovedBy(st, st', es[..k]) && st'.nextId == st.nextId + 1
            && (if k == |es| then && r.Ok? && st'.transactions == st.transactions[tx.id := tx]
                                  && st'.tables.events == st.tables.events + [Event(tx.id, 1, TransactionRecorded(tx))]
                else r.Err? && st'.transactions == st.transactions && st'.tables == st.tables)
  {
    hide WellFormed, Finish, ApplyEntries, MovedBy, Rejection, Saves, FundedPrefix, CoherentTable, AllAccepted, PostAll;
    var es := ToEntries(cmds).value;
    var tx := Transaction(st.nextId, es, description);
    EntriesWithin(cmds);
    RecordMoves(st, env, cmds, description);
    Coheres(st);
    FreshId(st);
    LoopPosts(st.Draw(), env, es);
    assert NoEventYet(st, st.nextId) by { FreshAggregate(st); }
    var st1 := ApplyEntries(st.Draw(), env, es).0;
    FinishStores(st1, env, tx);
    if FundedPrefix(st.accounts, es) == |es| {
      FinishSucceeds(st1, env, tx);
      FinishIds(st1, env, tx);
    }
  }

  ghost predicate NoEventYet(st: State, id: nat) {
    forall i :: 0 <= i < |st.tables.events| ==> st.tables.events[i].aggregate != id
  }

  lemma FreshAggregate(st: State)
    requires WellFormed(st)
    ensures NoEventYet(st, st.nextId)
  {
  }

  lemma FinishIds(st: State, env: Env, tx: Transaction)
    ensures Finish(st, env, tx).0.nextId == st.nextId
  {
  }

  /** Moving by es keeps a balance at a wrapped sum if and only if es cancels out on the account. */
  lemma StillSum(b: int, sum: int, d: int)
    requires b == Wrap(sum)
    ensures Wrap(b + d) == Wrap(sum) <==> Wrap(d) == 0
  {
    WrapAdd(sum, d);
    WrapCongruent(sum + d, sum);
    WrapCongruent(d, 0);
  }

  /** Balances that were a sum still are that sum, if and only if the entries cancel out. */
  lemma KeptIffNetZero(st: State, st': State, es: seq<Entry>, sum: AccountID -> int)
    requires MovedBy(st, st', es) && forall a: AccountID :: Balance(st, a) == Wrap(sum(a))
    ensures (forall a: AccountID :: Balance(st', a) == Wrap(sum(a))) <==> NetsToZero(es)
  {
    hide Balance, Wrap, AccountSum;
    forall a: AccountID ensures Balance(st', a) == Wrap(sum(a)) <==> Wrap(AccountSum(es, a)) == 0 {
      StillSum(Balance(st, a), sum(a), AccountSum(es, a));
    }
  }

  /** Balances that were a sum follow it when it grows by the entries. */
  lemma KeptWithEntries(st: State, st': State, es: seq<Entry>, sum: AccountID -> int, a: AccountID)
    requires MovedBy(st, st', es) && Balance(st, a) == Wrap(sum(a))
    ensures Balance(st', a) == Wrap(sum(a) + AccountSum(es, a))
  {
    hide Balance, AccountSum;
    WrapAdd(sum(a), AccountSum(es, a));
  }

  lemma SavedSumOneMore(txs: map<TransactionID, Transaction>, n: nat, a: AccountID)
    requires n !in txs
    ensures SavedSum(txs, n + 1, a) == SavedSum(txs, n, a)
  {
  }

  /**
   Without storage faults, a call on books in order leaves them in order if and only if it is refused up
   front, fully funded, or its funded prefix cancels out on every account.
   */
  lemma RecordKeepsSumsIff(st: State, env: Env, cmds: seq<EntryCmd>, description: string)
    requires FaultFree(env) && WellFormed(st) && st.audit.pending == [] && SumsHold(st)
    ensures SumsHold(RecordTransaction(st, env, cmds, description).0) <==> Harmless(st.accounts, cmds)
  {
    hide WellFormed, RecordTransaction, MovedBy, NetsToZero, FundedPrefix, FaultFree, Rejection, ToEntries, SavedSum, Balance, Wrap, AccountSum;
    RecordMoves(st, env, cmds, description);
    if Admitted(cmds) {
      FaultFreeRecord(st, env, cmds, description);
      FreshId(st);
      var st' := RecordTransaction(st, env, cmds, description).0;
      var es := ToEntries(cmds).value;
      var k := FundedPrefix(st.accounts, es);
      var sum: AccountID -> int := (a: AccountID) => SavedSum(st.transactions, st.nextId, a);
      forall a: AccountID ensures SavedSum(st.transactions, st.nextId + 1, a) == sum(a) {
        SavedSumOneMore(st.transactions, st.nextId, a);
      }
      if k == |es| {
        assert es[..k] == es;
        forall a: AccountID ensures Balance(st', a) == Wrap(SavedSum(st'.transactions, st'.nextId, a)) {
          SavedSumInsert(st.transactions, st.nextId + 1, st.nextId, Transaction(st.nextId, es, description), a);
          KeptWithEntries(st, st', es, sum, a);
        }
      } else {
        KeptIffNetZero(st, st', es[..k], sum);
      }
    }
  }

  lemma ReplayedPush(events: seq<Event<DomainEvent>>, e: Event<DomainEvent>, a: AccountID)
    ensures Replayed(events + [e], a) == Replayed(events, a) + EventEntry(e.payload, a)
  {
    assert (events + [e])[..|events|] == events;
  }

  /** The same condition decides whether replaying the log still gives every balance. */
  lemma RecordKeepsReplayIff(st: State, env: Env, cmds: seq<EntryCmd>, description: string)
    requires FaultFree(env) && WellFormed(st) && st.audit.pending == [] && ReplayHolds(st)
    ensures ReplayHolds(RecordTransaction(st, env, cmds, description).0) <==> Harmless(st.accounts, cmds)
  {
    hide WellFormed, RecordTransaction, MovedBy, NetsToZero, FundedPrefix, FaultFree, Rejection, ToEntries, Replayed, Balance, Wrap, AccountSum;
    RecordMoves(st, env, cmds, description);
    if Admitted(cmds) {
      FaultFreeRecord(st, env, cmds, description);
      var st' := RecordTransaction(st, env, cmds, description).0;
      var es := ToEntries(cmds).value;
      var k := FundedPrefix(st.accounts, es);
      var sum: AccountID -> int := (a: AccountID) => Replayed(st.tables.events, a);
      if k == |es| {
        assert es[..k] == es;
        var tx := Transaction(st.nextId, es, description);
        forall a: AccountID ensures Balance(st', a) == Wrap(Replayed(st'.tables.events, a)) {
          ReplayedPush(st.tables.events, Event(tx.id, 1, TransactionRecorded(tx)), a);
          KeptWithEntries(st, st', es, sum, a);
        }
      } else {
        KeptIffNetZero(st, st', es[..k], sum);
      }
    }
  }

  // ---------------------------------------------------------------- a run in which both fail

  lemma OpensAccount(st: State, env: Env, name: string, kind: string, currency: Currency)
    requires forall n: nat :: env.reply(Opening, n).Done? && env.reply(Appending, n).Done?
    requires WellFormed(st) && name != "" && ValidCurrency(currency)
    ensures var st' := OpenAccount(st, env, name, kind, currency).0;
            var acc := Account(st.nextId, name, AccountKind(kind), currency, Money(0, currency), Active);
            && st'.accounts == st.accounts[acc.id := acc] && st'.transactions == st.transactions
            && st'.nextId == st.nextId + 1 && st'.audit == st.audit
            && st'.tables.events == st.tables.events + [Event(acc.id, 1, AccountOpened(acc))]
  {
    assert !Clash(st.tables.events, st.nextId, 0, 1);
  }

  lemma AllDone(env: Env)
    requires FaultFree(env)
    ensures forall site: Site, n: nat :: env.reply(site, n).Done?
  {
  }

  /** One liability account, and a payment of 5 from it to an account that does not exist. */
  function UnfundedRun(): seq<Command> {
    [OpenCmd("Loan", "LIABILITY", "USD"),
     RecordCmd([EntryCmd(1, 5, "USD", EntryType.Debit), EntryCmd(99, 5, "USD", EntryType.Credit)], "")]
  }

  lemma PaymentIsAdmitted(cmds: seq<EntryCmd>)
    requires cmds == [EntryCmd(1, 5, "USD", EntryType.Debit), EntryCmd(99, 5, "USD", EntryType.Credit)]
    ensures var d, c := Entry(1, Money(5, "USD"), EntryType.Debit), Entry(99, Money(5, "USD"), EntryType.Credit);
            Admitted(cmds) && ToEntries(cmds).value == [d, c]
  {
    assert cmds == Pair(1, 99, 5, "USD");
    PairEntries(1, 99, 5, "USD");
  }

  lemma OnlyDebitFunded(m: Table)
    requires m == map[1 := Account(1, "Loan", Liability, "USD", Money(0, "USD"), Active)]
    ensures var d, c := Entry(1, Money(5, "USD"), EntryType.Debit), Entry(99, Money(5, "USD"), EntryType.Credit);
            FundedPrefix(m, [d, c]) == 1 && AccountSum([d, c][..1], 1) == -5
  {
    var d, c := Entry(1, Money(5, "USD"), EntryType.Debit), Entry(99, Money(5, "USD"), EntryType.Credit);
    assert [d, c][..1] == [d] && [d][..0] == [];
    assert Funded(m, [d], 0) && !Funded(m, [d, c], 1);
    assert FundedPrefix(m, [d]) == 1;
  }

  /** After that run, without any storage fault, the account shows -5 and no entry or event explains it. */
  lemma BothPromisesFail(env: Env)
    requires FaultFree(env)
    ensures var st := Run(Init, env, UnfundedRun());
            && Balance(st, 1) == -5 && SavedSum(st.transactions, st.nextId, 1) == 0 && Replayed(st.tables.events, 1) == 0
            && !SumsHold(st) && !ReplayHolds(st)
  {
    hide OpenAccount, RecordTransaction, FundedPrefix, WellFormed, Rejection, ToEntries, FaultFree;
    var cmds := UnfundedRun()[1].entries;
    var st1 := OpenAccount(Init, env, "Loan", "LIABILITY", "USD").0;
    var st2 := RecordTransaction(st1, env, cmds, "").0;
    assert UnfundedRun()[1..] == [UnfundedRun()[1]] && [UnfundedRun()[1]][1..] == [];
    assert Run(st1, env, [UnfundedRun()[1]]) == Run(st2, env, []) == st2;
    assert Run(Init, env, UnfundedRun()) == st2;
    assert WellFormed(Init) by { InitIsSound(); SoundIsWellFormed(Init); }
    assert forall n: nat :: env.reply(Opening, n).Done? && env.reply(Appending, n).Done? by { AllDone(env); }
    OpensAccount(Init, env, "Loan", "LIABILITY", "USD");
    OpenTraces(Init, env, "Loan", "LIABILITY", "USD", true);
    PaymentIsAdmitted(cmds);
    assert st1.accounts == map[1 := Account(1, "Loan", Liability, "USD", Money(0, "USD"), Active)];
    OnlyDebitFunded(st1.accounts);
    FaultFreeRecord(st1, env, cmds, "");
    assert Balance(st1, 1) == 0;
    EmptySavedSum(st2.transactions, st2.nextId, 1);
    ReplayedPush([], st2.tables.events[0], 1);
    assert [] + [st2.tables.events[0]] == st2.tables.events;
  }
}
