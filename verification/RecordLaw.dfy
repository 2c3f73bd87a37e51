/** What one call moves: the whole transaction when it succeeds, a prefix of its entries when it fails. */
module RecordLaw {
  import opened Results
  import opened Money
  import opened Accounts
  import opened Transactions
  import opened EventStore
  import opened Ledger
  import opened Steps
  import opened Commands
  import opened Moments
  import opened Posting
  import opened SagaPlan
  import opened Books

  /** Every balance has moved by the entries of es, and by nothing else. */
  ghost predicate MovedBy(st: State, st': State, es: seq<Entry>) {
    forall a: AccountID :: Balance(st', a) == Wrap(Balance(st, a) + AccountSum(es, a))
  }

  /** The loop moves balances by exactly the entries whose saves took effect. */
  lemma LoopMoves(st: State, env: Env, es: seq<Entry>)
    requires WellFormed(st)
    ensures Saves(st.accounts, env, st.ops, es) <= |es|
    ensures MovedBy(st, ApplyEntries(st, env, es).0, es[..Saves(st.accounts, env, st.ops, es)])
  {
    hide WellFormed, CoherentTable, AllAccepted, PostAll, ApplyEntries, Saves, AccountSum, Wrap;
    Coheres(st);
    LoopLeaves(st, env, es);
    var st', k := ApplyEntries(st, env, es).0, Saves(st.accounts, env, st.ops, es);
    forall a: AccountID ensures Balance(st', a) == Wrap(Balance(st, a) + AccountSum(es[..k], a)) {
      PostAllBalance(st.accounts, es[..k], a);
    }
  }

  /** A trace that moves nothing leaves every balance. */
  lemma StillMoves(st: State, ts: seq<State>, end: State)
    requires WellFormed(st) && Traces(st, ts, end, 0, true)
    ensures MovedBy(st, end, [])
  {
    hide WellFormed, Unbroken, Wrap;
    var ls, es :| Leads(st, ls, end, es) && Within(es, 0, true);
    forall a: AccountID ensures Balance(end, a) == Wrap(Balance(st, a) + AccountSum([], a)) {
      PathMovesBalances(st, ls, a);
      AccountSumBound(es, a);
    }
  }

  lemma SameAccountsMoved(st: State, st1: State, st2: State, es: seq<Entry>)
    requires MovedBy(st, st1, es) && st2.accounts == st1.accounts
    ensures MovedBy(st, st2, es)
  {
    hide Wrap, AccountSum;
    forall a: AccountID ensures Balance(st2, a) == Wrap(Balance(st, a) + AccountSum(es, a)) {
      assert Balance(st2, a) == Balance(st1, a);
    }
  }

  lemma FinishStores(st: State, env: Env, tx: Transaction)
    requires tx.id !in st.transactions
    ensures Finish(st, env, tx).0.accounts == st.accounts
    ensures Finish(st, env, tx).0.audit.stranded
         == st.audit.stranded + if tx.id in Finish(st, env, tx).0.transactions then [] else [st.audit.pending]
    ensures Finish(st, env, tx).0.transactions in {st.transactions, st.transactions[tx.id := tx]}
    ensures Finish(st, env, tx).1.Ok? ==>
              && Finish(st, env, tx).1.value == tx
              && Finish(st, env, tx).0.transactions == st.transactions[tx.id := tx]
              && Finish(st, env, tx).0.tables.events == st.tables.events + [Event(tx.id, 1, TransactionRecorded(tx))]
  {
    assert st.audit.stranded + [] == st.audit.stranded;
  }

  /** tx is stored, and its event is the last one in the log. */
  ghost predicate StoredWithEvent(st: State, tx: Transaction) {
    && tx.id in st.transactions && st.transactions[tx.id] == tx
    && |st.tables.events| > 0 && st.tables.events[|st.tables.events| - 1].payload == TransactionRecorded(tx)
  }

  /** What a call with entries es leaves: the first k applied; all of them if the transaction is stored, stranded otherwise. */
  ghost predicate Leaves(st: State, st': State, id: TransactionID, es: seq<Entry>, k: nat) {
    && k <= |es| && MovedBy(st, st', es[..k])
    && (id in st'.transactions ==> k == |es|)
    && st'.audit.stranded == st.audit.stranded + if id in st'.transactions then [] else [es[..k]]
  }

  lemma CommitMoves(st: State, env: Env, tx: Transaction)
    requires WellFormed(st) && st.audit.pending == [] && tx.id !in st.transactions
    ensures var (st', r) := Commit(st, env, tx);
            && Leaves(st, st', tx.id, tx.entries, Saves(st.accounts, env, st.ops, tx.entries))
            && (r.Ok? ==> r.value == tx && StoredWithEvent(st', tx))
  {
    hide WellFormed, ApplyEntries, Finish, MovedBy, Saves, CoherentTable, AllAccepted, PostAll;
    var es := tx.entries;
    var (st1, applied) := ApplyEntries(st, env, es);
    var k := Saves(st.accounts, env, st.ops, es);
    Coheres(st);
    LoopLeaves(st, env, es);
    LoopMoves(st, env, es);
    assert [] + es[..k] == es[..k];
    FinishStores(st1, env, tx);
    SameAccountsMoved(st, st1, Commit(st, env, tx).0, es[..k]);
  }

  /** The command passes every check made before the first storage call. */
  ghost predicate Admitted(cmds: seq<EntryCmd>) {
    ToEntries(cmds).Ok? && Rejection(ToEntries(cmds).value) == None
  }

  /**
   Under every fault pattern, RecordTransaction moves every balance by exactly the entries whose saves took
   effect: without storage faults the funded prefix. If it succeeds, that is all of them, the transaction
   is stored and its event is the last one in the log; if the transaction is not stored, they are stranded.
   */
  lemma RecordMoves(st: State, env: Env, cmds: seq<EntryCmd>, description: string)
    requires WellFormed(st) && st.audit.pending == []
    ensures var (st', r) := RecordTransaction(st, env, cmds, description);
            if !Admitted(cmds) then r.Err? && st' == st
            else
              var es := ToEntries(cmds).value;
              var k := Saves(st.accounts, env, st.ops, es);
              && Leaves(st, st', st.nextId, es, k)
              && (FaultFree(env) ==> k == FundedPrefix(st.accounts, es))
              && (r.Ok? ==> r.value == Transaction(st.nextId, es, description) && StoredWithEvent(st', r.value))
  {
    hide WellFormed, Commit, MovedBy, Rejection, Saves, FundedPrefix, CoherentTable, FaultFree;
    if Admitted(cmds) {
      var es := ToEntries(cmds).value;
      var tx := Transaction(st.nextId, es, description);
      assert WellFormed(st.Draw()) by { StepKeepsWellFormed(st, DrawId); }
      FreshId(st);
      CommitMoves(st.Draw(), env, tx);
      DrawnMoves(st, Commit(st.Draw(), env, tx).0, es[..Saves(st.accounts, env, st.ops, es)]);
      if FaultFree(env) {
        Coheres(st);
        SavesAreFunded(st.accounts, env, st.ops, es);
      }
    }
  }

  lemma DrawnMoves(st: State, st': State, es: seq<Entry>)
    requires MovedBy(st.Draw(), st', es)
    ensures MovedBy(st, st', es)
  {
    hide Wrap, AccountSum;
    forall a: AccountID ensures Balance(st', a) == Wrap(Balance(st, a) + AccountSum(es, a)) {
      assert Balance(st.Draw(), a) == Balance(st, a);
    }
  }

  // ---------------------------------------------------------------- what the call answers

  /** A known currency for every entry, or the error. */
  lemma {:induction false} ToEntriesIs(cmds: seq<EntryCmd>)
    ensures if exists i :: 0 <= i < |cmds| && cmds[i].currency !in {"USD", "MYR", "SGD", "EUR", "GBP"}
            then ToEntries(cmds) == Err(InvalidCurrency)
            else && ToEntries(cmds).Ok? && |ToEntries(cmds).value| == |cmds|
                 && forall i :: 0 <= i < |cmds| ==>
                      ToEntries(cmds).value[i] == Entry(cmds[i].account, Money(cmds[i].amount, cmds[i].currency), cmds[i].kind)
  {
    if cmds != [] {
      var n := |cmds| - 1;
      ToEntriesIs(cmds[..n]);
      assert forall i :: 0 <= i < n ==> cmds[..n][i] == cmds[i];
    }
  }

  lemma {:induction false} LoopOps(st: State, env: Env, es: seq<Entry>)
    requires ApplyEntries(st, env, es).1.Ok?
    ensures ApplyEntries(st, env, es).0.ops == st.ops + 2 * |es|
    decreases es
  {
    if es != [] {
      LoopOps(ApplyEntry(st, env, es[0]).0, env, es[1..]);
    }
  }

  lemma FinishAnswers(st: State, env: Env, tx: Transaction)
    requires forall i :: 0 <= i < |st.tables.events| ==> st.tables.events[i].aggregate != tx.id
    ensures Finish(st, env, tx).1
         == if env.reply(Storing, st.ops).Done? && env.reply(Appending, st.ops + 1).Done? then Ok(tx) else Err(StorageFault)
  {
    assert !Clash(st.tables.events, tx.id, 0, 1);
  }

  /** Every storage call of a recording that gets through its loop, from the n-th on, is acknowledged. */
  ghost predicate Acknowledged(env: Env, n: nat, es: seq<Entry>) {
    && (es != [] ==> env.reply(Updating, n + 2 * |es| - 1).Done?)
    && env.reply(Storing, n + 2 * |es|).Done? && env.reply(Appending, n + 2 * |es| + 1).Done?
  }

  lemma CommitAnswers(st: State, env: Env, tx: Transaction)
    requires WellFormed(st) && st.audit.pending == []
    requires forall i :: 0 <= i < |st.tables.events| ==> st.tables.events[i].aggregate != tx.id
    ensures var r := Commit(st, env, tx).1;
            var k := Saves(st.accounts, env, st.ops, tx.entries);
            && k <= |tx.entries| && AllAccepted(st.accounts, tx.entries[..k])
            && (r.Ok? <==> k == |tx.entries| && Acknowledged(env, st.ops, tx.entries))
            && (r.Err? ==> r.error == if StopsAt(st.accounts, env, st.ops, tx.entries, k)
                                      then Refusal(st.accounts, tx.entries[k]) else StorageFault)
  {
    hide WellFormed, CoherentTable, ApplyEntries, Saves, AllAccepted, PostAll, Finish, Refusal, Accepts;
    Coheres(st);
    LoopLeaves(st, env, tx.entries);
    LoopAnswers(st, env, tx.entries);
    var (st1, applied) := ApplyEntries(st, env, tx.entries);
    if applied.Ok? {
      LoopOps(st, env, tx.entries);
      FinishAnswers(st1, env, tx);
    }
  }

  /**
   What RecordTransaction answers, under every fault pattern: an unknown currency and the constructor's
   checks first; then success, exactly when every entry is saved and every storage call acknowledged; else
   the refusal of the entry the loop stops at, told from the table and that entry; else a storage fault.
   */
  lemma RecordAnswers(st: State, env: Env, cmds: seq<EntryCmd>, description: string)
    requires WellFormed(st) && st.audit.pending == []
    ensures var r := RecordTransaction(st, env, cmds, description).1;
            if exists i :: 0 <= i < |cmds| && cmds[i].currency !in {"USD", "MYR", "SGD", "EUR", "GBP"} then r == Err(InvalidCurrency)
            else
              && ToEntries(cmds).Ok?
              && var es := ToEntries(cmds).value;
                 if Rejection(es).Some? then r == Err(Rejection(es).value)
                 else
                   var k := Saves(st.accounts, env, st.ops, es);
                   && k <= |es| && AllAccepted(st.accounts, es[..k])
                   && (r.Ok? <==> k == |es| && Acknowledged(env, st.ops, es))
                   && (r.Err? ==> r.error == if StopsAt(st.accounts, env, st.ops, es, k) then Refusal(st.accounts, es[k]) else StorageFault)
  {
    hide WellFormed, Commit, Rejection, Saves, AllAccepted, StopsAt, Refusal, Acknowledged, ToEntries;
    ToEntriesIs(cmds);
    if ToEntries(cmds).Ok? && Rejection(ToEntries(cmds).value).None? {
      assert WellFormed(st.Draw()) by { StepKeepsWellFormed(st, DrawId); }
      assert forall i :: 0 <= i < |st.tables.events| ==> st.tables.events[i].aggregate != st.nextId by { UnusedAggregate(st); }
      CommitAnswers(st.Draw(), env, Transaction(st.nextId, ToEntries(cmds).value, description));
    }
  }

  lemma UnusedAggregate(st: State)
    requires WellFormed(st)
    ensures forall i :: 0 <= i < |st.tables.events| ==> st.tables.events[i].aggregate != st.nextId
  {
  }

  /** Without storage faults: the refusal of the first entry that is not funded, or success. */
  lemma FaultFreeAnswers(st: State, env: Env, cmds: seq<EntryCmd>, description: string)
    requires FaultFree(env) && WellFormed(st) && st.audit.pending == [] && Admitted(cmds)
    ensures var r := RecordTransaction(st, env, cmds, description).1;
            var es := ToEntries(cmds).value;
            var k := FundedPrefix(st.accounts, es);
            (r.Ok? <==> k == |es|) && (r.Err? ==> r.error == Refusal(st.accounts, es[k]))
  {
    hide WellFormed, RecordTransaction, Rejection, Saves, AllAccepted, PostAll, Refusal, FundedPrefix, CoherentTable, Accepts;
    var es := ToEntries(cmds).value;
    var k := FundedPrefix(st.accounts, es);
    ToEntriesIs(cmds);
    RecordAnswers(st, env, cmds, description);
    Coheres(st);
    SavesAreFunded(st.accounts, env, st.ops, es);
    if k < |es| {
      AcceptedPrefix(st.accounts, es, k + 1);
      AcceptNext(st.accounts, es[..k], es[k]);
      assert es[..k] + [es[k]] == es[..k + 1];
    }
  }
}
