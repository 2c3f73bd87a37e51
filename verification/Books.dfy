/**
 What the books say at every moment of every run: balances are the sums of the entries applied, the
 totals drift from zero by exactly the stranded prefixes, the read model lags by exactly the
 transactions that never reached it, and asset accounts stay non-negative.
 */
module Books {
  import opened Results
  import opened Money
  import opened Accounts
  import opened Transactions
  import opened Repositories
  import opened Projection
  import opened Ledger
  import opened Steps
  import opened Commands
  import opened Moments

  // ---------------------------------------------------------------- balances

  function Balance(st: State, a: AccountID): int64 {
    if a in st.accounts then st.accounts[a].balance.amount else 0
  }

  /** Sum over the prefixes left by failed calls. */
  function StrandedSum(stranded: seq<seq<Entry>>, a: AccountID): int {
    if stranded == [] then 0
    else StrandedSum(stranded[..|stranded| - 1], a) + AccountSum(stranded[|stranded| - 1], a)
  }

  /** Exact sum of account a's entries: stored, stranded, or applied by the call in progress. */
  function BookSum(st: State, a: AccountID): int {
    SavedSum(st.transactions, st.nextId, a) + StrandedSum(st.audit.stranded, a) + AccountSum(st.audit.pending, a)
  }

  ghost predicate BooksOK(st: State, a: AccountID) {
    Balance(st, a) == Wrap(BookSum(st, a)) && Abs(BookSum(st, a)) <= st.audit.moved
  }

  /** Applying e moves the balance of its account, and no other, by the signed amount. */
  lemma AppliedBalance(st: State, e: Entry, a: AccountID)
    requires WellFormed(st) && Enabled(st, Apply(e))
    ensures Balance(Do(st, Apply(e)), a) == if e.account == a then Wrap(Balance(st, a) + Signed(e)) else Balance(st, a)
  {
    ApplyToMeans(st.accounts[e.account], e);
  }

  lemma AppliedBookSum(st: State, e: Entry, a: AccountID)
    requires Enabled(st, Apply(e))
    ensures BookSum(Do(st, Apply(e)), a) == BookSum(st, a) + if e.account == a then Signed(e) else 0
  {
    PushAccount(st.audit.pending, e, a);
  }

  lemma AppliedMoved(st: State, e: Entry)
    requires Enabled(st, Apply(e))
    ensures Do(st, Apply(e)).audit.moved == st.audit.moved + Abs(Signed(e))
  {
  }

  lemma AbandonKeepsSum(st: State, a: AccountID)
    ensures BookSum(st.Strand(), a) == BookSum(st, a)
  {
    hide AccountSum, SavedSum;
    assert (st.audit.stranded + [st.audit.pending])[..|st.audit.stranded|] == st.audit.stranded;
    assert AccountSum([], a) == 0 by { UntouchedSum([], a); }
  }

  lemma StoreKeepsSum(st: State, tx: Transaction, a: AccountID)
    requires tx.entries == st.audit.pending && tx.id !in st.transactions && tx.id < st.nextId
    ensures BookSum(st.Stored(tx), a) == BookSum(st, a)
  {
    hide AccountSum, SavedSum, StrandedSum;
    SavedSumInsert(st.transactions, st.nextId, tx.id, tx, a);
    assert AccountSum([], a) == 0 by { UntouchedSum([], a); }
  }

  lemma DrawKeepsSum(st: State, a: AccountID)
    requires WellFormed(st)
    ensures BookSum(st.Draw(), a) == BookSum(st, a)
  {
    hide AccountSum, StrandedSum, Coherent, Known;
  }

  /** Steps that apply no entry move the sum between its three parts at most. */
  lemma QuietKeepsBooks(st: State, l: Label, a: AccountID)
    requires WellFormed(st) && Enabled(st, l) && BooksOK(st, a) && !l.Apply?
    ensures BooksOK(Do(st, l), a)
  {
    hide WellFormed, Wrap, AccountSum, SavedSum, StrandedSum, Rejection, ProjectEntries, Coherent, Grounded;
    match l
    case Abandon =>
      AbandonKeepsSum(st, a);
    case StoreTx(tx) =>
      StoreKeepsSum(st, tx, a);
    case DrawId =>
      DrawKeepsSum(st, a);
    case Open(acc) =>
      assert acc.id !in st.accounts by { FreshId(st); }
      DrawKeepsSum(st, a);
    case _ =>
  }

  lemma StepKeepsBooks(st: State, l: Label, a: AccountID)
    requires WellFormed(st) && Enabled(st, l) && BooksOK(st, a)
    ensures BooksOK(Do(st, l), a)
  {
    hide WellFormed, Enabled, Do, Balance, BookSum, Wrap, Signed;
    if l.Apply? {
      AppliedBalance(st, l.e, a);
      AppliedBookSum(st, l.e, a);
      AppliedMoved(st, l.e);
      WrapAdd(BookSum(st, a), Signed(l.e));
    } else {
      QuietKeepsBooks(st, l, a);
    }
  }

  // ---------------------------------------------------------------- totals per currency

  /** Sum of the amounts in currency c held under ids below n. */
  function Total(m: map<AccountID, Money>, n: nat, c: Currency): int {
    if n == 0 then 0 else Total(m, n - 1, c) + Share(m, n - 1, c)
  }

  function Share(m: map<AccountID, Money>, id: AccountID, c: Currency): int {
    if id in m && m[id].currency == c then m[id].amount else 0
  }

  lemma {:induction false} TotalUpdate(m: map<AccountID, Money>, n: nat, id: AccountID, x: Money, c: Currency)
    ensures Total(m[id := x], n, c)
         == Total(m, n, c) + if id < n then Share(m[id := x], id, c) - Share(m, id, c) else 0
  {
    if n > 0 {
      TotalUpdate(m, n - 1, id, x, c);
    }
  }

  function WriteBalances(st: State): map<AccountID, Money> {
    map id | id in st.accounts :: Money(st.accounts[id].balance.amount, st.accounts[id].currency)
  }

  /** What all accounts in currency c hold together on the write side. */
  function WriteTotal(st: State, c: Currency): int {
    Total(WriteBalances(st), st.nextId, c)
  }

  function StrandedCurrency(stranded: seq<seq<Entry>>, c: Currency): int {
    if stranded == [] then 0
    else StrandedCurrency(stranded[..|stranded| - 1], c) + CurrencySum(stranded[|stranded| - 1], c)
  }

  /** What prefixes without their transaction have added to the total of currency c. */
  function Drift(st: State, c: Currency): int {
    StrandedCurrency(st.audit.stranded, c) + CurrencySum(st.audit.pending, c)
  }

  ghost predicate TotalOK(st: State, c: Currency) {
    Wrap(WriteTotal(st, c)) == Wrap(Drift(st, c))
  }

  /** Adding congruent amounts keeps two integers congruent. */
  lemma WrapShift(x: int, y: int, dx: int, dy: int)
    requires Wrap(x) == Wrap(y) && Wrap(dx) == Wrap(dy)
    ensures Wrap(x + dx) == Wrap(y + dy)
  {
    WrapAdd(x, dx);
    WrapAdd(y, dx);
    WrapAdd(dx, y);
    WrapAdd(dy, y);
  }

  /** Replacing a balance b by Wrap(b + s) moves a total by s. */
  lemma BalanceShift(total: int, owed: int, b: int, s: int)
    requires Wrap(total) == Wrap(owed)
    ensures Wrap(total + Wrap(b + s) - b) == Wrap(owed + s)
  {
    WrapAdd(b + s, -b);
    WrapShift(total, owed, Wrap(b + s) - b, s);
  }

  /** Writing a record moves its currency's total by the change of that record. */
  lemma WroteTotal(st: State, acc: Account, c: Currency)
    requires WellFormed(st) && acc.id < st.nextId
    requires acc.id in st.accounts ==> st.accounts[acc.id].currency == acc.currency
    ensures WriteTotal(st.Wrote(acc), c)
         == WriteTotal(st, c) + if acc.currency == c then acc.balance.amount - Balance(st, acc.id) else 0
  {
    assert WriteBalances(st.Wrote(acc)) == WriteBalances(st)[acc.id := Money(acc.balance.amount, acc.currency)];
    TotalUpdate(WriteBalances(st), st.nextId, acc.id, Money(acc.balance.amount, acc.currency), c);
  }

  /** A new account adds nothing to any total. */
  lemma OpenKeepsTotal(st: State, acc: Account, c: Currency)
    requires WellFormed(st) && Enabled(st, Open(acc))
    ensures WriteTotal(Do(st, Open(acc)), c) == WriteTotal(st, c)
  {
    hide Coherent, Known;
    assert WellFormed(st.Draw()) by { StepKeepsWellFormed(st, DrawId); }
    WroteTotal(st.Draw(), acc, c);
    assert WriteBalances(st.Draw()) == WriteBalances(st);
  }

  /** An accepted transaction sums to zero in every currency, modulo 2^64 and below 2^64 exactly. */
  lemma AcceptedSumsToZero(es: seq<Entry>, c: Currency)
    requires Rejection(es) == None
    ensures Wrap(CurrencySum(es, c)) == 0
    ensures Volume(es) < 0x1_0000_0000_0000_0000 ==> CurrencySum(es, c) == 0
  {
    AcceptedIffBalanced(0, es, "");
    CurrencySumOfOne(es, es[0].amount.currency, c);
  }

  lemma AppliedTotal(st: State, e: Entry, c: Currency)
    requires WellFormed(st) && Enabled(st, Apply(e))
    ensures WriteTotal(Do(st, Apply(e)), c) == WriteTotal(st, c)
         + if e.kind.Unknown? || e.amount.currency != c then 0
           else Wrap(Balance(st, e.account) + Signed(e)) - Balance(st, e.account)
  {
    var acc := st.accounts[e.account];
    ApplyToMeans(acc, e);
    WroteTotal(st, ApplyTo(acc, e).value, c);
    assert WriteTotal(Do(st, Apply(e)), c) == WriteTotal(st.Wrote(ApplyTo(acc, e).value), c);
  }

  lemma AppliedDrift(st: State, e: Entry, c: Currency)
    requires Enabled(st, Apply(e))
    ensures Drift(Do(st, Apply(e)), c)
         == Drift(st, c) + if e.kind.Unknown? || e.amount.currency != c then 0 else Signed(e)
  {
    PushCurrency(st.audit.pending, e, c);
  }

  lemma ApplyKeepsTotals(st: State, e: Entry, c: Currency)
    requires WellFormed(st) && Enabled(st, Apply(e)) && TotalOK(st, c)
    ensures TotalOK(Do(st, Apply(e)), c)
  {
    hide WellFormed, Enabled, Do, WriteTotal, Drift, Balance;
    AppliedTotal(st, e, c);
    AppliedDrift(st, e, c);
    BalanceShift(WriteTotal(st, c), Drift(st, c), Balance(st, e.account), Signed(e));
  }

  lemma StoreKeepsTotals(st: State, tx: Transaction, c: Currency)
    requires Enabled(st, StoreTx(tx)) && TotalOK(st, c)
    ensures TotalOK(Do(st, StoreTx(tx)), c)
  {
    var s := CurrencySum(st.audit.pending, c);
    AcceptedSumsToZero(tx.entries, c);
    WrapAdd(s, -s);
    WrapShift(WriteTotal(st, c), Drift(st, c), 0, -s);
  }

  lemma StepKeepsTotals(st: State, l: Label, c: Currency)
    requires WellFormed(st) && Enabled(st, l) && TotalOK(st, c)
    ensures TotalOK(Do(st, l), c)
  {
    match l
    case Open(acc) =>
      OpenKeepsTotal(st, acc, c);
    case Apply(e) =>
      ApplyKeepsTotals(st, e, c);
    case Abandon =>
      assert (st.audit.stranded + [st.audit.pending])[..|st.audit.stranded|] == st.audit.stranded;
    case StoreTx(tx) =>
      StoreKeepsTotals(st, tx, c);
    case _ =>
  }

  /** While less than 2^63 has moved, nothing wraps and the total is exactly the drift. */
  ghost predicate ExactTotalOK(st: State, c: Currency) {
    && Abs(CurrencySum(st.audit.pending, c)) <= st.audit.moved
    && (st.audit.moved < 0x8000_0000_0000_0000 ==> WriteTotal(st, c) == Drift(st, c))
  }

  lemma ApplyKeepsExactTotal(st: State, e: Entry, c: Currency)
    requires WellFormed(st) && Enabled(st, Apply(e)) && ExactTotalOK(st, c) && BooksOK(st, e.account)
    ensures ExactTotalOK(Do(st, Apply(e)), c)
  {
    AppliedTotal(st, e, c);
    AppliedDrift(st, e, c);
    PushCurrency(st.audit.pending, e, c);
  }

  lemma StoreKeepsExactTotal(st: State, tx: Transaction, c: Currency)
    requires Enabled(st, StoreTx(tx)) && ExactTotalOK(st, c)
    ensures ExactTotalOK(Do(st, StoreTx(tx)), c)
  {
    AcceptedSumsToZero(tx.entries, c);
  }

  lemma StepKeepsExactTotal(st: State, l: Label, c: Currency)
    requires WellFormed(st) && Enabled(st, l) && ExactTotalOK(st, c)
    requires forall a :: BooksOK(st, a)
    ensures ExactTotalOK(Do(st, l), c)
  {
    match l
    case Open(acc) =>
      OpenKeepsTotal(st, acc, c);
    case Apply(e) =>
      assert BooksOK(st, e.account);
      ApplyKeepsExactTotal(st, e, c);
    case Abandon =>
      assert (st.audit.stranded + [st.audit.pending])[..|st.audit.stranded|] == st.audit.stranded;
    case StoreTx(tx) =>
      StoreKeepsExactTotal(st, tx, c);
    case _ =>
  }

  // ---------------------------------------------------------------- the read side

  function UnprojectedSum(txs: seq<Transaction>, a: AccountID): int {
    if txs == [] then 0 else UnprojectedSum(txs[..|txs| - 1], a) + AccountSum(txs[|txs| - 1].entries, a)
  }

  /** What the rows of one account meant to the write side. */
  function WriteRowSum(rows: seq<HistoryRow>): int {
    if rows == [] then 0 else WriteRowSum(rows[..|rows| - 1]) + Signed(rows[|rows| - 1].entry)
  }

  /** History rows and balance row agree, and rows plus the missing transactions are the stored ones. */
  ghost predicate ReadOK(st: State, a: AccountID) {
    && HistoryInv(st.read, a)
    && SavedSum(st.transactions, st.nextId, a)
    == WriteRowSum(Rows(st.read.history, a)) + UnprojectedSum(st.audit.unprojected, a)
  }

  lemma {:induction false} ProjectedRows(rm: ReadModel, tx: Transaction, es: seq<Entry>, a: AccountID)
    requires ProjectEntries(rm, tx, es).Ok?
    ensures WriteRowSum(Rows(ProjectEntries(rm, tx, es).value.history, a))
         == WriteRowSum(Rows(rm.history, a)) + AccountSum(es, a)
  {
    if es != [] {
      var n := |es| - 1;
      var rm1 := ProjectEntries(rm, tx, es[..n]).value;
      var rm' := ProjectEntries(rm, tx, es).value;
      ProjectedRows(rm, tx, es[..n], a);
      assert rm'.history[..|rm1.history|] == rm1.history;
      var rows, row := Rows(rm1.history, a), rm'.history[|rm1.history|];
      assert (rows + [row])[..|rows|] == rows;
      assert Rows(rm'.history, a) == if es[n].account == a then rows + [row] else rows;
    }
  }

  lemma StepKeepsRead(st: State, l: Label, a: AccountID)
    requires WellFormed(st) && Enabled(st, l) && ReadOK(st, a)
    ensures ReadOK(Do(st, l), a)
  {
    match l
    case StoreTx(tx) =>
      SavedSumInsert(st.transactions, st.nextId, tx.id, tx, a);
      assert (st.audit.unprojected + [tx])[..|st.audit.unprojected|] == st.audit.unprojected;
    case ShowTransaction(tx) =>
      EntriesKeepHistory(st.read, tx, tx.entries, a);
      ProjectedRows(st.read, tx, tx.entries, a);
    case _ =>
  }

  function ReadBalances(rm: ReadModel): map<AccountID, Money> {
    map id | id in rm.balances :: Money(rm.balances[id].balance, rm.balances[id].currency)
  }

  function ReadTotal(st: State, c: Currency): int {
    Total(ReadBalances(st.read), st.nextId, c)
  }

  ghost predicate TypedEntries(es: seq<Entry>) {
    forall i :: 0 <= i < |es| ==> !es[i].kind.Unknown?
  }

  /** No stored transaction has an entry whose type is neither DEBIT nor CREDIT. */
  ghost predicate Typed(st: State) {
    forall id :: id in st.transactions ==> TypedEntries(st.transactions[id].entries)
  }

  /** No stored transaction moves 2^63 or more. */
  ghost predicate Modest(st: State) {
    forall id :: id in st.transactions ==> Volume(st.transactions[id].entries) < 0x8000_0000_0000_0000
  }

  ghost predicate ReadTotalOK(st: State, c: Currency) {
    && (forall i :: 0 <= i < |st.audit.unprojected| ==>
          var tx := st.audit.unprojected[i];
          tx.id in st.transactions && st.transactions[tx.id] == tx && Rejection(tx.entries) == None)
    && (Typed(st) ==> Wrap(ReadTotal(st, c)) == 0)
    && (Typed(st) && Modest(st) ==> ReadTotal(st, c) == 0)
  }

  lemma ProjectedEntryTotal(rm: ReadModel, tx: Transaction, e: Entry, n: nat, c: Currency)
    requires ProjectEntry(rm, tx, e).Ok? && e.account < n && rm.balances[e.account].currency == e.amount.currency
    ensures Total(ReadBalances(ProjectEntry(rm, tx, e).value), n, c)
         == Total(ReadBalances(rm), n, c) + if e.amount.currency == c then Delta(e) else 0
  {
    hide Delta, FitsInt64;
    var rm' := ProjectEntry(rm, tx, e).value;
    var x := Money(rm'.balances[e.account].balance, e.amount.currency);
    assert ReadBalances(rm') == ReadBalances(rm)[e.account := x];
    TotalUpdate(ReadBalances(rm), n, e.account, x, c);
  }

  /** A typed entry whose balance row, if there is one, is in the entry's currency. */
  ghost predicate Fits(rm: ReadModel, e: Entry, n: nat) {
    && !e.kind.Unknown?
    && (e.account in rm.balances ==> e.account < n && rm.balances[e.account].currency == e.amount.currency)
  }

  /** Exact sum of what the projector adds to the rows of currency c. */
  function DeltaSum(es: seq<Entry>, c: Currency): int {
    if es == [] then 0
    else
      var last := es[|es| - 1];
      DeltaSum(es[..|es| - 1], c) + if last.amount.currency == c then Delta(last) else 0
  }

  /** The database refuses to overflow, so the read-side total moves by the exact sum of the deltas. */
  lemma {:induction false} ProjectedTotal(rm: ReadModel, tx: Transaction, es: seq<Entry>, n: nat, c: Currency)
    requires ProjectEntries(rm, tx, es).Ok?
    requires forall i :: 0 <= i < |es| ==> Fits(rm, es[i], n)
    ensures Total(ReadBalances(ProjectEntries(rm, tx, es).value), n, c) == Total(ReadBalances(rm), n, c) + DeltaSum(es, c)
    ensures forall e :: Fits(rm, e, n) ==> Fits(ProjectEntries(rm, tx, es).value, e, n)
  {
    if es != [] {
      hide Total, ReadBalances, Delta, FitsInt64;
      var k := |es| - 1;
      var rm1, e := ProjectEntries(rm, tx, es[..k]).value, es[k];
      ProjectedTotal(rm, tx, es[..k], n, c);
      assert Fits(rm, e, n);
      ProjectedEntryTotal(rm1, tx, e, n, c);
    }
  }

  lemma DeltaMeans(e: Entry)
    requires !e.kind.Unknown?
    ensures Wrap(Delta(e)) == Wrap(Signed(e))
    ensures Abs(e.amount.amount) < 0x8000_0000_0000_0000 ==> Delta(e) == Signed(e)
  {
    WrapAdd(0 - e.amount.amount, 0);
  }

  /** For typed entries the deltas are the signed amounts modulo 2^64, and exactly so for modest ones. */
  lemma {:induction false} DeltaSumTyped(es: seq<Entry>, c: Currency)
    requires TypedEntries(es)
    ensures Wrap(DeltaSum(es, c)) == Wrap(CurrencySum(es, c))
    ensures Volume(es) < 0x8000_0000_0000_0000 ==> DeltaSum(es, c) == CurrencySum(es, c)
  {
    if es != [] {
      hide Wrap, Delta, Signed;
      var k := |es| - 1;
      DeltaSumTyped(es[..k], c);
      DeltaMeans(es[k]);
      if es[k].amount.currency == c {
        WrapShift(DeltaSum(es[..k], c), CurrencySum(es[..k], c), Delta(es[k]), Signed(es[k]));
      }
    }
  }

  /** What projecting an accepted, typed transaction adds to a currency: nothing. */
  lemma DeltaSumIsZero(es: seq<Entry>, c: Currency)
    requires Rejection(es) == None && TypedEntries(es)
    ensures Wrap(DeltaSum(es, c)) == 0
    ensures Volume(es) < 0x8000_0000_0000_0000 ==> DeltaSum(es, c) == 0
  {
    hide DeltaSum, CurrencySum, Volume, Wrap, Rejection;
    DeltaSumTyped(es, c);
    AcceptedSumsToZero(es, c);
  }

  lemma ShowKeepsReadTotal(st: State, tx: Transaction, c: Currency)
    requires WellFormed(st) && Enabled(st, ShowTransaction(tx)) && ReadTotalOK(st, c) && Typed(st)
    ensures Wrap(ReadTotal(Do(st, ShowTransaction(tx)), c)) == 0
    ensures Modest(st) ==> ReadTotal(Do(st, ShowTransaction(tx)), c) == 0
  {
    hide ProjectEntries, Rejection, Total, DeltaSum, Coherent, Volume;
    var last := |st.audit.unprojected| - 1;
    assert st.audit.unprojected[last] == tx && TypedEntries(tx.entries);
    forall i | 0 <= i < |tx.entries| ensures Fits(st.read, tx.entries[i], st.nextId) {
      assert Known(st, st.audit.unprojected[last].entries[i]);
    }
    ProjectedTotal(st.read, tx, tx.entries, st.nextId, c);
    DeltaSumIsZero(tx.entries, c);
    WrapShift(ReadTotal(st, c), 0, DeltaSum(tx.entries, c), 0);
  }

  lemma StoreKeepsReadTotal(st: State, tx: Transaction, c: Currency)
    requires WellFormed(st) && Enabled(st, StoreTx(tx)) && ReadTotalOK(st, c)
    ensures ReadTotalOK(Do(st, StoreTx(tx)), c)
  {
    hide Wrap, Rejection, Volume, TypedEntries, Coherent, Known;
    var st' := Do(st, StoreTx(tx));
    assert (Typed(st') ==> Typed(st)) && (Modest(st') ==> Modest(st)) by {
      assert forall id :: id in st.transactions ==> st'.transactions[id] == st.transactions[id];
    }
  }

  lemma OpenedReadTotal(st: State, acc: Account, c: Currency)
    requires WellFormed(st) && Enabled(st, ShowAccount(acc))
    ensures ReadTotal(Do(st, ShowAccount(acc)), c) == ReadTotal(st, c)
  {
    hide Coherent, Known;
    var st' := Do(st, ShowAccount(acc));
    if acc.id !in st.read.balances {
      assert ReadBalances(st'.read) == ReadBalances(st.read)[acc.id := Money(0, acc.currency)];
      TotalUpdate(ReadBalances(st.read), st.nextId, acc.id, Money(0, acc.currency), c);
    }
  }

  lemma DrawnReadTotal(st: State, c: Currency)
    requires WellFormed(st)
    ensures ReadTotal(st.Draw(), c) == ReadTotal(st, c)
  {
  }

  lemma StepKeepsReadTotal(st: State, l: Label, c: Currency)
    requires WellFormed(st) && Enabled(st, l) && ReadTotalOK(st, c)
    ensures ReadTotalOK(Do(st, l), c)
  {
    hide WellFormed, Wrap, ProjectEntries, Rejection, Volume, ApplyTo, Total;
    match l
    case StoreTx(tx) =>
      StoreKeepsReadTotal(st, tx, c);
    case ShowAccount(acc) =>
      OpenedReadTotal(st, acc, c);
    case ShowTransaction(tx) =>
      if Typed(st) {
        ShowKeepsReadTotal(st, tx, c);
      }
    case DrawId =>
      DrawnReadTotal(st, c);
    case Open(acc) =>
      DrawnReadTotal(st, c);
    case _ =>
  }

  // ---------------------------------------------------------------- overdrafts

  ghost predicate PositiveEntries(es: seq<Entry>) {
    forall i :: 0 <= i < |es| ==> es[i].amount.amount > 0
  }

  /** Every entry ever applied has a positive amount. */
  ghost predicate AllPositive(st: State) {
    && PositiveEntries(st.audit.pending)
    && (forall i :: 0 <= i < |st.audit.stranded| ==> PositiveEntries(st.audit.stranded[i]))
    && (forall id :: id in st.transactions ==> PositiveEntries(st.transactions[id].entries))
  }

  ghost predicate NoOverdraft(st: State) {
    forall id :: id in st.accounts && st.accounts[id].kind.Asset? ==> st.accounts[id].balance.amount >= 0
  }

  ghost predicate OverdraftOK(st: State) {
    AllPositive(st) && st.audit.moved < 0x8000_0000_0000_0000 ==> NoOverdraft(st)
  }

  lemma StepUndoesPositive(st: State, l: Label)
    requires WellFormed(st) && Enabled(st, l) && AllPositive(Do(st, l))
    ensures AllPositive(st)
  {
    var st' := Do(st, l);
    match l
    case Apply(e) =>
      assert forall i :: 0 <= i < |st.audit.pending| ==> st'.audit.pending[i] == st.audit.pending[i];
    case Abandon =>
      assert st'.audit.stranded[|st.audit.stranded|] == st.audit.pending;
      assert forall i :: 0 <= i < |st.audit.stranded| ==> st'.audit.stranded[i] == st.audit.stranded[i];
    case StoreTx(tx) =>
      assert st'.transactions[tx.id] == tx;
      assert forall id :: id in st.transactions ==> st'.transactions[id] == st.transactions[id];
    case _ =>
  }

  lemma StepKeepsOverdraft(st: State, l: Label)
    requires WellFormed(st) && Enabled(st, l) && OverdraftOK(st)
    requires forall a :: BooksOK(st, a)
    ensures OverdraftOK(Do(st, l))
  {
    var st' := Do(st, l);
    if AllPositive(st') && st'.audit.moved < 0x8000_0000_0000_0000 {
      StepUndoesPositive(st, l);
      if l.Apply? {
        var acc := st.accounts[l.e.account];
        assert st'.audit.pending[|st.audit.pending|] == l.e;
        assert BooksOK(st, l.e.account);
        ApplyToMeans(acc, l.e);
      }
    }
  }

  // ---------------------------------------------------------------- every moment of every run

  ghost predicate Sound(st: State) {
    && WellFormed(st)
    && (forall a :: BooksOK(st, a))
    && (forall a :: ReadOK(st, a))
    && (forall c :: TotalOK(st, c))
    && (forall c :: ExactTotalOK(st, c))
    && (forall c :: ReadTotalOK(st, c))
    && OverdraftOK(st)
  }

  lemma StepKeepsSound(st: State, l: Label)
    requires Sound(st) && Enabled(st, l)
    ensures Sound(Do(st, l))
  {
    StepKeepsWellFormed(st, l);
    forall a ensures BooksOK(Do(st, l), a) {
      StepKeepsBooks(st, l, a);
    }
    forall a ensures ReadOK(Do(st, l), a) {
      StepKeepsRead(st, l, a);
    }
    forall c ensures TotalOK(Do(st, l), c) {
      StepKeepsTotals(st, l, c);
    }
    forall c ensures ExactTotalOK(Do(st, l), c) {
      StepKeepsExactTotal(st, l, c);
    }
    forall c ensures ReadTotalOK(Do(st, l), c) {
      StepKeepsReadTotal(st, l, c);
    }
    StepKeepsOverdraft(st, l);
  }

  /** On every path of elementary steps, whether or not a command takes it. */
  lemma {:induction false} PathKeepsSound(st: State, ls: seq<Label>)
    requires Sound(st) && IsPath(st, ls)
    ensures Sound(Follow(st, ls))
    decreases ls
  {
    hide Sound, Enabled, Do;
    if ls != [] {
      StepKeepsSound(st, ls[0]);
      PathKeepsSound(Do(st, ls[0]), ls[1..]);
    }
  }

  lemma SoundIsWellFormed(st: State)
    requires Sound(st)
    ensures WellFormed(st)
  {
  }

  lemma InitIsSound()
    ensures Sound(Init)
  {
    forall a ensures BooksOK(Init, a) && ReadOK(Init, a) {
      assert SavedSum(Init.transactions, 1, a) == 0;
    }
    forall c ensures TotalOK(Init, c) && ExactTotalOK(Init, c) && ReadTotalOK(Init, c) {
      assert Total(WriteBalances(Init), 1, c) == 0;
      assert Total(ReadBalances(Init.read), 1, c) == 0;
    }
  }

  lemma StepBalance(st: State, l: Label, a: AccountID)
    requires WellFormed(st) && Enabled(st, l)
    ensures Balance(Do(st, l), a) == Wrap(Balance(st, a) + if l.Apply? && l.e.account == a then Signed(l.e) else 0)
  {
    if l.Apply? {
      AppliedBalance(st, l.e, a);
    }
  }

  lemma AppliedHead(ls: seq<Label>, a: AccountID)
    requires ls != []
    ensures AccountSum(AppliedIn(ls), a)
         == AccountSum(AppliedIn(ls[1..]), a) + if ls[0].Apply? && ls[0].e.account == a then Signed(ls[0].e) else 0
  {
    if ls[0].Apply? {
      AccountSumConcat([ls[0].e], AppliedIn(ls[1..]), a);
      assert [ls[0].e][..0] == [];
    } else {
      assert AppliedIn(ls) == AppliedIn(ls[1..]);
    }
  }

  /** A path moves every balance by exactly the entries it applies. */
  lemma {:induction false} PathMovesBalances(st: State, ls: seq<Label>, a: AccountID)
    requires WellFormed(st) && IsPath(st, ls)
    ensures Balance(Follow(st, ls), a) == Wrap(Balance(st, a) + AccountSum(AppliedIn(ls), a))
    decreases ls
  {
    hide WellFormed, Do, Enabled;
    if ls != [] {
      hide Balance, Wrap, Signed, AccountSum, AppliedIn;
      StepKeepsWellFormed(st, ls[0]);
      StepBalance(st, ls[0], a);
      PathMovesBalances(Do(st, ls[0]), ls[1..], a);
      AppliedHead(ls, a);
      var moved := if ls[0].Apply? && ls[0].e.account == a then Signed(ls[0].e) else 0;
      WrapAdd(Balance(st, a) + moved, AccountSum(AppliedIn(ls[1..]), a));
    }
  }

  lemma StepMoves(st: State, l: Label)
    requires Enabled(st, l)
    ensures Do(st, l).audit.moved <= st.audit.moved + if l.Apply? then Abs(l.e.amount.amount) else 0
  {
  }

  lemma StepKeepsPositive(st: State, l: Label)
    requires Enabled(st, l) && AllPositive(st) && (l.Apply? ==> l.e.amount.amount > 0)
    ensures AllPositive(Do(st, l))
  {
  }

  /** What has moved is bounded by the entries applied. */
  lemma {:induction false} PathMoves(st: State, ls: seq<Label>)
    requires IsPath(st, ls)
    ensures Follow(st, ls).audit.moved <= st.audit.moved + Volume(AppliedIn(ls))
    decreases ls
  {
    hide Do, Enabled;
    if ls != [] {
      StepMoves(st, ls[0]);
      PathMoves(Do(st, ls[0]), ls[1..]);
      if ls[0].Apply? {
        VolumeConcat([ls[0].e], AppliedIn(ls[1..]));
        assert [ls[0].e][..0] == [];
      } else {
        assert AppliedIn(ls) == AppliedIn(ls[1..]);
      }
    }
  }

  /** A path that applies only positive amounts keeps the books positive. */
  lemma {:induction false} PathKeepsPositive(st: State, ls: seq<Label>)
    requires IsPath(st, ls) && AllPositive(st) && PositiveEntries(AppliedIn(ls))
    ensures AllPositive(Follow(st, ls))
    decreases ls
  {
    hide Do, Enabled, AllPositive;
    if ls != [] {
      if ls[0].Apply? {
        assert AppliedIn(ls) == [ls[0].e] + AppliedIn(ls[1..]);
        assert AppliedIn(ls)[0] == ls[0].e;
        assert forall i :: 0 <= i < |AppliedIn(ls[1..])| ==> AppliedIn(ls)[i + 1] == AppliedIn(ls[1..])[i];
      } else {
        assert AppliedIn(ls) == AppliedIn(ls[1..]);
      }
      StepKeepsPositive(st, ls[0]);
      PathKeepsPositive(Do(st, ls[0]), ls[1..]);
    }
  }

  /** What is reached by elementary steps is sound, and has moved and sign-checked no less than allowed. */
  lemma ReachedIsSound(st: State, t: State, v: nat, positive: bool)
    requires Sound(st) && Reached(st, t, v, positive)
    ensures Sound(t) && t.audit.moved <= st.audit.moved + v
    ensures positive && AllPositive(st) ==> AllPositive(t)
  {
    hide Sound, AllPositive, IsPath, Follow;
    var ls, es :| Leads(st, ls, t, es) && Within(es, v, positive);
    PathKeepsSound(st, ls);
    PathMoves(st, ls);
    if positive && AllPositive(st) {
      PathKeepsPositive(st, ls);
    }
  }

  lemma TracesAreSound(st: State, ts: seq<State>, end: State, v: nat, positive: bool)
    requires Sound(st) && Traces(st, ts, end, v, positive)
    ensures Sound(end) && end.audit.moved <= st.audit.moved + v
    ensures forall i :: 0 <= i < |ts| ==> Sound(ts[i]) && ts[i].audit.moved <= st.audit.moved + v
  {
    hide Sound, Reached, Unbroken;
    ReachedIsSound(st, end, v, positive);
    forall i | 0 <= i < |ts| ensures Sound(ts[i]) && ts[i].audit.moved <= st.audit.moved + v {
      ReachedIsSound(st, ts[i], v, positive);
    }
  }

  /**
   Every run of commands from the empty ledger, under any fault pattern and any listing order: its moments
   follow one another by single hops, and the books are sound at every one of them, also between two
   entries of one transaction, after a call that failed part-way, and inside a saga.
   */
  lemma EveryMomentIsSound(env: Env, cmds: seq<Command>)
    ensures Traces(Init, RunMoments(Init, env, cmds), Run(Init, env, cmds), RunVolume(cmds), PositiveRun(cmds))
    ensures forall i :: 0 <= i < |RunMoments(Init, env, cmds)| ==>
              Sound(RunMoments(Init, env, cmds)[i]) && RunMoments(Init, env, cmds)[i].audit.moved <= RunVolume(cmds)
    ensures Sound(Run(Init, env, cmds)) && Run(Init, env, cmds).audit.pending == []
    ensures Run(Init, env, cmds).audit.moved <= RunVolume(cmds)
  {
    hide Sound, WellFormed, Run, RunMoments, Traces;
    InitIsSound();
    assert WellFormed(Init) by {
      SoundIsWellFormed(Init);
    }
    RunTraces(Init, env, cmds);
    TracesAreSound(Init, RunMoments(Init, env, cmds), Run(Init, env, cmds), RunVolume(cmds), PositiveRun(cmds));
  }

  /**
   Account balance equals the sum of all entries, stored or stranded, modulo 2^64; exactly so while
   the commands move less than 2^63 in all.
   */
  lemma BalanceIsSumOfEntries(env: Env, cmds: seq<Command>, a: AccountID)
    ensures var st := Run(Init, env, cmds);
            var sum := SavedSum(st.transactions, st.nextId, a) + StrandedSum(st.audit.stranded, a);
            && Balance(st, a) == Wrap(sum)
            && (RunVolume(cmds) < 0x8000_0000_0000_0000 ==> Balance(st, a) == sum)
  {
    hide Run, RunMoments, Traces, WellFormed, OverdraftOK;
    EveryMomentIsSound(env, cmds);
    assert BooksOK(Run(Init, env, cmds), a);
  }

  /**
   Money is created or destroyed by stranded prefixes and by nothing else: the total of a currency
   over all accounts is exactly what those prefixes sum to.
   */
  lemma TotalIsStrandedSum(env: Env, cmds: seq<Command>, c: Currency)
    ensures var st := Run(Init, env, cmds);
            && Wrap(WriteTotal(st, c)) == Wrap(StrandedCurrency(st.audit.stranded, c))
            && (RunVolume(cmds) < 0x8000_0000_0000_0000 ==> WriteTotal(st, c) == StrandedCurrency(st.audit.stranded, c))
  {
    hide Run, RunMoments, Traces, WellFormed, OverdraftOK;
    EveryMomentIsSound(env, cmds);
    var st := Run(Init, env, cmds);
    assert TotalOK(st, c) && ExactTotalOK(st, c);
  }

  function ReadBalance(st: State, a: AccountID): int64 {
    if a in st.read.balances then st.read.balances[a].balance else 0
  }

  /** Amounts of rows whose type the write side ignored and the projector debited. */
  function UnknownSum(rows: seq<HistoryRow>): int {
    if rows == [] then 0
    else
      var e := rows[|rows| - 1].entry;
      UnknownSum(rows[..|rows| - 1]) + if e.kind.Unknown? then e.amount.amount else 0
  }

  lemma {:induction false} RowSumsDiffer(rows: seq<HistoryRow>)
    ensures WriteRowSum(rows) == RowSum(rows) + UnknownSum(rows)
  {
    if rows != [] {
      RowSumsDiffer(rows[..|rows| - 1]);
    }
  }

  /** By how much the write balance is ahead of the read balance. */
  function Lag(st: State, a: AccountID): int {
    StrandedSum(st.audit.stranded, a) + UnprojectedSum(st.audit.unprojected, a) + UnknownSum(Rows(st.read.history, a))
  }

  /**
   In every run the two models differ by exactly the stranded prefixes, the stored transactions that
   were not projected, and the entries of unknown type; they agree if and only if those cancel.
   */
  lemma ReadModelLag(env: Env, cmds: seq<Command>, a: AccountID)
    ensures var st := Run(Init, env, cmds);
            && Balance(st, a) == Wrap(ReadBalance(st, a) + Lag(st, a))
            && (Balance(st, a) == ReadBalance(st, a) <==> Wrap(Lag(st, a)) == 0)
  {
    hide Run, RunMoments, Traces, WellFormed, OverdraftOK;
    EveryMomentIsSound(env, cmds);
    var st := Run(Init, env, cmds);
    SoundLag(st, a);
    LagDecides(ReadBalance(st, a), Lag(st, a));
  }

  lemma SoundLag(st: State, a: AccountID)
    requires BooksOK(st, a) && ReadOK(st, a) && st.audit.pending == []
    ensures Balance(st, a) == Wrap(ReadBalance(st, a) + Lag(st, a))
  {
    var rows := Rows(st.read.history, a);
    RowSumsDiffer(rows);
    RunningSum(rows);
    WrapAdd(RowSum(rows), Lag(st, a));
  }

  lemma LagDecides(read: int64, lag: int)
    ensures Wrap(read + lag) == read <==> Wrap(lag) == 0
  {
    WrapCongruent(read + lag, read);
    WrapCongruent(lag, 0);
  }

  /**
   On the read side the books always balance: as long as every stored entry is typed, the balances of
   each currency sum to zero modulo 2^64 in every run, whatever was stranded or never projected; and to
   exactly zero if no stored transaction moves 2^63 or more.
   */
  lemma ReadSideBalances(env: Env, cmds: seq<Command>, c: Currency)
    ensures var st := Run(Init, env, cmds);
            && (Typed(st) ==> Wrap(ReadTotal(st, c)) == 0)
            && (Typed(st) && Modest(st) ==> ReadTotal(st, c) == 0)
  {
    hide Run, RunMoments, Traces, WellFormed, OverdraftOK;
    EveryMomentIsSound(env, cmds);
    assert ReadTotalOK(Run(Init, env, cmds), c);
  }

  /** Each account's history is a running balance that ends at its current read balance, one version per row. */
  lemma HistoryIsRunningBalance(env: Env, cmds: seq<Command>, a: AccountID)
    ensures var st := Run(Init, env, cmds);
            var rows := Rows(st.read.history, a);
            && Running(rows)
            && LastBalance(rows) == ReadBalance(st, a)
            && (a in st.read.balances ==> st.read.balances[a].version == 1 + |rows|)
            && (a !in st.read.balances ==> rows == [])
  {
    hide Run, RunMoments, Traces, WellFormed, OverdraftOK;
    EveryMomentIsSound(env, cmds);
    assert ReadOK(Run(Init, env, cmds), a);
  }

  /** Sound, positive and below 2^63 moved: no asset account is overdrawn. */
  lemma SoundNotOverdrawn(st: State)
    requires Sound(st) && AllPositive(st) && st.audit.moved < 0x8000_0000_0000_0000
    ensures NoOverdraft(st)
  {
    hide WellFormed, BooksOK, ReadOK, TotalOK, ExactTotalOK, ReadTotalOK, NoOverdraft, AllPositive;
    assert OverdraftOK(st);
  }

  /** On every path of elementary steps that applies positive amounts totalling less than 2^63. */
  lemma PathNeverOverdrawn(ls: seq<Label>)
    requires IsPath(Init, ls) && PositiveEntries(AppliedIn(ls)) && Volume(AppliedIn(ls)) < 0x8000_0000_0000_0000
    ensures NoOverdraft(Follow(Init, ls))
  {
    hide Sound, IsPath, Follow, NoOverdraft;
    InitIsSound();
    PathKeepsSound(Init, ls);
    PathMoves(Init, ls);
    PathKeepsPositive(Init, ls);
    SoundNotOverdrawn(Follow(Init, ls));
  }

  /**
   With positive amounts moving less than 2^63 in all, no asset account is overdrawn at any moment of
   any run, failing calls and compensations included.
   */
  lemma NeverOverdrawn(env: Env, cmds: seq<Command>)
    requires PositiveRun(cmds) && RunVolume(cmds) < 0x8000_0000_0000_0000
    ensures forall i :: 0 <= i < |RunMoments(Init, env, cmds)| ==> NoOverdraft(RunMoments(Init, env, cmds)[i])
    ensures NoOverdraft(Run(Init, env, cmds))
  {
    hide Sound, Run, RunMoments, Reached, Unbroken, NoOverdraft;
    EveryMomentIsSound(env, cmds);
    InitIsSound();
    var v := RunVolume(cmds);
    forall t | Reached(Init, t, v, true) ensures NoOverdraft(t) {
      ReachedIsSound(Init, t, v, true);
      SoundNotOverdrawn(t);
    }
  }
}
