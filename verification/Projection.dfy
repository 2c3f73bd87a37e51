/**
 The read side: account_balances and transaction_history, updated from events. Each projection runs in
 one database transaction. BIGINT addition errors on overflow instead of wrapping, and a missing
 balance row makes the following SELECT fail, so in both cases the whole projection is rolled back.
 */
module Projection {
  import opened Results
  import opened Money
  import opened Accounts
  import opened Transactions

  datatype View = View(name: string, kind: AccountType, currency: Currency, balance: int64, version: nat)

  datatype HistoryRow = HistoryRow(transaction: TransactionID, entry: Entry, description: string, balanceAfter: int64)

  datatype ReadModel = ReadModel(balances: map<AccountID, View>, history: seq<HistoryRow>)

  /** The delta column: anything that is not a credit is subtracted, with Go's int64 negation. */
  function Delta(e: Entry): int64 {
    if e.kind.Credit? then e.amount.amount else Wrap(0 - e.amount.amount)
  }

  function ProjectEntry(rm: ReadModel, tx: Transaction, e: Entry): Result<ReadModel> {
    if e.account !in rm.balances then Err(RowMissing)
    else
      var row := rm.balances[e.account];
      if !FitsInt64(row.balance + Delta(e)) then Err(BigintOutOfRange)
      else
        var after := row.(balance := row.balance + Delta(e), version := row.version + 1);
        Ok(ReadModel(
             rm.balances[e.account := after],
             rm.history + [HistoryRow(tx.id, e, tx.description, after.balance)]))
  }

  /** The effect of the given entries of tx inside one projection transaction. */
  function ProjectEntries(rm: ReadModel, tx: Transaction, es: seq<Entry>): Result<ReadModel> {
    if es == [] then Ok(rm)
    else match ProjectEntries(rm, tx, es[..|es| - 1])
      case Err(e) => Err(e)
      case Ok(rm1) => ProjectEntry(rm1, tx, es[|es| - 1])
  }

  /** The whole handler: commit everything or nothing. */
  function ProjectTransaction(rm: ReadModel, tx: Transaction, reply: Reply): ReadModel {
    if reply.Refused? then rm
    else match ProjectEntries(rm, tx, tx.entries)
      case Ok(rm') => rm'
      case Err(_) => rm
  }

  /** INSERT ... ON CONFLICT DO NOTHING. */
  function ProjectOpened(rm: ReadModel, acc: Account, reply: Reply): ReadModel {
    if reply.Refused? || acc.id in rm.balances then rm
    else rm.(balances := rm.balances[acc.id := View(acc.name, acc.kind, acc.currency, 0, 1)])
  }

  class PostgresProjector {
    var balances: map<AccountID, View>
    var history: seq<HistoryRow>

    constructor ()
      ensures balances == map[] && history == []
    {
      balances, history := map[], [];
    }

    ghost function Contents(): ReadModel
      reads this
    {
      ReadModel(balances, history)
    }

    method ProjectAccountOpened(acc: Account, reply: Reply)
      modifies this
      ensures Contents() == ProjectOpened(old(Contents()), acc, reply)
    {
      if !reply.Refused? && acc.id !in balances {
        balances := balances[acc.id := View(acc.name, acc.kind, acc.currency, 0, 1)];
      }
    }

    /** Entry by entry inside a transaction: update the balance, read it back, insert a history row. */
    method ProjectTransactionRecorded(tx: Transaction, reply: Reply)
      modifies this
      ensures Contents() == ProjectTransaction(old(Contents()), tx, reply)
    {
      if reply.Refused? {
        return;
      }
      hide Wrap, FitsInt64;
      var txBalances: map<AccountID, View>, txHistory := balances, history;
      for i := 0 to |tx.entries|
        invariant Contents() == old(Contents())
        invariant ProjectEntries(Contents(), tx, tx.entries[..i]) == Ok(ReadModel(txBalances, txHistory))
      {
        var entry := tx.entries[i];
        assert tx.entries[..i + 1][..i] == tx.entries[..i];
        assert ProjectEntries(Contents(), tx, tx.entries[..i + 1]) == ProjectEntry(ReadModel(txBalances, txHistory), tx, entry);
        var delta: int64 := if entry.kind.Credit? then entry.amount.amount else Wrap(0 - entry.amount.amount);
        if entry.account !in txBalances || !FitsInt64(txBalances[entry.account].balance + delta) {
          FailureSticks(Contents(), tx, tx.entries, i + 1);
          return;
        }
        var row := txBalances[entry.account];
        var balanceAfter: int64 := row.balance + delta;
        txBalances := txBalances[entry.account := row.(balance := balanceAfter, version := row.version + 1)];
        txHistory := txHistory + [HistoryRow(tx.id, entry, tx.description, balanceAfter)];
      }
      assert tx.entries[..|tx.entries|] == tx.entries;
      balances, history := txBalances, txHistory;
    }
  }

  lemma {:induction false} FailureSticks(rm: ReadModel, tx: Transaction, es: seq<Entry>, k: nat)
    requires k <= |es| && ProjectEntries(rm, tx, es[..k]).Err?
    ensures ProjectEntries(rm, tx, es).Err?
    decreases |es|
  {
    if k == |es| {
      assert es[..k] == es;
    } else {
      assert es[..|es| - 1][..k] == es[..k];
      FailureSticks(rm, tx, es[..|es| - 1], k);
    }
  }

  // ---------------------------------------------------------------- running balances

  /** One account's history rows, in insertion order. */
  function Rows(history: seq<HistoryRow>, a: AccountID): seq<HistoryRow> {
    if history == [] then []
    else
      var n := |history| - 1;
      Rows(history[..n], a) + if history[n].entry.account == a then [history[n]] else []
  }

  /** balance_after of the last row; 0 before any. */
  function LastBalance(rows: seq<HistoryRow>): int64 {
    if rows == [] then 0 else rows[|rows| - 1].balanceAfter
  }

  ghost predicate Running(rows: seq<HistoryRow>) {
    forall k :: 0 <= k < |rows| ==> rows[k].balanceAfter == LastBalance(rows[..k]) + Delta(rows[k].entry)
  }

  /** History and balance row of account a tell the same story. */
  ghost predicate HistoryInv(rm: ReadModel, a: AccountID) {
    var rows := Rows(rm.history, a);
    && Running(rows)
    && (if a in rm.balances
        then rm.balances[a].balance == LastBalance(rows) && rm.balances[a].version == 1 + |rows|
        else rows == [])
  }

  lemma RowsPush(history: seq<HistoryRow>, row: HistoryRow, a: AccountID)
    ensures Rows(history + [row], a) == Rows(history, a) + if row.entry.account == a then [row] else []
  {
    assert (history + [row])[..|history|] == history;
  }

  lemma RunningGrows(rows: seq<HistoryRow>, row: HistoryRow)
    requires Running(rows) && row.balanceAfter == LastBalance(rows) + Delta(row.entry)
    ensures Running(rows + [row])
  {
    var rows' := rows + [row];
    forall k | 0 <= k < |rows'|
      ensures rows'[k].balanceAfter == LastBalance(rows'[..k]) + Delta(rows'[k].entry)
    {
      assert rows'[..k] == rows[..k];
      assert rows[..|rows|] == rows;
    }
  }

  /** What a projected entry changes: one row more, and that row's balance is the account's. */
  lemma RowAdded(rm: ReadModel, tx: Transaction, e: Entry) returns (row: HistoryRow)
    requires ProjectEntry(rm, tx, e).Ok?
    ensures var rm' := ProjectEntry(rm, tx, e).value;
            && e.account in rm.balances && row.entry == e && row.transaction == tx.id && row.description == tx.description
            && row.balanceAfter == rm.balances[e.account].balance + Delta(e)
            && rm'.history == rm.history + [row] && rm'.balances.Keys == rm.balances.Keys
            && rm'.balances[e.account].balance == row.balanceAfter
            && rm'.balances[e.account].version == rm.balances[e.account].version + 1
            && forall a :: a in rm.balances && a != e.account ==> rm'.balances[a] == rm.balances[a]
  {
    hide Delta, Wrap;
    row := ProjectEntry(rm, tx, e).value.history[|rm.history|];
  }

  lemma EntryKeepsHistory(rm: ReadModel, tx: Transaction, e: Entry, a: AccountID)
    requires HistoryInv(rm, a) && ProjectEntry(rm, tx, e).Ok?
    ensures HistoryInv(ProjectEntry(rm, tx, e).value, a)
  {
    hide ProjectEntry, Running, Rows, Delta, Wrap, FitsInt64;
    var row := RowAdded(rm, tx, e);
    RowsPush(rm.history, row, a);
    if e.account == a {
      RunningGrows(Rows(rm.history, a), row);
    } else {
      assert Rows(rm.history + [row], a) == Rows(rm.history, a);
    }
  }

  lemma {:induction false} EntriesKeepHistory(rm: ReadModel, tx: Transaction, es: seq<Entry>, a: AccountID)
    requires HistoryInv(rm, a) && ProjectEntries(rm, tx, es).Ok?
    ensures HistoryInv(ProjectEntries(rm, tx, es).value, a)
  {
    if es != [] {
      var rm1 := ProjectEntries(rm, tx, es[..|es| - 1]);
      EntriesKeepHistory(rm, tx, es[..|es| - 1], a);
      EntryKeepsHistory(rm1.value, tx, es[|es| - 1], a);
    }
  }

  /** These rows are the entries of a transaction, in order, under its id and description. */
  ghost predicate RowsOf(rows: seq<HistoryRow>, tx: Transaction, es: seq<Entry>) {
    && |rows| == |es|
    && forall i :: 0 <= i < |rows| ==> rows[i].transaction == tx.id && rows[i].entry == es[i] && rows[i].description == tx.description
  }

  /** A projected list of entries appends exactly its rows. */
  lemma {:induction false} ProjectionAppends(rm: ReadModel, tx: Transaction, es: seq<Entry>) returns (rows: seq<HistoryRow>)
    requires ProjectEntries(rm, tx, es).Ok?
    ensures ProjectEntries(rm, tx, es).value.history == rm.history + rows && RowsOf(rows, tx, es)
  {
    rows := [];
    if es != [] {
      hide ProjectEntry;
      var n := |es| - 1;
      rows := ProjectionAppends(rm, tx, es[..n]);
      var row := RowAdded(ProjectEntries(rm, tx, es[..n]).value, tx, es[n]);
      rows := rows + [row];
    }
  }

  /** Signed as the projector reads it: every type but CREDIT counts as a debit. */
  function ReadSigned(e: Entry): int {
    if e.kind.Credit? then e.amount.amount else 0 - e.amount.amount
  }

  lemma DeltaStep(x: int, e: Entry)
    requires FitsInt64(Wrap(x) + Delta(e))
    ensures Wrap(x) + Delta(e) == Wrap(x + ReadSigned(e))
  {
    WrapAdd(x, Delta(e));
    WrapCongruent(x + Delta(e), x + ReadSigned(e));
  }

  function RowSum(rows: seq<HistoryRow>): int {
    if rows == [] then 0 else RowSum(rows[..|rows| - 1]) + ReadSigned(rows[|rows| - 1].entry)
  }

  lemma RunningPrefix(rows: seq<HistoryRow>)
    requires Running(rows) && rows != []
    ensures var n := |rows| - 1;
            Running(rows[..n]) && LastBalance(rows) == LastBalance(rows[..n]) + Delta(rows[n].entry)
  {
    var n := |rows| - 1;
    forall k | 0 <= k < n
      ensures rows[..n][k].balanceAfter == LastBalance(rows[..n][..k]) + Delta(rows[..n][k].entry)
    {
      assert rows[..n][..k] == rows[..k];
    }
  }

  /** A running balance ends at the int64 of the exact sum of its rows. */
  lemma {:induction false} RunningSum(rows: seq<HistoryRow>)
    requires Running(rows)
    ensures LastBalance(rows) == Wrap(RowSum(rows))
  {
    if rows != [] {
      hide Running, Wrap, Delta, ReadSigned;
      var n := |rows| - 1;
      RunningPrefix(rows);
      RunningSum(rows[..n]);
      assert FitsInt64(LastBalance(rows));
      DeltaStep(RowSum(rows[..n]), rows[n].entry);
    }
  }
}
