/** The in-memory repositories: maps updated in place behind the ports of the ledger service. */
module Repositories {
  import opened Results
  import opened Accounts
  import opened Transactions

  class AccountRepository {
    var rows: map<AccountID, Account>

    constructor ()
      ensures rows == map[]
    {
      rows := map[];
    }

    /** Overwrites the whole record. */
    method Save(acc: Account, reply: Reply) returns (r: Result<()>)
      modifies this
      ensures rows == if reply.Refused? then old(rows) else old(rows)[acc.id := acc]
      ensures r == if reply.Done? then Ok(()) else Err(StorageFault)
    {
      if !reply.Refused? {
        rows := rows[acc.id := acc];
      }
      return if reply.Done? then Ok(()) else Err(StorageFault);
    }

    method FindByID(id: AccountID, reply: Reply) returns (r: Result<Account>)
      ensures r.Ok? <==> reply.Done? && id in rows
      ensures r.Ok? ==> r.value == rows[id]
      ensures r.Err? ==> r.error == if reply.Done? then AccountNotFound else StorageFault
    {
      if !reply.Done? {
        return Err(StorageFault);
      }
      if id !in rows {
        return Err(AccountNotFound);
      }
      return Ok(rows[id]);
    }
  }

  /** Exact signed sum of account a's entries over the stored transactions with an id below n. */
  function SavedSum(txs: map<TransactionID, Transaction>, n: nat, a: AccountID): int {
    if n == 0 then 0
    else SavedSum(txs, n - 1, a) + if n - 1 in txs then AccountSum(txs[n - 1].entries, a) else 0
  }

  lemma {:induction false} SavedSumInsert(txs: map<TransactionID, Transaction>, n: nat, id: TransactionID, tx: Transaction, a: AccountID)
    requires id !in txs
    ensures SavedSum(txs[id := tx], n, a) == SavedSum(txs, n, a) + if id < n then AccountSum(tx.entries, a) else 0
  {
    if n > 0 {
      SavedSumInsert(txs, n - 1, id, tx, a);
    }
  }

  predicate Touches(tx: Transaction, a: AccountID) {
    exists i :: 0 <= i < |tx.entries| && tx.entries[i].account == a
  }

  /** found lists, once each, the transactions of seen that touch a. */
  ghost predicate Found(seen: map<TransactionID, Transaction>, found: seq<Transaction>, a: AccountID) {
    && (forall i :: 0 <= i < |found| ==> found[i].id in seen && seen[found[i].id] == found[i] && Touches(found[i], a))
    && (forall id :: id in seen && Touches(seen[id], a) ==> seen[id] in found)
    && (forall i, j :: 0 <= i < j < |found| ==> found[i].id != found[j].id)
  }

  lemma FoundIsSelection(seen: map<TransactionID, Transaction>, found: seq<Transaction>, a: AccountID)
    requires Found(seen, found, a)
    ensures forall tx :: tx in found <==>
              tx.id in seen && seen[tx.id] == tx && exists i :: 0 <= i < |tx.entries| && tx.entries[i].account == a
  {
    forall tx | tx in found ensures tx.id in seen && seen[tx.id] == tx && Touches(tx, a) {
      var i :| 0 <= i < |found| && found[i] == tx;
    }
    forall tx: Transaction | tx.id in seen && seen[tx.id] == tx && Touches(tx, a) ensures tx in found {
      assert seen[tx.id] in found;
    }
  }

  /** Exact signed sum of account a's entries over a list of transactions. */
  function ListSum(txs: seq<Transaction>, a: AccountID): int {
    if txs == [] then 0 else ListSum(txs[..|txs| - 1], a) + AccountSum(txs[|txs| - 1].entries, a)
  }

  lemma {:induction false} UntouchedSum(es: seq<Entry>, a: AccountID)
    requires forall i :: 0 <= i < |es| ==> es[i].account != a
    ensures AccountSum(es, a) == 0
  {
    if es != [] {
      UntouchedSum(es[..|es| - 1], a);
    }
  }

  lemma {:induction false} EmptySavedSum(txs: map<TransactionID, Transaction>, n: nat, a: AccountID)
    requires txs == map[]
    ensures SavedSum(txs, n, a) == 0
  {
    if n > 0 {
      EmptySavedSum(txs, n - 1, a);
    }
  }

  /** One more transaction seen, and listed if it touches a. */
  lemma FoundMore(seen: map<TransactionID, Transaction>, found: seq<Transaction>, tx: Transaction, a: AccountID)
    requires Found(seen, found, a) && tx.id !in seen
    ensures Found(seen[tx.id := tx], if Touches(tx, a) then found + [tx] else found, a)
  {
    var seen' := seen[tx.id := tx];
    var found' := if Touches(tx, a) then found + [tx] else found;
    forall id | id in seen' && Touches(seen'[id], a) ensures seen'[id] in found' {
      if id == tx.id {
        assert found'[|found|] == tx;
      } else {
        assert seen[id] in found;
      }
    }
  }

  lemma SumMore(seen: map<TransactionID, Transaction>, found: seq<Transaction>, tx: Transaction, a: AccountID, n: nat)
    requires tx.id !in seen && tx.id < n
    requires ListSum(found, a) == SavedSum(seen, n, a)
    ensures ListSum(if Touches(tx, a) then found + [tx] else found, a) == SavedSum(seen[tx.id := tx], n, a)
  {
    SavedSumInsert(seen, n, tx.id, tx, a);
    if Touches(tx, a) {
      assert (found + [tx])[..|found|] == found;
    } else {
      UntouchedSum(tx.entries, a);
    }
  }

  class TransactionRepository {
    var rows: map<TransactionID, Transaction>

    constructor ()
      ensures rows == map[]
    {
      rows := map[];
    }

    method Save(tx: Transaction, reply: Reply) returns (r: Result<()>)
      modifies this
      ensures rows == if reply.Refused? then old(rows) else old(rows)[tx.id := tx]
      ensures r == if reply.Done? then Ok(()) else Err(StorageFault)
    {
      if !reply.Refused? {
        rows := rows[tx.id := tx];
      }
      return if reply.Done? then Ok(()) else Err(StorageFault);
    }

    /** The inner loop: stops at the first entry on the account. */
    static method Mentions(tx: Transaction, a: AccountID) returns (touched: bool)
      ensures touched <==> Touches(tx, a)
    {
      for i := 0 to |tx.entries|
        invariant forall k :: 0 <= k < i ==> tx.entries[k].account != a
      {
        if tx.entries[i].account == a {
          return true;
        }
      }
      return false;
    }

    /**
     Every stored transaction that touches the account, each once, in whatever order the map yields
     them. Their entries for the account add up to the account's sum over the whole store.
     */
    method FindByAccountID(a: AccountID, ghost n: nat) returns (found: seq<Transaction>)
      requires forall id :: id in rows ==> rows[id].id == id && id < n
      ensures Found(rows, found, a)
      ensures forall tx :: tx in found <==>
                tx.id in rows && rows[tx.id] == tx && exists i :: 0 <= i < |tx.entries| && tx.entries[i].account == a
      ensures ListSum(found, a) == SavedSum(rows, n, a)
    {
      found := [];
      var seen: map<TransactionID, Transaction>, rest: map<TransactionID, Transaction> := map[], rows;
      EmptySavedSum(seen, n, a);
      while rest != map[]
        invariant forall id :: id in rest ==> id in rows && id !in seen && rest[id] == rows[id]
        invariant forall id :: id in rows ==> id in seen || id in rest
        invariant forall id :: id in seen ==> id in rows && seen[id] == rows[id]
        invariant Found(seen, found, a)
        invariant ListSum(found, a) == SavedSum(seen, n, a)
        decreases |rest|
      {
        var id :| id in rest;
        var tx := rest[id];
        var touched := Mentions(tx, a);
        FoundMore(seen, found, tx, a);
        SumMore(seen, found, tx, a, n);
        if touched {
          found := found + [tx];
        }
        seen := seen[id := tx];
        assert (rest - {id}).Keys < rest.Keys;
        rest := rest - {id};
      }
      assert seen == rows;
      FoundIsSelection(rows, found, a);
    }
  }
}
