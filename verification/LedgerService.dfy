/**
 The command handler itself, working in place on its repositories. Every method is proved to do to the
 tables, and to answer, exactly what the function of the same name in module Ledger says.
 */
module LedgerService {
  import opened Results
  import opened Money
  import opened Accounts
  import opened Transactions
  import opened Repositories
  import opened EventStore
  import opened Projection
  import opened L = Ledger

  class Service {
    const env: Env
    const accounts: AccountRepository
    const transactions: TransactionRepository
    const outbox: OutboxWriter<DomainEvent>
    const projector: PostgresProjector
    var nextId: nat
    var ops: nat
    ghost var audit: Audit

    constructor (env: Env)
      ensures fresh(accounts) && fresh(transactions) && fresh(outbox) && fresh(projector)
      ensures this.env == env && Contents() == Init
    {
      this.env := env;
      accounts := new AccountRepository();
      transactions := new TransactionRepository();
      outbox := new OutboxWriter<DomainEvent>();
      projector := new PostgresProjector();
      nextId, ops := 1, 0;
      audit := Init.audit;
    }

    ghost function Contents(): State
      reads this, accounts, transactions, outbox, projector
    {
      State(accounts.rows, transactions.rows, outbox.Contents(), projector.Contents(), nextId, ops, audit)
    }

    /** The reply to the next storage call. */
    method NextReply(site: Site) returns (reply: Reply)
      modifies this`ops
      ensures reply == env.reply(site, old(ops)) && ops == old(ops) + 1
    {
      reply := env.reply(site, ops);
      ops := ops + 1;
    }

    method SaveAccount(site: Site, acc: Account) returns (r: Result<()>)
      modifies this`ops, accounts
      ensures (Contents(), r) == L.SaveAccount(old(Contents()), env, site, acc)
    {
      var reply := NextReply(site);
      r := accounts.Save(acc, reply);
    }

    method AppendEvent(agg: AggregateID, event: DomainEvent) returns (r: Result<()>)
      modifies this`ops, outbox
      ensures (Contents(), r) == L.AppendEvent(old(Contents()), env, agg, event)
    {
      var reply := NextReply(Appending);
      r := outbox.AppendWithOutbox(agg, 0, [event], reply);
    }

    method OpenAccount(name: string, kind: string, currency: Currency) returns (r: Result<Account>)
      modifies this, accounts, outbox, projector
      ensures (Contents(), r) == L.OpenAccount(old(Contents()), env, name, kind, currency)
    {
      var created := NewAccountWithType(nextId, name, AccountKind(kind), currency);
      if created.Err? {
        return created;
      }
      var acc := created.value;
      nextId := nextId + 1;
      var saved := SaveAccount(Opening, acc);
      if saved.Err? {
        return Err(saved.error);
      }
      var emitted := AppendEvent(acc.id, AccountOpened(acc));
      if emitted.Err? {
        return Err(emitted.error);
      }
      var reply := NextReply(Projecting);
      projector.ProjectAccountOpened(acc, reply);
      return Ok(acc);
    }

    /** Scans all accounts for the name and opens one when there is none. */
    method GetOrCreateSystemAccount(name: string, kind: string, currency: Currency) returns (r: Result<Account>)
      modifies this, accounts, outbox, projector
      ensures (Contents(), r) == L.GetOrCreateSystemAccount(old(Contents()), env, name, kind, currency)
    {
      var all := env.listing(ops, accounts.rows);
      var reply := NextReply(Listing);
      if !reply.Done? {
        return Err(StorageFault);
      }
      for i := 0 to |all|
        invariant FirstNamed(all, name) == FirstNamed(all[i..], name)
        invariant Contents() == old(Contents()).Tick()
      {
        if all[i].name == name {
          return Ok(all[i]);
        }
        assert all[i..][1..] == all[i + 1..];
      }
      assert all[|all|..] == [];
      r := OpenAccount(name, kind, currency);
    }

    /** One entry: find, debit or credit, save. */
    method ApplyEntry(entry: Entry) returns (r: Result<()>)
      modifies this`ops, this`audit, accounts
      ensures (Contents(), r) == L.ApplyEntry(old(Contents()), env, entry)
    {
      var reply := NextReply(Finding);
      var found := accounts.FindByID(entry.account, reply);
      if found.Err? {
        return Err(found.error);
      }
      var acc := found.value;
      match entry.kind {
        case Debit =>
          var debited := Accounts.Debit(acc, entry.amount);
          if debited.Err? {
            return Err(debited.error);
          }
          acc := debited.value;
        case Credit =>
          var credited := Accounts.Credit(acc, entry.amount);
          if credited.Err? {
            return Err(credited.error);
          }
          acc := credited.value;
        case Unknown(_) =>
      }
      ghost var written := !env.reply(Updating, ops).Refused?;
      r := SaveAccount(Updating, acc);
      if written {
        audit := Contents().Applied(entry).audit;
      }
    }

    method ToParams(cmds: seq<EntryCmd>) returns (r: Result<seq<Entry>>)
      ensures r == ToEntries(cmds)
    {
      var params: seq<Entry> := [];
      for i := 0 to |cmds|
        invariant ToEntries(cmds[..i]) == Ok(params)
      {
        assert cmds[..i + 1][..i] == cmds[..i];
        var money := NewMoney(cmds[i].amount, cmds[i].currency);
        if money.Err? {
          InvalidSticks(cmds, i + 1);
          return Err(money.error);
        }
        params := params + [Entry(cmds[i].account, money.value, cmds[i].kind)];
      }
      assert cmds[..|cmds|] == cmds;
      return Ok(params);
    }

    /** Applies entries one at a time and returns at the first error, leaving earlier saves in place. */
    method ApplyEntries(entries: seq<Entry>) returns (r: Result<()>)
      modifies this`ops, this`audit, accounts
      ensures (Contents(), r) == L.ApplyEntries(old(Contents()), env, entries)
    {
      for i := 0 to |entries|
        invariant L.ApplyEntries(old(Contents()), env, entries) == L.ApplyEntries(Contents(), env, entries[i..])
      {
        assert entries[i..][0] == entries[i] && entries[i..][1..] == entries[i + 1..];
        r := ApplyEntry(entries[i]);
        if r.Err? {
          return;
        }
      }
      assert entries[|entries|..] == [];
      return Ok(());
    }

    method RecordTransaction(cmds: seq<EntryCmd>, description: string) returns (r: Result<Transaction>)
      modifies this, accounts, transactions, outbox, projector
      ensures (Contents(), r) == L.RecordTransaction(old(Contents()), env, cmds, description)
    {
      var params := ToParams(cmds);
      if params.Err? {
        return Err(params.error);
      }
      r := NewTransaction(nextId, params.value, description);
      if r.Err? {
        return;
      }
      nextId := nextId + 1;
      r := Commit(r.value);
    }

    method Commit(tx: Transaction) returns (r: Result<Transaction>)
      modifies this`ops, this`audit, accounts, transactions, outbox, projector
      ensures (Contents(), r) == L.Commit(old(Contents()), env, tx)
    {
      var applied := ApplyEntries(tx.entries);
      if applied.Err? {
        audit := Contents().Strand().audit;
        return Err(applied.error);
      }
      r := Finish(tx);
    }

    method Finish(tx: Transaction) returns (r: Result<Transaction>)
      modifies this`ops, this`audit, transactions, outbox, projector
      ensures (Contents(), r) == L.Finish(old(Contents()), env, tx)
    {
      hide ProjectEntries, Clash;
      var reply := NextReply(Storing);
      var saved := transactions.Save(tx, reply);
      if reply.Refused? {
        audit := Contents().Strand().audit;
      } else {
        audit := Contents().Stored(tx).audit;
      }
      if saved.Err? {
        return Err(saved.error);
      }
      var emitted := AppendEvent(tx.id, TransactionRecorded(tx));
      if emitted.Err? {
        return Err(emitted.error);
      }
      ghost var before := Contents();
      reply := NextReply(Projecting);
      projector.ProjectTransactionRecorded(tx, reply);
      audit := L.Project(before, env, tx).audit;
      return Ok(tx);
    }

    method Deposit(account: AccountID, amount: int64, currency: Currency, description: string) returns (r: Result<Transaction>)
      modifies this, accounts, transactions, outbox, projector
      ensures (Contents(), r) == L.Deposit(old(Contents()), env, account, amount, currency, description)
    {
      var equity := GetOrCreateSystemAccount(EquityName(currency), "EQUITY", currency);
      if equity.Err? {
        return Err(equity.error);
      }
      r := RecordTransaction(Pair(equity.value.id, account, amount, currency), description);
    }

    method SuspenseAccountID(currency: Currency) returns (id: AccountID)
      modifies this, accounts, outbox, projector
      ensures (Contents(), id) == L.SuspenseAccountID(old(Contents()), env, currency)
    {
      var acc := GetOrCreateSystemAccount(SuspenseName(currency), "LIABILITY", currency);
      return if acc.Ok? then acc.value.id else 0;
    }
  }

  lemma {:induction false} InvalidSticks(cmds: seq<EntryCmd>, k: nat)
    requires k <= |cmds| && ToEntries(cmds[..k]).Err?
    ensures ToEntries(cmds) == ToEntries(cmds[..k])
    decreases |cmds|
  {
    if k == |cmds| {
      assert cmds[..k] == cmds;
    } else {
      assert cmds[..|cmds| - 1][..k] == cmds[..k];
      InvalidSticks(cmds[..|cmds| - 1], k);
    }
  }
}
