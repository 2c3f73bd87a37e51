/**
 The Postgres account repository: an upsert that rewrites only the balance and the status of an existing
 row. It stands in for the in-memory map, which overwrites the whole record.
 */
module AccountTable {
  import opened Results
  import opened Money
  import opened Accounts
  import opened Ledger
  import opened Steps
  import opened Commands
  import opened Moments
  import opened Books

  datatype Row = Row(name: string, kind: AccountType, currency: Currency, balance: int64, status: Status)

  /** INSERT ... ON CONFLICT (account_id) DO UPDATE SET balance, status. */
  function Upsert(rows: map<AccountID, Row>, acc: Account): map<AccountID, Row> {
    if acc.id in rows
    then rows[acc.id := rows[acc.id].(balance := acc.balance.amount, status := acc.status)]
    else rows[acc.id := Row(acc.name, acc.kind, acc.currency, acc.balance.amount, acc.status)]
  }

  /** SELECT by id and rebuild the account. */
  function Load(rows: map<AccountID, Row>, id: AccountID): Result<Account> {
    if id !in rows then Err(AccountNotFound)
    else
      var row := rows[id];
      match NewMoney(row.balance, row.currency)
      case Err(e) => Err(e)
      case Ok(balance) => Ok(Account(id, row.name, row.kind, row.currency, balance, row.status))
  }

  class PostgresAccountRepository {
    var rows: map<AccountID, Row>

    constructor ()
      ensures rows == map[]
    {
      rows := map[];
    }

    method Save(acc: Account, reply: Reply) returns (r: Result<()>)
      modifies this
      ensures rows == if reply.Refused? then old(rows) else Upsert(old(rows), acc)
      ensures r == if reply.Done? then Ok(()) else Err(StorageFault)
    {
      if !reply.Refused? {
        if acc.id in rows {
          var row := rows[acc.id];
          rows := rows[acc.id := row.(balance := acc.balance.amount, status := acc.status)];
        } else {
          rows := rows[acc.id := Row(acc.name, acc.kind, acc.currency, acc.balance.amount, acc.status)];
        }
      }
      return if reply.Done? then Ok(()) else Err(StorageFault);
    }

    method FindByID(id: AccountID, reply: Reply) returns (r: Result<Account>)
      ensures r == if reply.Done? then Load(rows, id) else Err(StorageFault)
    {
      if !reply.Done? {
        return Err(StorageFault);
      }
      if id !in rows {
        return Err(AccountNotFound);
      }
      var row := rows[id];
      var money := NewMoney(row.balance, row.currency);
      if money.Err? {
        return Err(money.error);
      }
      return Ok(Account(id, row.name, row.kind, row.currency, money.value, row.status));
    }
  }

  /** Looking up any id gives the same answer in the table and in the map. */
  ghost predicate Agree(rows: map<AccountID, Row>, m: map<AccountID, Account>) {
    forall id: AccountID :: Load(rows, id) == if id in m then Ok(m[id]) else Err(AccountNotFound)
  }

  /**
   After saving the same account in both, they still agree if and only if the account is coherent and
   keeps the identity of the one it replaces: that is all the partial upsert relies on.
   */
  lemma UpsertAgreesIff(rows: map<AccountID, Row>, m: map<AccountID, Account>, acc: Account)
    requires Agree(rows, m)
    ensures Agree(Upsert(rows, acc), m[acc.id := acc])
       <==> Coherent(acc) && (acc.id in m ==> SameIdentity(m[acc.id], acc))
  {
    assert Load(rows, acc.id) == if acc.id in m then Ok(m[acc.id]) else Err(AccountNotFound);
    var rows', m' := Upsert(rows, acc), m[acc.id := acc];
    assert forall id: AccountID :: id != acc.id ==> Load(rows', id) == Load(rows, id);
    if Agree(rows', m') {
      assert Load(rows', acc.id) == Ok(acc);
    }
  }

  // ---------------------------------------------------------------- over a run

  /** The account record written between two moments, if any. */
  ghost function Written(st: State, t: State): Option<Account> {
    if exists id :: id in t.accounts && (id !in st.accounts || st.accounts[id] != t.accounts[id])
    then var id :| id in t.accounts && (id !in st.accounts || st.accounts[id] != t.accounts[id]); Some(t.accounts[id])
    else None
  }

  function Upserted(rows: map<AccountID, Row>, written: Option<Account>): map<AccountID, Row> {
    match written case Some(acc) => Upsert(rows, acc) case None => rows
  }

  /** The table when every record written along these moments has gone to Postgres. */
  ghost function TableAfter(rows: map<AccountID, Row>, st: State, ts: seq<State>): map<AccountID, Row>
    decreases ts
  {
    if ts == [] then rows else TableAfter(Upserted(rows, Written(st, ts[0])), ts[0], ts[1..])
  }

  /** m' is m with one record written that keeps the identity of the one it replaces. */
  ghost predicate Rewrites(m: map<AccountID, Account>, m': map<AccountID, Account>, acc: Account) {
    m' == m[acc.id := acc] && Coherent(acc) && (acc.id in m ==> SameIdentity(m[acc.id], acc))
  }

  /** A step writes at most one record, and that record keeps the identity of the one it replaces. */
  lemma StepWrites(st: State, l: Label)
    requires WellFormed(st) && Enabled(st, l)
    ensures var m, m' := st.accounts, Do(st, l).accounts;
            m' == m || exists acc: Account :: Rewrites(m, m', acc)
  {
    match l
    case Open(acc) =>
      assert Rewrites(st.accounts, Do(st, l).accounts, acc);
    case Apply(e) =>
      ApplyToMeans(st.accounts[e.account], e);
      assert Rewrites(st.accounts, Do(st, l).accounts, ApplyTo(st.accounts[e.account], e).value);
    case _ =>
  }

  lemma HopWrites(st: State, t: State)
    requires WellFormed(st) && Hop(st, t)
    ensures var m, m' := st.accounts, t.accounts;
            m' == m || exists acc: Account :: Rewrites(m, m', acc)
  {
    hide WellFormed, Do, Enabled;
    if t != st.Tick() {
      if l :| Enabled(st, l) && t == Do(st, l) {
        StepWrites(st, l);
      } else {
        var l :| Enabled(st.Tick(), l) && !l.Call? && t == Do(st.Tick(), l);
        assert WellFormed(st.Tick()) by { TickWellFormed(st); }
        StepWrites(st.Tick(), l);
      }
    }
  }

  lemma TickWellFormed(st: State)
    requires WellFormed(st)
    ensures WellFormed(st.Tick())
  {
    StepKeepsWellFormed(st, Call);
  }

  lemma HopAgrees(rows: map<AccountID, Row>, st: State, t: State)
    requires WellFormed(st) && Hop(st, t) && Agree(rows, st.accounts)
    ensures Agree(Upserted(rows, Written(st, t)), t.accounts)
  {
    hide WellFormed, Hop, Agree, Upsert;
    HopWrites(st, t);
    if t.accounts != st.accounts {
      var acc: Account :| Rewrites(st.accounts, t.accounts, acc);
      assert acc.id in t.accounts && (acc.id !in st.accounts || st.accounts[acc.id] != t.accounts[acc.id]);
      assert Written(st, t) == Some(acc);
      UpsertAgreesIff(rows, st.accounts, acc);
    }
  }

  lemma HopKeepsWellFormed(st: State, t: State)
    requires WellFormed(st) && Hop(st, t)
    ensures WellFormed(t)
  {
    hide WellFormed, Do, Enabled;
    TickWellFormed(st);
    if t != st.Tick() {
      if l :| Enabled(st, l) && t == Do(st, l) {
        StepKeepsWellFormed(st, l);
      } else {
        var l :| Enabled(st.Tick(), l) && !l.Call? && t == Do(st.Tick(), l);
        StepKeepsWellFormed(st.Tick(), l);
      }
    }
  }

  lemma {:induction false} MomentsAgree(rows: map<AccountID, Row>, st: State, ts: seq<State>, end: State, k: nat)
    requires WellFormed(st) && Unbroken(st, ts, end) && Agree(rows, st.accounts) && k <= |ts|
    ensures Agree(TableAfter(rows, st, ts[..k]), if k == 0 then st.accounts else ts[k - 1].accounts)
    decreases ts
  {
    hide WellFormed, Hop, Agree, Written, Upserted;
    if k > 0 {
      HopAgrees(rows, st, ts[0]);
      HopKeepsWellFormed(st, ts[0]);
      MomentsAgree(Upserted(rows, Written(st, ts[0])), ts[0], ts[1..], end, k - 1);
      assert ts[..k][1..] == ts[1..][..k - 1];
    }
  }

  /**
   Over every run, at every moment, the Postgres repository that received every record written so far and
   the in-memory map give the same answer to every lookup.
   */
  lemma UpsertRefinesMap(env: Env, cmds: seq<Command>)
    ensures var ts := RunMoments(Init, env, cmds);
            forall k :: 0 <= k < |ts| ==> Agree(TableAfter(map[], Init, ts[..k + 1]), ts[k].accounts)
  {
    hide Run, RunMoments, Sound, Reached, Unbroken, TableAfter;
    EveryMomentIsSound(env, cmds);
    InitIsSound();
    SoundIsWellFormed(Init);
    var ts := RunMoments(Init, env, cmds);
    forall k | 0 <= k < |ts| ensures Agree(TableAfter(map[], Init, ts[..k + 1]), ts[k].accounts) {
      MomentsAgree(map[], Init, ts, Run(Init, env, cmds), k + 1);
    }
  }
}
