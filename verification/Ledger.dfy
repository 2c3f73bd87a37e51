/**
 The ledger write side as functions on a value: what every command does to the accounts, the
 transaction store, the event and outbox tables and the read model, under any pattern of storage
 faults. Commands run one at a time.
 */
module Ledger {
  import opened Results
  import opened Money
  import opened Accounts
  import opened Transactions
  import opened EventStore
  import opened Projection

  datatype DomainEvent = AccountOpened(account: Account) | TransactionRecorded(tx: Transaction)

  datatype EntryCmd = EntryCmd(account: AccountID, amount: int64, currency: Currency, kind: EntryType)

  /**
   The places where the service calls storage: listing the accounts, finding one, saving a new one,
   saving a changed one, saving a transaction, appending an event, projecting it.
   */
  datatype Site = Listing | Finding | Opening | Updating | Storing | Appending | Projecting

  /**
   What the storage layer decides: the reply to its n-th call, given where that call is made, and the
   order in which FindAll yields the accounts it holds at that call.
   */
  datatype Env = Env(
    reply: (Site, nat) -> Reply,
    listing: (nat, map<AccountID, Account>) -> seq<Account>)

  /** all holds exactly the accounts of m. */
  ghost predicate Lists(all: seq<Account>, m: map<AccountID, Account>) {
    && (forall i :: 0 <= i < |all| ==> all[i].id in m && m[all[i].id] == all[i])
    && (forall id :: id in m ==> m[id] in all)
  }

  ghost predicate ValidEnv(env: Env) {
    forall n: nat, m: map<AccountID, Account> :: (forall id :: id in m ==> m[id].id == id) ==> Lists(env.listing(n, m), m)
  }

  ghost predicate FaultFree(env: Env) {
    forall site: Site, n: nat :: env.reply(site, n).Done?
  }

  /**
   History variables, written by the model and read by no command: the entries the current call has
   applied, the prefixes that failed calls left applied, the stored transactions that have not reached
   the read model, and the total magnitude of all applied entries.
   */
  datatype Audit = Audit(
    pending: seq<Entry>,
    stranded: seq<seq<Entry>>,
    unprojected: seq<Transaction>,
    moved: nat)

  datatype State = State(
    accounts: map<AccountID, Account>,
    transactions: map<TransactionID, Transaction>,
    tables: Tables<DomainEvent>,
    read: ReadModel,
    nextId: nat,
    ops: nat,
    audit: Audit)
  {
    /** One storage call has been made. */
    function Tick(): State {
      this.(ops := ops + 1)
    }

    /** A fresh identifier has been drawn. */
    function Draw(): State {
      this.(nextId := nextId + 1)
    }

    /** The account record was written. */
    function Wrote(acc: Account): State {
      this.(accounts := accounts[acc.id := acc])
    }

    /** The written record applied entry e of the current call. */
    function Applied(e: Entry): State {
      this.(audit := audit.(pending := audit.pending + [e], moved := audit.moved + Abs(Signed(e))))
    }

    /** The current call failed before its transaction was stored. */
    function Strand(): State {
      this.(audit := audit.(pending := [], stranded := audit.stranded + [audit.pending]))
    }

    /** The current call's transaction was stored; so far it is not in the read model. */
    function Stored(tx: Transaction): State {
      this.(transactions := transactions[tx.id := tx],
            audit := audit.(pending := [], unprojected := audit.unprojected + [tx]))
    }

    /** The transaction stored last reached the read model. */
    function Projected(read': ReadModel): State
      requires audit.unprojected != []
    {
      this.(read := read', audit := audit.(unprojected := audit.unprojected[..|audit.unprojected| - 1]))
    }
  }

  const Init: State :=
    State(map[], map[], Tables([], []), ReadModel(map[], []), 1, 0, Audit([], [], [], 0))

  // ---------------------------------------------------------------- storage calls

  ghost function FindByID(st: State, env: Env, id: AccountID): (State, Result<Account>) {
    (st.Tick(),
     if !env.reply(Finding, st.ops).Done? then Err(StorageFault)
     else if id in st.accounts then Ok(st.accounts[id])
     else Err(AccountNotFound))
  }

  ghost function Acknowledge(reply: Reply): Result<()> {
    if reply.Done? then Ok(()) else Err(StorageFault)
  }

  ghost function SaveAccount(st: State, env: Env, site: Site, acc: Account): (State, Result<()>) {
    var reply := env.reply(site, st.ops);
    (if reply.Refused? then st.Tick() else st.Tick().Wrote(acc), Acknowledge(reply))
  }

  ghost function AppendEvent(st: State, env: Env, agg: AggregateID, event: DomainEvent): (State, Result<()>) {
    var (tables', r) := Append(st.tables, agg, 0, [event], env.reply(Appending, st.ops));
    (st.Tick().(tables := tables'), r)
  }

  // ---------------------------------------------------------------- opening accounts

  function AccountKind(text: string): AccountType {
    if text == "EQUITY" then Equity else if text == "LIABILITY" then Liability else Asset
  }

  ghost function OpenAccount(st: State, env: Env, name: string, kind: string, currency: Currency): (State, Result<Account>) {
    match NewAccountWithType(st.nextId, name, AccountKind(kind), currency)
    case Err(e) => (st, Err(e))
    case Ok(acc) =>
      var (st1, saved) := SaveAccount(st.Draw(), env, Opening, acc);
      if saved.Err? then (st1, Err(saved.error))
      else
        var (st2, emitted) := AppendEvent(st1, env, acc.id, AccountOpened(acc));
        if emitted.Err? then (st2, Err(emitted.error))
        else (st2.Tick().(read := ProjectOpened(st2.read, acc, env.reply(Projecting, st2.ops))), Ok(acc))
  }

  function FirstNamed(all: seq<Account>, name: string): Option<Account> {
    if all == [] then None
    else if all[0].name == name then Some(all[0])
    else FirstNamed(all[1..], name)
  }

  ghost function GetOrCreateSystemAccount(st: State, env: Env, name: string, kind: string, currency: Currency): (State, Result<Account>) {
    if !env.reply(Listing, st.ops).Done? then (st.Tick(), Err(StorageFault))
    else match FirstNamed(env.listing(st.ops, st.accounts), name)
      case Some(acc) => (st.Tick(), Ok(acc))
      case None => OpenAccount(st.Tick(), env, name, kind, currency)
  }

  // ---------------------------------------------------------------- recording transactions

  /** NewMoney on every entry. */
  function ToEntries(cmds: seq<EntryCmd>): Result<seq<Entry>> {
    if cmds == [] then Ok([])
    else
      var last := cmds[|cmds| - 1];
      match ToEntries(cmds[..|cmds| - 1])
      case Err(e) => Err(e)
      case Ok(es) =>
        match NewMoney(last.amount, last.currency)
        case Err(e) => Err(e)
        case Ok(money) => Ok(es + [Entry(last.account, money, last.kind)])
  }

  /** Debit or Credit as the entry says; an unknown type leaves the account as it is. */
  function ApplyTo(acc: Account, e: Entry): Result<Account> {
    match e.kind
    case Debit => Accounts.Debit(acc, e.amount)
    case Credit => Accounts.Credit(acc, e.amount)
    case Unknown(_) => Ok(acc)
  }

  /** Read, modify, save: one turn of the loop. */
  ghost function ApplyEntry(st: State, env: Env, e: Entry): (State, Result<()>) {
    var (st1, found) := FindByID(st, env, e.account);
    if found.Err? then (st1, Err(found.error))
    else match ApplyTo(found.value, e)
      case Err(error) => (st1, Err(error))
      case Ok(acc) =>
        var (st2, saved) := SaveAccount(st1, env, Updating, acc);
        (if env.reply(Updating, st1.ops).Refused? then st2 else st2.Applied(e), saved)
  }

  ghost function ApplyEntries(st: State, env: Env, es: seq<Entry>): (State, Result<()>)
    decreases es
  {
    if es == [] then (st, Ok(()))
    else
      var (st1, r) := ApplyEntry(st, env, es[0]);
      if r.Err? then (st1, r) else ApplyEntries(st1, env, es[1..])
  }

  /** Everything after the balances: store the transaction, emit its event, project it. */
  ghost function Finish(st: State, env: Env, tx: Transaction): (State, Result<Transaction>) {
    var reply := env.reply(Storing, st.ops);
    if reply.Refused? then (st.Tick().Strand(), Err(StorageFault))
    else if reply.Lost? then (st.Tick().Stored(tx), Err(StorageFault))
    else
      var (st1, emitted) := AppendEvent(st.Tick().Stored(tx), env, tx.id, TransactionRecorded(tx));
      if emitted.Err? then (st1, Err(emitted.error))
      else (Project(st1, env, tx), Ok(tx))
  }

  /** The projector's own error, if any, is dropped. */
  ghost function Project(st: State, env: Env, tx: Transaction): State
    requires st.audit.unprojected != []
  {
    var read' := ProjectEntries(st.read, tx, tx.entries);
    if env.reply(Projecting, st.ops).Refused? || read'.Err? then st.Tick() else st.Tick().Projected(read'.value)
  }

  /** Apply the entries of a validated transaction; there is no roll-back. */
  ghost function Commit(st: State, env: Env, tx: Transaction): (State, Result<Transaction>) {
    var (st1, applied) := ApplyEntries(st, env, tx.entries);
    if applied.Err? then (st1.Strand(), Err(applied.error))
    else Finish(st1, env, tx)
  }

  ghost function RecordTransaction(st: State, env: Env, cmds: seq<EntryCmd>, description: string): (State, Result<Transaction>) {
    match ToEntries(cmds)
    case Err(e) => (st, Err(e))
    case Ok(entries) =>
      match Built(st.nextId, entries, description)
      case Err(e) => (st, Err(e))
      case Ok(tx) => Commit(st.Draw(), env, tx)
  }

  function EquityName(currency: Currency): string {
    "System Equity (" + currency + ")"
  }

  function SuspenseName(currency: Currency): string {
    "System Suspense (" + currency + ")"
  }

  /** A debit on one account and a credit on another. */
  function Pair(from: AccountID, to: AccountID, amount: int64, currency: Currency): seq<EntryCmd> {
    [EntryCmd(from, amount, currency, EntryType.Debit), EntryCmd(to, amount, currency, EntryType.Credit)]
  }

  ghost function Deposit(st: State, env: Env, account: AccountID, amount: int64, currency: Currency, description: string): (State, Result<Transaction>) {
    var (st1, equity) := GetOrCreateSystemAccount(st, env, EquityName(currency), "EQUITY", currency);
    if equity.Err? then (st1, Err(equity.error))
    else RecordTransaction(st1, env, Pair(equity.value.id, account, amount, currency), description)
  }

  /** The suspense account, or the nil id when it cannot be found or opened. */
  ghost function SuspenseAccountID(st: State, env: Env, currency: Currency): (State, AccountID) {
    var (st1, acc) := GetOrCreateSystemAccount(st, env, SuspenseName(currency), "LIABILITY", currency);
    (st1, if acc.Ok? then acc.value.id else 0)
  }
}
