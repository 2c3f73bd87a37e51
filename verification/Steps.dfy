/**
 Every command of the ledger as a path of elementary steps, each touching one table once. A property
 kept by every elementary step then holds between any two storage calls of any command, under any
 fault pattern, and not only between commands.
 */
module Steps {
  import opened Results
  import opened Money
  import opened Accounts
  import opened Transactions
  import opened EventStore
  import opened Projection
  import opened Ledger

  datatype Label =
    | Call                                             // a storage call that changed nothing so far
    | DrawId                                           // a fresh identifier
    | Open(acc: Account)                               // a record written for a new account, under a fresh identifier
    | Apply(e: Entry)                                  // an account record written with e applied
    | Abandon                                          // the call failed before storing its transaction
    | StoreTx(tx: Transaction)                         // the transaction stored
    | Emit(agg: AggregateID, event: DomainEvent, reply: Reply)
    | ShowAccount(acc: Account)                        // balance row inserted
    | ShowTransaction(tx: Transaction)                 // transaction projected

  /** The event tells of something the write side has stored, under that thing's own id. */
  ghost predicate Grounded(st: State, agg: AggregateID, event: DomainEvent) {
    match event
    case AccountOpened(acc) => agg == acc.id && agg in st.accounts && SameIdentity(st.accounts[agg], acc)
    case TransactionRecorded(tx) => agg == tx.id && agg in st.transactions && st.transactions[agg] == tx
  }

  /** The event is in the log. */
  ghost predicate Announced(st: State, event: DomainEvent) {
    exists i :: 0 <= i < |st.tables.events| && st.tables.events[i].payload == event
  }

  ghost predicate Enabled(st: State, l: Label) {
    match l
    case Call => true
    case DrawId => true
    case Open(acc) => acc.id == st.nextId && Coherent(acc) && acc.balance.amount == 0
    case Apply(e) => e.account in st.accounts && ApplyTo(st.accounts[e.account], e).Ok?
    case Abandon => true
    case StoreTx(tx) =>
      && tx.entries == st.audit.pending && Rejection(tx.entries) == None
      && tx.id !in st.transactions && tx.id < st.nextId
    case Emit(agg, event, _) => agg < st.nextId && Grounded(st, agg, event)
    case ShowAccount(acc) => acc.id in st.accounts && SameIdentity(st.accounts[acc.id], acc) && Announced(st, AccountOpened(acc))
    case ShowTransaction(tx) =>
      && st.audit.unprojected != [] && st.audit.unprojected[|st.audit.unprojected| - 1] == tx
      && ProjectEntries(st.read, tx, tx.entries).Ok? && Announced(st, TransactionRecorded(tx))
  }

  ghost function Do(st: State, l: Label): State
    requires Enabled(st, l)
  {
    match l
    case Call => st.Tick()
    case DrawId => st.Draw()
    case Open(acc) => st.Draw().Wrote(acc)
    case Apply(e) => st.Wrote(ApplyTo(st.accounts[e.account], e).value).Applied(e)
    case Abandon => st.Strand()
    case StoreTx(tx) => st.Stored(tx)
    case Emit(agg, event, reply) => st.(tables := Append(st.tables, agg, 0, [event], reply).0)
    case ShowAccount(acc) => st.(read := ProjectOpened(st.read, acc, Done))
    case ShowTransaction(tx) => st.Projected(ProjectEntries(st.read, tx, tx.entries).value)
  }

  ghost predicate IsPath(st: State, ls: seq<Label>)
    decreases ls
  {
    ls != [] ==> Enabled(st, ls[0]) && IsPath(Do(st, ls[0]), ls[1..])
  }

  ghost function Follow(st: State, ls: seq<Label>): State
    requires IsPath(st, ls)
    decreases ls
  {
    if ls == [] then st else Follow(Do(st, ls[0]), ls[1..])
  }

  lemma {:induction false} Concat(st: State, a: seq<Label>, b: seq<Label>)
    requires IsPath(st, a) && IsPath(Follow(st, a), b)
    ensures IsPath(st, a + b) && Follow(st, a + b) == Follow(Follow(st, a), b)
    decreases a
  {
    if a == [] {
      assert a + b == b;
    } else {
      Concat(Do(st, a[0]), a[1..], b);
      assert (a + b)[1..] == a[1..] + b;
    }
  }

  lemma One(st: State, l: Label)
    requires Enabled(st, l)
    ensures IsPath(st, [l]) && Follow(st, [l]) == Do(st, l)
  {
    assert [l][1..] == [];
    assert IsPath(Do(st, l), []);
  }

  /** The entries a path applies, in order. */
  function AppliedIn(ls: seq<Label>): seq<Entry> {
    if ls == [] then []
    else (if ls[0].Apply? then [ls[0].e] else []) + AppliedIn(ls[1..])
  }

  lemma AppliedFirst(ls: seq<Label>)
    requires ls != []
    ensures AppliedIn(ls) == (if ls[0].Apply? then [ls[0].e] else []) + AppliedIn(ls[1..])
  {
  }

  lemma {:induction false} AppliedConcat(a: seq<Label>, b: seq<Label>)
    ensures AppliedIn(a + b) == AppliedIn(a) + AppliedIn(b)
    decreases a
  {
    if a == [] {
      assert a + b == b;
    } else {
      hide AppliedIn;
      AppliedFirst(a);
      AppliedFirst(a + b);
      TailConcat(a, b);
      AppliedConcat(a[1..], b);
    }
  }

  lemma TailConcat<T>(a: seq<T>, b: seq<T>)
    requires a != []
    ensures (a + b)[1..] == a[1..] + b && (a + b)[0] == a[0]
  {
  }

  // ---------------------------------------------------------------- structure kept by every step

  /** A typed entry's account exists and has the entry's currency. */
  ghost predicate Known(st: State, e: Entry) {
    e.kind.Unknown? || (e.account in st.accounts && st.accounts[e.account].currency == e.amount.currency)
  }

  ghost predicate WellFormed(st: State) {
    && 0 < st.nextId
    && (forall id :: id in st.accounts ==> 0 < id < st.nextId && st.accounts[id].id == id && Coherent(st.accounts[id]))
    && (forall id :: id in st.transactions ==> id < st.nextId && st.transactions[id].id == id)
    && (forall i :: 0 <= i < |st.tables.events| ==> st.tables.events[i].aggregate < st.nextId)
    && (forall id :: id in st.read.balances ==> id in st.accounts && st.read.balances[id].currency == st.accounts[id].currency)
    && (forall i :: 0 <= i < |st.audit.pending| ==> Known(st, st.audit.pending[i]))
    && (forall i, j :: 0 <= i < |st.audit.unprojected| && 0 <= j < |st.audit.unprojected[i].entries| ==>
          Known(st, st.audit.unprojected[i].entries[j]))
  }

  /** ApplyTo changes the balance alone, by the entry's signed amount. */
  lemma ApplyToMeans(acc: Account, e: Entry)
    requires Coherent(acc) && ApplyTo(acc, e).Ok?
    ensures var acc' := ApplyTo(acc, e).value;
            && acc' == acc.(balance := acc'.balance) && Coherent(acc')
            && acc'.balance.amount == Wrap(acc.balance.amount + Signed(e))
            && (!e.kind.Unknown? ==> e.amount.currency == acc.currency)
  {
  }

  lemma {:induction false} ProjectedCurrencies(st: State, rm: ReadModel, tx: Transaction, es: seq<Entry>)
    requires forall id :: id in rm.balances ==> id in st.accounts && rm.balances[id].currency == st.accounts[id].currency
    requires ProjectEntries(rm, tx, es).Ok?
    ensures var rm' := ProjectEntries(rm, tx, es).value;
            forall id :: id in rm'.balances ==> id in st.accounts && rm'.balances[id].currency == st.accounts[id].currency
  {
    if es != [] {
      ProjectedCurrencies(st, rm, tx, es[..|es| - 1]);
    }
  }

  lemma StepKeepsWellFormed(st: State, l: Label)
    requires WellFormed(st) && Enabled(st, l)
    ensures WellFormed(Do(st, l))
  {
    match l
    case Apply(e) => ApplyKeepsWellFormed(st, e);
    case ShowTransaction(tx) => ShowKeepsWellFormed(st, tx);
    case Emit(agg, event, reply) => EmitKeepsWellFormed(st, agg, event, reply);
    case StoreTx(tx) => StoreKeepsWellFormed(st, tx);
    case _ =>
  }

  lemma ApplyKeepsWellFormed(st: State, e: Entry)
    requires WellFormed(st) && Enabled(st, Apply(e))
    ensures WellFormed(Do(st, Apply(e)))
  {
    hide ApplyTo, Coherent;
    assert Coherent(st.accounts[e.account]);
    ApplyToMeans(st.accounts[e.account], e);
  }

  lemma ShowKeepsWellFormed(st: State, tx: Transaction)
    requires WellFormed(st) && Enabled(st, ShowTransaction(tx))
    ensures WellFormed(Do(st, ShowTransaction(tx)))
  {
    hide ProjectEntries, Coherent;
    ProjectedCurrencies(st, st.read, tx, tx.entries);
  }

  lemma EmitKeepsWellFormed(st: State, agg: AggregateID, event: DomainEvent, reply: Reply)
    requires WellFormed(st) && Enabled(st, Emit(agg, event, reply))
    ensures WellFormed(Do(st, Emit(agg, event, reply)))
  {
    hide Coherent;
  }

  lemma StoreKeepsWellFormed(st: State, tx: Transaction)
    requires WellFormed(st) && Enabled(st, StoreTx(tx))
    ensures WellFormed(Do(st, StoreTx(tx)))
  {
    hide Coherent, Rejection;
  }

  lemma {:induction false} PathKeepsWellFormed(st: State, ls: seq<Label>)
    requires WellFormed(st) && IsPath(st, ls)
    ensures WellFormed(Follow(st, ls))
    decreases ls
  {
    if ls != [] {
      StepKeepsWellFormed(st, ls[0]);
      PathKeepsWellFormed(Do(st, ls[0]), ls[1..]);
    }
  }
}
