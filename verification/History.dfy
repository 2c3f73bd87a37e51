/**
 What the read side tells of transactions and accounts at every moment of every run: the history rows of
 each transaction are its entries, in order, with its description, once it is projected and none before;
 and every balance row is that of the account it names.
 */
module History {
  import opened Accounts
  import opened Transactions
  import opened Projection
  import opened Ledger
  import opened Steps
  import opened Commands
  import opened Moments
  import opened Books

  /** The entries that history shows for a transaction. */
  function EntriesShown(history: seq<HistoryRow>, id: TransactionID): seq<Entry> {
    if history == [] then []
    else
      var n := |history| - 1;
      EntriesShown(history[..n], id) + if history[n].transaction == id then [history[n].entry] else []
  }

  lemma {:induction false} ShownConcat(a: seq<HistoryRow>, b: seq<HistoryRow>, id: TransactionID)
    ensures EntriesShown(a + b, id) == EntriesShown(a, id) + EntriesShown(b, id)
  {
    if b == [] {
      assert a + b == a;
    } else {
      assert (a + b)[..|a + b| - 1] == a + b[..|b| - 1];
      ShownConcat(a, b[..|b| - 1], id);
    }
  }

  lemma {:induction false} ShownOfRows(rows: seq<HistoryRow>, tx: Transaction, es: seq<Entry>, id: TransactionID)
    requires RowsOf(rows, tx, es)
    ensures EntriesShown(rows, id) == if id == tx.id then es else []
  {
    if rows != [] {
      var n := |rows| - 1;
      ShownOfRows(rows[..n], tx, es[..n], id);
      assert es == es[..n] + [es[n]];
    }
  }

  /** The transaction is stored and has not reached the read model. */
  ghost predicate InFlight(st: State, id: TransactionID) {
    exists i :: 0 <= i < |st.audit.unprojected| && st.audit.unprojected[i].id == id
  }

  /** History shows a transaction completely or not at all. */
  ghost predicate ShownInFull(st: State, id: TransactionID) {
    EntriesShown(st.read.history, id) == if id in st.transactions && !InFlight(st, id) then st.transactions[id].entries else []
  }

  /** A history row names a stored transaction, and carries its description. */
  ghost predicate RowGrounded(st: State, row: HistoryRow) {
    row.transaction in st.transactions && row.entry in st.transactions[row.transaction].entries
    && row.description == st.transactions[row.transaction].description
  }

  ghost predicate QueueOK(st: State) {
    && (forall i :: 0 <= i < |st.audit.unprojected| ==>
          var tx := st.audit.unprojected[i]; tx.id in st.transactions && st.transactions[tx.id] == tx)
    && (forall i, j :: 0 <= i < j < |st.audit.unprojected| ==> st.audit.unprojected[i].id != st.audit.unprojected[j].id)
  }

  /** A balance row carries the name, type and currency of its account. */
  ghost predicate RowsNamed(st: State) {
    forall id :: id in st.read.balances ==>
      && id in st.accounts && st.read.balances[id].name == st.accounts[id].name
      && st.read.balances[id].kind == st.accounts[id].kind && st.read.balances[id].currency == st.accounts[id].currency
  }

  /** The read side knows only what the event log announced. */
  ghost predicate ReadFollowsLog(st: State) {
    && (forall i :: 0 <= i < |st.read.history| ==> TransactionAnnounced(st, st.read.history[i].transaction))
    && (forall id :: id in st.read.balances ==> AccountAnnounced(st, id))
  }

  ghost predicate TransactionAnnounced(st: State, id: TransactionID) {
    exists i :: 0 <= i < |st.tables.events| && st.tables.events[i].payload.TransactionRecorded? && st.tables.events[i].payload.tx.id == id
  }

  ghost predicate AccountAnnounced(st: State, id: AccountID) {
    exists i :: 0 <= i < |st.tables.events| && st.tables.events[i].payload.AccountOpened? && st.tables.events[i].payload.account.id == id
  }

  ghost predicate HistoryOK(st: State) {
    && QueueOK(st) && RowsNamed(st) && ReadFollowsLog(st)
    && (forall id: TransactionID :: ShownInFull(st, id))
    && forall i :: 0 <= i < |st.read.history| ==> RowGrounded(st, st.read.history[i])
  }

  // ---------------------------------------------------------------- steps

  lemma StoreKeepsHistory(st: State, tx: Transaction)
    requires HistoryOK(st) && tx.id !in st.transactions
    ensures HistoryOK(st.Stored(tx))
  {
    hide EntriesShown;
    var st' := st.Stored(tx);
    assert st'.audit.unprojected[|st.audit.unprojected|] == tx;
    forall id: TransactionID ensures ShownInFull(st', id) {
      assert ShownInFull(st, id);
      if InFlight(st, id) {
        var i :| 0 <= i < |st.audit.unprojected| && st.audit.unprojected[i].id == id;
        assert st'.audit.unprojected[i].id == id;
      }
    }
  }

  lemma ShownKeepsFull(st: State, tx: Transaction, id: TransactionID)
    requires QueueOK(st) && ShownInFull(st, id) && Enabled(st, ShowTransaction(tx))
    ensures ShownInFull(Do(st, ShowTransaction(tx)), id)
  {
    hide EntriesShown, ProjectEntries;
    var n := |st.audit.unprojected| - 1;
    var st' := Do(st, ShowTransaction(tx));
    var rows := ProjectionAppends(st.read, tx, tx.entries);
    ShownConcat(st.read.history, rows, id);
    ShownOfRows(rows, tx, tx.entries, id);
    assert st.audit.unprojected[n] == tx;
    if id != tx.id && InFlight(st, id) {
      var i :| 0 <= i < |st.audit.unprojected| && st.audit.unprojected[i].id == id;
      assert i < n && st'.audit.unprojected[i].id == id;
    }
  }

  lemma {:induction false} ProjectedNames(rm: ReadModel, tx: Transaction, es: seq<Entry>, id: AccountID)
    requires ProjectEntries(rm, tx, es).Ok?
    ensures var rm' := ProjectEntries(rm, tx, es).value;
            && (id in rm'.balances <==> id in rm.balances)
            && (id in rm.balances ==>
                  && rm'.balances[id].name == rm.balances[id].name && rm'.balances[id].kind == rm.balances[id].kind
                  && rm'.balances[id].currency == rm.balances[id].currency)
  {
    if es != [] {
      ProjectedNames(rm, tx, es[..|es| - 1], id);
    }
  }

  lemma ShowKeepsHistory(st: State, tx: Transaction)
    requires HistoryOK(st) && Enabled(st, ShowTransaction(tx))
    ensures HistoryOK(Do(st, ShowTransaction(tx)))
  {
    StepFollowsLog(st, ShowTransaction(tx));
    hide EntriesShown, ProjectEntries, ShownInFull;
    var st' := Do(st, ShowTransaction(tx));
    forall id: TransactionID ensures ShownInFull(st', id) {
      ShownKeepsFull(st, tx, id);
    }
    forall id: AccountID | id in st'.read.balances
      ensures id in st.read.balances && st'.read.balances[id].name == st.read.balances[id].name
      ensures st'.read.balances[id].kind == st.read.balances[id].kind && st'.read.balances[id].currency == st.read.balances[id].currency
    {
      ProjectedNames(st.read, tx, tx.entries, id);
    }
    var rows := ProjectionAppends(st.read, tx, tx.entries);
    assert st.audit.unprojected[|st.audit.unprojected| - 1] == tx;
    forall i | 0 <= i < |st'.read.history| ensures RowGrounded(st', st'.read.history[i]) {
      if i >= |st.read.history| {
        assert st'.read.history[i] == rows[i - |st.read.history|];
      } else {
        assert RowGrounded(st, st.read.history[i]);
      }
    }
  }

  lemma StepKeepsHistory(st: State, l: Label)
    requires WellFormed(st) && Enabled(st, l) && HistoryOK(st)
    ensures HistoryOK(Do(st, l))
  {
    hide EntriesShown, ProjectEntries, Rejection, ApplyTo, Known, ShownInFull, RowGrounded, QueueOK, Coherent, ReadFollowsLog, Announced;
    StepFollowsLog(st, l);
    match l
    case StoreTx(tx) =>
      StoreKeepsHistory(st, tx);
    case ShowTransaction(tx) =>
      ShowKeepsHistory(st, tx);
    case Apply(e) =>
      ApplyToMeans(st.accounts[e.account], e);
      SameShown(st, Do(st, l));
    case _ =>
      SameShown(st, Do(st, l));
  }

  /** Steps that touch neither store, queue nor history. */
  lemma SameShown(st: State, st': State)
    requires HistoryOK(st) && st'.transactions == st.transactions && st'.audit.unprojected == st.audit.unprojected && st'.read.history == st.read.history
    ensures QueueOK(st') && (forall id: TransactionID :: ShownInFull(st', id))
    ensures forall i :: 0 <= i < |st'.read.history| ==> RowGrounded(st', st'.read.history[i])
  {
    hide EntriesShown;
    forall id: TransactionID ensures ShownInFull(st', id) {
      assert ShownInFull(st, id);
      assert InFlight(st', id) <==> InFlight(st, id);
    }
    forall i | 0 <= i < |st'.read.history| ensures RowGrounded(st', st'.read.history[i]) {
      assert RowGrounded(st, st.read.history[i]);
    }
  }

  lemma StaysAnnounced(st: State, l: Label, id: nat)
    requires Enabled(st, l)
    ensures TransactionAnnounced(st, id) ==> TransactionAnnounced(Do(st, l), id)
    ensures AccountAnnounced(st, id) ==> AccountAnnounced(Do(st, l), id)
  {
    hide Enabled, Do;
    EventsGrow(st, l);
    var events, events' := st.tables.events, Do(st, l).tables.events;
    forall i | 0 <= i < |events| ensures i < |events'| && events'[i] == events[i] {
    }
  }

  /** Events are only ever added. */
  lemma EventsGrow(st: State, l: Label)
    requires Enabled(st, l)
    ensures st.tables.events <= Do(st, l).tables.events
  {
    hide ApplyTo, ProjectEntries, Rejection, Grounded, Announced;
  }

  lemma StepFollowsLog(st: State, l: Label)
    requires Enabled(st, l) && ReadFollowsLog(st)
    ensures ReadFollowsLog(Do(st, l))
  {
    hide ApplyTo, ProjectEntries, Rejection, TransactionAnnounced, AccountAnnounced;
    var st' := Do(st, l);
    forall id: nat ensures TransactionAnnounced(st, id) ==> TransactionAnnounced(st', id)
                   ensures AccountAnnounced(st, id) ==> AccountAnnounced(st', id) {
      StaysAnnounced(st, l, id);
    }
    match l
    case ShowAccount(acc) =>
      assert AccountAnnounced(st', acc.id) by { NowAnnounced(st, AccountOpened(acc)); StaysAnnounced(st, l, acc.id); }
    case ShowTransaction(tx) =>
      assert TransactionAnnounced(st', tx.id) by { NowAnnounced(st, TransactionRecorded(tx)); StaysAnnounced(st, l, tx.id); }
      var rows := ProjectionAppends(st.read, tx, tx.entries);
      forall id: AccountID | id in st'.read.balances ensures id in st.read.balances {
        ProjectedNames(st.read, tx, tx.entries, id);
      }
      forall i | 0 <= i < |st'.read.history| ensures TransactionAnnounced(st', st'.read.history[i].transaction) {
        if i >= |st.read.history| {
          assert st'.read.history[i] == rows[i - |st.read.history|];
        } else {
          assert st'.read.history[i] == st.read.history[i];
        }
      }
    case _ =>
  }

  lemma NowAnnounced(st: State, event: DomainEvent)
    requires Announced(st, event)
    ensures event.TransactionRecorded? ==> TransactionAnnounced(st, event.tx.id)
    ensures event.AccountOpened? ==> AccountAnnounced(st, event.account.id)
  {
  }

  lemma {:induction false} PathKeepsHistory(st: State, ls: seq<Label>)
    requires WellFormed(st) && IsPath(st, ls) && HistoryOK(st)
    ensures HistoryOK(Follow(st, ls))
    decreases ls
  {
    hide WellFormed, HistoryOK, Enabled, Do;
    if ls != [] {
      StepKeepsHistory(st, ls[0]);
      StepKeepsWellFormed(st, ls[0]);
      PathKeepsHistory(Do(st, ls[0]), ls[1..]);
    }
  }

  lemma ReachedHistory(t: State, v: nat, positive: bool)
    requires Reached(Init, t, v, positive)
    ensures HistoryOK(t)
  {
    hide Sound, IsPath, Follow;
    InitIsSound();
    SoundIsWellFormed(Init);
    var ls, es :| Leads(Init, ls, t, es) && Within(es, v, positive);
    PathKeepsHistory(Init, ls);
  }

  /**
   In every run, under any faults, at every moment: history shows each stored transaction completely, in
   entry order and with its description, once it is projected and not at all before; every row names a
   stored transaction; every balance row has its account's name, type and currency; and the read side
   shows nothing whose event is not in the log.
   */
  lemma HistoryTellsTransactions(env: Env, cmds: seq<Command>)
    ensures forall i :: 0 <= i < |RunMoments(Init, env, cmds)| ==> HistoryOK(RunMoments(Init, env, cmds)[i])
    ensures HistoryOK(Run(Init, env, cmds))
  {
    hide Run, RunMoments, Sound, Reached, Unbroken, HistoryOK;
    EveryMomentIsSound(env, cmds);
    forall t | Reached(Init, t, RunVolume(cmds), PositiveRun(cmds)) ensures HistoryOK(t) {
      ReachedHistory(t, RunVolume(cmds), PositiveRun(cmds));
    }
  }
}
