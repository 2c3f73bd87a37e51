/**
 Exactly how far the read model is behind while less than 2^63 moves, and when it keeps up: with storage
 that publishes what it stores and typed entries, every stored transaction is projected, so write and
 read balances differ by exactly the prefixes that failing calls left behind.
 */
module Agreement {
  import opened Money
  import opened Accounts
  import opened Transactions
  import opened Repositories
  import opened EventStore
  import opened Projection
  import opened Ledger
  import opened Steps
  import opened Commands
  import opened Calls
  import opened Moments
  import opened Posting
  import opened SystemAccounts
  import opened Books

  const BOUND := 0x8000_0000_0000_0000

  // ---------------------------------------------------------------- how much the rows hold

  function RowVolume(rows: seq<HistoryRow>): nat {
    if rows == [] then 0 else RowVolume(rows[..|rows| - 1]) + Abs(rows[|rows| - 1].entry.amount.amount)
  }

  ghost predicate TypedRows(rows: seq<HistoryRow>) {
    forall i :: 0 <= i < |rows| ==> !rows[i].entry.kind.Unknown?
  }

  lemma PushRow(rows: seq<HistoryRow>, row: HistoryRow)
    ensures RowVolume(rows + [row]) == RowVolume(rows) + Abs(row.entry.amount.amount)
    ensures TypedRows(rows + [row]) <==> TypedRows(rows) && !row.entry.kind.Unknown?
  {
    assert (rows + [row])[..|rows|] == rows;
    assert (rows + [row])[|rows|] == row;
    assert forall i :: 0 <= i < |rows| ==> (rows + [row])[i] == rows[i];
  }

  lemma {:induction false} RowsVolume(history: seq<HistoryRow>, a: AccountID)
    ensures RowVolume(Rows(history, a)) <= RowVolume(history)
    ensures TypedRows(history) ==> TypedRows(Rows(history, a))
  {
    if history != [] {
      var n := |history| - 1;
      RowsVolume(history[..n], a);
      RowsPush(history[..n], history[n], a);
      PushRow(Rows(history[..n], a), history[n]);
      PushRow(history[..n], history[n]);
      assert history == history[..n] + [history[n]];
      assert Rows(history, a) == Rows(history[..n], a) || Rows(history, a) == Rows(history[..n], a) + [history[n]];
      hide Rows, RowVolume, TypedRows;
    }
  }

  /** A running balance is bounded by the amounts of its rows, and below 2^63 is their exact signed sum. */
  lemma {:induction false} RunningBound(rows: seq<HistoryRow>)
    requires Running(rows)
    ensures Abs(LastBalance(rows)) <= RowVolume(rows)
    ensures TypedRows(rows) && RowVolume(rows) < BOUND ==> LastBalance(rows) == WriteRowSum(rows)
  {
    if rows != [] {
      hide Running;
      var n := |rows| - 1;
      RunningPrefix(rows);
      RunningBound(rows[..n]);
    }
  }

  // ---------------------------------------------------------------- projections that cannot fail

  ghost predicate AllRows(rm: ReadModel, es: seq<Entry>) {
    forall i :: 0 <= i < |es| ==> es[i].account in rm.balances
  }

  lemma EntryFits(rm: ReadModel, tx: Transaction, e: Entry)
    requires HistoryInv(rm, e.account) && e.account in rm.balances
    requires RowVolume(rm.history) + Abs(e.amount.amount) < BOUND
    ensures ProjectEntry(rm, tx, e).Ok?
  {
    hide Rows, Running, RowVolume;
    RunningBound(Rows(rm.history, e.account));
    RowsVolume(rm.history, e.account);
  }

  lemma EntryProjects(rm: ReadModel, tx: Transaction, e: Entry)
    requires HistoryInv(rm, e.account) && e.account in rm.balances
    requires RowVolume(rm.history) + Abs(e.amount.amount) < BOUND
    ensures ProjectEntry(rm, tx, e).Ok?
    ensures var rm' := ProjectEntry(rm, tx, e).value;
            && rm'.balances.Keys == rm.balances.Keys
            && RowVolume(rm'.history) == RowVolume(rm.history) + Abs(e.amount.amount)
            && (TypedRows(rm.history) && !e.kind.Unknown? ==> TypedRows(rm'.history))
  {
    hide ProjectEntry, RowVolume, TypedRows, HistoryInv, Delta;
    EntryFits(rm, tx, e);
    var row := RowAdded(rm, tx, e);
    PushRow(rm.history, row);
  }

  /** Entries whose accounts all have rows are projected as long as the amounts stay below 2^63. */
  lemma {:induction false} EntriesProject(rm: ReadModel, tx: Transaction, es: seq<Entry>)
    requires forall a :: HistoryInv(rm, a)
    requires AllRows(rm, es) && RowVolume(rm.history) + Volume(es) < BOUND
    ensures ProjectEntries(rm, tx, es).Ok?
    ensures var rm' := ProjectEntries(rm, tx, es).value;
            && rm'.balances.Keys == rm.balances.Keys
            && RowVolume(rm'.history) == RowVolume(rm.history) + Volume(es)
            && (TypedRows(rm.history) && TypedEntries(es) ==> TypedRows(rm'.history))
  {
    if es != [] {
      hide HistoryInv, RowVolume, ProjectEntry;
      var n := |es| - 1;
      EntriesProject(rm, tx, es[..n]);
      var rm1 := ProjectEntries(rm, tx, es[..n]).value;
      EntriesKeepHistory(rm, tx, es[..n], es[n].account);
      EntryProjects(rm1, tx, es[n]);
    }
  }

  // ---------------------------------------------------------------- one call

  /**
   What is asked of storage: events are appended and projected, and an account or a transaction that the
   caller believes not saved is not there. Listings, lookups and balance saves may fail or lose their
   acknowledgement at will.
   */
  ghost predicate Publishes(env: Env) {
    forall n: nat ::
      env.reply(Appending, n).Done? && !env.reply(Projecting, n).Refused? && !env.reply(Opening, n).Lost? && !env.reply(Storing, n).Lost?
  }

  /** Every account has its row, every stored transaction is in it, and the rows hold no more than was moved. */
  ghost predicate UpToDate(st: State) {
    && st.audit.unprojected == []
    && st.accounts.Keys <= st.read.balances.Keys
    && TypedRows(st.read.history)
    && RowVolume(st.read.history) <= st.audit.moved
  }

  /** What the loop over the entries leaves alone, and what its success tells. */
  ghost predicate LoopFrame(st: State, st': State, es: seq<Entry>, ok: bool) {
    && st'.read == st.read && st'.audit.unprojected == st.audit.unprojected && st'.tables == st.tables
    && st'.accounts.Keys == st.accounts.Keys && st'.audit.moved >= st.audit.moved
    && (ok ==> forall i :: 0 <= i < |es| ==> es[i].account in st.accounts)
    && (ok && TypedEntries(es) ==> st'.audit.moved == st.audit.moved + Volume(es))
  }

  lemma EntryFrame(st: State, env: Env, e: Entry)
    requires CoherentTable(st.accounts)
    ensures LoopFrame(st, ApplyEntry(st, env, e).0, [e], ApplyEntry(st, env, e).1.Ok?)
    ensures CoherentTable(ApplyEntry(st, env, e).0.accounts)
  {
    hide CoherentTable, ApplyTo;
    EntryKeepsIdentity(st, env, e);
    assert [e][..0] == [] && Volume([e]) == Abs(e.amount.amount);
  }

  lemma FrameBoth(st: State, st1: State, st2: State, es: seq<Entry>, ok: bool)
    requires es != [] && LoopFrame(st, st1, [es[0]], true) && LoopFrame(st1, st2, es[1..], ok)
    ensures LoopFrame(st, st2, es, ok)
  {
    hide Volume;
    VolumeConcat([es[0]], es[1..]);
    assert es == [es[0]] + es[1..];
    assert [es[0]][0] == es[0] && forall i :: 1 <= i < |es| ==> es[i] == es[1..][i - 1];
  }

  lemma FrameFails(st: State, st1: State, es: seq<Entry>)
    requires es != [] && LoopFrame(st, st1, [es[0]], false)
    ensures LoopFrame(st, st1, es, false)
  {
  }

  lemma {:induction false} EntriesFrame(st: State, env: Env, es: seq<Entry>)
    requires CoherentTable(st.accounts)
    ensures LoopFrame(st, ApplyEntries(st, env, es).0, es, ApplyEntries(st, env, es).1.Ok?)
    decreases es
  {
    if es != [] {
      hide ApplyEntry, CoherentTable, LoopFrame;
      EntryFrame(st, env, es[0]);
      var (st1, r) := ApplyEntry(st, env, es[0]);
      if r.Ok? {
        EntriesFrame(st1, env, es[1..]);
        FrameBoth(st, st1, ApplyEntries(st1, env, es[1..]).0, es, ApplyEntries(st1, env, es[1..]).1.Ok?);
      } else {
        FrameFails(st, st1, es);
      }
    }
  }

  lemma FinishKeepsUp(st: State, env: Env, tx: Transaction)
    requires Publishes(env) && UpToDate(st) && AllRows(st.read, tx.entries) && TypedEntries(tx.entries)
    requires forall a :: HistoryInv(st.read, a)
    requires forall i :: 0 <= i < |st.tables.events| ==> st.tables.events[i].aggregate != tx.id
    requires RowVolume(st.read.history) + Volume(tx.entries) <= st.audit.moved < BOUND
    ensures UpToDate(Finish(st, env, tx).0)
  {
    hide HistoryInv, RowVolume, TypedRows, AllRows, ProjectEntries, Volume;
    assert env.reply(Appending, st.ops + 1).Done? && !env.reply(Projecting, st.ops + 2).Refused? && !env.reply(Storing, st.ops).Lost?;
    EntriesProject(st.read, tx, tx.entries);
  }

  lemma CommitKeepsUp(st: State, env: Env, tx: Transaction)
    requires Publishes(env) && Sound(st) && UpToDate(st) && TypedEntries(tx.entries)
    requires forall i :: 0 <= i < |st.tables.events| ==> st.tables.events[i].aggregate != tx.id
    requires st.audit.moved + Volume(tx.entries) < BOUND
    ensures UpToDate(Commit(st, env, tx).0)
  {
    hide Sound, Finish, ApplyEntries, Volume, HistoryInv, RowVolume, TypedRows;
    SoundParts(st);
    EntriesFrame(st, env, tx.entries);
    var (st1, r) := ApplyEntries(st, env, tx.entries);
    if r.Ok? {
      FinishKeepsUp(st1, env, tx);
    }
  }

  lemma SoundParts(st: State)
    requires Sound(st)
    ensures WellFormed(st) && CoherentTable(st.accounts) && forall a :: HistoryInv(st.read, a)
  {
    hide BooksOK, TotalOK, ExactTotalOK, ReadTotalOK, OverdraftOK, HistoryInv, Known;
    forall a ensures HistoryInv(st.read, a) {
      assert ReadOK(st, a);
    }
  }

  lemma {:induction false} TypedParams(cmds: seq<EntryCmd>)
    requires ToEntries(cmds).Ok? && TypedAmounts(cmds)
    ensures TypedEntries(ToEntries(cmds).value)
  {
    if cmds != [] {
      TypedParams(cmds[..|cmds| - 1]);
    }
  }

  /** Sound between calls and up to date. */
  ghost predicate Current(st: State) {
    Sound(st) && UpToDate(st) && st.audit.pending == []
  }

  /** From st to st' at most v was moved, and the read model kept up. */
  ghost predicate Kept(st: State, st': State, v: nat) {
    Current(st') && st'.audit.moved <= st.audit.moved + v
  }

  lemma RecordKeepsUp(st: State, env: Env, cmds: seq<EntryCmd>, description: string)
    requires Publishes(env) && Current(st) && TypedAmounts(cmds) && st.audit.moved + AmountVolume(cmds) < BOUND
    ensures Kept(st, RecordTransaction(st, env, cmds, description).0, AmountVolume(cmds))
  {
    hide Sound, WellFormed, Commit, UpToDate, Traces, RecordMoments, Rejection;
    SoundParts(st);
    RecordTraces(st, env, cmds, description);
    TracesAreSound(st, RecordMoments(st, env, cmds, description), RecordTransaction(st, env, cmds, description).0, AmountVolume(cmds), PositiveAmounts(cmds));
    if ToEntries(cmds).Ok? {
      TypedParams(cmds);
      EntriesWithin(cmds);
      DrawKeeps(st);
      CommitKeepsUp(st.Draw(), env, Transaction(st.nextId, ToEntries(cmds).value, description));
    }
  }

  lemma DrawKeeps(st: State)
    requires Sound(st) && UpToDate(st)
    ensures Sound(st.Draw()) && UpToDate(st.Draw())
    ensures forall i :: 0 <= i < |st.tables.events| ==> st.tables.events[i].aggregate != st.nextId
  {
    StepKeepsSound(st, DrawId);
  }

  lemma OpenIsShown(st: State, env: Env, name: string, kind: string, currency: Currency)
    requires Publishes(env) && WellFormed(st) && UpToDate(st)
    ensures UpToDate(OpenAccount(st, env, name, kind, currency).0)
  {
    hide TypedRows, RowVolume, Coherent, Known;
    assert !env.reply(Opening, st.ops).Lost? && env.reply(Appending, st.ops + 1).Done? && !env.reply(Projecting, st.ops + 2).Refused?;
    assert !Clash(st.tables.events, st.nextId, 0, 1);
  }

  lemma OpenKeepsUp(st: State, env: Env, name: string, kind: string, currency: Currency)
    requires Publishes(env) && Current(st)
    ensures Kept(st, OpenAccount(st, env, name, kind, currency).0, 0)
  {
    hide Sound, Traces, OpenMoments, OpenAccount, WellFormed, UpToDate, Publishes;
    SoundParts(st);
    OpenTraces(st, env, name, kind, currency, true);
    OpenIsShown(st, env, name, kind, currency);
    TracesAreSound(st, OpenMoments(st, env, name, kind, currency), OpenAccount(st, env, name, kind, currency).0, 0, true);
  }

  lemma LookupKeepsUp(st: State, env: Env, name: string, kind: string, currency: Currency)
    requires Publishes(env) && Current(st)
    ensures Kept(st, GetOrCreateSystemAccount(st, env, name, kind, currency).0, 0)
  {
    hide Sound, OpenAccount;
    assert Sound(st.Tick()) by { StepKeepsSound(st, Call); }
    OpenKeepsUp(st.Tick(), env, name, kind, currency);
  }

  lemma CallKeepsUp(st: State, env: Env, cmd: Command, call: LedgerCall)
    requires Publishes(env) && Current(st) && TypedCommand(cmd) && MayMake(cmd, call) && st.audit.moved + CallVolume(call) < BOUND
    ensures Kept(st, Make(st, env, call), CallVolume(call))
  {
    hide Current, OpenAccount, GetOrCreateSystemAccount, RecordTransaction, Publishes;
    match call
    case OpenCall(name, kind, currency) =>
      OpenKeepsUp(st, env, name, kind, currency);
    case LookupCall(name, kind, currency) =>
      LookupKeepsUp(st, env, name, kind, currency);
    case RecordCall(entries, description) =>
      RecordKeepsUp(st, env, entries, description);
  }

  lemma {:induction false} CallsKeepUp(st: State, env: Env, cmd: Command, calls: seq<LedgerCall>)
    requires Publishes(env) && Current(st) && TypedCommand(cmd) && st.audit.moved + CallsVolume(calls) < BOUND
    requires forall i :: 0 <= i < |calls| ==> MayMake(cmd, calls[i])
    ensures Kept(st, MakeAll(st, env, calls), CallsVolume(calls))
    decreases calls
  {
    hide Current, Make, MayMake, CallVolume, Publishes;
    if calls != [] {
      CallKeepsUp(st, env, cmd, calls[0]);
      assert forall i :: 0 <= i < |calls[1..]| ==> calls[1..][i] == calls[i + 1];
      CallsKeepUp(Make(st, env, calls[0]), env, cmd, calls[1..]);
    }
  }

  // ---------------------------------------------------------------- runs

  predicate TypedRun(cmds: seq<Command>) {
    forall i :: 0 <= i < |cmds| ==> TypedCommand(cmds[i])
  }

  lemma ServeKeepsUp(st: State, env: Env, cmd: Command)
    requires Publishes(env) && Current(st) && TypedCommand(cmd) && st.audit.moved + CommandVolume(cmd) < BOUND
    ensures Kept(st, Serve(st, env, cmd), CommandVolume(cmd))
  {
    hide Current, MakeAll, CommandCalls, Serve, MayMake, CommandVolume, Publishes;
    CommandIsItsCalls(st, env, cmd);
    CommandCallsAreProper(st, env, cmd);
    CallsKeepUp(st, env, cmd, CommandCalls(st, env, cmd));
  }

  lemma {:induction false} RunKeepsUp(st: State, env: Env, cmds: seq<Command>)
    requires Publishes(env) && Current(st) && TypedRun(cmds) && st.audit.moved + RunVolume(cmds) < BOUND
    ensures Kept(st, Run(st, env, cmds), RunVolume(cmds))
    decreases cmds
  {
    hide Current, Serve, TypedCommand;
    if cmds != [] {
      ServeKeepsUp(st, env, cmds[0]);
      RunKeepsUp(Serve(st, env, cmds[0]), env, cmds[1..]);
    }
  }

  lemma InitIsCurrent()
    ensures Current(Init)
  {
    hide Sound;
    InitIsSound();
  }

  /**
   Write and read models agree up to stranded prefixes: with storage that publishes what it stores, typed
   entries and less than 2^63 moved in all, nothing stays unprojected, and every write balance is exactly
   the read balance plus what failing calls, also those failed by storage, stranded on the account.
   */
  lemma ReadModelKeepsUp(env: Env, cmds: seq<Command>, a: AccountID)
    requires Publishes(env) && TypedRun(cmds) && RunVolume(cmds) < BOUND
    ensures var st := Run(Init, env, cmds);
            && st.audit.unprojected == []
            && Balance(st, a) == ReadBalance(st, a) + StrandedSum(st.audit.stranded, a)
  {
    hide Sound, Run;
    InitIsCurrent();
    RunKeepsUp(Init, env, cmds);
    BalanceIsSumOfEntries(env, cmds, a);
    CurrentReadBalance(Run(Init, env, cmds), a);
  }

  lemma CurrentReadBalance(st: State, a: AccountID)
    requires Current(st) && st.audit.moved < BOUND
    ensures ReadBalance(st, a) == SavedSum(st.transactions, st.nextId, a)
  {
    hide WellFormed, BooksOK, TotalOK, ExactTotalOK, ReadTotalOK, OverdraftOK, Rows, Running;
    assert ReadOK(st, a);
    var rows := Rows(st.read.history, a);
    RowsVolume(st.read.history, a);
    RunningBound(rows);
  }

  // ---------------------------------------------------------------- the exact lag, under any faults

  /** No entry has the one amount whose negation wraps. */
  ghost predicate Negatable(es: seq<Entry>) {
    forall i :: 0 <= i < |es| ==> es[i].amount.amount > -0x8000_0000_0000_0000
  }

  ghost predicate NegatableRows(rows: seq<HistoryRow>) {
    forall i :: 0 <= i < |rows| ==> rows[i].entry.amount.amount > -0x8000_0000_0000_0000
  }

  ghost predicate AllNegatable(st: State) {
    && Negatable(st.audit.pending) && NegatableRows(st.read.history)
    && forall i :: 0 <= i < |st.audit.unprojected| ==> Negatable(st.audit.unprojected[i].entries)
  }

  lemma {:induction false} ProjectedNegatable(rm: ReadModel, tx: Transaction, es: seq<Entry>)
    requires ProjectEntries(rm, tx, es).Ok? && Negatable(es) && NegatableRows(rm.history)
    ensures NegatableRows(ProjectEntries(rm, tx, es).value.history)
  {
    if es != [] {
      var n := |es| - 1;
      ProjectedNegatable(rm, tx, es[..n]);
      hide ProjectEntry;
      var row := RowAdded(ProjectEntries(rm, tx, es[..n]).value, tx, es[n]);
    }
  }

  lemma StepKeepsNegatable(st: State, l: Label)
    requires Enabled(st, l) && AllNegatable(st) && (l.Apply? ==> l.e.amount.amount > -0x8000_0000_0000_0000)
    ensures AllNegatable(Do(st, l))
  {
    hide ProjectEntries, Rejection, ApplyTo;
    match l
    case ShowTransaction(tx) =>
      ProjectedNegatable(st.read, tx, tx.entries);
    case _ =>
  }

  lemma {:induction false} PathKeepsNegatable(st: State, ls: seq<Label>)
    requires IsPath(st, ls) && AllNegatable(st) && Negatable(AppliedIn(ls))
    ensures AllNegatable(Follow(st, ls))
    decreases ls
  {
    hide Do, Enabled, AllNegatable;
    if ls != [] {
      if ls[0].Apply? {
        assert AppliedIn(ls) == [ls[0].e] + AppliedIn(ls[1..]);
        assert AppliedIn(ls)[0] == ls[0].e;
        assert forall i :: 0 <= i < |AppliedIn(ls[1..])| ==> AppliedIn(ls)[i + 1] == AppliedIn(ls[1..])[i];
      } else {
        assert AppliedIn(ls) == AppliedIn(ls[1..]);
      }
      StepKeepsNegatable(st, ls[0]);
      PathKeepsNegatable(Do(st, ls[0]), ls[1..]);
    }
  }

  lemma {:induction false} ModestIsNegatable(es: seq<Entry>)
    requires Volume(es) < BOUND
    ensures Negatable(es)
  {
    if es != [] {
      ModestIsNegatable(es[..|es| - 1]);
    }
  }

  lemma ReachedNegatable(t: State, v: nat, positive: bool)
    requires Reached(Init, t, v, positive) && v < BOUND
    ensures AllNegatable(t)
  {
    hide IsPath, Follow;
    var ls, es :| Leads(Init, ls, t, es) && Within(es, v, positive);
    ModestIsNegatable(es);
    PathKeepsNegatable(Init, ls);
  }

  lemma NegatableOfAccount(history: seq<HistoryRow>, a: AccountID)
    requires NegatableRows(history)
    ensures NegatableRows(Rows(history, a))
  {
    if history != [] {
      NegatableOfAccount(history[..|history| - 1], a);
    }
  }

  /** Rows that are no int64 minimum make a running balance that is exactly their sum. */
  lemma {:induction false} RunningExact(rows: seq<HistoryRow>)
    requires Running(rows) && NegatableRows(rows)
    ensures LastBalance(rows) == RowSum(rows)
  {
    if rows != [] {
      hide Running;
      RunningPrefix(rows);
      RunningExact(rows[..|rows| - 1]);
    }
  }

  /**
   Under any faults and with any entries: while less than 2^63 moves in all, every write balance is exactly
   the read balance plus the stranded prefixes, the stored transactions never projected, and the amounts of
   entries of unknown type.
   */
  lemma ReadModelLagIsExact(env: Env, cmds: seq<Command>, a: AccountID)
    requires RunVolume(cmds) < BOUND
    ensures var st := Run(Init, env, cmds);
            Balance(st, a) == ReadBalance(st, a) + Lag(st, a)
  {
    hide Sound, Run, RunMoments, Reached, Unbroken, AllNegatable;
    EveryMomentIsSound(env, cmds);
    var st := Run(Init, env, cmds);
    ReachedNegatable(st, RunVolume(cmds), PositiveRun(cmds));
    BalanceIsSumOfEntries(env, cmds, a);
    ExactReadBalance(st, a);
  }

  lemma ExactReadBalance(st: State, a: AccountID)
    requires Sound(st) && AllNegatable(st) && st.audit.pending == []
    ensures ReadBalance(st, a) + UnknownSum(Rows(st.read.history, a)) + UnprojectedSum(st.audit.unprojected, a)
         == SavedSum(st.transactions, st.nextId, a)
  {
    hide WellFormed, BooksOK, TotalOK, ExactTotalOK, ReadTotalOK, OverdraftOK, Rows, Running;
    assert ReadOK(st, a);
    var rows := Rows(st.read.history, a);
    NegatableOfAccount(st.read.history, a);
    RunningExact(rows);
    RowSumsDiffer(rows);
  }
}
