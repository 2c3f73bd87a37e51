/**
 The moments of a run: the states the tables are in after each storage call of each command, as functions
 of the start, the replies and the commands. Every one of them is reached by elementary steps, so what
 every elementary step keeps holds at every moment.
 */
module Moments {
  import opened Results
  import opened Money
  import opened Accounts
  import opened Transactions
  import opened EventStore
  import opened Projection
  import opened Ledger
  import opened Steps
  import opened Posting
  import opened Commands
  import opened Calls

  // ---------------------------------------------------------------- the moments of each command

  ghost function EntryMoments(st: State, env: Env, e: Entry): seq<State> {
    [st.Tick()] + if env.reply(Finding, st.ops).Done? && Accepts(st.accounts, e) then [ApplyEntry(st, env, e).0] else []
  }

  ghost function LoopMoments(st: State, env: Env, es: seq<Entry>): seq<State>
    decreases es
  {
    if es == [] then []
    else
      var (st1, r) := ApplyEntry(st, env, es[0]);
      EntryMoments(st, env, es[0]) + if r.Err? then [] else LoopMoments(st1, env, es[1..])
  }

  ghost function FinishMoments(st: State, env: Env, tx: Transaction): seq<State> {
    var reply := env.reply(Storing, st.ops);
    if reply.Refused? then [st.Tick().Strand()]
    else [st.Tick().Stored(tx)] + if reply.Lost? then [] else PublishMoments(st.Tick().Stored(tx), env, tx)
  }

  ghost function PublishMoments(st: State, env: Env, tx: Transaction): seq<State>
    requires st.audit.unprojected != []
  {
    var (st1, emitted) := AppendEvent(st, env, tx.id, TransactionRecorded(tx));
    [st1] + if emitted.Err? then [] else [Project(st1, env, tx)]
  }

  ghost function CommitMoments(st: State, env: Env, tx: Transaction): seq<State> {
    var (st1, applied) := ApplyEntries(st, env, tx.entries);
    LoopMoments(st, env, tx.entries) + if applied.Err? then [st1.Strand()] else FinishMoments(st1, env, tx)
  }

  ghost function RecordMoments(st: State, env: Env, cmds: seq<EntryCmd>, description: string): seq<State> {
    match ToEntries(cmds)
    case Err(_) => []
    case Ok(entries) =>
      match Built(st.nextId, entries, description)
      case Err(_) => []
      case Ok(tx) => [st.Draw()] + CommitMoments(st.Draw(), env, tx)
  }

  ghost function OpenMoments(st: State, env: Env, name: string, kind: string, currency: Currency): seq<State> {
    match NewAccountWithType(st.nextId, name, AccountKind(kind), currency)
    case Err(_) => []
    case Ok(acc) => OpenedMoments(st.Draw(), env, acc)
  }

  /** After the account value has been made. */
  ghost function OpenedMoments(st: State, env: Env, acc: Account): seq<State> {
    var (st1, saved) := SaveAccount(st, env, Opening, acc);
    [st1] + if saved.Err? then [] else AnnounceMoments(st1, env, acc)
  }

  ghost function AnnounceMoments(st: State, env: Env, acc: Account): seq<State> {
    var (st2, emitted) := AppendEvent(st, env, acc.id, AccountOpened(acc));
    [st2] + if emitted.Err? then [] else [st2.Tick().(read := ProjectOpened(st2.read, acc, env.reply(Projecting, st2.ops)))]
  }

  ghost function LookupMoments(st: State, env: Env, name: string, kind: string, currency: Currency): seq<State> {
    [st.Tick()] + if env.reply(Listing, st.ops).Done? && FirstNamed(env.listing(st.ops, st.accounts), name).None?
                  then OpenMoments(st.Tick(), env, name, kind, currency) else []
  }

  ghost function CallMoments(st: State, env: Env, call: LedgerCall): seq<State> {
    match call
    case OpenCall(name, kind, currency) => OpenMoments(st, env, name, kind, currency)
    case LookupCall(name, kind, currency) => LookupMoments(st, env, name, kind, currency)
    case RecordCall(entries, description) => RecordMoments(st, env, entries, description)
  }

  ghost function CallsMoments(st: State, env: Env, calls: seq<LedgerCall>): seq<State>
    decreases calls
  {
    if calls == [] then [] else CallMoments(st, env, calls[0]) + CallsMoments(Make(st, env, calls[0]), env, calls[1..])
  }

  /** A command's moments are those of its calls: a deposit looks up and records, a saga does so for each leg. */
  ghost function CommandMoments(st: State, env: Env, cmd: Command): seq<State> {
    CallsMoments(st, env, CommandCalls(st, env, cmd))
  }

  ghost function RunMoments(st: State, env: Env, cmds: seq<Command>): seq<State>
    decreases cmds
  {
    if cmds == [] then []
    else CommandMoments(st, env, cmds[0]) + RunMoments(Serve(st, env, cmds[0]), env, cmds[1..])
  }

  // ---------------------------------------------------------------- what ties moments to steps

  /** t is reached from st by elementary steps that move at most v and, if told so, only positive amounts. */
  ghost predicate Reached(st: State, t: State, v: nat, positive: bool) {
    exists ls, es :: Leads(st, ls, t, es) && Within(es, v, positive)
  }

  /** t is st after one storage call, or one elementary step, or a storage call and the step that is its effect. */
  ghost predicate Hop(st: State, t: State) {
    || t == st.Tick()
    || (exists l :: Enabled(st, l) && t == Do(st, l))
    || (exists l :: Enabled(st.Tick(), l) && !l.Call? && t == Do(st.Tick(), l))
  }

  /** From st, one hop after the other, the last one to end: nothing happens between two moments. */
  ghost predicate Unbroken(st: State, ts: seq<State>, end: State)
    decreases ts
  {
    if ts == [] then end == st else Hop(st, ts[0]) && Unbroken(ts[0], ts[1..], end)
  }

  /** ts are all the moments from st to end, and each is reached by elementary steps. */
  ghost predicate Traces(st: State, ts: seq<State>, end: State, v: nat, positive: bool) {
    && Unbroken(st, ts, end) && Reached(st, end, v, positive)
    && forall i :: 0 <= i < |ts| ==> Reached(st, ts[i], v, positive)
  }

  lemma Widen(st: State, t: State, v: nat, w: nat, positive: bool)
    requires Reached(st, t, v, positive) && v <= w
    ensures Reached(st, t, w, positive)
  {
    var ls, es :| Leads(st, ls, t, es) && Within(es, v, positive);
    assert Within(es, w, positive);
  }

  lemma Join(st: State, t: State, u: State, v: nat, w: nat, positive: bool)
    requires Reached(st, t, v, positive) && Reached(t, u, w, positive)
    ensures Reached(st, u, v + w, positive)
  {
    hide Leads, Within;
    var a, es :| Leads(st, a, t, es) && Within(es, v, positive);
    var b, es' :| Leads(t, b, u, es') && Within(es', w, positive);
    Chain(st, a, t, es, b, u, es');
    BothWithin(es, v, es', w, positive);
  }

  /** A hop makes at most one storage call. */
  lemma HopCalls(st: State, t: State)
    requires Hop(st, t)
    ensures st.ops <= t.ops <= st.ops + 1
  {
  }

  lemma {:induction false} UnbrokenJoin(st: State, a: seq<State>, t: State, b: seq<State>, end: State)
    requires Unbroken(st, a, t) && Unbroken(t, b, end)
    ensures Unbroken(st, a + b, end)
    decreases a
  {
    hide Hop;
    if a == [] {
      assert a + b == b;
    } else {
      UnbrokenJoin(a[0], a[1..], t, b, end);
      assert (a + b)[1..] == a[1..] + b;
    }
  }

  lemma JoinTraces(st: State, a: seq<State>, t: State, v: nat, b: seq<State>, end: State, w: nat, positive: bool)
    requires Traces(st, a, t, v, positive) && Traces(t, b, end, w, positive)
    ensures Traces(st, a + b, end, v + w, positive)
  {
    hide Reached, Unbroken, Hop;
    UnbrokenJoin(st, a, t, b, end);
    Join(st, t, end, v, w, positive);
    forall i | 0 <= i < |a + b| ensures Reached(st, (a + b)[i], v + w, positive) {
      if i < |a| {
        Widen(st, a[i], v, v + w, positive);
      } else {
        Join(st, t, b[i - |a|], v, w, positive);
      }
    }
  }

  lemma WidenTraces(st: State, a: seq<State>, t: State, v: nat, w: nat, positive: bool)
    requires Traces(st, a, t, v, positive) && v <= w
    ensures Traces(st, a, t, w, positive)
  {
    hide Reached, Unbroken, Hop;
    Widen(st, t, v, w, positive);
    forall i | 0 <= i < |a| ensures Reached(st, a[i], w, positive) {
      Widen(st, a[i], v, w, positive);
    }
  }

  lemma NoMoments(st: State, positive: bool)
    ensures Traces(st, [], st, 0, positive)
  {
    assert Leads(st, [], st, []) && Within([], 0, positive);
  }

  /** One moment, one hop away. */
  lemma OneMoment(st: State, ls: seq<Label>, t: State, es: seq<Entry>, v: nat, positive: bool)
    requires Leads(st, ls, t, es) && Within(es, v, positive) && Hop(st, t)
    ensures Traces(st, [t], t, v, positive)
  {
    hide Leads, Within, Hop;
    assert [t][1..] == [] && Unbroken(t, [], t);
    assert Reached(st, t, v, positive);
  }

  lemma NothingApplied(positive: bool)
    ensures Within([], 0, positive)
  {
  }

  lemma EndWellFormed(st: State, ts: seq<State>, end: State, v: nat, positive: bool)
    requires WellFormed(st) && Traces(st, ts, end, v, positive)
    ensures WellFormed(end)
  {
    hide WellFormed, Unbroken, Within;
    var ls, es :| Leads(st, ls, end, es) && Within(es, v, positive);
    PathKeepsWellFormed(st, ls);
  }

  /** A label on its own. */
  lemma LabelMoment(st: State, l: Label, positive: bool)
    requires Enabled(st, l) && !l.Apply?
    ensures Traces(st, [Do(st, l)], Do(st, l), 0, positive)
  {
    hide Enabled, Do;
    Then(st, [], st, [], l);
    NothingApplied(positive);
    OneMoment(st, [] + [l], Do(st, l), [], 0, positive);
  }

  /** A storage call that changed nothing. */
  lemma CallMoment(st: State, positive: bool)
    ensures Traces(st, [st.Tick()], st.Tick(), 0, positive)
  {
    Then(st, [], st, [], Call);
    NothingApplied(positive);
    OneMoment(st, [] + [Call], st.Tick(), [], 0, positive);
  }

  /** A storage call and its effect. */
  lemma EffectMoment(st: State, l: Label, positive: bool)
    requires Enabled(st.Tick(), l) && !l.Apply? && !l.Call?
    ensures Traces(st, [Do(st.Tick(), l)], Do(st.Tick(), l), 0, positive)
  {
    hide Enabled, Do;
    assert Enabled(st, Call) && Do(st, Call) == st.Tick() by { CallTicks(st); }
    Then(st, [], st, [], Call);
    Then(st, [] + [Call], st.Tick(), [], l);
    NothingApplied(positive);
    OneMoment(st, [] + [Call] + [l], Do(st.Tick(), l), [], 0, positive);
  }

  lemma CallTicks(st: State)
    ensures Enabled(st, Call) && Do(st, Call) == st.Tick()
  {
  }

  /** The save of an applied entry. */
  lemma AppliedMoment(st: State, e: Entry, positive: bool)
    requires Enabled(st.Tick(), Apply(e)) && (positive ==> e.amount.amount > 0)
    ensures var t := Do(st.Tick(), Apply(e));
            Traces(st, [t], t, Abs(e.amount.amount), positive)
  {
    Then(st, [], st, [], Call);
    Then(st, [] + [Call], st.Tick(), [], Apply(e));
    assert [e][..0] == [] && Within([e], Abs(e.amount.amount), positive);
    assert [] + [e] == [e];
    OneMoment(st, [] + [Call] + [Apply(e)], Do(st.Tick(), Apply(e)), [e], Abs(e.amount.amount), positive);
  }

  // ---------------------------------------------------------------- opening accounts

  lemma AppendedLast(st: State, env: Env, agg: AggregateID, event: DomainEvent)
    requires AppendEvent(st, env, agg, event).1.Ok?
    ensures Announced(AppendEvent(st, env, agg, event).0, event)
  {
    var st' := AppendEvent(st, env, agg, event).0;
    assert st'.tables.events[|st.tables.events|].payload == event;
  }

  lemma AnnounceTraces(st: State, env: Env, acc: Account, positive: bool)
    requires acc.id in st.accounts && st.accounts[acc.id] == acc && acc.id < st.nextId
    ensures var (st2, emitted) := AppendEvent(st, env, acc.id, AccountOpened(acc));
            var end := if emitted.Err? then st2 else st2.Tick().(read := ProjectOpened(st2.read, acc, env.reply(Projecting, st2.ops)));
            Traces(st, AnnounceMoments(st, env, acc), end, 0, positive) && end.audit == st.audit
  {
    hide Traces;
    var (st2, emitted) := AppendEvent(st, env, acc.id, AccountOpened(acc));
    EffectMoment(st, Emit(acc.id, AccountOpened(acc), env.reply(Appending, st.ops)), positive);
    if emitted.Ok? {
      assert Announced(st2, AccountOpened(acc)) by { AppendedLast(st, env, acc.id, AccountOpened(acc)); }
      if env.reply(Projecting, st2.ops).Refused? {
        CallMoment(st2, positive);
      } else {
        EffectMoment(st2, ShowAccount(acc), positive);
      }
      var end := st2.Tick().(read := ProjectOpened(st2.read, acc, env.reply(Projecting, st2.ops)));
      JoinTraces(st, [st2], st2, 0, [end], end, 0, positive);
    } else {
      assert AnnounceMoments(st, env, acc) == [st2];
    }
  }

  lemma OpenTraces(st: State, env: Env, name: string, kind: string, currency: Currency, positive: bool)
    requires WellFormed(st)
    ensures var end := OpenAccount(st, env, name, kind, currency).0;
            Traces(st, OpenMoments(st, env, name, kind, currency), end, 0, positive) && end.audit == st.audit && WellFormed(end)
  {
    hide Traces, AnnounceMoments;
    var created := NewAccountWithType(st.nextId, name, AccountKind(kind), currency);
    if created.Err? {
      NoMoments(st, positive);
    } else {
      var acc, drawn := created.value, st.Draw();
      var (st1, saved) := SaveAccount(drawn, env, Opening, acc);
      if env.reply(Opening, drawn.ops).Refused? {
        EffectMoment(st, DrawId, positive);
      } else {
        EffectMoment(st, Open(acc), positive);
      }
      if saved.Ok? {
        AnnounceTraces(st1, env, acc, positive);
        JoinTraces(st, [st1], st1, 0, AnnounceMoments(st1, env, acc), OpenAccount(st, env, name, kind, currency).0, 0, positive);
      } else {
        assert [st1] == OpenMoments(st, env, name, kind, currency);
      }
      EndWellFormed(st, OpenMoments(st, env, name, kind, currency), OpenAccount(st, env, name, kind, currency).0, 0, positive);
    }
  }

  lemma LookupTraces(st: State, env: Env, name: string, kind: string, currency: Currency, positive: bool)
    requires WellFormed(st)
    ensures var end := GetOrCreateSystemAccount(st, env, name, kind, currency).0;
            Traces(st, LookupMoments(st, env, name, kind, currency), end, 0, positive) && end.audit == st.audit && WellFormed(end)
  {
    hide Traces, OpenAccount, OpenMoments, WellFormed;
    var ticked := st.Tick();
    CallMoment(st, positive);
    EndWellFormed(st, [ticked], ticked, 0, positive);
    if env.reply(Listing, st.ops).Done? && FirstNamed(env.listing(st.ops, st.accounts), name).None? {
      OpenTraces(ticked, env, name, kind, currency, positive);
      JoinTraces(st, [ticked], ticked, 0, OpenMoments(ticked, env, name, kind, currency), OpenAccount(ticked, env, name, kind, currency).0, 0, positive);
    } else {
      assert LookupMoments(st, env, name, kind, currency) == [ticked];
    }
    EndWellFormed(st, LookupMoments(st, env, name, kind, currency), GetOrCreateSystemAccount(st, env, name, kind, currency).0, 0, positive);
  }

  // ---------------------------------------------------------------- recording transactions

  lemma Coheres(st: State)
    requires WellFormed(st)
    ensures CoherentTable(st.accounts)
  {
  }

  lemma EntryTraces(st: State, env: Env, e: Entry, positive: bool)
    requires WellFormed(st) && (positive ==> e.amount.amount > 0)
    ensures Traces(st, EntryMoments(st, env, e), ApplyEntry(st, env, e).0, Abs(e.amount.amount), positive)
  {
    hide Traces, WellFormed, CoherentTable, ApplyTo;
    Coheres(st);
    EntryPosts(st, env, e);
    var ticked := st.Tick();
    CallMoment(st, positive);
    if env.reply(Finding, st.ops).Done? && Accepts(st.accounts, e) {
      var st1 := ApplyEntry(st, env, e).0;
      if env.reply(Updating, st.ops + 1).Refused? {
        CallMoment(ticked, positive);
        WidenTraces(ticked, [st1], st1, 0, Abs(e.amount.amount), positive);
      } else {
        assert st1 == Do(ticked.Tick(), Apply(e)) by { AppliedState(st, e); }
        AppliedMoment(ticked, e, positive);
      }
      JoinTraces(st, [ticked], ticked, 0, [st1], st1, Abs(e.amount.amount), positive);
    } else {
      WidenTraces(st, [ticked], ticked, 0, Abs(e.amount.amount), positive);
      assert EntryMoments(st, env, e) == [ticked];
    }
  }

  lemma AppliedState(st: State, e: Entry)
    requires CoherentTable(st.accounts) && Accepts(st.accounts, e)
    ensures Enabled(st.Tick().Tick(), Apply(e))
    ensures Do(st.Tick().Tick(), Apply(e)) == st.Tick().Tick().(accounts := Post(st.accounts, e)).Applied(e)
  {
    ApplyToMeans(st.accounts[e.account], e);
  }

  lemma {:induction false} LoopTraces(st: State, env: Env, es: seq<Entry>, positive: bool)
    requires WellFormed(st) && (positive ==> forall i :: 0 <= i < |es| ==> es[i].amount.amount > 0)
    ensures Traces(st, LoopMoments(st, env, es), ApplyEntries(st, env, es).0, Volume(es), positive)
    decreases es
  {
    hide Traces, WellFormed, ApplyEntry, EntryMoments;
    if es == [] {
      NoMoments(st, positive);
    } else {
      var (st1, r) := ApplyEntry(st, env, es[0]);
      var first, v := EntryMoments(st, env, es[0]), Abs(es[0].amount.amount);
      EntryTraces(st, env, es[0], positive);
      HeadVolume(es);
      if r.Err? {
        WidenTraces(st, first, st1, v, Volume(es), positive);
        assert first + [] == first;
      } else {
        EndWellFormed(st, first, st1, v, positive);
        assert forall i :: 0 <= i < |es[1..]| ==> es[1..][i] == es[i + 1];
        LoopTraces(st1, env, es[1..], positive);
        JoinTraces(st, first, st1, v, LoopMoments(st1, env, es[1..]), ApplyEntries(st1, env, es[1..]).0, Volume(es[1..]), positive);
      }
    }
  }

  /** The moments of the loop contain the state after every prefix of its entries. */
  lemma {:induction false} LoopStates(st: State, env: Env, es: seq<Entry>, j: nat)
    requires CoherentTable(st.accounts) && j <= |es|
    ensures ApplyEntries(st, env, es[..j]).0 in [st] + LoopMoments(st, env, es)
    decreases es
  {
    if j > 0 {
      hide CoherentTable, ApplyEntry, EntryMoments, ApplyEntries, LoopMoments;
      EntryState(st, env, es[0]);
      LoopHead(st, env, es, j);
      var (st1, r) := ApplyEntry(st, env, es[0]);
      var first := EntryMoments(st, env, es[0]);
      if r.Ok? {
        LoopStates(st1, env, es[1..], j - 1);
        Among(st, first, st1, LoopMoments(st1, env, es[1..]), ApplyEntries(st1, env, es[1..][..j - 1]).0);
      } else {
        Among(st, first, st1, [], st1);
      }
    }
  }

  lemma LoopHead(st: State, env: Env, es: seq<Entry>, j: nat)
    requires 0 < j <= |es|
    ensures var (st1, r) := ApplyEntry(st, env, es[0]);
            && ApplyEntries(st, env, es[..j]) == (if r.Err? then (st1, r) else ApplyEntries(st1, env, es[1..][..j - 1]))
            && LoopMoments(st, env, es) == EntryMoments(st, env, es[0]) + if r.Err? then [] else LoopMoments(st1, env, es[1..])
  {
    hide ApplyEntry, EntryMoments;
    assert es[..j][0] == es[0] && es[..j][1..] == es[1..][..j - 1];
  }

  lemma Among(st: State, first: seq<State>, st1: State, rest: seq<State>, t: State)
    requires st1 in first && t in [st1] + rest
    ensures t in [st] + (first + rest)
  {
  }

  lemma EntryState(st: State, env: Env, e: Entry)
    requires CoherentTable(st.accounts)
    ensures ApplyEntry(st, env, e).0 in EntryMoments(st, env, e)
    ensures CoherentTable(ApplyEntry(st, env, e).0.accounts)
  {
    hide CoherentTable;
    EntryPosts(st, env, e);
    if Accepts(st.accounts, e) {
      PostMeans(st.accounts, e);
    }
  }

  lemma HeadVolume(es: seq<Entry>)
    requires es != []
    ensures Volume(es) == Abs(es[0].amount.amount) + Volume(es[1..])
  {
    VolumeConcat([es[0]], es[1..]);
    assert es == [es[0]] + es[1..] && [es[0]][..0] == [];
  }

  lemma PublishTraces(st: State, env: Env, tx: Transaction, positive: bool)
    requires st.audit.unprojected != [] && st.audit.unprojected[|st.audit.unprojected| - 1] == tx && tx.id < st.nextId
    requires tx.id in st.transactions && st.transactions[tx.id] == tx
    ensures var (st1, emitted) := AppendEvent(st, env, tx.id, TransactionRecorded(tx));
            var end := if emitted.Err? then st1 else Project(st1, env, tx);
            Traces(st, PublishMoments(st, env, tx), end, 0, positive) && end.audit.pending == st.audit.pending
  {
    hide Traces, ProjectEntries;
    var (st1, emitted) := AppendEvent(st, env, tx.id, TransactionRecorded(tx));
    EffectMoment(st, Emit(tx.id, TransactionRecorded(tx), env.reply(Appending, st.ops)), positive);
    if emitted.Ok? {
      assert Announced(st1, TransactionRecorded(tx)) by { AppendedLast(st, env, tx.id, TransactionRecorded(tx)); }
      var end := Project(st1, env, tx);
      if env.reply(Projecting, st1.ops).Refused? || ProjectEntries(st1.read, tx, tx.entries).Err? {
        CallMoment(st1, positive);
      } else {
        EffectMoment(st1, ShowTransaction(tx), positive);
      }
      JoinTraces(st, [st1], st1, 0, [end], end, 0, positive);
    } else {
      assert PublishMoments(st, env, tx) == [st1];
    }
  }

  lemma FinishTraces(st: State, env: Env, tx: Transaction, positive: bool)
    requires WellFormed(st) && Enabled(st, StoreTx(tx))
    ensures var end := Finish(st, env, tx).0;
            Traces(st, FinishMoments(st, env, tx), end, 0, positive) && end.audit.pending == []
  {
    hide Traces, PublishMoments, Rejection, WellFormed;
    if env.reply(Storing, st.ops).Refused? {
      EffectMoment(st, Abandon, positive);
    } else {
      var stored := st.Tick().Stored(tx);
      EffectMoment(st, StoreTx(tx), positive);
      if env.reply(Storing, st.ops).Done? {
        PublishTraces(stored, env, tx, positive);
        JoinTraces(st, [stored], stored, 0, PublishMoments(stored, env, tx), Finish(st, env, tx).0, 0, positive);
      } else {
        assert FinishMoments(st, env, tx) == [stored];
      }
    }
  }

  /** A loop that succeeds has applied the whole list. */
  lemma LoopPending(st: State, env: Env, es: seq<Entry>)
    requires WellFormed(st) && st.audit.pending == []
    ensures var (st', r) := ApplyEntries(st, env, es);
            && st'.transactions == st.transactions && st'.nextId == st.nextId
            && (r.Ok? ==> st'.audit.pending == es)
  {
    hide WellFormed, CoherentTable, ApplyEntries, Saves, AllAccepted, PostAll;
    Coheres(st);
    LoopLeaves(st, env, es);
    assert es[..|es|] == es && [] + es == es;
  }

  lemma CommitTraces(st: State, env: Env, tx: Transaction, positive: bool)
    requires WellFormed(st) && st.audit.pending == []
    requires tx.id !in st.transactions && tx.id < st.nextId && Rejection(tx.entries) == None
    requires positive ==> forall i :: 0 <= i < |tx.entries| ==> tx.entries[i].amount.amount > 0
    ensures var end := Commit(st, env, tx).0;
            Traces(st, CommitMoments(st, env, tx), end, Volume(tx.entries), positive) && end.audit.pending == []
  {
    hide Traces, WellFormed, ApplyEntries, LoopMoments, FinishMoments, Finish, Rejection;
    var (st1, applied) := ApplyEntries(st, env, tx.entries);
    LoopTraces(st, env, tx.entries, positive);
    LoopPending(st, env, tx.entries);
    if applied.Err? {
      LabelMoment(st1, Abandon, positive);
      JoinTraces(st, LoopMoments(st, env, tx.entries), st1, Volume(tx.entries), [st1.Strand()], st1.Strand(), 0, positive);
    } else {
      EndWellFormed(st, LoopMoments(st, env, tx.entries), st1, Volume(tx.entries), positive);
      FinishTraces(st1, env, tx, positive);
      JoinTraces(st, LoopMoments(st, env, tx.entries), st1, Volume(tx.entries), FinishMoments(st1, env, tx), Finish(st1, env, tx).0, 0, positive);
    }
  }

  /** RecordTransaction: its moments, and a bound on what it moves. */
  lemma RecordTraces(st: State, env: Env, cmds: seq<EntryCmd>, description: string)
    requires WellFormed(st) && st.audit.pending == []
    ensures var end := RecordTransaction(st, env, cmds, description).0;
            && Traces(st, RecordMoments(st, env, cmds, description), end, AmountVolume(cmds), PositiveAmounts(cmds))
            && WellFormed(end) && end.audit.pending == []
  {
    hide Traces, WellFormed, CommitMoments, Commit, Rejection;
    var positive := PositiveAmounts(cmds);
    if ToEntries(cmds).Ok? && Rejection(ToEntries(cmds).value) == None {
      var tx, drawn := Transaction(st.nextId, ToEntries(cmds).value, description), st.Draw();
      EntriesWithin(cmds);
      LabelMoment(st, DrawId, positive);
      EndWellFormed(st, [drawn], drawn, 0, positive);
      FreshId(st);
      CommitTraces(drawn, env, tx, positive);
      JoinTraces(st, [drawn], drawn, 0, CommitMoments(drawn, env, tx), Commit(drawn, env, tx).0, AmountVolume(cmds), positive);
    } else {
      NoMoments(st, positive);
      WidenTraces(st, [], st, 0, AmountVolume(cmds), positive);
    }
    EndWellFormed(st, RecordMoments(st, env, cmds, description), RecordTransaction(st, env, cmds, description).0, AmountVolume(cmds), positive);
  }

  lemma FreshId(st: State)
    requires WellFormed(st)
    ensures st.nextId !in st.transactions && st.nextId !in st.accounts
  {
  }

  // ---------------------------------------------------------------- commands

  /** Positive moves are moves. */
  lemma Loosen(st: State, ts: seq<State>, end: State, v: nat, positive: bool, p: bool)
    requires Traces(st, ts, end, v, positive) && (p ==> positive)
    ensures Traces(st, ts, end, v, p)
  {
    hide Unbroken, Leads;
    forall t | Reached(st, t, v, positive) ensures Reached(st, t, v, p) {
      var ls, es :| Leads(st, ls, t, es) && Within(es, v, positive);
      assert Within(es, v, p);
    }
  }

  lemma CallTraces(st: State, env: Env, call: LedgerCall, positive: bool)
    requires WellFormed(st) && st.audit.pending == [] && (positive && call.RecordCall? ==> PositiveAmounts(call.entries))
    ensures var end := Make(st, env, call);
            && Traces(st, CallMoments(st, env, call), end, CallVolume(call), positive)
            && WellFormed(end) && end.audit.pending == []
  {
    hide Traces, WellFormed, OpenAccount, GetOrCreateSystemAccount, RecordTransaction, OpenMoments, LookupMoments, RecordMoments;
    match call
    case OpenCall(name, kind, currency) =>
      OpenTraces(st, env, name, kind, currency, positive);
    case LookupCall(name, kind, currency) =>
      LookupTraces(st, env, name, kind, currency, positive);
    case RecordCall(entries, description) =>
      RecordTraces(st, env, entries, description);
      Loosen(st, RecordMoments(st, env, entries, description), Make(st, env, call), AmountVolume(entries), PositiveAmounts(entries), positive);
  }

  lemma {:induction false} CallsTraces(st: State, env: Env, calls: seq<LedgerCall>, positive: bool)
    requires WellFormed(st) && st.audit.pending == []
    requires forall i :: 0 <= i < |calls| && positive && calls[i].RecordCall? ==> PositiveAmounts(calls[i].entries)
    ensures var end := MakeAll(st, env, calls);
            && Traces(st, CallsMoments(st, env, calls), end, CallsVolume(calls), positive)
            && WellFormed(end) && end.audit.pending == []
    decreases calls
  {
    hide Traces, WellFormed, Make, CallMoments, CallVolume;
    if calls == [] {
      NoMoments(st, positive);
    } else {
      var st1, rest := Make(st, env, calls[0]), calls[1..];
      CallTraces(st, env, calls[0], positive);
      assert forall i :: 0 <= i < |rest| ==> rest[i] == calls[i + 1];
      CallsTraces(st1, env, rest, positive);
      JoinTraces(st, CallMoments(st, env, calls[0]), st1, CallVolume(calls[0]), CallsMoments(st1, env, rest), MakeAll(st1, env, rest), CallsVolume(rest), positive);
    }
  }

  lemma CommandTraces(st: State, env: Env, cmd: Command)
    requires WellFormed(st) && st.audit.pending == []
    ensures var end := Serve(st, env, cmd);
            && Traces(st, CommandMoments(st, env, cmd), end, CommandVolume(cmd), PositiveCommand(cmd))
            && WellFormed(end) && end.audit.pending == []
  {
    hide Traces, WellFormed, Serve, CommandCalls, CallsMoments, MakeAll, CommandVolume, PositiveCommand, CallsVolume;
    var calls := CommandCalls(st, env, cmd);
    CommandIsItsCalls(st, env, cmd);
    CommandCallsAreProper(st, env, cmd);
    assert forall i :: 0 <= i < |calls| ==> MayMake(cmd, calls[i]);
    CallsTraces(st, env, calls, PositiveCommand(cmd));
    WidenTraces(st, CallsMoments(st, env, calls), Serve(st, env, cmd), CallsVolume(calls), CommandVolume(cmd), PositiveCommand(cmd));
  }

  /**
   Every run of commands, under every fault pattern and every listing order: its moments follow one another
   by single hops, end in the run's result, and are all reached by elementary steps that move no more than
   the commands ask for.
   */
  lemma {:induction false} RunTraces(st: State, env: Env, cmds: seq<Command>)
    requires WellFormed(st) && st.audit.pending == []
    ensures var end := Run(st, env, cmds);
            && Traces(st, RunMoments(st, env, cmds), end, RunVolume(cmds), PositiveRun(cmds))
            && WellFormed(end) && end.audit.pending == []
    decreases cmds
  {
    hide Traces, WellFormed, Serve, CommandMoments, CommandVolume, PositiveCommand;
    if cmds == [] {
      NoMoments(st, PositiveRun(cmds));
    } else {
      var st1, first, rest := Serve(st, env, cmds[0]), CommandMoments(st, env, cmds[0]), cmds[1..];
      CommandTraces(st, env, cmds[0]);
      Loosen(st, first, st1, CommandVolume(cmds[0]), PositiveCommand(cmds[0]), PositiveRun(cmds));
      RunTraces(st1, env, rest);
      Loosen(st1, RunMoments(st1, env, rest), Run(st1, env, rest), RunVolume(rest), PositiveRun(rest), PositiveRun(cmds));
      JoinTraces(st, first, st1, CommandVolume(cmds[0]), RunMoments(st1, env, rest), Run(st1, env, rest), RunVolume(rest), PositiveRun(cmds));
    }
  }
}
