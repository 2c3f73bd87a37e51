/**
 What the event and outbox tables hold at every moment of every ledger run: the two mirror each other,
 no aggregate has two events, and no event tells of anything the write side does not hold.
 */
module EventLog {
  import opened Results
  import opened Money
  import opened Accounts
  import opened Transactions
  import opened Repositories
  import opened EventStore
  import opened Ledger
  import opened Steps
  import opened Commands
  import opened Moments
  import opened Books

  /** Row by row, the outbox carries the events. */
  ghost predicate Mirrored<P(!new)>(t: Tables<P>) {
    && |t.events| == |t.outbox|
    && forall i :: 0 <= i < |t.events| ==> t.outbox[i] == OutboxRow(t.events[i].aggregate, t.events[i].payload)
  }

  /** The double write is atomic: whatever the versions and the reply, an append keeps the mirror. */
  lemma AppendKeepsMirror<P(!new)>(t: Tables<P>, agg: AggregateID, expected: int, payloads: seq<P>, reply: Reply)
    requires Mirrored(t)
    ensures Mirrored(Append(t, agg, expected, payloads, reply).0)
  {
  }

  /** First events only, one per aggregate. */
  ghost predicate OneEach(events: seq<Event<DomainEvent>>) {
    && (forall i :: 0 <= i < |events| ==> events[i].version == 1)
    && (forall i, j :: 0 <= i < j < |events| ==> events[i].aggregate != events[j].aggregate)
  }

  ghost predicate AllGrounded(st: State) {
    forall i :: 0 <= i < |st.tables.events| ==> Grounded(st, st.tables.events[i].aggregate, st.tables.events[i].payload)
  }

  ghost predicate LogOK(st: State) {
    Mirrored(st.tables) && OneEach(st.tables.events) && AllGrounded(st)
  }

  lemma EmittedOnce(t: Tables<DomainEvent>, agg: AggregateID, event: DomainEvent, reply: Reply)
    requires OneEach(t.events)
    ensures OneEach(Append(t, agg, 0, [event], reply).0.events)
  {
    var t' := Append(t, agg, 0, [event], reply).0;
    if t' != t {
      forall i | 0 <= i < |t.events| ensures t.events[i].aggregate != agg {
        assert t.events[i].version == 1;
      }
    }
  }

  /** Nothing a step does takes the ground from under an earlier event. */
  lemma StaysGrounded(st: State, l: Label, agg: AggregateID, event: DomainEvent)
    requires WellFormed(st) && Enabled(st, l) && Grounded(st, agg, event)
    ensures Grounded(Do(st, l), agg, event)
  {
    if l.Apply? {
      ApplyToMeans(st.accounts[l.e.account], l.e);
    }
  }

  lemma StepKeepsLog(st: State, l: Label)
    requires WellFormed(st) && Enabled(st, l) && LogOK(st)
    ensures LogOK(Do(st, l))
  {
    hide WellFormed, Grounded, ApplyTo, OneEach, Mirrored;
    var st' := Do(st, l);
    forall i | 0 <= i < |st.tables.events| ensures Grounded(st', st.tables.events[i].aggregate, st.tables.events[i].payload) {
      StaysGrounded(st, l, st.tables.events[i].aggregate, st.tables.events[i].payload);
    }
    match l
    case Emit(agg, event, reply) =>
      AppendKeepsMirror(st.tables, agg, 0, [event], reply);
      EmittedOnce(st.tables, agg, event, reply);
      StaysGrounded(st, l, agg, event);
    case _ =>
  }

  lemma {:induction false} PathKeepsLog(st: State, ls: seq<Label>)
    requires WellFormed(st) && IsPath(st, ls) && LogOK(st)
    ensures LogOK(Follow(st, ls))
    decreases ls
  {
    hide WellFormed, LogOK, Enabled, Do;
    if ls != [] {
      StepKeepsLog(st, ls[0]);
      StepKeepsWellFormed(st, ls[0]);
      PathKeepsLog(Do(st, ls[0]), ls[1..]);
    }
  }

  /**
   In every run, under any faults, at every moment: the outbox mirrors the event table, every aggregate
   has at most one event, and every event is backed by the stored transaction or account it names.
   */
  lemma EventsMatchStore(env: Env, cmds: seq<Command>)
    ensures forall i :: 0 <= i < |RunMoments(Init, env, cmds)| ==> LogOK(RunMoments(Init, env, cmds)[i])
    ensures LogOK(Run(Init, env, cmds))
  {
    hide Run, RunMoments, Sound, Reached, Unbroken, LogOK;
    EveryMomentIsSound(env, cmds);
    forall t | Reached(Init, t, RunVolume(cmds), PositiveRun(cmds)) ensures LogOK(t) {
      ReachedLog(t, RunVolume(cmds), PositiveRun(cmds));
    }
  }

  lemma ReachedLog(t: State, v: nat, positive: bool)
    requires Reached(Init, t, v, positive)
    ensures LogOK(t)
  {
    hide Sound, IsPath, Follow;
    InitIsSound();
    SoundIsWellFormed(Init);
    var ls, es :| Leads(Init, ls, t, es) && Within(es, v, positive);
    PathKeepsLog(Init, ls);
  }

  // ---------------------------------------------------------------- replaying the log

  /** What one event adds to account a. */
  function EventEntry(event: DomainEvent, a: AccountID): int {
    match event
    case AccountOpened(_) => 0
    case TransactionRecorded(tx) => AccountSum(tx.entries, a)
  }

  /** Account a's balance rebuilt from nothing but the event log. */
  function Replayed(events: seq<Event<DomainEvent>>, a: AccountID): int {
    Replay((sum: int, event: DomainEvent) => sum + EventEntry(event, a), 0, events)
  }

  ghost predicate HasEvent(events: seq<Event<DomainEvent>>, id: TransactionID) {
    exists i :: 0 <= i < |events| && events[i].payload.TransactionRecorded? && events[i].payload.tx.id == id
  }

  /** Account a's entries in the stored transactions below n that have, or have not, an event. */
  ghost function EmittedSum(events: seq<Event<DomainEvent>>, txs: map<TransactionID, Transaction>, n: nat, a: AccountID, has: bool): int {
    if n == 0 then 0
    else EmittedSum(events, txs, n - 1, a, has)
         + if n - 1 in txs && HasEvent(events, n - 1) == has then AccountSum(txs[n - 1].entries, a) else 0
  }

  lemma {:induction false} SavedSumSplits(events: seq<Event<DomainEvent>>, txs: map<TransactionID, Transaction>, n: nat, a: AccountID)
    ensures SavedSum(txs, n, a) == EmittedSum(events, txs, n, a, true) + EmittedSum(events, txs, n, a, false)
  {
    if n > 0 {
      SavedSumSplits(events, txs, n - 1, a);
    }
  }

  lemma HasEventPush(events: seq<Event<DomainEvent>>, e: Event<DomainEvent>, id: TransactionID)
    ensures HasEvent(events + [e], id) <==> HasEvent(events, id) || (e.payload.TransactionRecorded? && e.payload.tx.id == id)
  {
    assert (events + [e])[|events|] == e;
    assert forall i :: 0 <= i < |events| ==> (events + [e])[i] == events[i];
  }

  /** One more event: its transaction, if it records one, moves to the emitted side. */
  lemma {:induction false} EmittedPush(events: seq<Event<DomainEvent>>, e: Event<DomainEvent>, txs: map<TransactionID, Transaction>, n: nat, a: AccountID)
    requires e.payload.TransactionRecorded? ==>
               var tx := e.payload.tx; tx.id in txs && txs[tx.id] == tx && !HasEvent(events, tx.id)
    ensures EmittedSum(events + [e], txs, n, a, true)
         == EmittedSum(events, txs, n, a, true) + if e.payload.TransactionRecorded? && e.payload.tx.id < n then EventEntry(e.payload, a) else 0
  {
    if n > 0 {
      hide HasEvent;
      EmittedPush(events, e, txs, n - 1, a);
      HasEventPush(events, e, n - 1);
    }
  }

  /** The events before the last one satisfy what all of them satisfy. */
  lemma LastEventIsNew(st: State, n: nat)
    requires LogOK(st) && n < |st.tables.events| && st.tables.events[n].payload.TransactionRecorded?
    ensures var tx := st.tables.events[n].payload.tx;
            && tx.id in st.transactions && st.transactions[tx.id] == tx && !HasEvent(st.tables.events[..n], tx.id)
  {
    var events := st.tables.events;
    assert Grounded(st, events[n].aggregate, events[n].payload);
    forall i | 0 <= i < n && events[i].payload.TransactionRecorded? ensures events[i].payload.tx.id != events[n].payload.tx.id {
      assert Grounded(st, events[i].aggregate, events[i].payload);
    }
  }

  lemma {:induction false} NothingEmitted(txs: map<TransactionID, Transaction>, n: nat, a: AccountID)
    ensures EmittedSum([], txs, n, a, true) == 0
  {
    if n > 0 {
      NothingEmitted(txs, n - 1, a);
    }
  }

  lemma {:induction false} ReplayedPrefix(st: State, k: nat, a: AccountID)
    requires LogOK(st) && WellFormed(st) && k <= |st.tables.events|
    ensures Replayed(st.tables.events[..k], a) == EmittedSum(st.tables.events[..k], st.transactions, st.nextId, a, true)
  {
    if k == 0 {
      NothingEmitted(st.transactions, st.nextId, a);
    } else {
      hide LogOK, EmittedSum, HasEvent, AccountSum;
      var events, e := st.tables.events, st.tables.events[k - 1];
      ReplayedPrefix(st, k - 1, a);
      if e.payload.TransactionRecorded? {
        LastEventIsNew(st, k - 1);
      }
      assert events[..k] == events[..k - 1] + [e];
      EmittedPush(events[..k - 1], e, st.transactions, st.nextId, a);
    }
  }

  /**
   Replaying the event log gives each account's balance up to what the log cannot know: the stored
   transactions whose event was never appended, and the prefixes of calls that failed.
   */
  lemma ReplayLag(env: Env, cmds: seq<Command>, a: AccountID)
    ensures var st := Run(Init, env, cmds);
            Balance(st, a) == Wrap(Replayed(st.tables.events, a)
                                   + EmittedSum(st.tables.events, st.transactions, st.nextId, a, false)
                                   + StrandedSum(st.audit.stranded, a))
  {
    hide Run, RunMoments, Traces, Sound, LogOK, WellFormed, Replayed, EmittedSum, Wrap;
    var st := Run(Init, env, cmds);
    BalanceIsSumOfEntries(env, cmds, a);
    EventsMatchStore(env, cmds);
    EveryMomentIsSound(env, cmds);
    SoundIsWellFormed(st);
    ReplayedPrefix(st, |st.tables.events|, a);
    assert st.tables.events[..|st.tables.events|] == st.tables.events;
    SavedSumSplits(st.tables.events, st.transactions, st.nextId, a);
  }
}
