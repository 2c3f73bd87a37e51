/**
 The events table with its UNIQUE (aggregate_id, version) constraint, the outbox table written in the
 same database transaction, and the snapshots table. A database transaction is all-or-nothing.
 */
module EventStore {
  import opened Results

  type AggregateID = nat

  datatype Event<+P> = Event(aggregate: AggregateID, version: int, payload: P)

  /** The serial id of an outbox row is its position in the table. */
  datatype OutboxRow<+P> = OutboxRow(aggregate: AggregateID, payload: P)

  datatype Tables<+P> = Tables(events: seq<Event<P>>, outbox: seq<OutboxRow<P>>)

  // ---------------------------------------------------------------- appending

  ghost predicate Taken<P>(events: seq<Event<P>>, agg: AggregateID, version: int) {
    exists i :: 0 <= i < |events| && events[i].aggregate == agg && events[i].version == version
  }

  /** Some version this append would write is already there. */
  ghost predicate Clash<P>(events: seq<Event<P>>, agg: AggregateID, expected: int, n: nat) {
    exists i :: 0 <= i < |events| && events[i].aggregate == agg && expected < events[i].version <= expected + n
  }

  function NewEvents<P>(agg: AggregateID, expected: int, payloads: seq<P>): (es: seq<Event<P>>)
    ensures |es| == |payloads|
    ensures forall i :: 0 <= i < |es| ==> es[i] == Event(agg, expected + i + 1, payloads[i])
  {
    if payloads == [] then []
    else
      var n := |payloads| - 1;
      NewEvents(agg, expected, payloads[..n]) + [Event(agg, expected + n + 1, payloads[n])]
  }

  function NewRows<P>(agg: AggregateID, payloads: seq<P>): (rows: seq<OutboxRow<P>>)
    ensures |rows| == |payloads|
    ensures forall i :: 0 <= i < |rows| ==> rows[i] == OutboxRow(agg, payloads[i])
  {
    if payloads == [] then []
    else NewRows(agg, payloads[..|payloads| - 1]) + [OutboxRow(agg, payloads[|payloads| - 1])]
  }

  ghost function Append<P>(t: Tables<P>, agg: AggregateID, expected: int, payloads: seq<P>, reply: Reply): (Tables<P>, Result<()>) {
    if reply.Refused? then (t, Err(StorageFault))
    else if Clash(t.events, agg, expected, |payloads|) then (t, Err(VersionConflict))
    else
      var t' := Tables(t.events + NewEvents(agg, expected, payloads), t.outbox + NewRows(agg, payloads));
      (t', if reply.Done? then Ok(()) else Err(StorageFault))
  }

  /** The database behind the outbox writer. */
  class OutboxWriter<P> {
    var events: seq<Event<P>>
    var outbox: seq<OutboxRow<P>>

    constructor ()
      ensures events == [] && outbox == []
    {
      events, outbox := [], [];
    }

    ghost function Contents(): Tables<P>
      reads this
    {
      Tables(events, outbox)
    }

    /** The INSERT into events: it errors exactly when the version is taken. */
    static method IsTaken(rows: seq<Event<P>>, agg: AggregateID, version: int) returns (taken: bool)
      ensures taken <==> Taken(rows, agg, version)
    {
      for i := 0 to |rows|
        invariant forall k :: 0 <= k < i ==> !(rows[k].aggregate == agg && rows[k].version == version)
      {
        if rows[i].aggregate == agg && rows[i].version == version {
          return true;
        }
      }
      return false;
    }

    /** Inserts row by row into both tables and commits, or rolls both back. */
    method AppendWithOutbox(agg: AggregateID, expectedVersion: int, payloads: seq<P>, reply: Reply) returns (r: Result<()>)
      modifies this
      ensures (Contents(), r) == Append(old(Contents()), agg, expectedVersion, payloads, reply)
    {
      if reply.Refused? {
        return Err(StorageFault);
      }
      var txEvents, txOutbox := events, outbox;
      for i := 0 to |payloads|
        invariant txEvents == events + NewEvents(agg, expectedVersion, payloads[..i])
        invariant txOutbox == outbox + NewRows(agg, payloads[..i])
        invariant !Clash(events, agg, expectedVersion, i)
        invariant Contents() == old(Contents())
      {
        assert payloads[..i + 1][..i] == payloads[..i];
        var version := expectedVersion + i + 1;
        var taken := IsTaken(txEvents, agg, version);
        if taken {
          ClashFound(events, agg, expectedVersion, payloads, i);
          return Err(VersionConflict);
        }
        NoClashExtends(events, agg, expectedVersion, payloads, i);
        txEvents := txEvents + [Event(agg, version, payloads[i])];
        txOutbox := txOutbox + [OutboxRow(agg, payloads[i])];
      }
      assert payloads[..|payloads|] == payloads;
      events, outbox := txEvents, txOutbox;
      return if reply.Done? then Ok(()) else Err(StorageFault);
    }
  }

  /** A version taken during the loop was taken before it: the append's own versions are distinct. */
  lemma ClashFound<P>(events: seq<Event<P>>, agg: AggregateID, expected: int, payloads: seq<P>, i: nat)
    requires i < |payloads|
    requires Taken(events + NewEvents(agg, expected, payloads[..i]), agg, expected + i + 1)
    ensures Clash(events, agg, expected, |payloads|)
  {
    var all := events + NewEvents(agg, expected, payloads[..i]);
    var k :| 0 <= k < |all| && all[k].aggregate == agg && all[k].version == expected + i + 1;
    assert k < |events|;
    assert events[k] == all[k];
  }

  lemma NoClashExtends<P>(events: seq<Event<P>>, agg: AggregateID, expected: int, payloads: seq<P>, i: nat)
    requires i < |payloads|
    requires !Clash(events, agg, expected, i)
    requires !Taken(events + NewEvents(agg, expected, payloads[..i]), agg, expected + i + 1)
    ensures !Clash(events, agg, expected, i + 1)
  {
    var all := events + NewEvents(agg, expected, payloads[..i]);
    forall k | 0 <= k < |events| && events[k].aggregate == agg
      ensures !(expected < events[k].version <= expected + i + 1)
    {
      assert all[k] == events[k];
    }
  }

  // ---------------------------------------------------------------- dense logs

  /** The events of one aggregate, in the order they were inserted. */
  function Log<P>(events: seq<Event<P>>, agg: AggregateID): seq<Event<P>> {
    if events == [] then []
    else
      var n := |events| - 1;
      Log(events[..n], agg) + if events[n].aggregate == agg then [events[n]] else []
  }

  lemma {:induction false} LogConcat<P>(a: seq<Event<P>>, b: seq<Event<P>>, agg: AggregateID)
    ensures Log(a + b, agg) == Log(a, agg) + Log(b, agg)
  {
    if b == [] {
      assert a + b == a;
    } else {
      var n := |b| - 1;
      assert (a + b)[..|a + b| - 1] == a + b[..n];
      LogConcat(a, b[..n], agg);
    }
  }

  lemma {:induction false} LogOfNew<P>(agg: AggregateID, expected: int, payloads: seq<P>, other: AggregateID)
    ensures Log(NewEvents(agg, expected, payloads), other)
         == if other == agg then NewEvents(agg, expected, payloads) else []
  {
    if payloads != [] {
      var n := |payloads| - 1;
      LogOfNew(agg, expected, payloads[..n], other);
      LogConcat(NewEvents(agg, expected, payloads[..n]), [Event(agg, expected + n + 1, payloads[n])], other);
      assert Log([Event(agg, expected + n + 1, payloads[n])], other)
          == if other == agg then [Event(agg, expected + n + 1, payloads[n])] else [];
    }
  }

  /** Appended events reach exactly their own aggregate's log. */
  lemma AppendedLog<P>(events: seq<Event<P>>, agg: AggregateID, expected: int, payloads: seq<P>, other: AggregateID)
    ensures Log(events + NewEvents(agg, expected, payloads), other)
         == Log(events, other) + if other == agg then NewEvents(agg, expected, payloads) else []
  {
    LogConcat(events, NewEvents(agg, expected, payloads), other);
    LogOfNew(agg, expected, payloads, other);
  }

  lemma {:induction false} LogMembers<P>(events: seq<Event<P>>, agg: AggregateID)
    ensures forall k :: 0 <= k < |Log(events, agg)| ==> Log(events, agg)[k] in events && Log(events, agg)[k].aggregate == agg
    ensures forall i :: 0 <= i < |events| && events[i].aggregate == agg ==> events[i] in Log(events, agg)
  {
    if events != [] {
      var n := |events| - 1;
      LogMembers(events[..n], agg);
      assert forall i :: 0 <= i < n ==> events[i] == events[..n][i];
    }
  }

  ghost predicate Numbered<P>(log: seq<Event<P>>, first: int) {
    forall i :: 0 <= i < |log| ==> log[i].version == first + i
  }

  /** The aggregate's versions are 1..n, inserted in that order. */
  ghost predicate Dense<P>(events: seq<Event<P>>, agg: AggregateID) {
    Numbered(Log(events, agg), 1)
  }

  /** On a dense log of n versions, an append clashes exactly when it overlaps 1..n. */
  lemma ClashOnDense<P>(events: seq<Event<P>>, agg: AggregateID, expected: int, n: nat)
    requires Dense(events, agg)
    ensures Clash(events, agg, expected, n) <==> n > 0 && |Log(events, agg)| > 0 && expected < |Log(events, agg)| && expected + n >= 1
  {
    LogMembers(events, agg);
    var log := Log(events, agg);
    if n > 0 && |log| > 0 && expected < |log| && expected + n >= 1 {
      var k := if expected < 0 then 0 else expected;
      assert log[k] in events && log[k].aggregate == agg && expected < log[k].version <= expected + n;
    }
    if Clash(events, agg, expected, n) {
      var i :| 0 <= i < |events| && events[i].aggregate == agg && expected < events[i].version <= expected + n;
      assert events[i] in log;
    }
  }

  lemma DenseGrows<P>(events: seq<Event<P>>, agg: AggregateID, payloads: seq<P>, other: AggregateID)
    requires Dense(events, other)
    ensures var events' := events + NewEvents(agg, |Log(events, agg)|, payloads);
            && Dense(events', other)
            && Log(events, other) <= Log(events', other)
            && (other != agg ==> Log(events', other) == Log(events, other))
  {
    AppendedLog(events, agg, |Log(events, agg)|, payloads, other);
  }

  /** How one append to a dense log can end. */
  lemma AppendCases<P>(t: Tables<P>, agg: AggregateID, expected: int, payloads: seq<P>, reply: Reply)
    requires Dense(t.events, agg)
    requires payloads != [] && 0 <= expected <= |Log(t.events, agg)|
    ensures var (t', r) := Append(t, agg, expected, payloads, reply);
            if reply.Refused? || expected < |Log(t.events, agg)|
            then t' == t && r == Err(if reply.Refused? then StorageFault else VersionConflict)
            else (r.Err? ==> r.error == StorageFault) && t'.events == t.events + NewEvents(agg, expected, payloads)
                 && t'.outbox == t.outbox + NewRows(agg, payloads)
                 && (r.Ok? <==> reply.Done?)
  {
    ClashOnDense(t.events, agg, expected, |payloads|);
  }

  /**
   Optimistic concurrency on a dense log of n versions, for every reply. A non-empty append at
   0 <= expected <= n succeeds exactly when expected == n; whatever the reply, afterwards either neither
   table has changed or both have grown by the whole batch; and every log is still dense.
   */
  lemma AppendOnDense<P>(t: Tables<P>, agg: AggregateID, expected: int, payloads: seq<P>, reply: Reply, other: AggregateID)
    requires Dense(t.events, agg) && Dense(t.events, other)
    requires payloads != [] && 0 <= expected <= |Log(t.events, agg)|
    ensures var (t', r) := Append(t, agg, expected, payloads, reply);
            && (r.Ok? <==> reply.Done? && expected == |Log(t.events, agg)|)
            && (r.Err? && !reply.Lost? ==> t' == t)
            && (!reply.Refused? && expected < |Log(t.events, agg)| ==> r == Err(VersionConflict))
            && (r.Err? && expected == |Log(t.events, agg)| ==> r.error == StorageFault)
            && (t' == t || (t'.events == t.events + NewEvents(agg, expected, payloads)
                            && t'.outbox == t.outbox + NewRows(agg, payloads)))
    ensures var t' := Append(t, agg, expected, payloads, reply).0;
            && Dense(t'.events, other)
            && Log(t.events, other) <= Log(t'.events, other)
            && (other != agg ==> Log(t'.events, other) == Log(t.events, other))
  {
    AppendCases(t, agg, expected, payloads, reply);
    if expected == |Log(t.events, agg)| {
      DenseGrows(t.events, agg, payloads, other);
    }
  }

  /**
   Without the caller's bound the log can get holes. An acknowledged-or-lost append to a dense log
   leaves it dense exactly when it extends the log at n or overlaps it (and is rejected).
   */
  lemma DenseIffNoGap<P>(t: Tables<P>, agg: AggregateID, expected: int, payloads: seq<P>, reply: Reply)
    requires Dense(t.events, agg) && payloads != [] && !reply.Refused?
    ensures Dense(Append(t, agg, expected, payloads, reply).0.events, agg)
       <==> expected == |Log(t.events, agg)| || (|Log(t.events, agg)| > 0 && expected < |Log(t.events, agg)| && expected + |payloads| >= 1)
  {
    hide Clash, Log, Numbered, NewEvents;
    ClashOnDense(t.events, agg, expected, |payloads|);
    AppendedLog(t.events, agg, expected, payloads, agg);
    NumberedIff(Log(t.events, agg), NewEvents(agg, expected, payloads), expected);
  }

  /** A numbered list continued by a numbered list is numbered if and only if the second starts where the first ends. */
  lemma NumberedIff<P>(log: seq<Event<P>>, added: seq<Event<P>>, expected: int)
    requires Numbered(log, 1) && added != [] && forall i :: 0 <= i < |added| ==> added[i].version == expected + i + 1
    ensures Numbered(log + added, 1) <==> expected == |log|
  {
    assert (log + added)[|log|] == added[0];
  }

  /** Two writers at the same version: on any table whatever, once one append is in, the other conflicts. */
  lemma AtMostOneWins<P>(t: Tables<P>, agg: AggregateID, expected: int, first: seq<P>, second: seq<P>, r1: Reply, r2: Reply)
    requires first != [] && second != [] && !r2.Refused?
    requires Append(t, agg, expected, first, r1).0 != t
    ensures Append(Append(t, agg, expected, first, r1).0, agg, expected, second, r2)
         == (Append(t, agg, expected, first, r1).0, Err(VersionConflict))
  {
    var t1 := Append(t, agg, expected, first, r1).0;
    var e := t1.events[|t.events|];
    assert e == Event(agg, expected + 1, first[0]);
  }

  // ---------------------------------------------------------------- loading

  /** Inserts by version, after rows with the same version. */
  function InsertByVersion<P>(s: seq<Event<P>>, e: Event<P>): seq<Event<P>> {
    if s == [] || s[|s| - 1].version <= e.version then s + [e]
    else InsertByVersion(s[..|s| - 1], e) + [s[|s| - 1]]
  }

  /** SELECT ... WHERE aggregate_id = agg AND version > fromVersion ORDER BY version ASC. */
  function LoadEventsFrom<P>(events: seq<Event<P>>, agg: AggregateID, fromVersion: int): seq<Event<P>> {
    if events == [] then []
    else
      var n := |events| - 1;
      var loaded := LoadEventsFrom(events[..n], agg, fromVersion);
      if events[n].aggregate == agg && events[n].version > fromVersion
      then InsertByVersion(loaded, events[n])
      else loaded
  }

  /** The query, row by row. */
  method QueryEvents<P>(events: seq<Event<P>>, agg: AggregateID, fromVersion: int) returns (loaded: seq<Event<P>>)
    ensures loaded == LoadEventsFrom(events, agg, fromVersion)
  {
    loaded := [];
    for i := 0 to |events|
      invariant loaded == LoadEventsFrom(events[..i], agg, fromVersion)
    {
      assert events[..i + 1][..i] == events[..i];
      if events[i].aggregate == agg && events[i].version > fromVersion {
        loaded := InsertByVersion(loaded, events[i]);
      }
    }
    assert events[..|events|] == events;
  }

  ghost predicate Ascending<P>(s: seq<Event<P>>) {
    forall i, j :: 0 <= i < j < |s| ==> s[i].version <= s[j].version
  }

  lemma {:induction false} InsertAddsOne<P>(s: seq<Event<P>>, e: Event<P>)
    ensures multiset(InsertByVersion(s, e)) == multiset(s) + multiset{e}
  {
    if s != [] && s[|s| - 1].version > e.version {
      InsertAddsOne(s[..|s| - 1], e);
      assert s == s[..|s| - 1] + [s[|s| - 1]];
    }
  }

  lemma {:induction false} InsertKeepsOrder<P>(s: seq<Event<P>>, e: Event<P>, bound: int)
    requires Ascending(s) && e.version <= bound && forall i :: 0 <= i < |s| ==> s[i].version <= bound
    ensures Ascending(InsertByVersion(s, e))
    ensures forall i :: 0 <= i < |InsertByVersion(s, e)| ==> InsertByVersion(s, e)[i].version <= bound
  {
    if s != [] && s[|s| - 1].version > e.version {
      InsertKeepsOrder(s[..|s| - 1], e, s[|s| - 1].version);
    }
  }

  lemma {:induction false} LoadIsAscending<P>(events: seq<Event<P>>, agg: AggregateID, v: int)
    ensures Ascending(LoadEventsFrom(events, agg, v))
  {
    if events != [] {
      var n := |events| - 1;
      LoadIsAscending(events[..n], agg, v);
      var loaded := LoadEventsFrom(events[..n], agg, v);
      var top := if loaded == [] then events[n].version else loaded[|loaded| - 1].version;
      InsertKeepsOrder(loaded, events[n], if top < events[n].version then events[n].version else top);
    }
  }

  /** On any table, gaps and duplicates included, a load is the matching rows in version order. */
  lemma {:induction false} LoadIsOrderedSelection<P>(events: seq<Event<P>>, agg: AggregateID, v: int, e: Event<P>)
    ensures Ascending(LoadEventsFrom(events, agg, v))
    ensures multiset(LoadEventsFrom(events, agg, v))[e]
         == if e.aggregate == agg && e.version > v then multiset(events)[e] else 0
  {
    LoadIsAscending(events, agg, v);
    if events != [] {
      var n := |events| - 1;
      LoadIsOrderedSelection(events[..n], agg, v, e);
      assert events == events[..n] + [events[n]];
      InsertAddsOne(LoadEventsFrom(events[..n], agg, v), events[n]);
    }
  }

  /** On a dense log, loading from version v skips exactly the first v events. */
  lemma {:induction false} LoadOnDense<P>(events: seq<Event<P>>, agg: AggregateID, v: nat)
    requires Dense(events, agg)
    ensures LoadEventsFrom(events, agg, v)
         == if v <= |Log(events, agg)| then Log(events, agg)[v..] else []
  {
    if events != [] {
      var n := |events| - 1;
      var before := Log(events[..n], agg);
      assert forall i :: 0 <= i < |before| ==> before[i] == Log(events, agg)[i];
      LoadOnDense(events[..n], agg, v);
      if events[n].aggregate == agg {
        assert Log(events, agg)[|before|] == events[n];
      }
    }
  }

  // ---------------------------------------------------------------- snapshots

  /** Folding any step function over a list of events. */
  function Replay<S, P>(f: (S, P) -> S, start: S, es: seq<Event<P>>): S {
    if es == [] then start
    else f(Replay(f, start, es[..|es| - 1]), es[|es| - 1].payload)
  }

  lemma {:induction false} ReplayConcat<S, P>(f: (S, P) -> S, start: S, a: seq<Event<P>>, b: seq<Event<P>>)
    ensures Replay(f, start, a + b) == Replay(f, Replay(f, start, a), b)
  {
    if b == [] {
      assert a + b == a;
    } else {
      assert (a + b)[..|a + b| - 1] == a + b[..|b| - 1];
      ReplayConcat(f, start, a, b[..|b| - 1]);
    }
  }

  datatype Snapshot<+S> = Snapshot(version: nat, state: S)

  datatype Store<S, P> = Store(tables: Tables<P>, snapshots: map<AggregateID, Snapshot<S>>)

  /** A missing snapshot loads as version 0, the state before any event. */
  function LoadSnapshot<S>(snapshots: map<AggregateID, Snapshot<S>>, initial: S, agg: AggregateID): Snapshot<S> {
    if agg in snapshots then snapshots[agg] else Snapshot(0, initial)
  }

  /** The snapshots table: one row per aggregate, overwritten by every save. */
  class SnapshotStore<S> {
    var rows: map<AggregateID, Snapshot<S>>

    constructor ()
      ensures rows == map[]
    {
      rows := map[];
    }

    method Save(agg: AggregateID, snapshot: Snapshot<S>, reply: Reply) returns (r: Result<()>)
      modifies this
      ensures rows == if reply.Refused? then old(rows) else old(rows)[agg := snapshot]
      ensures r == if reply.Done? then Ok(()) else Err(StorageFault)
    {
      if !reply.Refused? {
        rows := rows[agg := snapshot];
      }
      return if reply.Done? then Ok(()) else Err(StorageFault);
    }

    /** No row is not an error: it is version 0. */
    method Load(agg: AggregateID, initial: S, reply: Reply) returns (r: Result<Snapshot<S>>)
      ensures r.Ok? <==> reply.Done?
      ensures r.Ok? ==> r.value == LoadSnapshot(rows, initial, agg)
    {
      if !reply.Done? {
        return Err(StorageFault);
      }
      if agg !in rows {
        return Ok(Snapshot(0, initial));
      }
      return Ok(rows[agg]);
    }
  }

  /** Writers append; maintainers store the state at some version, which may be older than the one stored. */
  datatype StoreOp<+P> =
    | AppendOp(agg: AggregateID, expected: int, payloads: seq<P>, reply: Reply)
    | SnapshotOp(agg: AggregateID, version: nat, reply: Reply)

  ghost predicate Permitted<S, P>(st: Store<S, P>, op: StoreOp<P>) {
    match op
    case AppendOp(agg, expected, _, _) => 0 <= expected <= |Log(st.tables.events, agg)|
    case SnapshotOp(agg, version, _) => version <= |Log(st.tables.events, agg)|
  }

  ghost function StoreStep<S, P>(f: (S, P) -> S, initial: S, st: Store<S, P>, op: StoreOp<P>): Store<S, P>
    requires Permitted(st, op)
  {
    match op
    case AppendOp(agg, expected, payloads, reply) =>
      st.(tables := Append(st.tables, agg, expected, payloads, reply).0)
    case SnapshotOp(agg, version, reply) =>
      if reply.Refused? then st
      else
        var state := Replay(f, initial, Log(st.tables.events, agg)[..version]);
        st.(snapshots := st.snapshots[agg := Snapshot(version, state)])
  }

  ghost predicate PermittedRun<S, P>(f: (S, P) -> S, initial: S, st: Store<S, P>, ops: seq<StoreOp<P>>)
    decreases ops
  {
    ops != [] ==> Permitted(st, ops[0]) && PermittedRun(f, initial, StoreStep(f, initial, st, ops[0]), ops[1..])
  }

  ghost function StoreRun<S, P>(f: (S, P) -> S, initial: S, st: Store<S, P>, ops: seq<StoreOp<P>>): Store<S, P>
    requires PermittedRun(f, initial, st, ops)
    decreases ops
  {
    if ops == [] then st else StoreRun(f, initial, StoreStep(f, initial, st, ops[0]), ops[1..])
  }

  /** What every step keeps, seen at one aggregate. */
  ghost predicate SnapshotInv<S, P>(f: (S, P) -> S, initial: S, st: Store<S, P>, agg: AggregateID) {
    && Dense(st.tables.events, agg)
    && (agg in st.snapshots ==>
          var s := st.snapshots[agg];
          && s.version <= |Log(st.tables.events, agg)|
          && s.state == Replay(f, initial, Log(st.tables.events, agg)[..s.version]))
  }

  lemma StepKeepsSnapshots<S, P>(f: (S, P) -> S, initial: S, st: Store<S, P>, op: StoreOp<P>, agg: AggregateID)
    requires Permitted(st, op) && SnapshotInv(f, initial, st, agg) && SnapshotInv(f, initial, st, op.agg)
    ensures SnapshotInv(f, initial, StoreStep(f, initial, st, op), agg)
  {
    hide Replay, Clash, Log, Numbered;
    match op
    case AppendOp(target, expected, payloads, reply) =>
      var log := Log(st.tables.events, agg);
      if payloads == [] {
        assert st.tables.events + NewEvents(target, expected, payloads) == st.tables.events;
      } else {
        AppendOnDense(st.tables, target, expected, payloads, reply, agg);
        var log' := Log(Append(st.tables, target, expected, payloads, reply).0.events, agg);
        assert forall v :: 0 <= v <= |log| ==> log'[..v] == log[..v];
      }
    case SnapshotOp(_, _, _) =>
  }

  lemma {:induction false} RunKeepsSnapshots<S, P>(f: (S, P) -> S, initial: S, st: Store<S, P>, ops: seq<StoreOp<P>>)
    requires PermittedRun(f, initial, st, ops)
    requires forall agg :: SnapshotInv(f, initial, st, agg)
    ensures forall agg :: SnapshotInv(f, initial, StoreRun(f, initial, st, ops), agg)
    decreases ops
  {
    if ops != [] {
      forall agg ensures SnapshotInv(f, initial, StoreStep(f, initial, st, ops[0]), agg) {
        StepKeepsSnapshots(f, initial, st, ops[0], agg);
      }
      RunKeepsSnapshots(f, initial, StoreStep(f, initial, st, ops[0]), ops[1..]);
    }
  }

  lemma SnapshotSuffices<S, P>(f: (S, P) -> S, initial: S, st: Store<S, P>, agg: AggregateID)
    requires SnapshotInv(f, initial, st, agg)
    ensures var snap := LoadSnapshot(st.snapshots, initial, agg);
            && Replay(f, snap.state, LoadEventsFrom(st.tables.events, agg, snap.version))
            == Replay(f, initial, LoadEventsFrom(st.tables.events, agg, 0))
  {
    var v := LoadSnapshot(st.snapshots, initial, agg).version;
    var log := Log(st.tables.events, agg);
    assert LoadEventsFrom(st.tables.events, agg, 0) == log by {
      LoadOnDense(st.tables.events, agg, 0);
    }
    assert LoadEventsFrom(st.tables.events, agg, v) == log[v..] by {
      LoadOnDense(st.tables.events, agg, v);
    }
    assert Replay(f, initial, log) == Replay(f, Replay(f, initial, log[..v]), log[v..]) by {
      ReplayConcat(f, initial, log[..v], log[v..]);
      assert log == log[..v] + log[v..];
    }
  }

  /**
   For every fold and every run of appends and snapshot overwrites, whatever the replies: every log is
   dense, and loading the snapshot (or none) and replaying the events after it equals full replay.
   */
  lemma SnapshotReplayEqualsFullReplay<S, P>(f: (S, P) -> S, initial: S, ops: seq<StoreOp<P>>, agg: AggregateID)
    requires PermittedRun(f, initial, Store(Tables([], []), map[]), ops)
    ensures var st := StoreRun(f, initial, Store(Tables([], []), map[]), ops);
            var snap := LoadSnapshot(st.snapshots, initial, agg);
            && Dense(st.tables.events, agg)
            && Replay(f, snap.state, LoadEventsFrom(st.tables.events, agg, snap.version))
            == Replay(f, initial, LoadEventsFrom(st.tables.events, agg, 0))
  {
    RunKeepsSnapshots(f, initial, Store(Tables([], []), map[]), ops);
    SnapshotSuffices(f, initial, StoreRun(f, initial, Store(Tables([], []), map[]), ops), agg);
  }
}
