/**
 Delivery from the outbox. A worker fetches a batch of unpublished rows, publishes them one by one,
 and marks the acknowledged ones. Publishing may fail or lose its acknowledgement, marking may fail or
 lose its acknowledgement, rows are committed meanwhile, and the worker may crash anywhere.
 */
module Outbox {
  import opened Results

  /** The serial id of a row is its position; created_at is an abstract time. */
  datatype Row = Row(createdAt: nat, published: bool)

  function Backlog(rows: seq<Row>): set<nat> {
    set id | 0 <= id < |rows| && !rows[id].published
  }

  function Min(a: nat, b: nat): nat {
    if a < b then a else b
  }

  ghost predicate Distinct(ids: seq<nat>) {
    forall i, j :: 0 <= i < j < |ids| ==> ids[i] != ids[j]
  }

  /** A result of SELECT ... WHERE published = FALSE ORDER BY created_at ASC LIMIT size; ties in any order. */
  ghost predicate IsBatch(rows: seq<Row>, batch: seq<nat>, size: nat) {
    && Distinct(batch) && |batch| == Min(size, |Backlog(rows)|)
    && (forall i :: 0 <= i < |batch| ==> batch[i] in Backlog(rows))
    && (forall i, j :: 0 <= i < j < |batch| ==> rows[batch[i]].createdAt <= rows[batch[j]].createdAt)
    && (forall id, i :: id in Backlog(rows) && id !in batch && 0 <= i < |batch| ==>
          rows[batch[i]].createdAt <= rows[id].createdAt)
  }

  /** UPDATE outbox SET published = TRUE WHERE id = ANY(ids). */
  function Mark(rows: seq<Row>, ids: seq<nat>): (rows': seq<Row>)
    ensures |rows'| == |rows|
    ensures forall i :: 0 <= i < |rows| ==> rows'[i] == rows[i].(published := rows[i].published || i in ids)
  {
    seq(|rows|, i requires 0 <= i < |rows| => rows[i].(published := rows[i].published || i in ids))
  }

  // ---------------------------------------------------------------- one poll

  /** The ids of a batch whose publication was acknowledged. */
  function Acknowledged(batch: seq<nat>, publish: nat -> Reply): seq<nat> {
    if batch == [] then []
    else
      var n := |batch| - 1;
      Acknowledged(batch[..n], publish) + if publish(batch[n]).Done? then [batch[n]] else []
  }

  lemma {:induction false} AcknowledgedMembers(batch: seq<nat>, publish: nat -> Reply)
    ensures forall id :: id in Acknowledged(batch, publish) <==> id in batch && publish(id).Done?
  {
    if batch != [] {
      var n := |batch| - 1;
      AcknowledgedMembers(batch[..n], publish);
      assert batch == batch[..n] + [batch[n]];
    }
  }

  /** The ids of a batch that reached the broker, acknowledged or not. */
  function Reached(batch: seq<nat>, publish: nat -> Reply): seq<nat> {
    if batch == [] then []
    else
      var n := |batch| - 1;
      Reached(batch[..n], publish) + if publish(batch[n]).Refused? then [] else [batch[n]]
  }

  class Worker {
    const batchSize: nat
    var rows: seq<Row>
    ghost var delivered: seq<nat>

    constructor (rows: seq<Row>)
      ensures this.rows == rows && batchSize == 50 && delivered == []
    {
      this.rows := rows;
      batchSize := 50;
      delivered := [];
    }

    /** Fetch, publish in a loop collecting the acknowledged ids, mark them in one update. */
    method ProcessBatch(fetched: Option<seq<nat>>, publish: nat -> Reply, mark: Reply)
      requires fetched.Some? ==> IsBatch(rows, fetched.value, batchSize)
      modifies this
      ensures rows == if fetched.None? || mark.Refused? then old(rows)
                      else Mark(old(rows), Acknowledged(fetched.value, publish))
      ensures delivered == old(delivered) + if fetched.None? then [] else Reached(fetched.value, publish)
    {
      if fetched.None? || fetched.value == [] {
        assert fetched.Some? ==> Mark(rows, []) == rows;
        return;
      }
      var entries := fetched.value;
      var publishedIds: seq<nat> := [];
      for i := 0 to |entries|
        invariant rows == old(rows)
        invariant publishedIds == Acknowledged(entries[..i], publish)
        invariant delivered == old(delivered) + Reached(entries[..i], publish)
      {
        assert entries[..i + 1][..i] == entries[..i];
        var reply := publish(entries[i]);
        if !reply.Refused? {
          delivered := delivered + [entries[i]];
        }
        if reply.Done? {
          publishedIds := publishedIds + [entries[i]];
        }
      }
      assert entries[..|entries|] == entries;
      if |publishedIds| > 0 && !mark.Refused? {
        rows := Mark(rows, publishedIds);
      }
      assert Mark(old(rows), []) == old(rows);
    }
  }

  // ---------------------------------------------------------------- progress

  /** Unpublished rows the broker takes, and those it refuses for good. */
  function Acceptable(rows: seq<Row>, publish: nat -> Reply): set<nat> {
    set id | id in Backlog(rows) && publish(id).Done?
  }

  function Refusable(rows: seq<Row>, publish: nat -> Reply): set<nat> {
    set id | id in Backlog(rows) && !publish(id).Done?
  }

  /** One poll whose mark succeeds. */
  function Polled(rows: seq<Row>, batch: seq<nat>, publish: nat -> Reply): seq<Row> {
    Mark(rows, Acknowledged(batch, publish))
  }

  function IdSet(ids: seq<nat>): set<nat> {
    set id | id in ids
  }

  lemma PolledSets(rows: seq<Row>, batch: seq<nat>, publish: nat -> Reply)
    requires forall i :: 0 <= i < |batch| ==> batch[i] in Backlog(rows)
    ensures Backlog(Polled(rows, batch, publish)) == Backlog(rows) - (IdSet(batch) * Acceptable(rows, publish))
    ensures Acceptable(Polled(rows, batch, publish), publish) == Acceptable(rows, publish) - IdSet(batch)
    ensures Refusable(Polled(rows, batch, publish), publish) == Refusable(rows, publish)
  {
    AcknowledgedMembers(batch, publish);
  }

  lemma {:induction false} DistinctSize(ids: seq<nat>)
    requires Distinct(ids)
    ensures |IdSet(ids)| == |ids|
  {
    if ids == [] {
      assert IdSet(ids) == {};
    } else {
      var n := |ids| - 1;
      DistinctSize(ids[..n]);
      assert ids == ids[..n] + [ids[n]];
      assert IdSet(ids) == IdSet(ids[..n]) + {ids[n]};
      assert ids[n] !in IdSet(ids[..n]);
    }
  }

  lemma SubsetSize(a: set<nat>, b: set<nat>)
    requires a <= b
    ensures |a| <= |b| && (|a| == |b| ==> a == b)
  {
    assert b == a + (b - a);
  }

  lemma BatchInBacklog(rows: seq<Row>, batch: seq<nat>, size: nat)
    requires IsBatch(rows, batch, size)
    ensures IdSet(batch) <= Backlog(rows) && |IdSet(batch)| == |batch|
  {
    DistinctSize(batch);
  }

  /** If fewer than `size` rows are refused and some row is acceptable, the batch holds an acceptable one. */
  lemma BatchHasAcceptable(rows: seq<Row>, batch: seq<nat>, size: nat, publish: nat -> Reply)
    requires IsBatch(rows, batch, size) && |Refusable(rows, publish)| < size && Acceptable(rows, publish) != {}
    ensures IdSet(batch) * Acceptable(rows, publish) != {}
  {
    BatchInBacklog(rows, batch, size);
    if IdSet(batch) * Acceptable(rows, publish) == {} {
      assert IdSet(batch) <= Refusable(rows, publish) by {
        forall id | id in IdSet(batch) ensures id !in Acceptable(rows, publish) {
          assert id !in IdSet(batch) * Acceptable(rows, publish);
        }
      }
      SubsetSize(IdSet(batch), Refusable(rows, publish));
      SubsetSize(IdSet(batch), Backlog(rows));
    }
  }

  lemma NothingAcknowledged(rows: seq<Row>, batch: seq<nat>, publish: nat -> Reply)
    requires forall i :: 0 <= i < |batch| ==> !publish(batch[i]).Done?
    ensures Polled(rows, batch, publish) == rows
  {
    AcknowledgedMembers(batch, publish);
  }

  /**
   While fewer rows than the batch size are refused for good, every poll whose mark succeeds publishes
   at least one of the others, until none is left.
   */
  lemma PollMakesProgress(rows: seq<Row>, batch: seq<nat>, size: nat, publish: nat -> Reply)
    requires IsBatch(rows, batch, size) && |Refusable(rows, publish)| < size
    ensures var rows' := Polled(rows, batch, publish);
            && Refusable(rows', publish) == Refusable(rows, publish)
            && (if Acceptable(rows, publish) == {} then rows' == rows
                else |Acceptable(rows', publish)| < |Acceptable(rows, publish)|)
  {
    PolledSets(rows, batch, publish);
    if Acceptable(rows, publish) == {} {
      forall i | 0 <= i < |batch| ensures !publish(batch[i]).Done? {
        assert batch[i] !in Acceptable(rows, publish);
      }
      NothingAcknowledged(rows, batch, publish);
    } else {
      BatchHasAcceptable(rows, batch, size, publish);
      SubsetSize(Acceptable(rows, publish) - IdSet(batch), Acceptable(rows, publish));
    }
  }

  /** A run of polls with successful marks, each over a batch the database may return. */
  ghost predicate IsPolling(rows: seq<Row>, batches: seq<seq<nat>>, size: nat, publish: nat -> Reply)
    decreases batches
  {
    batches != [] ==> IsBatch(rows, batches[0], size) && IsPolling(Polled(rows, batches[0], publish), batches[1..], size, publish)
  }

  ghost function AfterPolls(rows: seq<Row>, batches: seq<seq<nat>>, publish: nat -> Reply): seq<Row>
    decreases batches
  {
    if batches == [] then rows else AfterPolls(Polled(rows, batches[0], publish), batches[1..], publish)
  }

  /** So as many polls as there are acceptable rows publish them all. */
  lemma {:induction false} PollingPublishesAll(rows: seq<Row>, batches: seq<seq<nat>>, size: nat, publish: nat -> Reply)
    requires IsPolling(rows, batches, size, publish) && |Refusable(rows, publish)| < size
    requires |batches| >= |Acceptable(rows, publish)|
    ensures Acceptable(AfterPolls(rows, batches, publish), publish) == {}
    decreases batches
  {
    if batches != [] {
      PollMakesProgress(rows, batches[0], size, publish);
      PollingPublishesAll(Polled(rows, batches[0], publish), batches[1..], size, publish);
    }
  }

  function Monus(a: int, b: int): nat {
    if a < b then 0 else a - b
  }

  lemma PollDrains(rows: seq<Row>, batch: seq<nat>, size: nat, publish: nat -> Reply)
    requires IsBatch(rows, batch, size) && Refusable(rows, publish) == {}
    ensures |Backlog(Polled(rows, batch, publish))| == Monus(|Backlog(rows)|, size)
  {
    PolledSets(rows, batch, publish);
    BatchInBacklog(rows, batch, size);
    forall id | id in Backlog(rows) ensures id in Acceptable(rows, publish) {
      assert id !in Refusable(rows, publish);
    }
    assert IdSet(batch) * Acceptable(rows, publish) == IdSet(batch);
    assert Backlog(rows) == (Backlog(rows) - IdSet(batch)) + IdSet(batch);
  }

  lemma MonusTwice(n: nat, size: nat, rest: nat)
    ensures Monus(Monus(n, size), rest) == Monus(n, size + rest)
  {
  }

  function Times(k: nat, size: nat): nat {
    if k == 0 then 0 else size + Times(k - 1, size)
  }

  lemma {:induction false} TimesIsProduct(k: nat, size: nat)
    ensures Times(k, size) == k * size
  {
    if k > 0 {
      TimesIsProduct(k - 1, size);
    }
  }

  lemma {:induction false} PollsDrain(rows: seq<Row>, batches: seq<seq<nat>>, size: nat, publish: nat -> Reply)
    requires IsPolling(rows, batches, size, publish) && Refusable(rows, publish) == {}
    ensures |Backlog(AfterPolls(rows, batches, publish))| == Monus(|Backlog(rows)|, Times(|batches|, size))
    decreases batches
  {
    hide IsBatch, Backlog, Refusable, Polled;
    if batches != [] {
      PollDrains(rows, batches[0], size, publish);
      SameRefusals(rows, batches[0], size, publish);
      PollsDrain(Polled(rows, batches[0], publish), batches[1..], size, publish);
      MonusTwice(|Backlog(rows)|, size, Times(|batches[1..]|, size));
    }
  }

  /** With no refusals a backlog of n holds exactly max(0, n - k * size) rows after k polls. */
  lemma BacklogAfterPolls(rows: seq<Row>, batches: seq<seq<nat>>, size: nat, publish: nat -> Reply)
    requires IsPolling(rows, batches, size, publish) && Refusable(rows, publish) == {}
    ensures |Backlog(AfterPolls(rows, batches, publish))| == Monus(|Backlog(rows)|, |batches| * size)
  {
    PollsDrain(rows, batches, size, publish);
    TimesIsProduct(|batches|, size);
  }

  lemma SameRefusals(rows: seq<Row>, batch: seq<nat>, size: nat, publish: nat -> Reply)
    requires IsBatch(rows, batch, size)
    ensures Refusable(Polled(rows, batch, publish), publish) == Refusable(rows, publish)
  {
    PolledSets(rows, batch, publish);
  }

  /**
   The condition on refusals is needed: once `size` refused rows are older than every acceptable one,
   no number of polls publishes anything.
   */
  lemma {:induction false} OldRefusalsBlock(rows: seq<Row>, batches: seq<seq<nat>>, size: nat, publish: nat -> Reply, older: set<nat>)
    requires IsPolling(rows, batches, size, publish)
    requires older <= Refusable(rows, publish) && |older| >= size
    requires forall r, x :: r in older && x in Acceptable(rows, publish) ==> rows[r].createdAt < rows[x].createdAt
    ensures AfterPolls(rows, batches, publish) == rows
    decreases batches
  {
    if batches != [] {
      BlockedBatch(rows, batches[0], size, publish, older);
      OldRefusalsBlock(rows, batches[1..], size, publish, older);
    }
  }

  lemma BlockedBatch(rows: seq<Row>, batch: seq<nat>, size: nat, publish: nat -> Reply, older: set<nat>)
    requires IsBatch(rows, batch, size)
    requires older <= Refusable(rows, publish) && |older| >= size
    requires forall r, x :: r in older && x in Acceptable(rows, publish) ==> rows[r].createdAt < rows[x].createdAt
    ensures Polled(rows, batch, publish) == rows
  {
    BatchInBacklog(rows, batch, size);
    forall i | 0 <= i < |batch| ensures !publish(batch[i]).Done? {
      var x := batch[i];
      if publish(x).Done? {
        assert x in Acceptable(rows, publish);
        assert older <= IdSet(batch) by {
          forall r | r in older ensures r in IdSet(batch) {
            assert r in Backlog(rows) && rows[r].createdAt < rows[x].createdAt;
          }
        }
        SubsetSize(older + {x}, IdSet(batch));
      }
    }
    NothingAcknowledged(rows, batch, publish);
  }
}
