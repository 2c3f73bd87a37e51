/**
 Safety of outbox delivery over every run. One worker, whose polls are broken into their single
 steps: between any two of them rows may be committed, and the worker may crash at any point.
 */
module OutboxSafety {
  import opened Results
  import opened Outbox

  datatype Progress = Idle | Busy(batch: seq<nat>, next: nat, done: seq<nat>)

  /**
   delivered: every id that reached the broker, in order. unmarked: for each poll that ended without
   setting flags, the ids it had acknowledged. unacked: ids delivered while the acknowledgement was lost.
   */
  datatype State = State(rows: seq<Row>, worker: Progress, delivered: seq<nat>, unmarked: seq<seq<nat>>, unacked: seq<nat>)

  datatype Step =
    | Commit(createdAt: seq<nat>)   // one AppendWithOutbox: all its rows appear together
    | Fetch(batch: seq<nat>)
    | FetchFails
    | Publish(reply: Reply)
    | Finish(mark: Reply)
    | Crash

  function NewRows(createdAt: seq<nat>): seq<Row> {
    seq(|createdAt|, i requires 0 <= i < |createdAt| => Row(createdAt[i], false))
  }

  ghost predicate Enabled(s: State, step: Step, size: nat) {
    match step
    case Commit(_) => true
    case Fetch(batch) => s.worker.Idle? && IsBatch(s.rows, batch, size)
    case FetchFails => s.worker.Idle?
    case Publish(_) => s.worker.Busy? && s.worker.next < |s.worker.batch|
    case Finish(_) => s.worker.Busy? && s.worker.next == |s.worker.batch|
    case Crash => true
  }

  function Apply(s: State, step: Step): State {
    match step
    case Commit(createdAt) => s.(rows := s.rows + NewRows(createdAt))
    case Fetch(batch) => s.(worker := Busy(batch, 0, []))
    case FetchFails => s
    case Publish(reply) => if s.worker.Busy? && s.worker.next < |s.worker.batch| then AfterPublish(s, reply) else s
    case Finish(mark) => if s.worker.Busy? then AfterFinish(s, mark) else s
    case Crash => if s.worker.Busy? then s.(worker := Idle, unmarked := s.unmarked + [s.worker.done]) else s
  }

  function AfterPublish(s: State, reply: Reply): State
    requires s.worker.Busy? && s.worker.next < |s.worker.batch|
  {
    var id := s.worker.batch[s.worker.next];
    var moved := s.worker.(next := s.worker.next + 1);
    match reply
    case Done => s.(worker := moved.(done := moved.done + [id]), delivered := s.delivered + [id])
    case Refused => s.(worker := moved)
    case Lost => s.(worker := moved, delivered := s.delivered + [id], unacked := s.unacked + [id])
  }

  function AfterFinish(s: State, mark: Reply): State
    requires s.worker.Busy?
  {
    if s.worker.done == [] then s.(worker := Idle)
    else if mark.Refused? then s.(worker := Idle, unmarked := s.unmarked + [s.worker.done])
    else s.(worker := Idle, rows := Mark(s.rows, s.worker.done))
  }

  ghost predicate Legal(s: State, steps: seq<Step>, size: nat)
    decreases steps
  {
    steps != [] ==> Enabled(s, steps[0], size) && Legal(Apply(s, steps[0]), steps[1..], size)
  }

  function After(s: State, steps: seq<Step>): State
    decreases steps
  {
    if steps == [] then s else After(Apply(s, steps[0]), steps[1..])
  }

  /** A table on which no worker has run yet. */
  ghost predicate Initial(s: State) {
    && s.worker.Idle? && s.delivered == [] && s.unmarked == [] && s.unacked == []
    && forall i :: 0 <= i < |s.rows| ==> !s.rows[i].published
  }

  // ---------------------------------------------------------------- counting deliveries

  function Count(ids: seq<nat>, id: nat): nat {
    multiset(ids)[id]
  }

  function Flag(rows: seq<Row>, id: nat): nat {
    if id < |rows| && rows[id].published then 1 else 0
  }

  /** The polls that delivered this id and ended without marking it. */
  function PollsWith(unmarked: seq<seq<nat>>, id: nat): nat {
    if unmarked == [] then 0
    else PollsWith(unmarked[..|unmarked| - 1], id) + if id in unmarked[|unmarked| - 1] then 1 else 0
  }

  /** 1 when the poll under way has had this id acknowledged. */
  function InHand(worker: Progress, id: nat): nat {
    if worker.Busy? && id in worker.done then 1 else 0
  }

  ghost predicate Accounted(s: State, id: nat) {
    Count(s.delivered, id) == Flag(s.rows, id) + PollsWith(s.unmarked, id) + InHand(s.worker, id) + Count(s.unacked, id)
  }

  ghost predicate WorkerInv(s: State) {
    s.worker.Busy? ==>
      && s.worker.next <= |s.worker.batch| && Distinct(s.worker.batch)
      && (forall i :: 0 <= i < |s.worker.batch| ==> s.worker.batch[i] in Backlog(s.rows))
      && (forall id :: id in s.worker.done ==> id in s.worker.batch[..s.worker.next])
  }

  ghost predicate Inv(s: State) {
    && WorkerInv(s)
    && (forall id :: id in s.delivered ==> id < |s.rows|)
    && forall id :: Accounted(s, id)
  }

  lemma PollsWithPush(unmarked: seq<seq<nat>>, done: seq<nat>, id: nat)
    ensures PollsWith(unmarked + [done], id) == PollsWith(unmarked, id) + if id in done then 1 else 0
  {
    assert (unmarked + [done])[..|unmarked|] == unmarked;
  }

  lemma CountPush(ids: seq<nat>, x: nat, id: nat)
    ensures Count(ids + [x], id) == Count(ids, id) + if x == id then 1 else 0
  {
  }

  lemma PublishKeepsWorker(s: State, reply: Reply)
    requires WorkerInv(s) && s.worker.Busy? && s.worker.next < |s.worker.batch|
    ensures WorkerInv(AfterPublish(s, reply))
    ensures s.worker.batch[s.worker.next] !in s.worker.done
  {
    var w := s.worker;
    assert w.batch[..w.next + 1] == w.batch[..w.next] + [w.batch[w.next]];
  }

  lemma PublishKeepsAccount(s: State, reply: Reply, id: nat)
    requires WorkerInv(s) && s.worker.Busy? && s.worker.next < |s.worker.batch| && Accounted(s, id)
    ensures Accounted(AfterPublish(s, reply), id)
  {
    PublishKeepsWorker(s, reply);
    CountPush(s.delivered, s.worker.batch[s.worker.next], id);
    CountPush(s.unacked, s.worker.batch[s.worker.next], id);
  }

  lemma FinishKeepsAccount(s: State, mark: Reply, id: nat)
    requires WorkerInv(s) && s.worker.Busy? && Accounted(s, id)
    ensures Accounted(AfterFinish(s, mark), id)
  {
    PollsWithPush(s.unmarked, s.worker.done, id);
    if id in s.worker.done {
      assert id in s.worker.batch;
      assert id in Backlog(s.rows);
    }
  }

  lemma StepKeepsAccount(s: State, step: Step, size: nat, id: nat)
    requires Inv(s) && Enabled(s, step, size)
    ensures Accounted(Apply(s, step), id)
  {
    hide Inv;
    assert WorkerInv(s) && Accounted(s, id) && (forall id :: id in s.delivered ==> id < |s.rows|) by { UnfoldInv(s, id); }
    match step
    case Publish(reply) => PublishKeepsAccount(s, reply, id);
    case Finish(mark) => FinishKeepsAccount(s, mark, id);
    case Crash => if s.worker.Busy? { PollsWithPush(s.unmarked, s.worker.done, id); }
    case _ =>
  }

  lemma UnfoldInv(s: State, id: nat)
    requires Inv(s)
    ensures WorkerInv(s) && Accounted(s, id) && forall id :: id in s.delivered ==> id < |s.rows|
  {
  }

  lemma StepKeepsInv(s: State, step: Step, size: nat)
    requires Inv(s) && Enabled(s, step, size)
    ensures Inv(Apply(s, step))
  {
    hide Accounted, IsBatch;
    var s' := Apply(s, step);
    forall id: nat ensures Accounted(s', id) { StepKeepsAccount(s, step, size, id); }
    assert WorkerInv(s') by {
      match step
      case Publish(reply) => PublishKeepsWorker(s, reply);
      case Fetch(batch) => BatchIsSound(s.rows, batch, size);
      case _ =>
    }
    assert forall id :: id in s'.delivered ==> id < |s'.rows|;
  }

  lemma BatchIsSound(rows: seq<Row>, batch: seq<nat>, size: nat)
    requires IsBatch(rows, batch, size)
    ensures Distinct(batch) && forall i :: 0 <= i < |batch| ==> batch[i] in Backlog(rows)
  {
  }

  lemma {:induction false} RunKeepsInv(s: State, steps: seq<Step>, size: nat)
    requires Inv(s) && Legal(s, steps, size)
    ensures Inv(After(s, steps))
    decreases steps
  {
    hide Inv, Enabled, Apply;
    if steps != [] {
      StepKeepsInv(s, steps[0], size);
      RunKeepsInv(Apply(s, steps[0]), steps[1..], size);
    }
  }

  // ---------------------------------------------------------------- main results

  /**
   In every state of every run, a row's deliveries are exactly its flag, plus the polls that delivered it
   without marking it, plus the poll under way, plus the deliveries whose acknowledgement was lost.
   */
  lemma DeliveryCount(s: State, steps: seq<Step>, size: nat, id: nat)
    requires Initial(s) && Legal(s, steps, size)
    ensures Accounted(After(s, steps), id)
  {
    assert Inv(s);
    RunKeepsInv(s, steps, size);
  }

  /** Only committed rows are delivered, and a row flagged published was delivered. */
  lemma FlaggedWasDelivered(s: State, steps: seq<Step>, size: nat, id: nat)
    requires Initial(s) && Legal(s, steps, size)
    ensures var t := After(s, steps);
            && (id in t.delivered ==> id < |t.rows|)
            && (id < |t.rows| && t.rows[id].published ==> id in t.delivered)
  {
    assert Inv(s);
    RunKeepsInv(s, steps, size);
    assert Accounted(After(s, steps), id);
  }

  /** When every acknowledgement arrived and no poll ended unmarked, an idle worker delivered each row exactly once or, unflagged, never. */
  lemma ExactlyOnceWithoutFaults(s: State, steps: seq<Step>, size: nat, id: nat)
    requires Initial(s) && Legal(s, steps, size)
    ensures var t := After(s, steps);
            t.worker.Idle? && t.unmarked == [] && t.unacked == [] ==> Count(t.delivered, id) == Flag(t.rows, id)
  {
    DeliveryCount(s, steps, size, id);
  }

  /** No row is dropped or rewritten by anything that happens: flags are only ever raised, deliveries never forgotten. */
  ghost predicate Extends(s: State, t: State) {
    && |s.rows| <= |t.rows|
    && (forall i :: 0 <= i < |s.rows| ==>
          t.rows[i].createdAt == s.rows[i].createdAt && (s.rows[i].published ==> t.rows[i].published))
    && s.delivered <= t.delivered
  }

  lemma StepExtends(s: State, step: Step)
    ensures Extends(s, Apply(s, step))
  {
  }

  lemma {:induction false} NoRowIsLost(s: State, steps: seq<Step>)
    ensures Extends(s, After(s, steps))
    decreases steps
  {
    if steps != [] {
      StepExtends(s, steps[0]);
      NoRowIsLost(Apply(s, steps[0]), steps[1..]);
    }
  }

  // ---------------------------------------------------------------- the loop as steps

  function Publishes(batch: seq<nat>, publish: nat -> Reply): seq<Step> {
    seq(|batch|, i requires 0 <= i < |batch| => Publish(publish(batch[i])))
  }

  /** One undisturbed poll. */
  function PollSteps(batch: seq<nat>, publish: nat -> Reply, mark: Reply): seq<Step> {
    [Fetch(batch)] + Publishes(batch, publish) + [Finish(mark)]
  }

  lemma {:induction false} AfterConcat(s: State, a: seq<Step>, b: seq<Step>, size: nat)
    ensures After(s, a + b) == After(After(s, a), b)
    ensures Legal(s, a + b, size) <==> Legal(s, a, size) && Legal(After(s, a), b, size)
    decreases a
  {
    hide Apply, Enabled;
    if a == [] {
      assert a + b == b;
    } else {
      assert (a + b)[1..] == a[1..] + b && (a + b)[0] == a[0];
      AfterConcat(Apply(s, a[0]), a[1..], b, size);
    }
  }

  /** The worker after publishing a first part of its batch. */
  ghost predicate Published(s: State, t: State, batch: seq<nat>, part: seq<nat>, publish: nat -> Reply) {
    && t.rows == s.rows && t.unmarked == s.unmarked
    && t.worker == Busy(batch, |part|, Acknowledged(part, publish))
    && t.delivered == s.delivered + Reached(part, publish)
  }

  lemma OneMorePublished(s: State, t: State, batch: seq<nat>, k: nat, publish: nat -> Reply)
    requires k < |batch| && Published(s, t, batch, batch[..k], publish)
    ensures Published(s, Apply(t, Publish(publish(batch[k]))), batch, batch[..k + 1], publish)
  {
    assert batch[..k + 1][..k] == batch[..k];
  }

  lemma {:induction false} PublishesAre(s: State, batch: seq<nat>, k: nat, publish: nat -> Reply, size: nat)
    requires k <= |batch| && s.worker == Busy(batch, 0, [])
    ensures Published(s, After(s, Publishes(batch[..k], publish)), batch, batch[..k], publish)
    ensures Legal(s, Publishes(batch[..k], publish), size)
  {
    if k > 0 {
      hide Published, Apply, AfterPublish;
      PublishesAre(s, batch, k - 1, publish, size);
      var steps := Publishes(batch[..k - 1], publish);
      var last := Publish(publish(batch[k - 1]));
      assert Publishes(batch[..k], publish) == steps + [last];
      var t := After(s, steps);
      assert After(t, [last]) == Apply(t, last);
      OneMorePublished(s, t, batch, k - 1, publish);
      assert t.worker.Busy? && t.worker.batch == batch && t.worker.next == k - 1 by { UnfoldPublished(s, t, batch, batch[..k - 1], publish); }
      assert Enabled(t, last, size) && Legal(t, [last], size);
      AfterConcat(s, steps, [last], size);
    }
  }

  lemma UnfoldPublished(s: State, t: State, batch: seq<nat>, part: seq<nat>, publish: nat -> Reply)
    requires Published(s, t, batch, part, publish)
    ensures t.worker.Busy? && t.worker.batch == batch && t.worker.next == |part|
  {
  }

  /** An undisturbed poll in single steps is ProcessBatch: same rows, same deliveries. */
  lemma PollIsItsSteps(s: State, batch: seq<nat>, size: nat, publish: nat -> Reply, mark: Reply)
    requires s.worker.Idle? && IsBatch(s.rows, batch, size)
    ensures Legal(s, PollSteps(batch, publish, mark), size)
    ensures var t := After(s, PollSteps(batch, publish, mark));
            && t.worker.Idle? && t.delivered == s.delivered + Reached(batch, publish)
            && t.rows == if mark.Refused? then s.rows else Mark(s.rows, Acknowledged(batch, publish))
  {
    hide IsBatch, AfterPublish;
    var fetched := Apply(s, Fetch(batch));
    var steps := Publishes(batch, publish);
    assert batch[..|batch|] == batch;
    PublishesAre(fetched, batch, |batch|, publish, size);
    var t := After(fetched, steps);
    AfterConcat(fetched, steps, [Finish(mark)], size);
    assert After(t, [Finish(mark)]) == Apply(t, Finish(mark));
    assert Legal(t, [Finish(mark)], size);
    var all := PollSteps(batch, publish, mark);
    assert all[1..] == steps + [Finish(mark)];
    assert Mark(s.rows, []) == s.rows;
  }

  // ---------------------------------------------------------------- repeated delivery

  function CrashingPolls(batch: seq<nat>, n: nat): seq<Step> {
    if n == 0 then [] else [Fetch(batch), Publish(Done), Crash] + CrashingPolls(batch, n - 1)
  }

  lemma Unroll(s: State, steps: seq<Step>, size: nat)
    requires steps != []
    ensures After(s, steps) == After(Apply(s, steps[0]), steps[1..])
    ensures Legal(s, steps, size) <==> Enabled(s, steps[0], size) && Legal(Apply(s, steps[0]), steps[1..], size)
  {
  }

  /** Delivery is at least once, not at most once: a committed row can be delivered any number of times and still be unflagged. */
  lemma {:induction false} DeliveredAnyNumberOfTimes(s: State, batch: seq<nat>, size: nat, n: nat)
    requires s.worker.Idle? && IsBatch(s.rows, batch, size) && batch != []
    ensures Legal(s, CrashingPolls(batch, n), size)
    ensures var t := After(s, CrashingPolls(batch, n));
            && t.rows == s.rows && t.worker.Idle?
            && Count(t.delivered, batch[0]) == Count(s.delivered, batch[0]) + n
    decreases n
  {
    if n > 0 {
      hide IsBatch;
      var one := [Fetch(batch), Publish(Done), Crash];
      var a := Apply(s, Fetch(batch));
      var b := Apply(a, Publish(Done));
      var t := Apply(b, Crash);
      Unroll(s, one, size);
      Unroll(a, one[1..], size);
      Unroll(b, one[2..], size);
      assert one[1..][1..] == one[2..];
      CountPush(s.delivered, batch[0], batch[0]);
      DeliveredAnyNumberOfTimes(t, batch, size, n - 1);
      AfterConcat(s, one, CrashingPolls(batch, n - 1), size);
    }
  }
}
