/**
 Many requests running the idempotency middleware at once. Each request is Check, Lock, the handler,
 Store, each a separate step on the shared cells; steps of different requests interleave freely,
 storage calls fail, and a request may die anywhere. Nothing expires.
 */
module IdempotencyProtocol {
  import opened Results
  import opened Idempotency

  datatype Outcome =
    | Replayed(body: string, status: nat)
    | Processed(response: Response)
    | CheckFailed   // 500
    | LockFailed    // 500
    | Conflict      // 409
    | Dropped       // the request died

  datatype Phase =
    | Started
    | Hit(body: string)
    | Missed
    | Entered              // holds the lock, handler not run yet
    | Handled
    | StoreFailed
    | Finished(outcome: Outcome)

  /** What became of the lock a request took. */
  datatype Grip = Never | Holding | Freed | Stored

  /** response: set when the handler runs. */
  datatype Request = Request(key: string, phase: Phase, response: Option<Response>, grip: Grip)

  datatype State = State(cells: Cells, requests: seq<Request>)

  datatype Step =
    | Arrive(key: string)
    | Check(id: nat, reply: Reply)
    | Status(id: nat, reply: Reply)
    | Lock(id: nat, reply: Reply)
    | Handle(id: nat, response: Response)
    | Store(id: nat, reply: Reply)
    | Unlock(id: nat, reply: Reply)
    | Crash(id: nat)

  /** The phase in which a request takes each step. */
  predicate Fits(phase: Phase, step: Step) {
    match step
    case Arrive(_) => false
    case Check(_, _) => phase.Started?
    case Status(_, _) => phase.Hit?
    case Lock(_, _) => phase.Missed?
    case Handle(_, _) => phase.Entered?
    case Store(_, _) => phase.Handled?
    case Unlock(_, _) => phase.StoreFailed?
    case Crash(_) => !phase.Finished?
  }

  predicate Enabled(s: State, step: Step) {
    step.Arrive? || (step.id < |s.requests| && Fits(s.requests[step.id].phase, step))
  }

  /** A request after its own step. */
  function Moved(cells: Cells, r: Request, step: Step): Request {
    match step
    case Arrive(_) => r
    case Check(_, reply) =>
      if !reply.Done? then r.(phase := Finished(CheckFailed))
      else if Body(cells, r.key).Some? then r.(phase := Hit(Body(cells, r.key).value))
      else r.(phase := Missed)
    case Status(_, reply) =>
      if r.phase.Hit? then r.(phase := Finished(Replayed(r.phase.body, ReplayStatus(cells, r.key, reply)))) else r
    case Lock(_, reply) =>
      if reply.Refused? then r.(phase := Finished(LockFailed))
      else if Locked(cells, r.key) then r.(phase := Finished(if reply.Done? then Conflict else LockFailed))
      else r.(phase := if reply.Done? then Entered else Finished(LockFailed), grip := Holding)
    case Handle(_, response) => r.(phase := Handled, response := Some(response))
    case Store(_, reply) =>
      if r.response.None? then r
      else if reply.Done? then r.(phase := Finished(Processed(r.response.value)), grip := Stored)
      else r.(phase := StoreFailed)
    case Unlock(_, reply) =>
      if r.response.None? then r
      else r.(phase := Finished(Processed(r.response.value)), grip := if reply.Refused? then r.grip else Freed)
    case Crash(_) => r.(phase := Finished(Dropped))
  }

  /** A failed or missing status read becomes 200. */
  function ReplayStatus(cells: Cells, key: string, reply: Reply): nat {
    match (if reply.Done? then ReadCode(Code(cells, key)) else Err(StorageFault))
    case Ok(code) => Reported(code)
    case Err(_) => 200
  }

  /** The cells after a request's step. */
  function Written(cells: Cells, r: Request, step: Step): Cells {
    match step
    case Lock(_, reply) => if reply.Refused? || Locked(cells, r.key) then cells else SetLock(cells, r.key)
    case Store(_, reply) => if reply.Refused? || r.response.None? then cells else PutResponse(cells, r.key, r.response.value)
    case Unlock(_, reply) => if reply.Refused? then cells else DropLock(cells, r.key)
    case _ => cells
  }

  function Apply(s: State, step: Step): State {
    if step.Arrive? then s.(requests := s.requests + [Request(step.key, Started, None, Never)])
    else if step.id >= |s.requests| then s
    else
      var r := s.requests[step.id];
      State(Written(s.cells, r, step), s.requests[step.id := Moved(s.cells, r, step)])
  }

  predicate Legal(s: State, steps: seq<Step>)
    decreases steps
  {
    steps != [] ==> Enabled(s, steps[0]) && Legal(Apply(s, steps[0]), steps[1..])
  }

  function After(s: State, steps: seq<Step>): State
    decreases steps
  {
    if steps == [] then s else After(Apply(s, steps[0]), steps[1..])
  }

  /** The one premise on a step: a Store that reports an error had no effect. Client keys are arbitrary. */
  predicate Tame(step: Step) {
    step.Store? ==> !step.reply.Lost?
  }

  ghost predicate TameRun(steps: seq<Step>) {
    forall i :: 0 <= i < |steps| ==> Tame(steps[i])
  }

  ghost predicate Run(s: State, steps: seq<Step>) {
    Legal(s, steps) && TameRun(steps)
  }

  const Start := State(map[], [])

  // ---------------------------------------------------------------- running

  lemma Unroll(s: State, steps: seq<Step>)
    requires steps != []
    ensures After(s, steps) == After(Apply(s, steps[0]), steps[1..])
    ensures Legal(s, steps) <==> Enabled(s, steps[0]) && Legal(Apply(s, steps[0]), steps[1..])
  {
  }

  lemma One(s: State, step: Step)
    ensures After(s, [step]) == Apply(s, step) && (Legal(s, [step]) <==> Enabled(s, step))
  {
    Unroll(s, [step]);
  }

  lemma {:induction false} Concat(s: State, a: seq<Step>, b: seq<Step>)
    ensures After(s, a + b) == After(After(s, a), b)
    ensures Legal(s, a + b) <==> Legal(s, a) && Legal(After(s, a), b)
    decreases a
  {
    hide Apply, Enabled;
    if a == [] {
      assert a + b == b;
    } else {
      assert (a + b)[1..] == a[1..] + b && (a + b)[0] == a[0];
      Concat(Apply(s, a[0]), a[1..], b);
    }
  }

  lemma SplitRun(s: State, a: seq<Step>, b: seq<Step>)
    requires Run(s, a + b)
    ensures Run(s, a) && Run(After(s, a), b)
  {
    Concat(s, a, b);
    assert forall i :: 0 <= i < |a| ==> a[i] == (a + b)[i];
    assert forall i :: 0 <= i < |b| ==> b[i] == (a + b)[|a| + i];
  }

  // ---------------------------------------------------------------- the invariant

  /**
   One request: its history fields agree with its phase and with the cells of its key. Only a plain key's
   response is safe from other keys.
   */
  ghost predicate Sane(cells: Cells, r: Request) {
    && (r.phase.Started? || r.phase.Missed? || r.phase.Hit? ==> r.grip.Never?)
    && (r.phase.Entered? || r.phase.Handled? || r.phase.StoreFailed? ==> r.grip.Holding?)
    && (r.phase.Handled? || r.phase.StoreFailed? || (r.phase.Finished? && r.phase.outcome.Processed?) ==> r.response.Some?)
    && (r.phase.Entered? ==> r.response.None?)
    && (r.phase.Finished? && r.phase.outcome.Replayed? ==> r.response.None?)
    && (r.response.Some? ==> !r.grip.Never?)
    && (r.grip.Holding? ==> Locked(cells, r.key))
    && (r.grip.Stored? ==> Code(cells, r.key).Some?)
    && (r.grip.Stored? && Plain(r.key) ==> Body(cells, r.key).Some?)
    && (r.grip.Freed? || r.grip.Stored? ==> r.response.Some?)
    && (r.grip.Freed? || r.grip.Stored? ==> r.phase.Finished?)
  }

  /** No two requests hold the lock of one key. */
  ghost predicate Exclusive(rs: seq<Request>) {
    forall i, j :: 0 <= i < j < |rs| && rs[i].grip.Holding? && rs[j].grip.Holding? ==> rs[i].key != rs[j].key
  }

  ghost predicate Inv(s: State) {
    Exclusive(s.requests) && forall i :: 0 <= i < |s.requests| ==> Sane(s.cells, s.requests[i])
  }

  /** How the cells of any key change when request r takes a step. */
  ghost predicate Effect(cells: Cells, cells': Cells, key: string, r: Request, r': Request) {
    && (Plain(key) && Body(cells, key).Some? ==> Body(cells', key).Some?)
    && (Code(cells, key).Some? ==> Code(cells', key).Some?)
    && (Locked(cells, key) && key != r.key ==> Locked(cells', key))
    && (key == r.key && r'.grip.Holding? ==> Locked(cells', key))
    && (key == r.key && r'.grip.Stored? && !r.grip.Stored? ==> Body(cells', key).Some? && Code(cells', key).Some?)
    && (key == r.key && r.grip.Never? && r'.grip.Holding? ==> !Locked(cells, key))
    && (key == r.key && !r.grip.Holding? && Locked(cells, key) ==> Locked(cells', key))
  }

  lemma StepEffect(cells: Cells, r: Request, step: Step, key: string)
    requires Sane(cells, r) && Fits(r.phase, step)
    requires Tame(step)
    ensures Effect(cells, Written(cells, r, step), key, r, Moved(cells, r, step))
  {
    hide Body, Code, Locked, SetLock, DropLock, PutResponse, Plain;
    LockEffect(cells, r.key, key);
    if r.response.Some? {
      PutEffect(cells, r.key, r.response.value, key);
    }
    if Plain(key) {
      PlainIsSafe(r.key, key);
    }
    NotDerivedFromItself(r.key);
  }

  lemma NotDerivedFromItself(key: string)
    ensures key != "lock:" + key && key != "status:" + key
  {
    assert |"lock:" + key| > |key| && |"status:" + key| > |key|;
  }

  /** The moving request stays sane. */
  lemma MoverIsSane(cells: Cells, r: Request, step: Step)
    requires Sane(cells, r) && Fits(r.phase, step)
    requires Tame(step)
    ensures Sane(Written(cells, r, step), Moved(cells, r, step))
  {
    hide Body, Code, Locked, SetLock, DropLock, PutResponse, Plain;
    StepEffect(cells, r, step, r.key);
  }

  /** A request that does not move stays sane: only the holder of its key's lock could disturb it. */
  lemma BystanderIsSane(cells: Cells, r: Request, step: Step, b: Request)
    requires Sane(cells, r) && Sane(cells, b) && Fits(r.phase, step)
    requires Tame(step)
    requires r.grip.Holding? && b.grip.Holding? ==> r.key != b.key
    ensures Sane(Written(cells, r, step), b)
    ensures Moved(cells, r, step).grip.Holding? && b.grip.Holding? ==> r.key != b.key
  {
    hide Written, Body, Code, Locked, SetLock, DropLock, PutResponse, Plain;
    StepEffect(cells, r, step, b.key);
  }

  lemma StepKeepsInv(s: State, step: Step)
    requires Inv(s) && Enabled(s, step) && Tame(step)
    ensures Inv(Apply(s, step))
  {
    hide Sane, Moved, Written, Tame;
    if step.Arrive? {
      NewcomerIsSane(s.cells, step);
    } else {
      var r := s.requests[step.id];
      MoverIsSane(s.cells, r, step);
      KeyKept(s.cells, r, step);
      forall i | 0 <= i < |s.requests| && i != step.id
        ensures Sane(Written(s.cells, r, step), s.requests[i])
        ensures Moved(s.cells, r, step).grip.Holding? && s.requests[i].grip.Holding? ==> r.key != s.requests[i].key
      {
        BystanderIsSane(s.cells, r, step, s.requests[i]);
      }
    }
  }

  lemma NewcomerIsSane(cells: Cells, step: Step)
    requires step.Arrive? && Tame(step)
    ensures Sane(cells, Request(step.key, Started, None, Never))
  {
  }

  lemma KeyKept(cells: Cells, r: Request, step: Step)
    ensures Moved(cells, r, step).key == r.key
    ensures r.response.Some? && !step.Handle? ==> Moved(cells, r, step).response == r.response
  {
  }

  lemma {:induction false} RunKeepsInv(s: State, steps: seq<Step>)
    requires Inv(s) && Run(s, steps)
    ensures Inv(After(s, steps))
    decreases steps
  {
    hide Inv, Apply, Enabled, Tame;
    if steps != [] {
      StepKeepsInv(s, steps[0]);
      assert forall i :: 0 <= i < |steps[1..]| ==> steps[1..][i] == steps[i + 1];
      RunKeepsInv(Apply(s, steps[0]), steps[1..]);
    }
  }

  // ---------------------------------------------------------------- mutual exclusion

  /** Between a successful Lock and its Store or Unlock. */
  predicate Critical(r: Request) {
    r.phase.Entered? || r.phase.Handled? || r.phase.StoreFailed?
  }

  /**
   At most one request per key is in its critical section, at every moment of every run, whatever the
   client keys: a lock is only ever removed by requests of its own key.
   */
  lemma MutualExclusion(steps: seq<Step>, i: nat, j: nat)
    requires Run(Start, steps)
    ensures var rs := After(Start, steps).requests;
            i < |rs| && j < |rs| && Critical(rs[i]) && Critical(rs[j]) && rs[i].key == rs[j].key ==> i == j
  {
    RunKeepsInv(Start, steps);
    var t := After(Start, steps);
    if i < |t.requests| && j < |t.requests| {
      assert Sane(t.cells, t.requests[i]) && Sane(t.cells, t.requests[j]);
    }
  }
}
