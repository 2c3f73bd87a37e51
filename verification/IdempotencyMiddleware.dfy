/** One request through the middleware, undisturbed, and its agreement with the protocol's steps. */
module IdempotencyMiddleware {
  import opened Results
  import opened Idempotency
  import opened IdempotencyProtocol

  /** How each storage call of the request ends. */
  datatype Replies = Replies(check: Reply, status: Reply, lock: Reply, store: Reply, unlock: Reply)

  /** The step a request takes next. */
  function NextStep(id: nat, phase: Phase, replies: Replies, response: Response): Step
    requires !phase.Finished?
  {
    match phase
    case Started => Check(id, replies.check)
    case Hit(_) => Status(id, replies.status)
    case Missed => Lock(id, replies.lock)
    case Entered => Handle(id, response)
    case Handled => Store(id, replies.store)
    case StoreFailed => Unlock(id, replies.unlock)
  }

  function Rank(phase: Phase): nat {
    match phase
    case Started => 6
    case Missed => 5
    case Entered => 4
    case Handled => 3
    case StoreFailed => 2
    case Hit(_) => 1
    case Finished(_) => 0
  }

  ghost predicate Consistent(r: Request) {
    (r.phase.Handled? || r.phase.StoreFailed? ==> r.response.Some?)
  }

  lemma NextStepAdvances(cells: Cells, r: Request, id: nat, replies: Replies, response: Response)
    requires Consistent(r) && !r.phase.Finished?
    ensures var step := NextStep(id, r.phase, replies, response);
            && Fits(r.phase, step) && Consistent(Moved(cells, r, step)) && Rank(Moved(cells, r, step).phase) < Rank(r.phase)
  {
    hide Body, Code, Locked, ReplayStatus;
  }

  /** The steps of a request from where it is to its end, nobody interfering. */
  ghost function RestSteps(s: State, id: nat, replies: Replies, response: Response): seq<Step>
    requires id < |s.requests| && Consistent(s.requests[id])
    decreases Rank(s.requests[id].phase)
  {
    if s.requests[id].phase.Finished? then []
    else
      var step := NextStep(id, s.requests[id].phase, replies, response);
      NextStepAdvances(s.cells, s.requests[id], id, replies, response);
      [step] + RestSteps(Apply(s, step), id, replies, response)
  }

  /** Every request ends: its steps are a legal run that finishes it and leaves the other requests alone. */
  lemma {:induction false} RequestEnds(s: State, id: nat, replies: Replies, response: Response)
    requires id < |s.requests| && Consistent(s.requests[id])
    ensures var t := After(s, RestSteps(s, id, replies, response));
            && Legal(s, RestSteps(s, id, replies, response))
            && |t.requests| == |s.requests| && t.requests[id].phase.Finished?
            && forall i :: 0 <= i < |s.requests| && i != id ==> t.requests[i] == s.requests[i]
    decreases Rank(s.requests[id].phase)
  {
    if !s.requests[id].phase.Finished? {
      hide Moved, Written;
      var step := NextStep(id, s.requests[id].phase, replies, response);
      NextStepAdvances(s.cells, s.requests[id], id, replies, response);
      RequestEnds(Apply(s, step), id, replies, response);
      Unroll(s, RestSteps(s, id, replies, response));
    }
  }

  ghost function Alone(cells: Cells, key: string): State {
    State(cells, [Request(key, Started, None, Never)])
  }

  /** The state when a single request has gone all the way. */
  ghost function Ended(s: State, replies: Replies, response: Response): State
    requires |s.requests| > 0 && Consistent(s.requests[0])
  {
    After(s, RestSteps(s, 0, replies, response))
  }

  lemma EndedUnfolds(s: State, replies: Replies, response: Response)
    requires |s.requests| > 0 && Consistent(s.requests[0])
    ensures s.requests[0].phase.Finished? ==> Ended(s, replies, response) == s
    ensures !s.requests[0].phase.Finished? ==>
              && NextStepAt(s, replies, response).requests != [] && Consistent(NextStepAt(s, replies, response).requests[0])
              && Ended(s, replies, response) == Ended(NextStepAt(s, replies, response), replies, response)
  {
    hide Moved, Written;
    if !s.requests[0].phase.Finished? {
      NextStepAdvances(s.cells, s.requests[0], 0, replies, response);
      Unroll(s, RestSteps(s, 0, replies, response));
    }
  }

  ghost function NextStepAt(s: State, replies: Replies, response: Response): State
    requires |s.requests| > 0
  {
    if s.requests[0].phase.Finished? then s else Apply(s, NextStep(0, s.requests[0].phase, replies, response))
  }

  /**
   What a request alone in the middleware is told and what it leaves in the cells, by the cells it finds and
   the replies it gets: a failed Check, a cached response, a failed Lock, a lock held by another, or the
   handler's response, stored if the Store took effect and the lock given back if it reported an error.
   */
  ghost predicate Told(cells: Cells, key: string, replies: Replies, response: Response, outcome: Outcome, cells': Cells) {
    if !replies.check.Done? then outcome == CheckFailed && cells' == cells
    else if Body(cells, key).Some? then
      outcome == Replayed(Body(cells, key).value, ReplayStatus(cells, key, replies.status)) && cells' == cells
    else if replies.lock.Refused? then outcome == LockFailed && cells' == cells
    else if Locked(cells, key) then outcome == (if replies.lock.Done? then Conflict else LockFailed) && cells' == cells
    else if replies.lock.Lost? then outcome == LockFailed && cells' == SetLock(cells, key)
    else
      var stored := if replies.store.Refused? then SetLock(cells, key) else PutResponse(SetLock(cells, key), key, response);
      && outcome == Processed(response)
      && cells' == if replies.store.Done? || replies.unlock.Refused? then stored else DropLock(stored, key)
  }

  /** The protocol's steps, taken without interference, lead exactly there. */
  lemma AloneIsTold(cells: Cells, key: string, replies: Replies, response: Response)
    ensures var t := Ended(Alone(cells, key), replies, response);
            |t.requests| == 1 && t.requests[0].phase.Finished? && Told(cells, key, replies, response, t.requests[0].phase.outcome, t.cells)
  {
    hide Body, Code, Locked, SetLock, DropLock, PutResponse, ReplayStatus, Ended, RestSteps, After;
    var s0 := Alone(cells, key);
    EndedUnfolds(s0, replies, response);
    var s1 := NextStepAt(s0, replies, response);
    EndedUnfolds(s1, replies, response);
    var s2 := NextStepAt(s1, replies, response);
    EndedUnfolds(s2, replies, response);
    var s3 := NextStepAt(s2, replies, response);
    EndedUnfolds(s3, replies, response);
    var s4 := NextStepAt(s3, replies, response);
    EndedUnfolds(s4, replies, response);
    var s5 := NextStepAt(s4, replies, response);
    EndedUnfolds(s5, replies, response);
  }

  /**
   The middleware. `writes` is what the handler writes, if it is called; `code` is the status the client
   receives. POST and PUT requests with a key are guarded and follow the protocol; anything else goes
   straight to the handler and leaves the store alone.
   */
  method Serve(store: IdempotencyStore, verb: string, key: string, writes: seq<Write>, replies: Replies)
    returns (outcome: Outcome, code: nat)
    modifies store
    ensures !((verb == "POST" || verb == "PUT") && key != "") ==>
              store.cells == old(store.cells) && outcome == Processed(Recorded(writes)) && code == Sent(writes).status
    ensures (verb == "POST" || verb == "PUT") && key != "" ==>
              Told(old(store.cells), key, replies, Recorded(writes), outcome, store.cells)
    ensures (verb == "POST" || verb == "PUT") && key != "" ==>
              var t := Ended(Alone(old(store.cells), key), replies, Recorded(writes));
              |t.requests| == 1 && t.requests[0].phase == Finished(outcome) && store.cells == t.cells
    ensures outcome.Conflict? ==> code == 409
    ensures outcome.CheckFailed? || outcome.LockFailed? ==> code == 500
    ensures outcome.Replayed? ==> code == outcome.status
    ensures outcome.Processed? ==> code == Sent(writes).status
  {
    hide Body, Code, Locked, SetLock, DropLock, PutResponse, ReadCode, Recorded, Ended, Sent;
    AloneIsTold(store.cells, key, replies, Recorded(writes));
    if (verb != "POST" && verb != "PUT") || key == "" {
      return Processed(Recorded(writes)), Sent(writes).status;
    }
    var cached := store.Check(key, replies.check);
    if cached.Err? {
      return CheckFailed, 500;
    }
    if cached.value.Some? {
      var status := store.GetStatus(key, replies.status);
      code := if status.Ok? then status.value else 0;
      if code == 0 {
        code := 200;
      }
      return Replayed(cached.value.value, code), code;
    }
    var locked := store.Lock(key, replies.lock);
    if locked.Err? {
      return LockFailed, 500;
    }
    if !locked.value {
      return Conflict, 409;
    }
    var recorder := new Recorder();
    recorder.Capture(writes);
    var captured := Response(recorder.statusCode, recorder.body);
    var stored := store.Store(key, captured, replies.store);
    if !stored {
      var _ := store.Unlock(key, replies.unlock);
    }
    return Processed(captured), Sent(writes).status;
  }

  const AllDone := Replies(Done, Done, Done, Done, Done)

  /**
   The promise of the middleware, without faults or interference: a first request with a new key is
   processed, and a second one with that key is answered with the first one's response, whatever its own
   handler would write, and changes nothing.
   */
  lemma SecondRequestReplays(cells: Cells, key: string, first: Response, second: Response)
    requires Body(cells, key) == None && !Locked(cells, key)
    ensures var t := Ended(Alone(cells, key), AllDone, first);
            var u := Ended(Alone(t.cells, key), AllDone, second);
            && |t.requests| == 1 && t.requests[0].phase == Finished(Processed(first))
            && |u.requests| == 1 && u.requests[0].phase == Finished(Replayed(first.body, if first.status == 0 then 200 else first.status))
            && u.cells == t.cells && !Locked(u.cells, key)
  {
    hide Body, Code, Locked, SetLock, PutResponse, Ended, Decimal, Parse;
    AloneIsTold(cells, key, AllDone, first);
    var t := Ended(Alone(cells, key), AllDone, first);
    NotDerivedFromItself(key);
    PutEffect(SetLock(cells, key), key, first, key);
    ParseDecimal(first.status);
    AloneIsTold(t.cells, key, AllDone, second);
  }

  /** The same through the method: the same POST or PUT twice. */
  method ServeTwice(store: IdempotencyStore, verb: string, key: string, writes: seq<Write>, again: seq<Write>)
    returns (first: Outcome, second: Outcome)
    requires (verb == "POST" || verb == "PUT") && key != ""
    requires "idem:" + key !in store.cells && "idem:lock:" + key !in store.cells
    modifies store
    ensures first == Processed(Recorded(writes))
    ensures second == Replayed(Recorded(writes).body, if Recorded(writes).status == 0 then 200 else Recorded(writes).status)
  {
    SecondRequestReplays(store.cells, key, Recorded(writes), Recorded(again));
    hide Ended;
    var code;
    first, code := Serve(store, verb, key, writes, AllDone);
    second, code := Serve(store, verb, key, again, AllDone);
  }
}
