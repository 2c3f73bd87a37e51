/** Where a replayed response comes from. */
module IdempotencyReplay {
  import opened Results
  import opened Idempotency
  import opened IdempotencyProtocol
  import opened IdempotencyRuns

  /** A request of the key that ran the handler and stored what the handler answered. */
  ghost predicate Backs(r: Request, key: string) {
    r.key == key && r.grip.Stored? && r.phase.Finished? && r.response.Some?
  }

  ghost predicate BodyFrom(rs: seq<Request>, key: string, body: string) {
    exists j :: 0 <= j < |rs| && Backs(rs[j], key) && rs[j].response.value.body == body
  }

  /** The request wrote this text where the status of `key` is kept: as its own status, or as the response of "status:" + key. */
  ghost predicate WroteCode(r: Request, key: string, code: string) {
    || (Backs(r, key) && Decimal(r.response.value.status) == code)
    || (Backs(r, "status:" + key) && r.response.value.body == code)
  }

  ghost predicate CodeFrom(rs: seq<Request>, key: string, code: string) {
    exists j :: 0 <= j < |rs| && WroteCode(rs[j], key, code)
  }

  ghost predicate ShowsStatus(r: Request, key: string, status: nat) {
    || (Backs(r, key) && Reported(r.response.value.status) == status)
    || (Backs(r, "status:" + key) && Parse(r.response.value.body).Some? && Reported(Parse(r.response.value.body).value) == status)
  }

  /** A reported status is 200, or that of a stored response, or the number that "status:" + key stored as its body. */
  ghost predicate StatusFrom(rs: seq<Request>, key: string, status: nat) {
    status == 200 || exists j :: 0 <= j < |rs| && ShowsStatus(rs[j], key, status)
  }

  ghost predicate Traced(rs: seq<Request>, r: Request) {
    && (Plain(r.key) && r.phase.Hit? ==> BodyFrom(rs, r.key, r.phase.body))
    && (r.phase.Finished? && r.phase.outcome.Replayed? ==>
          && (Plain(r.key) ==> BodyFrom(rs, r.key, r.phase.outcome.body))
          && StatusFrom(rs, r.key, r.phase.outcome.status))
  }

  ghost predicate Sourced(s: State, key: string) {
    && (Plain(key) && Body(s.cells, key).Some? ==> BodyFrom(s.requests, key, Body(s.cells, key).value))
    && (Code(s.cells, key).Some? ==> CodeFrom(s.requests, key, Code(s.cells, key).value))
  }

  ghost predicate Origin(s: State) {
    && (forall i :: 0 <= i < |s.requests| ==> Traced(s.requests, s.requests[i]))
    && forall key :: Sourced(s, key)
  }

  // ---------------------------------------------------------------- stored responses stay

  lemma FromGrows(s: State, t: State, key: string, body: string, code: string, status: nat)
    requires Grows(s, t)
    ensures BodyFrom(s.requests, key, body) ==> BodyFrom(t.requests, key, body)
    ensures CodeFrom(s.requests, key, code) ==> CodeFrom(t.requests, key, code)
    ensures StatusFrom(s.requests, key, status) ==> StatusFrom(t.requests, key, status)
  {
    hide Decimal, Parse, Reported;
    forall j | 0 <= j < |s.requests| && s.requests[j].phase.Finished?
      ensures j < |t.requests| && t.requests[j] == s.requests[j]
    {
      assert Continues(s.requests[j], t.requests[j]);
    }
    if CodeFrom(s.requests, key, code) {
      var j :| 0 <= j < |s.requests| && WroteCode(s.requests[j], key, code);
      assert t.requests[j] == s.requests[j];
    }
    if StatusFrom(s.requests, key, status) && status != 200 {
      var j :| 0 <= j < |s.requests| && ShowsStatus(s.requests[j], key, status);
      assert t.requests[j] == s.requests[j];
    }
  }

  lemma TracedGrows(s: State, t: State, r: Request)
    requires Grows(s, t) && Traced(s.requests, r)
    ensures Traced(t.requests, r)
  {
    hide Grows, BodyFrom, StatusFrom, CodeFrom, Plain;
    match r.phase
    case Hit(body) => FromGrows(s, t, r.key, body, "", 0);
    case Finished(Replayed(body, status)) => FromGrows(s, t, r.key, body, "", status);
    case _ =>
  }

  /** What a status read returns is 200 or the status behind the stored code. */
  lemma StatusReadFrom(s: State, key: string, reply: Reply)
    requires Sourced(s, key)
    ensures StatusFrom(s.requests, key, ReplayStatus(s.cells, key, reply))
  {
    hide Body, Code, Decimal, Parse, Plain, BodyFrom;
    if reply.Done? && Code(s.cells, key).Some? {
      var code := Code(s.cells, key).value;
      var j :| 0 <= j < |s.requests| && WroteCode(s.requests[j], key, code);
      if Backs(s.requests[j], key) {
        ParseDecimal(s.requests[j].response.value.status);
      }
      if Parse(code).Some? {
        assert ShowsStatus(s.requests[j], key, Reported(Parse(code).value));
      }
    }
  }

  /** The request that moves: what it now claims was in the cells. */
  lemma MoverTraced(s: State, r: Request, step: Step)
    requires Fits(r.phase, step) && Traced(s.requests, r) && Sourced(s, r.key)
    ensures Traced(s.requests, Moved(s.cells, r, step))
  {
    hide Body, Code, Locked, ReplayStatus, BodyFrom, StatusFrom, Plain;
    match step
    case Status(_, reply) => StatusReadFrom(s, r.key, reply);
    case _ =>
  }

  /** The cells after a step: either untouched for this key, or holding what the mover just stored. */
  lemma CellsSourced(s: State, step: Step, key: string)
    requires Inv(s) && Enabled(s, step) && Tame(step) && Sourced(s, key)
    ensures Sourced(Apply(s, step), key)
  {
    hide Body, Code, Locked, SetLock, DropLock, PutResponse, Plain, BodyFrom, CodeFrom;
    var t := Apply(s, step);
    StepGrows(s, step);
    FromGrows(s, t, key, if Body(s.cells, key).Some? then Body(s.cells, key).value else "",
              if Code(s.cells, key).Some? then Code(s.cells, key).value else "", 0);
    if !step.Arrive? {
      var r := s.requests[step.id];
      assert Sane(s.cells, r);
      LockEffect(s.cells, r.key, key);
      if Plain(key) {
        PlainIsSafe(r.key, key);
      }
      if step.Store? && step.reply.Done? {
        PutEffect(s.cells, r.key, r.response.value, key);
        StoredIsSource(t.requests, step.id, key);
      }
    }
  }

  lemma StoredIsSource(rs: seq<Request>, id: nat, key: string)
    requires id < |rs| && rs[id].grip.Stored? && rs[id].phase.Finished? && rs[id].response.Some?
    ensures rs[id].key == key ==> BodyFrom(rs, key, rs[id].response.value.body) && CodeFrom(rs, key, Decimal(rs[id].response.value.status))
    ensures rs[id].key == "status:" + key ==> CodeFrom(rs, key, rs[id].response.value.body)
  {
    if rs[id].key == key {
      assert Backs(rs[id], key) && WroteCode(rs[id], key, Decimal(rs[id].response.value.status));
    }
    if rs[id].key == "status:" + key {
      assert WroteCode(rs[id], key, rs[id].response.value.body);
    }
  }

  lemma StepKeepsOrigin(s: State, step: Step)
    requires Inv(s) && Origin(s) && Enabled(s, step) && Tame(step)
    ensures Origin(Apply(s, step))
  {
    hide Inv, Sourced, Traced, Tame, Moved, Written, Grows;
    var t := Apply(s, step);
    forall key ensures Sourced(t, key) {
      CellsSourced(s, step, key);
    }
    StepGrows(s, step);
    forall i | 0 <= i < |t.requests| ensures Traced(t.requests, t.requests[i]) {
      if i >= |s.requests| {
        StartedTraced(t.requests, t.requests[i]);
      } else if !step.Arrive? && i == step.id {
        MoverTraced(s, s.requests[i], step);
        TracedGrows(s, t, t.requests[i]);
      } else {
        TracedGrows(s, t, s.requests[i]);
      }
    }
  }

  lemma StartedTraced(rs: seq<Request>, r: Request)
    requires r.phase.Started?
    ensures Traced(rs, r)
  {
  }

  lemma {:induction false} RunKeepsOrigin(s: State, steps: seq<Step>)
    requires Inv(s) && Origin(s) && Run(s, steps)
    ensures Origin(After(s, steps))
    decreases steps
  {
    hide Inv, Origin, Apply, Enabled, Tame;
    if steps != [] {
      StepKeepsInv(s, steps[0]);
      StepKeepsOrigin(s, steps[0]);
      assert forall i :: 0 <= i < |steps[1..]| ==> steps[1..][i] == steps[i + 1];
      RunKeepsOrigin(Apply(s, steps[0]), steps[1..]);
    }
  }

  /**
   Every replay of a plain key, in every run, returns the body some request of that key stored. Its status
   is 200, or the status of such a request, or a number that the key "status:" + key stored as its body.
   */
  lemma ReplaysAreStoredResponses(steps: seq<Step>, i: nat)
    requires Run(Start, steps) && i < |After(Start, steps).requests|
    ensures Traced(After(Start, steps).requests, After(Start, steps).requests[i])
  {
    RunKeepsOrigin(Start, steps);
  }

  /** If the handler of a key ran once, its response alone backs the key. */
  lemma OnlyBacker(t: State, key: string, j: nat, k: nat)
    requires Ran(t, key) == {j} && k < |t.requests| && Backs(t.requests[k], key)
    ensures k == j
  {
    assert k in Ran(t, key);
  }

  /**
   If the handler of a plain key ran once, every replay of that key repeats that run's body, and its status
   or 200, unless the key "status:" + key was processed too.
   */
  lemma ReplayRepeatsTheOneRun(steps: seq<Step>, i: nat, j: nat)
    requires Run(Start, steps) && i < |After(Start, steps).requests| && j < |After(Start, steps).requests|
    requires var t := After(Start, steps);
             && t.requests[i].phase.Finished? && t.requests[i].phase.outcome.Replayed? && Plain(t.requests[i].key)
             && Ran(t, t.requests[i].key) == {j}
    ensures var t := After(Start, steps);
            && t.requests[j].response.Some?
            && t.requests[i].phase.outcome.body == t.requests[j].response.value.body
            && (Ran(t, "status:" + t.requests[i].key) == {} ==>
                  t.requests[i].phase.outcome.status in {200, Reported(t.requests[j].response.value.status)})
  {
    hide Run, Plain, Parse, Reported;
    ReplaysAreStoredResponses(steps, i);
    var t := After(Start, steps);
    var key := t.requests[i].key;
    assert j in Ran(t, key);
    forall k: nat | k < |t.requests| && Backs(t.requests[k], key) ensures k == j {
      OnlyBacker(t, key, j, k);
    }
    forall k: nat | k < |t.requests| && Backs(t.requests[k], "status:" + key) ensures k in Ran(t, "status:" + key) {
    }
  }

  lemma StartIsSound()
    ensures Inv(Start) && Origin(Start)
  {
  }

  /** With one run stored and nothing under "status:" + key, the cells hold that run's status. */
  lemma StoredStatus(t: State, i: nat, j: nat)
    requires Inv(t) && Origin(t) && i < |t.requests| && j < |t.requests| && t.requests[i].phase.Hit? && Plain(t.requests[i].key)
    requires Ran(t, t.requests[i].key) == {j} && Ran(t, "status:" + t.requests[i].key) == {}
    ensures t.requests[j].response.Some? && t.requests[i].phase.body == t.requests[j].response.value.body
    ensures Code(t.cells, t.requests[i].key) == Some(Decimal(t.requests[j].response.value.status))
  {
    hide Plain, Body, Code, Decimal, Locked;
    var key := t.requests[i].key;
    assert Traced(t.requests, t.requests[i]) && Sourced(t, key);
    var k :| 0 <= k < |t.requests| && Backs(t.requests[k], key) && t.requests[k].response.value.body == t.requests[i].phase.body;
    OnlyBacker(t, key, j, k);
    assert Sane(t.cells, t.requests[j]);
    var c :| 0 <= c < |t.requests| && WroteCode(t.requests[c], key, Code(t.cells, key).value);
    forall k: nat | k < |t.requests| && Backs(t.requests[k], "status:" + key) ensures k in Ran(t, "status:" + key) {
    }
    OnlyBacker(t, key, j, c);
  }

  /**
   When a replay shows the stored status, exactly: for a plain key whose handler ran once, with nothing
   processed under "status:" + key, the replay repeats that run's body, and its status if and only if the
   status read succeeds or the status was 200 anyway.
   */
  lemma ReplayStatusIff(steps: seq<Step>, i: nat, j: nat, reply: Reply)
    requires Run(Start, steps) && i < |After(Start, steps).requests| && j < |After(Start, steps).requests|
    requires var t := After(Start, steps);
             && t.requests[i].phase.Hit? && Plain(t.requests[i].key)
             && Ran(t, t.requests[i].key) == {j} && Ran(t, "status:" + t.requests[i].key) == {}
    ensures var t := After(Start, steps);
            var answer := Apply(t, Status(i, reply)).requests[i].phase;
            && t.requests[j].response.Some? && answer.Finished? && answer.outcome.Replayed?
            && answer.outcome.body == t.requests[j].response.value.body
            && var stored := Reported(t.requests[j].response.value.status);
               (answer.outcome.status == stored <==> reply.Done? || stored == 200)
  {
    hide Run, Inv, Origin, Plain, Code, Decimal, Parse, Ran;
    StartIsSound();
    RunKeepsInv(Start, steps);
    RunKeepsOrigin(Start, steps);
    var t := After(Start, steps);
    StoredStatus(t, i, j);
    ParseDecimal(t.requests[j].response.value.status);
  }
}
