/**
 How often the handler runs for one key, and what later requests are told. The code checks the cache
 and takes the lock in two steps, so "only processed once" is not what it gives; this module proves
 the exact bound, that the bound is reached, and what every replay returns.
 */
module IdempotencyRuns {
  import opened Results
  import opened Idempotency
  import opened IdempotencyProtocol

  /** Requests of a key whose handler ran. */
  function Ran(s: State, key: string): set<nat> {
    set i | 0 <= i < |s.requests| && s.requests[i].key == key && s.requests[i].response.Some?
  }

  /** Requests of a key that ran, failed to store and gave the lock back. */
  function GaveBack(s: State, key: string): set<nat> {
    set i | 0 <= i < |s.requests| && s.requests[i].key == key && s.requests[i].grip.Freed?
  }

  function Holders(s: State, key: string): set<nat> {
    set i | 0 <= i < |s.requests| && s.requests[i].key == key && s.requests[i].grip.Holding?
  }

  /** Requests of a key between their Check and their Lock. */
  function Window(s: State, key: string): set<nat> {
    set i | 0 <= i < |s.requests| && s.requests[i].key == key && s.requests[i].phase.Missed?
  }

  lemma SubsetSize(a: set<nat>, b: set<nat>)
    requires a <= b
    ensures |a| <= |b|
  {
    assert b == a + (b - a);
  }

  lemma AtMostOne(a: set<nat>)
    requires forall x, y :: x in a && y in a ==> x == y
    ensures |a| <= 1
  {
    if a != {} {
      var x :| x in a;
      assert a == {x};
    }
  }

  // ---------------------------------------------------------------- before the first stored response

  /** While no response is stored, every run but one gave its lock back after a failed Store. */
  lemma RunsBeforeStore(s: State, key: string)
    requires Inv(s) && Plain(key) && Body(s.cells, key).None?
    ensures |Ran(s, key)| <= 1 + |GaveBack(s, key)|
  {
    hide Body, Locked;
    forall i | i in Ran(s, key) ensures i in GaveBack(s, key) + Holders(s, key) {
      assert Sane(s.cells, s.requests[i]);
    }
    SubsetSize(Ran(s, key), GaveBack(s, key) + Holders(s, key));
    AtMostOne(Holders(s, key));
  }

  // ---------------------------------------------------------------- after it

  /** A request that has not run its handler and, the response being stored, never will. */
  predicate Late(r: Request) {
    r.response.None? && (r.phase.Started? || r.phase.Hit? || r.phase.Finished?)
  }

  /** Moreover it has been told nothing but a replay or a storage error. */
  predicate Replaying(r: Request) {
    || r.phase.Started? || r.phase.Hit?
    || (r.phase.Finished? && (r.phase.outcome.Replayed? || r.phase.outcome.CheckFailed? || r.phase.outcome.Dropped?))
  }

  /** The response of `key` is stored, and its requests outside `allowed` are late, those in `newcomers` replaying. */
  ghost predicate Settled(s: State, key: string, allowed: set<nat>, newcomers: iset<nat>) {
    && Body(s.cells, key).Some?
    && forall i {:trigger s.requests[i]} :: 0 <= i < |s.requests| && s.requests[i].key == key ==>
         (i !in allowed ==> Late(s.requests[i])) && (i in newcomers ==> Replaying(s.requests[i]))
  }

  lemma MoveKeepsLate(cells: Cells, r: Request, step: Step)
    requires Fits(r.phase, step) && Body(cells, r.key).Some?
    ensures Late(r) ==> Late(Moved(cells, r, step))
    ensures Replaying(r) ==> Replaying(Moved(cells, r, step))
  {
    hide Body, Code, Locked;
  }

  lemma StepKeepsSettled(s: State, step: Step, key: string, allowed: set<nat>, newcomers: iset<nat>)
    requires Inv(s) && Enabled(s, step) && Tame(step) && Plain(key)
    requires Settled(s, key, allowed, newcomers)
    ensures Settled(Apply(s, step), key, allowed, newcomers)
  {
    hide Body, Code, Locked, Moved, Written, Late, Replaying, Tame, Plain, Sane;
    if step.Arrive? {
      FreshIsLate(step.key);
    } else {
      var r := s.requests[step.id];
      assert Sane(s.cells, r);
      KeyKept(s.cells, r, step);
      StepEffect(s.cells, r, step, key);
      if r.key == key {
        MoveKeepsLate(s.cells, r, step);
      }
    }
  }

  lemma FreshIsLate(key: string)
    ensures Late(Request(key, Started, None, Never)) && Replaying(Request(key, Started, None, Never))
  {
  }

  lemma {:induction false} RunKeepsSettled(s: State, steps: seq<Step>, key: string, allowed: set<nat>, newcomers: iset<nat>)
    requires Inv(s) && Run(s, steps) && Plain(key)
    requires Settled(s, key, allowed, newcomers)
    ensures Settled(After(s, steps), key, allowed, newcomers)
    decreases steps
  {
    hide Inv, Apply, Enabled, Tame, Settled, Plain;
    if steps != [] {
      StepKeepsInv(s, steps[0]);
      StepKeepsSettled(s, steps[0], key, allowed, newcomers);
      assert forall i :: 0 <= i < |steps[1..]| ==> steps[1..][i] == steps[i + 1];
      RunKeepsSettled(Apply(s, steps[0]), steps[1..], key, allowed, newcomers);
    }
  }

  /** Just after a Store succeeds: nobody holds the lock, the runs and the window are as before. */
  lemma StoreSettles(s: State, id: nat, key: string)
    requires Inv(s) && Enabled(s, Store(id, Done)) && s.requests[id].key == key
    ensures !Locked(Apply(s, Store(id, Done)).cells, key)
    ensures var t := Apply(s, Store(id, Done));
            && Ran(t, key) == Ran(s, key) && Window(t, key) == Window(s, key) && id in Ran(s, key)
            && Settled(t, key, Ran(s, key) + Window(s, key), NotYetChecked(s))
  {
    hide Body, Code, Locked, PutResponse, Plain;
    var r := s.requests[id];
    assert Sane(s.cells, r);
    PutEffect(s.cells, key, r.response.value, key);
    NotDerivedFromItself(key);
    var t := Apply(s, Store(id, Done));
    forall i | 0 <= i < |t.requests| && t.requests[i].key == key && i !in Ran(s, key) + Window(s, key)
      ensures Late(t.requests[i])
    {
      assert Sane(s.cells, s.requests[i]);
      assert i != id;
    }
  }

  /** Requests that have yet to Check, including those still to arrive. */
  ghost function NotYetChecked(s: State): iset<nat> {
    iset i: nat | i >= |s.requests| || s.requests[i].phase.Started?
  }

  /**
   The bound. Let request `id` be the first to store a response for `key`, and let the run go on in any
   way. Whoever runs the handler afterwards was between Check and Lock at that moment, so the handler runs
   at most once, plus once per failed Store that gave the lock back, plus once per request in the window.
   */
  lemma HandlerRunsBounded(a: seq<Step>, id: nat, b: seq<Step>, key: string)
    requires Run(Start, a + ([Store(id, Done)] + b)) && Plain(key)
    requires var s := After(Start, a); id < |s.requests| && s.requests[id].key == key && Body(s.cells, key).None?
    ensures var s, t := After(Start, a), After(Start, a + ([Store(id, Done)] + b));
            && Ran(t, key) <= Ran(s, key) + Window(s, key)
            && |Ran(t, key)| <= 1 + |GaveBack(s, key)| + |Window(s, key)|
  {
    hide Run, Body, Settled;
    var s, t := After(Start, a), After(Start, a + ([Store(id, Done)] + b));
    StoreThenRun(a, id, b, key);
    RanWithinAllowed(t, key, Ran(s, key) + Window(s, key), NotYetChecked(s));
    SubsetSize(Ran(t, key), Ran(s, key) + Window(s, key));
    assert Inv(s) by { InvAfterPrefix(a, [Store(id, Done)] + b); }
    RunsBeforeStore(s, key);
  }

  lemma RanWithinAllowed(t: State, key: string, allowed: set<nat>, newcomers: iset<nat>)
    requires Settled(t, key, allowed, newcomers)
    ensures Ran(t, key) <= allowed
  {
    hide Body;
    forall i | i in Ran(t, key) ensures i in allowed {
      assert t.requests[i].key == key && t.requests[i].response.Some?;
    }
  }

  lemma InvAfterPrefix(a: seq<Step>, b: seq<Step>)
    requires Run(Start, a + b)
    ensures Inv(After(Start, a))
  {
    SplitRun(Start, a, b);
    RunKeepsInv(Start, a);
  }

  lemma StoreThenRun(a: seq<Step>, id: nat, b: seq<Step>, key: string)
    requires Run(Start, a + ([Store(id, Done)] + b)) && Plain(key)
    requires var s := After(Start, a); id < |s.requests| && s.requests[id].key == key
    ensures var s := After(Start, a);
            Settled(After(Start, a + ([Store(id, Done)] + b)), key, Ran(s, key) + Window(s, key), NotYetChecked(s))
  {
    hide Settled, Body, Apply, Inv;
    var s := After(Start, a);
    var step := Store(id, Done);
    SplitRun(Start, a, [step] + b);
    SplitRun(s, [step], b);
    One(s, step);
    Concat(Start, a, [step] + b);
    Concat(s, [step], b);
    InvAfterPrefix(a, [step] + b);
    StoreSettles(s, id, key);
    StepKeepsInv(s, step);
    RunKeepsSettled(Apply(s, step), b, key, Ran(s, key) + Window(s, key), NotYetChecked(s));
  }

  /**
   A request that had not yet checked at a successful Store never runs the handler: it waits, replays, or
   ends in a failed Check or its own death.
   */
  lemma LaterRequestsReplay(a: seq<Step>, id: nat, b: seq<Step>, key: string, i: nat)
    requires Run(Start, a + ([Store(id, Done)] + b)) && Plain(key)
    requires var s := After(Start, a); id < |s.requests| && s.requests[id].key == key && i in NotYetChecked(s)
    ensures var t := After(Start, a + ([Store(id, Done)] + b));
            i < |t.requests| && t.requests[i].key == key ==> Replaying(t.requests[i]) && i !in Ran(t, key)
  {
    hide Run, Body;
    StoreThenRun(a, id, b, key);
    var s, t := After(Start, a), After(Start, a + ([Store(id, Done)] + b));
    assert i !in Ran(s, key) + Window(s, key) by {
      InvAfterPrefix(a, [Store(id, Done)] + b);
      assert i < |s.requests| ==> Sane(s.cells, s.requests[i]);
    }
  }

  /** If no response of a key is ever stored, every run but one gave its lock back. */
  lemma HandlerRunsWithoutStore(steps: seq<Step>, key: string)
    requires Run(Start, steps) && Plain(key) && Body(After(Start, steps).cells, key).None?
    ensures |Ran(After(Start, steps), key)| <= 1 + |GaveBack(After(Start, steps), key)|
  {
    RunKeepsInv(Start, steps);
    RunsBeforeStore(After(Start, steps), key);
  }

  // ---------------------------------------------------------------- runs are never undone

  ghost predicate Grows(s: State, t: State) {
    && |s.requests| <= |t.requests|
    && forall i :: 0 <= i < |s.requests| ==> Continues(s.requests[i], t.requests[i])
  }

  ghost predicate Continues(r: Request, r': Request) {
    r'.key == r.key && (r.response.Some? ==> r'.response == r.response) && (r.phase.Finished? ==> r' == r)
  }

  lemma StepGrows(s: State, step: Step)
    requires Inv(s) && Enabled(s, step)
    ensures Grows(s, Apply(s, step))
  {
    hide Moved, Written;
    if !step.Arrive? {
      var r := s.requests[step.id];
      assert Sane(s.cells, r);
      KeyKept(s.cells, r, step);
    }
  }

  lemma {:induction false} RunGrows(s: State, steps: seq<Step>)
    requires Inv(s) && Run(s, steps)
    ensures Grows(s, After(s, steps))
    decreases steps
  {
    hide Inv, Apply, Enabled, Tame;
    if steps != [] {
      StepKeepsInv(s, steps[0]);
      StepGrows(s, steps[0]);
      assert forall i :: 0 <= i < |steps[1..]| ==> steps[1..][i] == steps[i + 1];
      RunGrows(Apply(s, steps[0]), steps[1..]);
    }
  }

  /** The storing request has run, and stays counted whatever follows. */
  lemma StorerRan(a: seq<Step>, id: nat, b: seq<Step>, key: string)
    requires Run(Start, a + ([Store(id, Done)] + b))
    requires var s := After(Start, a); id < |s.requests| && s.requests[id].key == key
    ensures var s, t := After(Start, a), After(Start, a + ([Store(id, Done)] + b));
            && id in Ran(s, key) && Ran(s, key) <= Ran(t, key)
            && s.requests[id].phase.Handled? && s.requests[id].grip.Holding?
  {
    hide Body, Apply;
    var s, t := After(Start, a), After(Start, a + ([Store(id, Done)] + b));
    SplitRun(Start, a, [Store(id, Done)] + b);
    Concat(Start, a, [Store(id, Done)] + b);
    InvAfterPrefix(a, [Store(id, Done)] + b);
    RunGrows(s, [Store(id, Done)] + b);
    assert Sane(s.cells, s.requests[id]) && s.requests[id].phase.Handled? by { One(s, Store(id, Done)); SplitRun(s, [Store(id, Done)], b); }
    forall i | i in Ran(s, key) ensures i in Ran(t, key) {
      assert Continues(s.requests[i], t.requests[i]);
    }
  }

  /** With an empty window and no lock given back, the handler runs exactly once, whatever follows. */
  lemma OnceIfNobodyWaits(a: seq<Step>, id: nat, b: seq<Step>, key: string)
    requires Run(Start, a + ([Store(id, Done)] + b)) && Plain(key)
    requires var s := After(Start, a);
             && id < |s.requests| && s.requests[id].key == key && Body(s.cells, key).None?
             && Window(s, key) == {} && GaveBack(s, key) == {}
    ensures Ran(After(Start, a + ([Store(id, Done)] + b)), key) == {id}
  {
    hide Run, After, Ran, Window, GaveBack;
    HandlerRunsBounded(a, id, b, key);
    StorerRan(a, id, b, key);
    OnlyMember(Ran(After(Start, a + ([Store(id, Done)] + b)), key), id);
  }

  /** Whoever waits between Check and Lock at the Store can go on to run the handler again. */
  lemma WaiterCanRun(a: seq<Step>, id: nat, key: string, w: nat, response: Response)
    requires Run(Start, a + [Store(id, Done)])
    requires var s := After(Start, a); id < |s.requests| && s.requests[id].key == key && w in Window(s, key)
    ensures var b := [Lock(w, Done), Handle(w, response)];
            && Run(Start, a + ([Store(id, Done)] + b))
            && w in Ran(After(Start, a + ([Store(id, Done)] + b)), key)
  {
    hide Settled, SetLock, PutResponse;
    var s, step, b := After(Start, a), Store(id, Done), [Lock(w, Done), Handle(w, response)];
    assert Enabled(s, step) && Inv(s) by {
      SplitRun(Start, a, [step]);
      One(s, step);
      RunKeepsInv(Start, a);
    }
    StoreSettles(s, id, key);
    var t := Apply(s, step);
    Unroll(t, b);
    One(Apply(t, b[0]), b[1]);
    assert b[1..] == [b[1]];
    assert w != id;
    Concat(Start, a + [step], b);
    Concat(Start, a, [step]);
    One(s, step);
    assert a + ([step] + b) == (a + [step]) + b;
  }

  /** Every continuation after the Store runs the handler for nobody but `id`. */
  ghost predicate AlwaysOnce(a: seq<Step>, id: nat, key: string) {
    forall b :: Run(Start, a + ([Store(id, Done)] + b)) ==> Ran(After(Start, a + ([Store(id, Done)] + b)), key) == {id}
  }

  /**
   When "only processed once" holds, exactly. At the first successful Store of a plain key, the handler has
   run once and will have run once whatever follows, if and only if at that moment no request of the key is
   between its Check and its Lock and none has given the lock back after a failed Store.
   */
  lemma ExactlyOnceIff(a: seq<Step>, id: nat, key: string)
    requires Run(Start, a + [Store(id, Done)]) && Plain(key)
    requires var s := After(Start, a); id < |s.requests| && s.requests[id].key == key && Body(s.cells, key).None?
    ensures AlwaysOnce(a, id, key) <==> Window(After(Start, a), key) == {} && GaveBack(After(Start, a), key) == {}
  {
    hide Run, Body;
    var s := After(Start, a);
    if Window(s, key) == {} && GaveBack(s, key) == {} {
      forall b | Run(Start, a + ([Store(id, Done)] + b)) ensures Ran(After(Start, a + ([Store(id, Done)] + b)), key) == {id} {
        OnceIfNobodyWaits(a, id, b, key);
      }
    } else if Window(s, key) != {} {
      var w :| w in Window(s, key);
      var b := [Lock(w, Done), Handle(w, Response(200, ""))];
      WaiterCanRun(a, id, key, w, Response(200, ""));
      StorerRan(a, id, b, key);
      assert Ran(After(Start, a + ([Store(id, Done)] + b)), key) != {id};
    } else {
      var g :| g in GaveBack(s, key);
      assert [Store(id, Done)] + [] == [Store(id, Done)];
      StorerRan(a, id, [], key);
      assert g in Ran(s, key) by { InvAfterPrefix(a, [Store(id, Done)]); assert Sane(s.cells, s.requests[g]); }
      assert Ran(After(Start, a + ([Store(id, Done)] + [])), key) != {id};
    }
  }

  lemma OnlyMember(a: set<nat>, x: nat)
    requires x in a && |a| <= 1
    ensures a == {x}
  {
    assert |a - {x}| == 0;
  }
}
