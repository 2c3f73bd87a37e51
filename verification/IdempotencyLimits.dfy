/** Runs that show the premises and the bound on handler runs cannot be improved. */
module IdempotencyLimits {
  import opened Results
  import opened Idempotency
  import opened IdempotencyProtocol
  import opened IdempotencyRuns

  /** n requests of one key, all past their Check and none past its Lock. */
  function Crowd(n: nat, key: string): State {
    State(map[], seq(n, _ => Request(key, Missed, None, Never)))
  }

  function GatherSteps(n: nat, key: string): seq<Step> {
    if n == 0 then [] else GatherSteps(n - 1, key) + [Arrive(key), Check(n - 1, Done)]
  }

  lemma {:induction false} Gather(n: nat, key: string)
    ensures Run(Start, GatherSteps(n, key)) && After(Start, GatherSteps(n, key)) == Crowd(n, key)
  {
    if n > 0 {
      Gather(n - 1, key);
      var s, two := Crowd(n - 1, key), [Arrive(key), Check(n - 1, Done)];
      Unroll(s, two);
      One(Apply(s, two[0]), two[1]);
      assert two[1..] == [two[1]];
      Concat(Start, GatherSteps(n - 1, key), two);
      assert After(s, two).requests == Crowd(n, key).requests;
    }
  }

  /** Request j goes from its Check to its Store with nobody in between. */
  function RoundSteps(j: nat, response: Response): seq<Step> {
    [Lock(j, Done), Handle(j, response), Store(j, Done)]
  }

  function Rounds(j: nat, m: nat, response: Response): seq<Step>
    decreases m - j
  {
    if j >= m then [] else RoundSteps(j, response) + Rounds(j + 1, m, response)
  }

  /** Requests j to m of a key are waiting before their Lock, and the lock is free. */
  ghost predicate Waiting(s: State, key: string, j: nat, m: nat) {
    && |s.requests| == m && !Locked(s.cells, key)
    && forall i :: j <= i < m ==> s.requests[i] == Request(key, Missed, None, Never)
  }

  lemma Entering(s: State, key: string, j: nat, m: nat, response: Response)
    requires Waiting(s, key, j, m) && j < m
    ensures Legal(s, [Lock(j, Done), Handle(j, response)])
    ensures After(s, [Lock(j, Done), Handle(j, response)])
         == State(SetLock(s.cells, key), s.requests[j := Request(key, Handled, Some(response), Holding)])
  {
    hide Locked, SetLock;
    var two := [Lock(j, Done), Handle(j, response)];
    Unroll(s, two);
    One(Apply(s, two[0]), two[1]);
    assert two[1..] == [two[1]];
  }

  lemma Round(s: State, key: string, j: nat, m: nat, response: Response)
    requires Waiting(s, key, j, m) && j < m
    ensures Legal(s, RoundSteps(j, response))
    ensures var t := After(s, RoundSteps(j, response));
            && Waiting(t, key, j + 1, m) && t.requests[..j] == s.requests[..j]
            && t.requests[j].key == key && t.requests[j].response.Some?
  {
    Entering(s, key, j, m, response);
    var first := [Lock(j, Done), Handle(j, response)];
    var s1 := After(s, first);
    One(s1, Store(j, Done));
    Concat(s, first, [Store(j, Done)]);
    assert RoundSteps(j, response) == first + [Store(j, Done)];
    NotDerivedFromItself(key);
    PutEffect(SetLock(s.cells, key), key, response, key);
  }

  lemma {:induction false} RoundsAllRun(s: State, key: string, j: nat, m: nat, response: Response)
    requires Waiting(s, key, j, m) && j <= m
    ensures Legal(s, Rounds(j, m, response))
    ensures var t := After(s, Rounds(j, m, response));
            && |t.requests| == m && t.requests[..j] == s.requests[..j]
            && forall i :: j <= i < m ==> t.requests[i].key == key && t.requests[i].response.Some?
    decreases m - j
  {
    if j < m {
      hide Waiting, Legal, RoundSteps;
      Round(s, key, j, m, response);
      var s1 := After(s, RoundSteps(j, response));
      RoundsAllRun(s1, key, j + 1, m, response);
      Concat(s, RoundSteps(j, response), Rounds(j + 1, m, response));
      var t := After(s1, Rounds(j + 1, m, response));
      assert t.requests[..j] == t.requests[..j + 1][..j] && s1.requests[..j + 1][..j] == s1.requests[..j];
      assert t.requests[j] == t.requests[..j + 1][j] && s1.requests[j] == s1.requests[..j + 1][j];
    }
  }

  lemma {:induction false} RoundsAreTame(j: nat, m: nat, response: Response)
    ensures TameRun(Rounds(j, m, response))
    decreases m - j
  {
    if j < m {
      RoundsAreTame(j + 1, m, response);
    }
  }

  function Range(from: nat, n: nat): set<nat> {
    if n == 0 then {} else Range(from, n - 1) + {from + n - 1}
  }

  lemma {:induction false} RangeSize(from: nat, n: nat)
    ensures |Range(from, n)| == n && forall i :: i in Range(from, n) <==> from <= i < from + n
  {
    if n > 0 {
      RangeSize(from, n - 1);
    }
  }

  /**
   The bound on handler runs is reached for every window size: n + 1 requests check before any of them
   locks, and the handler runs n + 1 times although nothing fails. So the same key can be processed more
   than once.
   */
  lemma BoundIsReached(key: string, response: Response, n: nat) returns (a: seq<Step>, b: seq<Step>)
    ensures Run(Start, a + ([Store(0, Done)] + b))
    ensures var s, t := After(Start, a), After(Start, a + ([Store(0, Done)] + b));
            && |s.requests| > 0 && s.requests[0].key == key && Body(s.cells, key).None?
            && GaveBack(s, key) == {} && |Window(s, key)| == n && |Ran(t, key)| == n + 1
  {
    var first := [Lock(0, Done), Handle(0, response)];
    a := GatherSteps(n + 1, key) + first;
    b := Rounds(1, n + 1, response);
    assert a + ([Store(0, Done)] + b) == GatherSteps(n + 1, key) + Rounds(0, n + 1, response);
    CrowdRuns(key, response, n);
    FirstOfCrowd(key, response, n);
  }

  lemma CrowdRuns(key: string, response: Response, n: nat)
    ensures Run(Start, GatherSteps(n + 1, key) + Rounds(0, n + 1, response))
    ensures |Ran(After(Start, GatherSteps(n + 1, key) + Rounds(0, n + 1, response)), key)| == n + 1
  {
    var crowd := Crowd(n + 1, key);
    var g, r := GatherSteps(n + 1, key), Rounds(0, n + 1, response);
    Gather(n + 1, key);
    RoundsAllRun(crowd, key, 0, n + 1, response);
    RoundsAreTame(0, n + 1, response);
    hide Rounds, GatherSteps;
    Concat(Start, g, r);
    RangeSize(0, n + 1);
    assert Ran(After(crowd, r), key) == Range(0, n + 1);
  }

  lemma FirstOfCrowd(key: string, response: Response, n: nat)
    ensures var s := After(Start, GatherSteps(n + 1, key) + [Lock(0, Done), Handle(0, response)]);
            && |s.requests| > 0 && s.requests[0].key == key && Body(s.cells, key).None?
            && GaveBack(s, key) == {} && |Window(s, key)| == n
  {
    hide GatherSteps;
    var crowd, first := Crowd(n + 1, key), [Lock(0, Done), Handle(0, response)];
    Gather(n + 1, key);
    Concat(Start, GatherSteps(n + 1, key), first);
    Entering(crowd, key, 0, n + 1, response);
    NotDerivedFromItself(key);
    LockEffect(map[], key, key);
    RangeSize(1, n);
    assert Window(After(crowd, first), key) == Range(1, n);
  }

  /**
   Mutual exclusion needs Store to be all-or-nothing as the caller sees it. If a Store takes effect but
   reports an error, the Unlock that follows removes the lock of the next request, and two requests of one
   key are in their critical sections together.
   */
  lemma LostStoreBreaksExclusion(key: string, response: Response) returns (steps: seq<Step>)
    ensures Legal(Start, steps)
    ensures var t := After(Start, steps);
            |t.requests| == 3 && t.requests[1] == t.requests[2] == Request(key, Entered, None, Holding)
  {
    var crowd := Crowd(3, key);
    Gather(3, key);
    var first := [Lock(0, Done), Handle(0, response)];
    Entering(crowd, key, 0, 3, response);
    var s := After(crowd, first);
    var rest := [Store(0, Lost), Lock(1, Done), Unlock(0, Done), Lock(2, Done)];
    LostStoreTail(s, key, response);
    Concat(crowd, first, rest);
    steps := GatherSteps(3, key) + (first + rest);
    Concat(Start, GatherSteps(3, key), first + rest);
  }

  lemma LostStoreTail(s: State, key: string, response: Response)
    requires |s.requests| == 3 && s.requests[0] == Request(key, Handled, Some(response), Holding)
    requires s.requests[1] == s.requests[2] == Request(key, Missed, None, Never)
    ensures var rest := [Store(0, Lost), Lock(1, Done), Unlock(0, Done), Lock(2, Done)];
            && Legal(s, rest) && |After(s, rest).requests| == 3
            && After(s, rest).requests[1] == After(s, rest).requests[2] == Request(key, Entered, None, Holding)
  {
    hide Locked, Body, Code, SetLock, DropLock, PutResponse;
    var rest := [Store(0, Lost), Lock(1, Done), Unlock(0, Done), Lock(2, Done)];
    PutEffect(s.cells, key, response, key);
    var a := Apply(s, rest[0]);
    var b := Apply(a, rest[1]);
    LockEffect(b.cells, key, key);
    var c := Apply(b, rest[2]);
    Unroll(s, rest);
    Unroll(a, rest[1..]);
    Unroll(b, rest[2..]);
    One(c, rest[3]);
    assert rest[1..][1..] == rest[2..] && rest[2..][1..] == [rest[3]];
  }

  // ---------------------------------------------------------------- keys that are not plain

  /**
   Replays need a plain key. While `key` is being processed, a request of "lock:" + key is answered with
   the lock's own text, although nobody ever ran the handler for it.
   */
  lemma PrefixedKeyReplaysLock(key: string) returns (steps: seq<Step>)
    ensures Run(Start, steps)
    ensures var t := After(Start, steps);
            && |t.requests| == 2 && t.requests[1].key == "lock:" + key
            && t.requests[1].phase == Finished(Replayed("processing", 200)) && Ran(t, "lock:" + key) == {}
  {
    hide Body, Code, Locked, SetLock;
    var tail := [Lock(0, Done), Arrive("lock:" + key), Check(1, Done), Status(1, Done)];
    Gather(1, key);
    LockIsReplayed(key, tail);
    Concat(Start, GatherSteps(1, key), tail);
    steps := GatherSteps(1, key) + tail;
  }

  lemma LockIsReplayed(key: string, tail: seq<Step>)
    requires tail == [Lock(0, Done), Arrive("lock:" + key), Check(1, Done), Status(1, Done)]
    ensures Legal(Crowd(1, key), tail)
    ensures var t := After(Crowd(1, key), tail);
            && |t.requests| == 2 && t.requests[1].key == "lock:" + key
            && t.requests[1].phase == Finished(Replayed("processing", 200)) && Ran(t, "lock:" + key) == {}
  {
    hide Body, Code, Locked, SetLock;
    var prefixed := "lock:" + key;
    NotDerivedFromItself(key);
    LockEffect(map[], key, prefixed);
    EmptyCells(key);
    EmptyCells(prefixed);
    LockChanges(key);
    var s0 := Crowd(1, key);
    var s1 := Apply(s0, tail[0]);
    var s2 := Apply(s1, tail[1]);
    var s3 := Apply(s2, tail[2]);
    Chain(s0, tail, s1);
    Chain(s1, tail[1..], s2);
    Chain(s2, tail[2..], s3);
    One(s3, tail[3]);
    assert tail[1..][1..] == tail[2..] && tail[2..][1..] == tail[3..] == [tail[3]];
  }

  lemma EmptyCells(key: string)
    ensures Body(map[], key) == None && Code(map[], key) == None && !Locked(map[], key)
  {
  }

  lemma LockChanges(key: string)
    ensures SetLock(map[], key) != DropLock(map[], key)
  {
    assert LockKey(key) in SetLock(map[], key) && LockKey(key) !in DropLock(map[], key);
  }

  lemma Chain(s: State, steps: seq<Step>, t: State)
    requires steps != [] && Enabled(s, steps[0]) && t == Apply(s, steps[0])
    ensures After(s, steps) == After(t, steps[1..])
    ensures Legal(s, steps) <==> Legal(t, steps[1..])
  {
    Unroll(s, steps);
  }

  /**
   The bound on handler runs needs a plain key too. The response that "lock:" + key stores lies in the cell
   of key's lock, so a Store of `key` removes it, and a request of "lock:" + key that arrives afterwards
   runs the handler again.
   */
  lemma PrefixedKeyRunsAgain(key: string, response: Response) returns (a: seq<Step>, b: seq<Step>)
    ensures Run(Start, a + ([Store(0, Done)] + b))
    ensures var s, t := After(Start, a), After(Start, a + ([Store(0, Done)] + b));
            && |s.requests| == 2 && s.requests[0].key == "lock:" + key
            && 2 in NotYetChecked(s) && 2 in Ran(t, "lock:" + key)
  {
    var prefixed := "lock:" + key;
    a := [Arrive(prefixed), Check(0, Done), Arrive(key), Check(1, Done), Lock(1, Done), Lock(0, Done), Handle(0, response)];
    b := [Handle(1, response), Store(1, Done), Arrive(prefixed), Check(2, Done), Lock(2, Done), Handle(2, response)];
    BothInside(key, response, a);
    var s := After(Start, a);
    ResponseLost(s, key, response, b);
    One(s, Store(0, Done));
    Concat(s, [Store(0, Done)], b);
    Concat(Start, a, [Store(0, Done)] + b);
  }

  /** Both requests have taken their locks, and the one of "lock:" + key has run. */
  lemma BothInside(key: string, response: Response, a: seq<Step>)
    requires a == [Arrive("lock:" + key), Check(0, Done), Arrive(key), Check(1, Done), Lock(1, Done), Lock(0, Done), Handle(0, response)]
    ensures Legal(Start, a)
    ensures After(Start, a) == State(SetLock(SetLock(map[], key), "lock:" + key),
                                     [Request("lock:" + key, Handled, Some(response), Holding), Request(key, Entered, None, Holding)])
  {
    hide Body, Code, Locked, SetLock;
    var prefixed := "lock:" + key;
    NotDerivedFromItself(key);
    EmptyCells(key);
    EmptyCells(prefixed);
    LockEffect(map[], key, prefixed);
    var s1 := Apply(Start, a[0]);
    var s2 := Apply(s1, a[1]);
    var s3 := Apply(s2, a[2]);
    var s4 := Apply(s3, a[3]);
    var s5 := Apply(s4, a[4]);
    var s6 := Apply(s5, a[5]);
    Chain(Start, a, s1);
    Chain(s1, a[1..], s2);
    Chain(s2, a[2..], s3);
    Chain(s3, a[3..], s4);
    Chain(s4, a[4..], s5);
    Chain(s5, a[5..], s6);
    One(s6, a[6]);
    assert a[1..][1..] == a[2..] && a[2..][1..] == a[3..] && a[3..][1..] == a[4..] && a[4..][1..] == a[5..];
    assert a[5..][1..] == a[6..] == [a[6]];
  }

  lemma ResponseLost(s: State, key: string, response: Response, b: seq<Step>)
    requires |s.requests| == 2
    requires s.requests[0] == Request("lock:" + key, Handled, Some(response), Holding) && s.requests[1] == Request(key, Entered, None, Holding)
    requires b == [Handle(1, response), Store(1, Done), Arrive("lock:" + key), Check(2, Done), Lock(2, Done), Handle(2, response)]
    ensures Enabled(s, Store(0, Done)) && Legal(Apply(s, Store(0, Done)), b)
    ensures 2 in Ran(After(Apply(s, Store(0, Done)), b), "lock:" + key)
  {
    hide Body, Code, Locked, SetLock, PutResponse;
    var prefixed := "lock:" + key;
    NotDerivedFromItself(key);
    NotDerivedFromItself(prefixed);
    var s0 := Apply(s, Store(0, Done));
    PutEffect(s.cells, prefixed, response, prefixed);
    PutEffect(s0.cells, key, response, prefixed);
    assert key != "lock:" + prefixed by { assert |"lock:" + prefixed| > |key|; }
    var s1 := Apply(s0, b[0]);
    var s2 := Apply(s1, b[1]);
    var s3 := Apply(s2, b[2]);
    var s4 := Apply(s3, b[3]);
    var s5 := Apply(s4, b[4]);
    Chain(s0, b, s1);
    Chain(s1, b[1..], s2);
    Chain(s2, b[2..], s3);
    Chain(s3, b[3..], s4);
    Chain(s4, b[4..], s5);
    One(s5, b[5]);
    assert b[1..][1..] == b[2..] && b[2..][1..] == b[3..] && b[3..][1..] == b[4..];
    assert b[4..][1..] == b[5..] == [b[5]];
  }
}
