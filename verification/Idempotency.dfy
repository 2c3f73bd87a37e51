/**
 The idempotency store: one flat key-value database, in which the cached response, the lock and the
 cached status of a client key live under three derived keys.
 */
module Idempotency {
  import opened Results

  type Cells = map<string, string>

  /** What the response recorder captured; a status of 0 means the handler never set one. */
  datatype Response = Response(status: nat, body: string)

  // ---------------------------------------------------------------- derived keys

  function DataKey(key: string): string {
    "idem:" + key
  }

  function LockKey(key: string): string {
    "idem:lock:" + key
  }

  function StatusKey(key: string): string {
    "idem:status:" + key
  }

  /** A client key that cannot be mistaken for a derived one. */
  predicate Plain(key: string) {
    !("lock:" <= key) && !("status:" <= key)
  }

  lemma SplitPrefix(p: string, q: string, a: string, b: string)
    ensures p + q + a == p + b <==> b == q + a
  {
    assert (p + b)[|p|..] == b && (p + q + a)[|p|..] == q + a;
    assert p + q + a == p + (q + a);
  }

  lemma SamePrefix(p: string, a: string, b: string)
    ensures p + a == p + b <==> a == b
  {
    assert (p + a)[|p|..] == a && (p + b)[|p|..] == b;
  }

  /** Exactly when two derived keys coincide. */
  lemma DerivedKeysCoincide(a: string, b: string)
    ensures DataKey(a) == DataKey(b) <==> a == b
    ensures LockKey(a) == LockKey(b) <==> a == b
    ensures StatusKey(a) == StatusKey(b) <==> a == b
    ensures LockKey(a) != StatusKey(b)
    ensures DataKey(a) == LockKey(b) <==> a == "lock:" + b
    ensures DataKey(a) == StatusKey(b) <==> a == "status:" + b
  {
    SamePrefix("idem:", a, b);
    SamePrefix("idem:lock:", a, b);
    SamePrefix("idem:status:", a, b);
    assert LockKey(a)[5] == 'l' && StatusKey(b)[5] == 's';
    assert "idem:" + "lock:" == "idem:lock:";
    assert "idem:" + "status:" == "idem:status:";
    SplitPrefix("idem:", "lock:", b, a);
    SplitPrefix("idem:", "status:", b, a);
  }

  // ---------------------------------------------------------------- status codes as text

  function Digit(n: nat): char
    requires n < 10
  {
    '0' + n as char
  }

  function Decimal(n: nat): string {
    if n < 10 then [Digit(n)] else Decimal(n / 10) + [Digit(n % 10)]
  }

  function Parse(s: string): Option<nat> {
    if s == [] then None
    else
      var last := s[|s| - 1];
      if !('0' <= last <= '9') then None
      else if |s| == 1 then Some((last - '0') as nat)
      else match Parse(s[..|s| - 1])
        case None => None
        case Some(front) => Some(10 * front + (last - '0') as nat)
  }

  lemma {:induction false} ParseDecimal(n: nat)
    ensures Decimal(n) != [] && Parse(Decimal(n)) == Some(n)
  {
    if n >= 10 {
      ParseDecimal(n / 10);
      assert Decimal(n)[..|Decimal(n)| - 1] == Decimal(n / 10);
    }
  }

  // ---------------------------------------------------------------- what the cells hold for a key

  function Body(cells: Cells, key: string): Option<string> {
    if DataKey(key) in cells then Some(cells[DataKey(key)]) else None
  }

  predicate Locked(cells: Cells, key: string) {
    LockKey(key) in cells
  }

  function Code(cells: Cells, key: string): Option<string> {
    if StatusKey(key) in cells then Some(cells[StatusKey(key)]) else None
  }

  function SetLock(cells: Cells, key: string): Cells {
    cells[LockKey(key) := "processing"]
  }

  function DropLock(cells: Cells, key: string): Cells {
    cells - {LockKey(key)}
  }

  function PutResponse(cells: Cells, key: string, response: Response): Cells {
    DropLock(cells[DataKey(key) := response.body][StatusKey(key) := Decimal(response.status)], key)
  }

  /**
   Taking or dropping a lock changes that key's lock and no other lock or status. Of the cached responses
   it touches only the one of "lock:" + key, which seems to appear with the lock and is lost with it.
   */
  lemma LockEffect(cells: Cells, key: string, other: string)
    ensures forall cells' :: cells' == SetLock(cells, key) || cells' == DropLock(cells, key) ==>
              && (other != "lock:" + key ==> Body(cells', other) == Body(cells, other))
              && (other == "lock:" + key ==> Body(cells', other) == if cells' == DropLock(cells, key) then None else Some("processing"))
              && Code(cells', other) == Code(cells, other)
    ensures Locked(SetLock(cells, key), other) <==> other == key || Locked(cells, other)
    ensures Locked(DropLock(cells, key), other) <==> other != key && Locked(cells, other)
  {
    hide DataKey, LockKey, StatusKey;
    DerivedKeysCoincide(other, key);
    DerivedKeysCoincide(key, other);
  }

  /**
   Storing a response replaces that key's entry and releases its lock. What it does to any other key,
   exactly: its response seems the lock of b if the key is "lock:" + b and the status of b if the key is
   "status:" + b; the response of "status:" + key is overwritten and that of "lock:" + key lost.
   */
  lemma PutEffect(cells: Cells, key: string, response: Response, other: string)
    ensures var cells' := PutResponse(cells, key, response);
            && Body(cells', other) == (if other == "lock:" + key then None
                                       else if other == "status:" + key then Some(Decimal(response.status))
                                       else if other == key then Some(response.body)
                                       else Body(cells, other))
            && Code(cells', other) == (if other == key then Some(Decimal(response.status))
                                       else if key == "status:" + other then Some(response.body)
                                       else Code(cells, other))
            && (Locked(cells', other) <==> other != key && (Locked(cells, other) || key == "lock:" + other))
  {
    hide DataKey, LockKey, StatusKey;
    DerivedKeysCoincide(other, key);
    DerivedKeysCoincide(key, other);
    DerivedKeysCoincide(other, other);
    DerivedKeysCoincide(key, key);
    assert key != "lock:" + key && key != "status:" + key by {
      assert |"lock:" + key| > |key| && |"status:" + key| > |key|;
    }
  }

  /** A plain key is not derived from any other, so neither operation on another key touches its response. */
  lemma PlainIsSafe(key: string, other: string)
    requires Plain(other)
    ensures other != "lock:" + key && other != "status:" + key
  {
    assert "lock:" <= "lock:" + key && "status:" <= "status:" + key;
  }

  // ---------------------------------------------------------------- the store

  /** A status the middleware reports: a missing, unreadable or zero code becomes 200. */
  function Reported(code: nat): nat {
    if code == 0 then 200 else code
  }

  function ReadCode(code: Option<string>): Result<nat> {
    match code
    case None => Ok(0)
    case Some(text) => match Parse(text) case Some(n) => Ok(n) case None => Err(StorageFault)
  }

  class IdempotencyStore {
    var cells: Cells

    constructor (cells: Cells)
      ensures this.cells == cells
    {
      this.cells := cells;
    }

    method Check(key: string, reply: Reply) returns (r: Result<Option<string>>)
      ensures r == if reply.Done? then Ok(Body(cells, key)) else Err(StorageFault)
      ensures reply.Done? ==> (r.value.Some? <==> "idem:" + key in cells) && (r.value.Some? ==> r.value.value == cells["idem:" + key])
    {
      if !reply.Done? {
        return Err(StorageFault);
      }
      if DataKey(key) !in cells {
        return Ok(None);
      }
      return Ok(Some(cells[DataKey(key)]));
    }

    /** SET NX: takes the lock only when it is free. */
    method Lock(key: string, reply: Reply) returns (r: Result<bool>)
      modifies this
      ensures r == if reply.Done? then Ok(!Locked(old(cells), key)) else Err(StorageFault)
      ensures cells == if reply.Refused? || Locked(old(cells), key) then old(cells) else SetLock(old(cells), key)
      ensures !reply.Refused? ==> "idem:lock:" + key in cells
      ensures reply.Done? ==> r == Ok("idem:lock:" + key !in old(cells))
    {
      if reply.Refused? {
        return Err(StorageFault);
      }
      var free := LockKey(key) !in cells;
      if free {
        cells := cells[LockKey(key) := "processing"];
      }
      if reply.Lost? {
        return Err(StorageFault);
      }
      return Ok(free);
    }

    method Store(key: string, response: Response, reply: Reply) returns (ok: bool)
      modifies this
      ensures ok == reply.Done?
      ensures cells == if reply.Refused? then old(cells) else PutResponse(old(cells), key, response)
      ensures !reply.Refused? ==> "idem:lock:" + key !in cells
    {
      if reply.Refused? {
        return false;
      }
      cells := cells[DataKey(key) := response.body];
      cells := cells[StatusKey(key) := Decimal(response.status)];
      cells := cells - {LockKey(key)};
      return reply.Done?;
    }

    method GetStatus(key: string, reply: Reply) returns (r: Result<nat>)
      ensures r == if reply.Done? then ReadCode(Code(cells, key)) else Err(StorageFault)
    {
      if !reply.Done? {
        return Err(StorageFault);
      }
      if StatusKey(key) !in cells {
        return Ok(0);
      }
      match Parse(cells[StatusKey(key)]) {
        case None => return Err(StorageFault);
        case Some(n) => return Ok(n);
      }
    }

    method Unlock(key: string, reply: Reply) returns (ok: bool)
      modifies this
      ensures ok == reply.Done?
      ensures cells == if reply.Refused? then old(cells) else DropLock(old(cells), key)
      ensures !reply.Refused? ==> "idem:lock:" + key !in cells
    {
      if !reply.Refused? {
        cells := cells - {LockKey(key)};
      }
      return reply.Done?;
    }
  }

  // ---------------------------------------------------------------- the response recorder

  datatype Write = Header(code: nat) | Bytes(text: string)

  /** What the server sends: the first header or the first bytes fix the status, later headers are ignored. */
  function Sent(writes: seq<Write>): Response {
    Response(if writes != [] && writes[0].Header? then writes[0].code else 200, Text(writes))
  }

  function Text(writes: seq<Write>): string {
    if writes == [] then ""
    else
      var n := |writes| - 1;
      Text(writes[..n]) + if writes[n].Bytes? then writes[n].text else ""
  }

  /** The text of a response is its pieces put together, headers contributing nothing. */
  lemma {:induction false} TextIsConcatenation(a: seq<Write>, b: seq<Write>, code: nat, text: string)
    ensures Text([]) == "" && Text([Bytes(text)]) == text && Text([Header(code)]) == ""
    ensures Text(a + b) == Text(a) + Text(b)
  {
    assert [Bytes(text)][..0] == [] && [Header(code)][..0] == [];
    if b == [] {
      assert a + b == a;
    } else {
      assert (a + b)[..|a + b| - 1] == a + b[..|b| - 1];
      TextIsConcatenation(a, b[..|b| - 1], code, text);
    }
  }

  function LastHeader(writes: seq<Write>): nat {
    if writes == [] then 0
    else
      var n := |writes| - 1;
      if writes[n].Header? then writes[n].code else LastHeader(writes[..n])
  }

  /** What the recorder captures: the last header, and every byte. */
  function Recorded(writes: seq<Write>): Response {
    Response(LastHeader(writes), Text(writes))
  }

  class Recorder {
    var body: string
    var statusCode: nat

    constructor ()
      ensures body == "" && statusCode == 0
    {
      body := "";
      statusCode := 0;
    }

    /** Runs a handler's writes through the recorder. */
    method Capture(writes: seq<Write>)
      requires body == "" && statusCode == 0
      modifies this
      ensures Response(statusCode, body) == Recorded(writes)
    {
      for i := 0 to |writes|
        invariant Response(statusCode, body) == Recorded(writes[..i])
      {
        assert writes[..i + 1][..i] == writes[..i];
        match writes[i] {
          case Header(code) => statusCode := code;
          case Bytes(text) => body := body + text;
        }
      }
      assert writes[..|writes|] == writes;
    }
  }

  // ---------------------------------------------------------------- what a replay shows

  /** The i-th write is the last header. */
  ghost predicate IsLastHeader(writes: seq<Write>, i: nat) {
    i < |writes| && writes[i].Header? && forall j :: i < j < |writes| ==> writes[j].Bytes?
  }

  /** If the handler sets a status at all, the one it sets last is the one that was sent. */
  ghost predicate LastHeaderWasSent(writes: seq<Write>) {
    forall i: nat :: IsLastHeader(writes, i) ==> Reported(writes[i].code) == Sent(writes).status
  }

  lemma {:induction false} FindLastHeader(writes: seq<Write>) returns (last: Option<nat>)
    ensures last.None? ==> (forall i :: 0 <= i < |writes| ==> writes[i].Bytes?) && LastHeader(writes) == 0
    ensures last.Some? ==> IsLastHeader(writes, last.value) && LastHeader(writes) == writes[last.value].code
  {
    if writes == [] {
      return None;
    }
    var n := |writes| - 1;
    if writes[n].Header? {
      return Some(n);
    }
    last := FindLastHeader(writes[..n]);
    assert forall i :: 0 <= i < n ==> writes[i] == writes[..n][i];
  }

  /**
   A stored response is replayed with the body the first client received; with the status that client saw
   if and only if the last header the handler wrote was the one sent, that is, the handler did not set a
   status after its output had fixed another.
   */
  lemma ReplayMatchesSentIff(cells: Cells, key: string, writes: seq<Write>)
    ensures var cells' := PutResponse(cells, key, Recorded(writes));
            && Body(cells', key) == Some(Sent(writes).body)
            && ReadCode(Code(cells', key)).Ok?
            && (Reported(ReadCode(Code(cells', key)).value) == Sent(writes).status <==> LastHeaderWasSent(writes))
  {
    hide PutResponse, Body, Code, Decimal, Parse, LastHeader;
    assert key != "lock:" + key && key != "status:" + key by {
      assert |"lock:" + key| > |key| && |"status:" + key| > |key|;
    }
    PutEffect(cells, key, Recorded(writes), key);
    ParseDecimal(Recorded(writes).status);
    var last := FindLastHeader(writes);
    if last.Some? {
      forall i: nat | IsLastHeader(writes, i) ensures i == last.value {
        assert !(i < last.value) && !(last.value < i);
      }
    }
  }
}
