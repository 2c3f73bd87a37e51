/**
 Every command as the sequence of calls it makes on the ledger: opening an account, looking up a system
 account, recording a list of entries. What each such call keeps, every command and every run keeps.
 */
module Calls {
  import opened Money
  import opened Accounts
  import opened Transactions
  import opened Ledger
  import opened Transfers
  import opened Commands

  datatype LedgerCall =
    | OpenCall(name: string, kind: string, currency: Currency)
    | LookupCall(name: string, kind: string, currency: Currency)
    | RecordCall(entries: seq<EntryCmd>, description: string)

  ghost function Make(st: State, env: Env, call: LedgerCall): State {
    match call
    case OpenCall(name, kind, currency) => OpenAccount(st, env, name, kind, currency).0
    case LookupCall(name, kind, currency) => GetOrCreateSystemAccount(st, env, name, kind, currency).0
    case RecordCall(entries, description) => RecordTransaction(st, env, entries, description).0
  }

  ghost function MakeAll(st: State, env: Env, calls: seq<LedgerCall>): State
    decreases calls
  {
    if calls == [] then st else MakeAll(Make(st, env, calls[0]), env, calls[1..])
  }

  // ---------------------------------------------------------------- the calls of each command

  ghost function DepositCalls(st: State, env: Env, account: AccountID, amount: int64, currency: Currency, description: string): seq<LedgerCall> {
    var equity := GetOrCreateSystemAccount(st, env, EquityName(currency), "EQUITY", currency).1;
    [LookupCall(EquityName(currency), "EQUITY", currency)]
    + if equity.Err? then [] else [RecordCall(Pair(equity.value.id, account, amount, currency), description)]
  }

  /** One leg of a saga: the suspense lookup, then a pair of entries. */
  function LegCalls(currency: Currency, pair: seq<EntryCmd>, description: string): seq<LedgerCall> {
    [LookupCall(SuspenseName(currency), "LIABILITY", currency), RecordCall(pair, description)]
  }

  ghost function InwardCalls(st: State, env: Env, cmd: TransferCmd): seq<LedgerCall> {
    var (st1, s) := SuspenseAccountID(st, env, cmd.currency);
    var into := Pair(s, cmd.to, cmd.amount, cmd.currency);
    var (st2, r) := RecordTransaction(st1, env, into, "Transfer in: " + cmd.description);
    var s2 := SuspenseAccountID(st2, env, cmd.currency).1;
    LegCalls(cmd.currency, into, "Transfer in: " + cmd.description)
    + if r.Ok? then [] else LegCalls(cmd.currency, Pair(s2, cmd.from, cmd.amount, cmd.currency), COMPENSATION + cmd.description)
  }

  ghost function TransferCalls(st: State, env: Env, cmd: TransferCmd): seq<LedgerCall> {
    if !ValidCurrency(cmd.currency) || cmd.from == cmd.to then []
    else
      var (st1, s) := SuspenseAccountID(st, env, cmd.currency);
      var out := Pair(cmd.from, s, cmd.amount, cmd.currency);
      var (st2, r) := RecordTransaction(st1, env, out, "Transfer out: " + cmd.description);
      LegCalls(cmd.currency, out, "Transfer out: " + cmd.description) + if r.Err? then [] else InwardCalls(st2, env, cmd)
  }

  ghost function CommandCalls(st: State, env: Env, cmd: Command): seq<LedgerCall> {
    match cmd
    case OpenCmd(name, kind, currency) => [OpenCall(name, kind, currency)]
    case RecordCmd(entries, description) => [RecordCall(entries, description)]
    case DepositCmd(account, amount, currency, description) => DepositCalls(st, env, account, amount, currency, description)
    case MoveCmd(transfer) => TransferCalls(st, env, transfer)
  }

  // ---------------------------------------------------------------- the calls are the command

  lemma MakeOne(st: State, env: Env, call: LedgerCall)
    ensures MakeAll(st, env, [call]) == Make(st, env, call)
  {
    hide Make;
    assert [call][1..] == [] && MakeAll(Make(st, env, call), env, []) == Make(st, env, call);
  }

  lemma {:induction false} MakeConcat(st: State, env: Env, a: seq<LedgerCall>, b: seq<LedgerCall>)
    ensures MakeAll(st, env, a + b) == MakeAll(MakeAll(st, env, a), env, b)
    decreases a
  {
    hide Make;
    if a == [] {
      assert a + b == b;
    } else {
      assert (a + b)[1..] == a[1..] + b;
      MakeConcat(Make(st, env, a[0]), env, a[1..], b);
    }
  }

  lemma MakeLeg(st: State, env: Env, currency: Currency, pair: seq<EntryCmd>, description: string)
    ensures MakeAll(st, env, LegCalls(currency, pair, description))
         == RecordTransaction(SuspenseAccountID(st, env, currency).0, env, pair, description).0
  {
    hide GetOrCreateSystemAccount, RecordTransaction;
    var calls := LegCalls(currency, pair, description);
    assert calls[1..] == [calls[1]];
    MakeOne(Make(st, env, calls[0]), env, calls[1]);
  }

  lemma MakeInward(st: State, env: Env, cmd: TransferCmd, saga: Saga)
    ensures MakeAll(st, env, InwardCalls(st, env, cmd)) == CreditDestination(st, env, cmd, saga).0
  {
    hide SuspenseAccountID, RecordTransaction, MakeAll, LegCalls;
    var (st1, s) := SuspenseAccountID(st, env, cmd.currency);
    var into := Pair(s, cmd.to, cmd.amount, cmd.currency);
    var (st2, r) := RecordTransaction(st1, env, into, "Transfer in: " + cmd.description);
    var first := LegCalls(cmd.currency, into, "Transfer in: " + cmd.description);
    MakeLeg(st, env, cmd.currency, into, "Transfer in: " + cmd.description);
    if r.Ok? {
      assert first + [] == first;
    } else {
      var back := Pair(SuspenseAccountID(st2, env, cmd.currency).1, cmd.from, cmd.amount, cmd.currency);
      MakeLeg(st2, env, cmd.currency, back, COMPENSATION + cmd.description);
      MakeConcat(st, env, first, LegCalls(cmd.currency, back, COMPENSATION + cmd.description));
    }
  }

  lemma MakeTransfer(st: State, env: Env, cmd: TransferCmd)
    ensures MakeAll(st, env, TransferCalls(st, env, cmd)) == Execute(st, env, cmd).0
  {
    hide SuspenseAccountID, RecordTransaction, CreditDestination, LegCalls, InwardCalls;
    if ValidCurrency(cmd.currency) && cmd.from != cmd.to {
      hide MakeAll;
      var (st1, s) := SuspenseAccountID(st, env, cmd.currency);
      var out := Pair(cmd.from, s, cmd.amount, cmd.currency);
      var (st2, r) := RecordTransaction(st1, env, out, "Transfer out: " + cmd.description);
      var first := LegCalls(cmd.currency, out, "Transfer out: " + cmd.description);
      MakeLeg(st, env, cmd.currency, out, "Transfer out: " + cmd.description);
      if r.Err? {
        assert first + [] == first;
      } else {
        var saga := NewSaga(cmd.from, cmd.to, Money(cmd.amount, cmd.currency), cmd.description).value;
        MakeInward(st2, env, cmd, MarkDebited(saga).value);
        MakeConcat(st, env, first, InwardCalls(st2, env, cmd));
      }
    }
  }

  /** A command does exactly what its calls do, one after the other. */
  lemma CommandIsItsCalls(st: State, env: Env, cmd: Command)
    ensures MakeAll(st, env, CommandCalls(st, env, cmd)) == Serve(st, env, cmd)
  {
    hide OpenAccount, GetOrCreateSystemAccount, RecordTransaction, Execute, TransferCalls, Pair;
    match cmd
    case OpenCmd(name, kind, currency) =>
      MakeOne(st, env, OpenCall(name, kind, currency));
    case RecordCmd(entries, description) =>
      MakeOne(st, env, RecordCall(entries, description));
    case DepositCmd(account, amount, currency, description) =>
      var (st1, equity) := GetOrCreateSystemAccount(st, env, EquityName(currency), "EQUITY", currency);
      var lookup := LookupCall(EquityName(currency), "EQUITY", currency);
      MakeOne(st, env, lookup);
      if equity.Ok? {
        var record := RecordCall(Pair(equity.value.id, account, amount, currency), description);
        MakeOne(st1, env, record);
        MakeConcat(st, env, [lookup], [record]);
      } else {
        assert DepositCalls(st, env, account, amount, currency, description) == [lookup];
      }
    case MoveCmd(transfer) =>
      MakeTransfer(st, env, transfer);
  }

  // ---------------------------------------------------------------- what the calls may contain

  function CallVolume(call: LedgerCall): nat {
    if call.RecordCall? then AmountVolume(call.entries) else 0
  }

  function CallsVolume(calls: seq<LedgerCall>): nat {
    if calls == [] then 0 else CallVolume(calls[0]) + CallsVolume(calls[1..])
  }

  predicate TypedAmounts(cmds: seq<EntryCmd>) {
    forall i :: 0 <= i < |cmds| ==> !cmds[i].kind.Unknown?
  }

  predicate TypedCommand(cmd: Command) {
    cmd.RecordCmd? ==> TypedAmounts(cmd.entries)
  }

  /** A call that the command may make: lookups are for system accounts, and entries are as the client gave them or a pair. */
  ghost predicate MayMake(cmd: Command, call: LedgerCall) {
    match call
    case OpenCall(name, kind, currency) => cmd == OpenCmd(name, kind, currency)
    case LookupCall(name, kind, currency) =>
      (name == EquityName(currency) && kind == "EQUITY") || (name == SuspenseName(currency) && kind == "LIABILITY")
    case RecordCall(entries, _) =>
      (PositiveCommand(cmd) ==> PositiveAmounts(entries)) && (TypedCommand(cmd) ==> TypedAmounts(entries))
  }

  ghost predicate Proper(cmd: Command, calls: seq<LedgerCall>, v: nat) {
    CallsVolume(calls) <= v && forall i :: 0 <= i < |calls| ==> MayMake(cmd, calls[i])
  }

  lemma PairVolume(from: AccountID, to: AccountID, amount: int64, currency: Currency)
    ensures AmountVolume(Pair(from, to, amount, currency)) == 2 * Abs(amount) && TypedAmounts(Pair(from, to, amount, currency))
    ensures PositiveAmounts(Pair(from, to, amount, currency)) <==> amount > 0
  {
    var cmds := Pair(from, to, amount, currency);
    assert cmds[..1] == [cmds[0]] && [cmds[0]][..0] == [];
    assert AmountVolume(cmds[..1]) == Abs(amount);
    assert cmds[0].amount == amount;
  }

  lemma {:induction false} ProperConcat(cmd: Command, a: seq<LedgerCall>, v: nat, b: seq<LedgerCall>, w: nat)
    requires Proper(cmd, a, v) && Proper(cmd, b, w)
    ensures Proper(cmd, a + b, v + w)
  {
    hide MayMake, CallVolume;
    VolumeOfCalls(a, b);
  }

  lemma {:induction false} VolumeOfCalls(a: seq<LedgerCall>, b: seq<LedgerCall>)
    ensures CallsVolume(a + b) == CallsVolume(a) + CallsVolume(b)
    decreases a
  {
    if a == [] {
      assert a + b == b;
    } else {
      VolumeOfCalls(a[1..], b);
      assert (a + b)[1..] == a[1..] + b;
    }
  }

  lemma ProperOne(cmd: Command, call: LedgerCall)
    requires MayMake(cmd, call)
    ensures Proper(cmd, [call], CallVolume(call))
  {
    assert [call][1..] == [] && CallsVolume([]) == 0;
  }

  lemma ProperLeg(cmd: TransferCmd, from: AccountID, to: AccountID, description: string)
    ensures Proper(MoveCmd(cmd), LegCalls(cmd.currency, Pair(from, to, cmd.amount, cmd.currency), description), 2 * Abs(cmd.amount))
  {
    hide Pair;
    var pair := Pair(from, to, cmd.amount, cmd.currency);
    PairVolume(from, to, cmd.amount, cmd.currency);
    var lookup, record := LookupCall(SuspenseName(cmd.currency), "LIABILITY", cmd.currency), RecordCall(pair, description);
    ProperOne(MoveCmd(cmd), lookup);
    ProperOne(MoveCmd(cmd), record);
    ProperConcat(MoveCmd(cmd), [lookup], 0, [record], 2 * Abs(cmd.amount));
    assert [lookup] + [record] == LegCalls(cmd.currency, pair, description);
  }

  lemma ProperTransfer(st: State, env: Env, cmd: TransferCmd)
    ensures Proper(MoveCmd(cmd), TransferCalls(st, env, cmd), 6 * Abs(cmd.amount))
  {
    hide SuspenseAccountID, RecordTransaction, LegCalls, Pair, Proper;
    if !ValidCurrency(cmd.currency) || cmd.from == cmd.to {
      ProperNone(MoveCmd(cmd), 6 * Abs(cmd.amount));
    } else {
      var v := 2 * Abs(cmd.amount);
      var (st1, s) := SuspenseAccountID(st, env, cmd.currency);
      var pair := Pair(cmd.from, s, cmd.amount, cmd.currency);
      var (st2, r) := RecordTransaction(st1, env, pair, "Transfer out: " + cmd.description);
      ProperLeg(cmd, cmd.from, s, "Transfer out: " + cmd.description);
      ProperNone(MoveCmd(cmd), 2 * v);
      ProperInward(st2, env, cmd);
      ProperConcat(MoveCmd(cmd), LegCalls(cmd.currency, pair, "Transfer out: " + cmd.description), v,
                   if r.Err? then [] else InwardCalls(st2, env, cmd), 2 * v);
    }
  }

  lemma ProperNone(cmd: Command, v: nat)
    ensures Proper(cmd, [], v)
  {
  }

  lemma ProperInward(st: State, env: Env, cmd: TransferCmd)
    ensures Proper(MoveCmd(cmd), InwardCalls(st, env, cmd), 4 * Abs(cmd.amount))
  {
    hide SuspenseAccountID, RecordTransaction, LegCalls, Pair, Proper;
    var v := 2 * Abs(cmd.amount);
    var (st1, s) := SuspenseAccountID(st, env, cmd.currency);
    var into := Pair(s, cmd.to, cmd.amount, cmd.currency);
    var (st2, r) := RecordTransaction(st1, env, into, "Transfer in: " + cmd.description);
    var s2 := SuspenseAccountID(st2, env, cmd.currency).1;
    ProperLeg(cmd, s, cmd.to, "Transfer in: " + cmd.description);
    ProperLeg(cmd, s2, cmd.from, COMPENSATION + cmd.description);
    ProperNone(MoveCmd(cmd), v);
    ProperConcat(MoveCmd(cmd), LegCalls(cmd.currency, into, "Transfer in: " + cmd.description), v,
                 if r.Ok? then [] else LegCalls(cmd.currency, Pair(s2, cmd.from, cmd.amount, cmd.currency), COMPENSATION + cmd.description), v);
  }

  /** A command makes only calls it may make, and they move no more than it asks for. */
  lemma CommandCallsAreProper(st: State, env: Env, cmd: Command)
    ensures Proper(cmd, CommandCalls(st, env, cmd), CommandVolume(cmd))
  {
    hide Proper, TransferCalls, GetOrCreateSystemAccount, Pair, EquityName;
    match cmd
    case OpenCmd(name, kind, currency) =>
      ProperOne(cmd, OpenCall(name, kind, currency));
    case RecordCmd(entries, description) =>
      ProperOne(cmd, RecordCall(entries, description));
    case DepositCmd(account, amount, currency, description) =>
      var equity := GetOrCreateSystemAccount(st, env, EquityName(currency), "EQUITY", currency).1;
      var lookup := LookupCall(EquityName(currency), "EQUITY", currency);
      ProperOne(cmd, lookup);
      if equity.Ok? {
        PairVolume(equity.value.id, account, amount, currency);
        ProperOne(cmd, RecordCall(Pair(equity.value.id, account, amount, currency), description));
        ProperConcat(cmd, [lookup], 0, [RecordCall(Pair(equity.value.id, account, amount, currency), description)], 2 * Abs(amount));
      } else {
        ProperNone(cmd, 2 * Abs(amount));
        ProperConcat(cmd, [lookup], 0, [], 2 * Abs(amount));
      }
    case MoveCmd(transfer) =>
      ProperTransfer(st, env, transfer);
  }
}
