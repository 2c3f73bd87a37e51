/** The commands a client can issue, runs of commands, and how much they can move. */
module Commands {
  import opened Money
  import opened Accounts
  import opened Transactions
  import opened Ledger
  import opened Transfers
  import opened Steps

  datatype Command =
    | OpenCmd(name: string, kind: string, currency: Currency)
    | RecordCmd(entries: seq<EntryCmd>, description: string)
    | DepositCmd(account: AccountID, amount: int64, currency: Currency, description: string)
    | MoveCmd(transfer: TransferCmd)

  ghost function Serve(st: State, env: Env, cmd: Command): State {
    match cmd
    case OpenCmd(name, kind, currency) => OpenAccount(st, env, name, kind, currency).0
    case RecordCmd(entries, description) => RecordTransaction(st, env, entries, description).0
    case DepositCmd(account, amount, currency, description) => Deposit(st, env, account, amount, currency, description).0
    case MoveCmd(transfer) => Execute(st, env, transfer).0
  }

  ghost function Run(st: State, env: Env, cmds: seq<Command>): State
    decreases cmds
  {
    if cmds == [] then st else Run(Serve(st, env, cmds[0]), env, cmds[1..])
  }

  /** ls leads from st to st', applying the entries es on the way. */
  ghost predicate Leads(st: State, ls: seq<Label>, st': State, es: seq<Entry>) {
    IsPath(st, ls) && Follow(st, ls) == st' && AppliedIn(ls) == es
  }

  lemma Then(st: State, ls: seq<Label>, st1: State, es: seq<Entry>, l: Label)
    requires Leads(st, ls, st1, es) && Enabled(st1, l)
    ensures Leads(st, ls + [l], Do(st1, l), es + if l.Apply? then [l.e] else [])
  {
    One(st1, l);
    Concat(st, ls, [l]);
    AppliedConcat(ls, [l]);
    assert [l][1..] == [];
  }

  lemma Chain(st: State, a: seq<Label>, st1: State, es1: seq<Entry>, b: seq<Label>, st2: State, es2: seq<Entry>)
    requires Leads(st, a, st1, es1) && Leads(st1, b, st2, es2)
    ensures Leads(st, a + b, st2, es1 + es2)
  {
    Concat(st, a, b);
    AppliedConcat(a, b);
  }

  // ---------------------------------------------------------------- how much a command can move

  function AmountVolume(cmds: seq<EntryCmd>): nat {
    if cmds == [] then 0 else AmountVolume(cmds[..|cmds| - 1]) + Abs(cmds[|cmds| - 1].amount)
  }

  predicate PositiveAmounts(cmds: seq<EntryCmd>) {
    forall i :: 0 <= i < |cmds| ==> cmds[i].amount > 0
  }

  /** es moves at most v in total and, if told so, only by positive amounts. */
  ghost predicate Within(es: seq<Entry>, v: nat, positive: bool) {
    Volume(es) <= v && (positive ==> forall i :: 0 <= i < |es| ==> es[i].amount.amount > 0)
  }

  lemma {:induction false} EntriesWithin(cmds: seq<EntryCmd>)
    requires ToEntries(cmds).Ok?
    ensures Volume(ToEntries(cmds).value) == AmountVolume(cmds)
    ensures |ToEntries(cmds).value| == |cmds|
    ensures forall i :: 0 <= i < |cmds| ==> ToEntries(cmds).value[i].amount.amount == cmds[i].amount
  {
    if cmds != [] {
      var n := |cmds| - 1;
      EntriesWithin(cmds[..n]);
      assert ToEntries(cmds).value[..n] == ToEntries(cmds[..n]).value;
      assert forall i :: 0 <= i < n ==> cmds[..n][i] == cmds[i];
    }
  }

  lemma BothWithin(a: seq<Entry>, va: nat, b: seq<Entry>, vb: nat, positive: bool)
    requires Within(a, va, positive) && Within(b, vb, positive)
    ensures Within(a + b, va + vb, positive)
  {
    VolumeConcat(a, b);
  }

  /** The most a command can move: a saga may record three pairs of entries. */
  function CommandVolume(cmd: Command): nat {
    match cmd
    case OpenCmd(_, _, _) => 0
    case RecordCmd(entries, _) => AmountVolume(entries)
    case DepositCmd(_, amount, _, _) => 2 * Abs(amount)
    case MoveCmd(t) => 6 * Abs(t.amount)
  }

  predicate PositiveCommand(cmd: Command) {
    match cmd
    case OpenCmd(_, _, _) => true
    case RecordCmd(entries, _) => PositiveAmounts(entries)
    case DepositCmd(_, amount, _, _) => amount > 0
    case MoveCmd(t) => t.amount > 0
  }

  function RunVolume(cmds: seq<Command>): nat {
    if cmds == [] then 0 else CommandVolume(cmds[0]) + RunVolume(cmds[1..])
  }

  predicate PositiveRun(cmds: seq<Command>) {
    forall i :: 0 <= i < |cmds| ==> PositiveCommand(cmds[i])
  }
}
