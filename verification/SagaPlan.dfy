/**
 The transfer saga when storage does not fail: three legs through the suspense account, each a debit
 then a credit posted to the table of accounts, and the decisions between them.
 */
module SagaPlan {
  import opened Results
  import opened Money
  import opened Accounts
  import opened Transactions
  import opened Ledger
  import opened Transfers
  import opened Steps
  import opened Moments
  import opened Posting

  // ---------------------------------------------------------------- the entries of a saga

  function DebitOf(a: AccountID, cmd: TransferCmd): Entry {
    Entry(a, Money(cmd.amount, cmd.currency), EntryType.Debit)
  }

  function CreditOf(a: AccountID, cmd: TransferCmd): Entry {
    Entry(a, Money(cmd.amount, cmd.currency), EntryType.Credit)
  }

  /** What one leg adds to the entries posted so far, whether it got through, what it stranded, and why it failed. */
  datatype LegPlan = LegPlan(posted: seq<Entry>, ok: bool, left: seq<seq<Entry>>, why: Option<Error>)

  function PlanLeg(m: Table, done: seq<Entry>, d: Entry, c: Entry): (p: LegPlan)
    requires AllAccepted(m, done)
    ensures AllAccepted(m, p.posted) && (p.ok <==> p.why.None?)
  {
    if !AllAccepted(m, done + [d]) then LegPlan(done, false, [[]], Some(Refusal(m, d)))
    else if !AllAccepted(m, done + [d] + [c]) then LegPlan(done + [d], false, [[d]], Some(Refusal(m, c)))
    else LegPlan(done + [d] + [c], true, [], None)
  }

  /** told: the error the caller gets. */
  datatype Plan = Plan(posted: seq<Entry>, state: SagaState, left: seq<seq<Entry>>, told: Option<Failure>)

  /** From the credit of the destination on, with the suspense accounts of the second and third lookup. */
  function PlanInward(m: Table, s2: AccountID, s3: AccountID, done: seq<Entry>, cmd: TransferCmd): (p: Plan)
    requires AllAccepted(m, done)
    ensures AllAccepted(m, p.posted)
  {
    var into := PlanLeg(m, done, DebitOf(s2, cmd), CreditOf(cmd.to, cmd));
    if into.ok then Plan(into.posted, Completed, [], None)
    else
      var back := PlanLeg(m, into.posted, DebitOf(s3, cmd), CreditOf(cmd.from, cmd));
      Plan(back.posted, if back.ok then Compensated else Failed, into.left + back.left,
           Some(if back.ok then CreditReversed(into.why.value) else Critical(into.why.value, back.why.value)))
  }

  /** All entries a fault-free saga posts to m, where it ends, and the prefixes it strands; each lookup may give another account. */
  function PlanVia(m: Table, s1: AccountID, s2: AccountID, s3: AccountID, cmd: TransferCmd): (p: Plan)
    ensures AllAccepted(m, p.posted)
  {
    var out := PlanLeg(m, [], DebitOf(cmd.from, cmd), CreditOf(s1, cmd));
    if !out.ok then Plan(out.posted, Failed, out.left, Some(DebitStep(out.why.value))) else PlanInward(m, s2, s3, out.posted, cmd)
  }

  /** The plan when there is one suspense account. */
  function PlanTransfer(m: Table, s: AccountID, cmd: TransferCmd): (p: Plan)
    ensures AllAccepted(m, p.posted)
  {
    PlanVia(m, s, s, s, cmd)
  }

  /** st' and outcome are what a plan on table m, started at st, says. */
  ghost predicate Follows(m: Table, plan: Plan, st: State, st': State, outcome: Outcome) {
    && AllAccepted(m, plan.posted)
    && st'.accounts == PostAll(m, plan.posted)
    && st'.audit.stranded == st.audit.stranded + plan.left
    && outcome.saga.Some? && outcome.saga.value.state == plan.state && outcome.failure == plan.told
  }

  // ---------------------------------------------------------------- one leg is one call

  lemma PairEntries(from: AccountID, to: AccountID, amount: int64, currency: Currency)
    requires ValidCurrency(currency)
    ensures var d := Entry(from, Money(amount, currency), EntryType.Debit);
            var c := Entry(to, Money(amount, currency), EntryType.Credit);
            && ToEntries(Pair(from, to, amount, currency)) == Ok([d, c])
            && Rejection([d, c]) == if amount == 0 then Some(ZeroAmount) else None
  {
    var cmds := Pair(from, to, amount, currency);
    var d := Entry(from, Money(amount, currency), EntryType.Debit);
    var c := Entry(to, Money(amount, currency), EntryType.Credit);
    assert cmds[..1] == [cmds[0]] && [cmds[0]][..0] == [] && ToEntries([]) == Ok([]);
    assert ToEntries([cmds[0]]) == Ok([] + [d]);
    assert [] + [d] == [d];
    assert [d] + [c] == [d, c];
    assert [d, c][..1] == [d] && [d][..0] == [];
    assert KindSum([d], EntryType.Debit) == amount && KindSum([d], EntryType.Credit) == 0;
    assert amount == 0 ==> d in [d, c];
  }

  lemma AcceptNext(m: Table, done: seq<Entry>, e: Entry)
    requires AllAccepted(m, done)
    ensures AllAccepted(m, done + [e]) <==> Accepts(PostAll(m, done), e)
    ensures AllAccepted(m, done + [e]) ==> PostAll(m, done + [e]) == Post(PostAll(m, done), e)
  {
    assert (done + [e])[..|done|] == done;
  }

  lemma ApplyTwo(st: State, env: Env, d: Entry, c: Entry)
    ensures ApplyEntries(st, env, [d, c])
         == if ApplyEntry(st, env, d).1.Err? then ApplyEntry(st, env, d) else ApplyEntry(ApplyEntry(st, env, d).0, env, c)
  {
    var st1 := ApplyEntry(st, env, d).0;
    assert [d, c][1..] == [c] && [c][1..] == [];
    assert ApplyEntries(st1, env, [c]) == ApplyEntry(st1, env, c);
  }

  /** Why an entry is refused does not depend on balances. */
  lemma RefusalStays(m: Table, m': Table, e: Entry)
    requires SameButBalances(m, m')
    ensures Refusal(m', e) == Refusal(m, e)
  {
  }

  /** Fault-free, ApplyEntries on two entries posts what PlanLeg says. */
  lemma TwoEntries(st: State, env: Env, m: Table, done: seq<Entry>, d: Entry, c: Entry)
    requires FaultFree(env) && CoherentTable(m) && AllAccepted(m, done)
    requires st.accounts == PostAll(m, done) && st.audit.pending == []
    ensures var (st', r) := ApplyEntries(st, env, [d, c]);
            var leg := PlanLeg(m, done, d, c);
            && (r.Ok? <==> leg.ok) && st'.accounts == PostAll(m, leg.posted)
            && st' == st.(accounts := st'.accounts, ops := st'.ops, audit := st'.audit)
            && st'.audit.stranded == st.audit.stranded
            && (!leg.ok ==> leg.left == [st'.audit.pending] && r == Err(leg.why.value))
  {
    hide AllAccepted, PostAll, CoherentTable, ApplyEntry, Accepts, Post, Refusal, SameButBalances;
    ApplyTwo(st, env, d, c);
    AcceptNext(m, done, d);
    PostAllKeeps(m, done);
    EntryPosts(st, env, d);
    if AllAccepted(m, done + [d]) {
      AcceptNext(m, done + [d], c);
      PostAllKeeps(m, done + [d]);
      var st1 := ApplyEntry(st, env, d).0;
      EntryPosts(st1, env, c);
      assert st.audit.pending + [d] == [d];
      if ApplyEntry(st1, env, c).1.Err? {
        RefusedEntry(st1, env, c);
        RefusalStays(m, st1.accounts, c);
      }
    } else {
      RefusedEntry(st, env, d);
      RefusalStays(m, st.accounts, d);
    }
  }

  lemma LegRecord(st: State, env: Env, m: Table, done: seq<Entry>, from: AccountID, to: AccountID, cmd: TransferCmd, description: string)
    requires FaultFree(env) && WellFormed(st) && st.audit.pending == []
    requires CoherentTable(m) && AllAccepted(m, done) && st.accounts == PostAll(m, done)
    requires ValidCurrency(cmd.currency) && cmd.amount != 0
    ensures var (st', r) := RecordTransaction(st, env, Pair(from, to, cmd.amount, cmd.currency), description);
            var leg := PlanLeg(m, done, DebitOf(from, cmd), CreditOf(to, cmd));
            && (r.Ok? <==> leg.ok) && st'.accounts == PostAll(m, leg.posted)
            && (r.Err? ==> leg.why == Some(r.error))
            && st'.audit.stranded == st.audit.stranded + leg.left
            && WellFormed(st') && st'.audit.pending == []
  {
    hide AllAccepted, PostAll, CoherentTable, ApplyEntries, Rejection, Traces, RecordMoments;
    var d, c := DebitOf(from, cmd), CreditOf(to, cmd);
    PairEntries(from, to, cmd.amount, cmd.currency);
    var tx := Transaction(st.nextId, [d, c], description);
    TwoEntries(st.Draw(), env, m, done, d, c);
    FinishSucceeds(ApplyEntries(st.Draw(), env, [d, c]).0, env, tx);
    RecordTraces(st, env, Pair(from, to, cmd.amount, cmd.currency), description);
  }

  // ---------------------------------------------------------------- finding the suspense account

  ghost predicate Named(m: Table, id: AccountID, name: string) {
    id in m && m[id].name == name
  }

  ghost predicate AtMostOneNamed(m: Table, name: string) {
    forall i: AccountID, j: AccountID :: Named(m, i, name) && Named(m, j, name) ==> i == j
  }

  lemma {:induction false} FirstNamedFinds(all: seq<Account>, name: string)
    ensures match FirstNamed(all, name)
            case Some(acc) => exists i :: 0 <= i < |all| && all[i] == acc && acc.name == name && forall j :: 0 <= j < i ==> all[j].name != name
            case None => forall i :: 0 <= i < |all| ==> all[i].name != name
  {
    if all != [] && all[0].name != name {
      var rest := all[1..];
      FirstNamedFinds(rest, name);
      assert forall i :: 1 <= i < |all| ==> all[i] == rest[i - 1];
      if FirstNamed(rest, name).Some? {
        var i :| 0 <= i < |rest| && rest[i] == FirstNamed(rest, name).value && forall j :: 0 <= j < i ==> rest[j].name != name;
        assert all[i + 1] == rest[i];
      }
    }
  }

  /** A listing leads to an account with the name if and only if there is one. */
  lemma ListingFinds(st: State, env: Env, name: string)
    requires ValidEnv(env) && CoherentTable(st.accounts)
    ensures match FirstNamed(env.listing(st.ops, st.accounts), name)
            case Some(acc) => Named(st.accounts, acc.id, name) && st.accounts[acc.id] == acc
            case None => forall id: AccountID :: !Named(st.accounts, id, name)
  {
    var all := env.listing(st.ops, st.accounts);
    assert Lists(all, st.accounts);
    FirstNamedFinds(all, name);
  }

  function FreshSuspense(id: AccountID, currency: Currency): Account {
    Account(id, SuspenseName(currency), Liability, currency, Money(0, currency), Active)
  }

  /** The suspense account a saga will use: the one with the reserved name, or a new one. */
  ghost function SuspenseId(st: State, currency: Currency): AccountID {
    if exists id: AccountID :: Named(st.accounts, id, SuspenseName(currency))
    then var id: AccountID :| Named(st.accounts, id, SuspenseName(currency)); id
    else st.nextId
  }

  /** The accounts once the suspense account is there. */
  ghost function Ready(st: State, currency: Currency): Table {
    if exists id: AccountID :: Named(st.accounts, id, SuspenseName(currency)) then st.accounts
    else st.accounts[st.nextId := FreshSuspense(st.nextId, currency)]
  }

  ghost predicate IsSuspense(m: Table, currency: Currency, s: AccountID) {
    Named(m, s, SuspenseName(currency)) && AtMostOneNamed(m, SuspenseName(currency))
  }

  lemma OpensSuspense(st: State, env: Env, currency: Currency)
    requires FaultFree(env) && WellFormed(st) && ValidCurrency(currency)
    ensures var (st', r) := OpenAccount(st, env, SuspenseName(currency), "LIABILITY", currency);
            && r == Ok(FreshSuspense(st.nextId, currency))
            && st'.accounts == st.accounts[st.nextId := FreshSuspense(st.nextId, currency)]
            && st'.audit == st.audit && WellFormed(st')
  {
    hide Traces, OpenMoments;
    OpenTraces(st, env, SuspenseName(currency), "LIABILITY", currency, true);
  }

  /** Fault-free, the lookup finds or opens a suspense account; if there is only one, it is that one. */
  lemma SuspenseResolves(st: State, env: Env, currency: Currency)
    requires FaultFree(env) && ValidEnv(env) && WellFormed(st) && ValidCurrency(currency)
    ensures var (st', s) := SuspenseAccountID(st, env, currency);
            && Named(st'.accounts, s, SuspenseName(currency)) && st'.accounts == Ready(st, currency)
            && CoherentTable(Ready(st, currency)) && st'.audit == st.audit && WellFormed(st')
            && (AtMostOneNamed(st.accounts, SuspenseName(currency)) ==>
                  s == SuspenseId(st, currency) && IsSuspense(Ready(st, currency), currency, s))
  {
    hide OpenAccount, CoherentTable, WellFormed, SuspenseName;
    assert CoherentTable(st.accounts) by { Coheres(st); }
    ListingFinds(st, env, SuspenseName(currency));
    TickKeeps(st);
    if forall id: AccountID :: !Named(st.accounts, id, SuspenseName(currency)) {
      OpensSuspense(st.Tick(), env, currency);
      forall id: AccountID | Named(Ready(st, currency), id, SuspenseName(currency)) ensures id == st.nextId {
        assert !Named(st.accounts, id, SuspenseName(currency));
      }
      assert CoherentTable(Ready(st, currency)) by { Coheres(SuspenseAccountID(st, env, currency).0); }
    }
  }

  /** Once one is there, later lookups in the same saga return such an account and change nothing. */
  lemma SuspenseStays(st: State, env: Env, m: Table, currency: Currency, s: AccountID) returns (s': AccountID)
    requires FaultFree(env) && ValidEnv(env) && WellFormed(st) && ValidCurrency(currency)
    requires Named(m, s, SuspenseName(currency)) && SameButBalances(m, st.accounts)
    ensures SuspenseAccountID(st, env, currency) == (st.Tick(), s') && Named(m, s', SuspenseName(currency))
  {
    hide OpenAccount, SuspenseName;
    ListingFinds(st, env, SuspenseName(currency));
    assert forall id: AccountID :: Named(st.accounts, id, SuspenseName(currency)) ==> Named(m, id, SuspenseName(currency));
    assert Named(st.accounts, s, SuspenseName(currency));
    s' := SuspenseAccountID(st, env, currency).1;
  }

  // ---------------------------------------------------------------- the saga is its plan

  lemma TickKeeps(st: State)
    requires WellFormed(st)
    ensures WellFormed(st.Tick())
  {
    StepKeepsWellFormed(st, Call);
  }

  lemma ReturnLeg(st: State, env: Env, m: Table, s: AccountID, done: seq<Entry>, cmd: TransferCmd, saga: Saga, error: Error)
    returns (s3: AccountID)
    requires FaultFree(env) && ValidEnv(env) && WellFormed(st) && st.audit.pending == []
    requires CoherentTable(m) && Named(m, s, SuspenseName(cmd.currency)) && AllAccepted(m, done) && st.accounts == PostAll(m, done)
    requires ValidCurrency(cmd.currency) && cmd.amount != 0 && saga.state.Failed?
    ensures Named(m, s3, SuspenseName(cmd.currency))
    ensures var (st', out) := Compensate(st, env, cmd, saga, error);
            var back := PlanLeg(m, done, DebitOf(s3, cmd), CreditOf(cmd.from, cmd));
            Follows(m, Plan(back.posted, if back.ok then Compensated else Failed, back.left,
                            Some(if back.ok then CreditReversed(error) else Critical(error, back.why.value))), st, st', out)
  {
    hide RecordTransaction, SuspenseAccountID, WellFormed, Named;
    hide FaultFree, ValidEnv, CoherentTable, AllAccepted, PostAll, SameButBalances, Pair;
    PostAllKeeps(m, done);
    TickKeeps(st);
    s3 := SuspenseStays(st, env, m, cmd.currency, s);
    LegRecord(st.Tick(), env, m, done, s3, cmd.from, cmd, COMPENSATION + cmd.description);
    assert Compensate(st, env, cmd, saga, error).0
        == RecordTransaction(st.Tick(), env, Pair(s3, cmd.from, cmd.amount, cmd.currency), COMPENSATION + cmd.description).0;
  }

  lemma InwardLeg(st: State, env: Env, m: Table, s: AccountID, done: seq<Entry>, cmd: TransferCmd, saga: Saga)
    returns (s2: AccountID, s3: AccountID)
    requires FaultFree(env) && ValidEnv(env) && WellFormed(st) && st.audit.pending == []
    requires CoherentTable(m) && Named(m, s, SuspenseName(cmd.currency)) && AllAccepted(m, done) && st.accounts == PostAll(m, done)
    requires ValidCurrency(cmd.currency) && cmd.amount != 0 && saga.state.Debited?
    ensures Named(m, s2, SuspenseName(cmd.currency)) && Named(m, s3, SuspenseName(cmd.currency))
    ensures var (st', out) := CreditDestination(st, env, cmd, saga);
            Follows(m, PlanInward(m, s2, s3, done, cmd), st, st', out)
  {
    hide RecordTransaction, SuspenseAccountID, WellFormed, Compensate, Named;
    hide FaultFree, ValidEnv, CoherentTable, AllAccepted, PostAll, SameButBalances, Pair;
    PostAllKeeps(m, done);
    TickKeeps(st);
    s2 := SuspenseStays(st, env, m, cmd.currency, s);
    s3 := s2;
    LegRecord(st.Tick(), env, m, done, s2, cmd.to, cmd, "Transfer in: " + cmd.description);
    var into := PlanLeg(m, done, DebitOf(s2, cmd), CreditOf(cmd.to, cmd));
    var (st2, r) := RecordTransaction(st.Tick(), env, Pair(s2, cmd.to, cmd.amount, cmd.currency), "Transfer in: " + cmd.description);
    if !into.ok {
      s3 := ReturnLeg(st2, env, m, s, into.posted, cmd, MarkFailed(saga, CreditFailed(r.error)), r.error);
      assert forall x: seq<seq<Entry>> :: st.audit.stranded + into.left + x == st.audit.stranded + (into.left + x);
    }
  }

  /**
   Fault-free, Execute posts exactly the entries of a plan, ends in the plan's state and strands the
   plan's prefixes. Each lookup uses an account of the reserved name, which may differ from one to the next
   when clients have opened several.
   */
  lemma ExecuteFollowsPlan(st: State, env: Env, cmd: TransferCmd) returns (s1: AccountID, s2: AccountID, s3: AccountID)
    requires FaultFree(env) && ValidEnv(env) && WellFormed(st) && st.audit.pending == []
    requires ValidCurrency(cmd.currency) && cmd.from != cmd.to && cmd.amount != 0
    ensures var (st', out) := Execute(st, env, cmd);
            var m, name := Ready(st, cmd.currency), SuspenseName(cmd.currency);
            && CoherentTable(m) && Named(m, s1, name) && Named(m, s2, name) && Named(m, s3, name)
            && Follows(m, PlanVia(m, s1, s2, s3, cmd), st, st', out)
    ensures s1 == SuspenseAccountID(st, env, cmd.currency).1
  {
    hide RecordTransaction, SuspenseAccountID, WellFormed, CreditDestination, PlanInward, Ready, SuspenseId, IsSuspense, AtMostOneNamed, Named;
    hide FaultFree, ValidEnv, CoherentTable, AllAccepted, PostAll, Pair, SuspenseName;
    var m := Ready(st, cmd.currency);
    var st1 := SuspenseAccountID(st, env, cmd.currency).0;
    s1 := SuspenseAccountID(st, env, cmd.currency).1;
    s2, s3 := s1, s1;
    SuspenseResolves(st, env, cmd.currency);
    PostNone(m);
    LegRecord(st1, env, m, [], cmd.from, s1, cmd, "Transfer out: " + cmd.description);
    var out := PlanLeg(m, [], DebitOf(cmd.from, cmd), CreditOf(s1, cmd));
    var (st2, r) := RecordTransaction(st1, env, Pair(cmd.from, s1, cmd.amount, cmd.currency), "Transfer out: " + cmd.description);
    if out.ok {
      var saga := NewSaga(cmd.from, cmd.to, Money(cmd.amount, cmd.currency), cmd.description).value;
      s2, s3 := InwardLeg(st2, env, m, s1, out.posted, cmd, MarkDebited(saga).value);
    }
  }

  /** With one account of the reserved name, the plan goes through that account. */
  lemma ExecuteFollowsOnePlan(st: State, env: Env, cmd: TransferCmd)
    requires FaultFree(env) && ValidEnv(env) && WellFormed(st) && st.audit.pending == []
    requires AtMostOneNamed(st.accounts, SuspenseName(cmd.currency))
    requires ValidCurrency(cmd.currency) && cmd.from != cmd.to && cmd.amount != 0
    ensures var (st', out) := Execute(st, env, cmd);
            var m, s := Ready(st, cmd.currency), SuspenseId(st, cmd.currency);
            && CoherentTable(m) && IsSuspense(m, cmd.currency, s)
            && Follows(m, PlanTransfer(m, s, cmd), st, st', out)
  {
    hide Execute, SuspenseAccountID, WellFormed, Ready, SuspenseId, FaultFree, ValidEnv, CoherentTable, Follows, PlanVia, SuspenseName;
    var s1, s2, s3 := ExecuteFollowsPlan(st, env, cmd);
    SuspenseResolves(st, env, cmd.currency);
  }
}
