/** What a client who opens an account gets, and what an asset account can never do afterwards. */
module AccountOpening {
  import opened Results
  import opened Money
  import opened Accounts
  import opened EventStore
  import opened Projection
  import opened Ledger
  import opened Steps
  import opened Posting
  import opened Commands
  import opened Calls
  import opened Moments
  import opened SagaPlan
  import opened Books

  /** The account asked for: of the named type, an asset unless EQUITY or LIABILITY was asked for. */
  function Ordered(id: AccountID, name: string, text: string, currency: Currency): Account {
    Account(id, name, if text == "EQUITY" then Equity else if text == "LIABILITY" then Liability else Asset,
            currency, Money(0, currency), Active)
  }

  lemma KindIsOrdered(text: string)
    ensures AccountKind(text) == if text == "EQUITY" then Equity else if text == "LIABILITY" then Liability else Asset
  {
  }

  /** What the storage replies make of an opening that passed its checks. */
  ghost predicate Opened(st: State, env: Env, acc: Account, st': State, r: Result<Account>) {
    && r == (if env.reply(Opening, st.ops).Done? && env.reply(Appending, st.ops + 1).Done? then Ok(acc) else Err(StorageFault))
    && st'.accounts == (if env.reply(Opening, st.ops).Refused? then st.accounts else st.accounts[acc.id := acc])
    && st'.nextId == st.nextId + 1 && st'.transactions == st.transactions && st'.audit == st.audit
    && st'.tables.events == (if env.reply(Opening, st.ops).Done? && !env.reply(Appending, st.ops + 1).Refused?
                             then st.tables.events + [Event(acc.id, 1, AccountOpened(acc))] else st.tables.events)
    && st'.read == (if r.Ok? && !env.reply(Projecting, st.ops + 2).Refused? && acc.id !in st.read.balances
                    then st.read.(balances := st.read.balances[acc.id := View(acc.name, acc.kind, acc.currency, 0, 1)]) else st.read)
  }

  /**
   Opening an account, completely: refused without a name or with an unknown currency; otherwise the
   account asked for, active and empty, under a fresh identifier, in whichever tables the replies allow.
   */
  lemma OpenAccountLaw(st: State, env: Env, name: string, text: string, currency: Currency)
    requires WellFormed(st)
    ensures var (st', r) := OpenAccount(st, env, name, text, currency);
            if name == "" then r == Err(EmptyName) && st' == st
            else if currency !in {"USD", "MYR", "SGD", "EUR", "GBP"} then r == Err(InvalidCurrency) && st' == st
            else Opened(st, env, Ordered(st.nextId, name, text, currency), st', r)
  {
    KindIsOrdered(text);
    assert !Clash(st.tables.events, st.nextId, 0, 1);
  }

  /**
   Looking up a system account, completely: a storage fault if the accounts cannot be listed; the stored
   account of that name if there is one, and nothing changes; an opening otherwise.
   */
  lemma LookupLaw(st: State, env: Env, name: string, text: string, currency: Currency)
    requires ValidEnv(env) && WellFormed(st)
    ensures var (st', r) := GetOrCreateSystemAccount(st, env, name, text, currency);
            if !env.reply(Listing, st.ops).Done? then (st', r) == (st.Tick(), Err(StorageFault))
            else if exists id :: id in st.accounts && st.accounts[id].name == name
            then st' == st.Tick() && r.Ok? && r.value.name == name && r.value.id in st.accounts && st.accounts[r.value.id] == r.value
            else (st', r) == OpenAccount(st.Tick(), env, name, text, currency)
  {
    hide OpenAccount, WellFormed, CoherentTable, ValidEnv;
    Coheres(st);
    ListingFinds(st, env, name);
    assert forall id: AccountID :: Named(st.accounts, id, name) <==> id in st.accounts && st.accounts[id].name == name;
  }

  // ---------------------------------------------------------------- identifiers are never reused

  /** Identifiers issued before keep their account, or its absence. */
  ghost predicate OldKept(st: State, t: State) {
    && st.nextId <= t.nextId
    && forall id :: 0 <= id < st.nextId ==>
         (id in t.accounts <==> id in st.accounts) && (id in st.accounts ==> SameIdentity(st.accounts[id], t.accounts[id]))
  }

  lemma StepKeepsOld(st: State, l: Label)
    requires WellFormed(st) && Enabled(st, l)
    ensures OldKept(st, Do(st, l))
  {
    hide Known;
    if l.Apply? {
      ApplyToMeans(st.accounts[l.e.account], l.e);
    }
  }

  lemma OldKeptBoth(st: State, t: State, u: State)
    requires OldKept(st, t) && OldKept(t, u)
    ensures OldKept(st, u)
  {
  }

  lemma {:induction false} PathKeepsOld(st: State, ls: seq<Label>)
    requires WellFormed(st) && IsPath(st, ls)
    ensures OldKept(st, Follow(st, ls))
    decreases ls
  {
    if ls != [] {
      hide WellFormed, Enabled, Do, OldKept;
      StepKeepsOld(st, ls[0]);
      StepKeepsWellFormed(st, ls[0]);
      PathKeepsOld(Do(st, ls[0]), ls[1..]);
      OldKeptBoth(st, Do(st, ls[0]), Follow(st, ls));
    }
  }

  lemma ReachedKeepsOld(st: State, t: State, v: nat, positive: bool)
    requires WellFormed(st) && Reached(st, t, v, positive)
    ensures OldKept(st, t) && WellFormed(t)
  {
    hide WellFormed, OldKept, Within;
    var ls, es :| Leads(st, ls, t, es) && Within(es, v, positive);
    PathKeepsOld(st, ls);
    PathKeepsWellFormed(st, ls);
  }

  lemma HopDraws(st: State, t: State)
    requires Hop(st, t)
    ensures st.nextId <= t.nextId
  {
  }

  /** No moment has issued more identifiers than the end. */
  lemma {:induction false} MomentDraws(st: State, ts: seq<State>, end: State, i: nat)
    requires Unbroken(st, ts, end) && i < |ts|
    ensures st.nextId <= ts[i].nextId <= end.nextId
    decreases ts
  {
    hide Hop;
    HopDraws(st, ts[0]);
    if i > 0 {
      MomentDraws(ts[0], ts[1..], end, i - 1);
    } else if |ts| > 1 {
      MomentDraws(ts[0], ts[1..], end, |ts| - 2);
      LastMoment(ts[0], ts[1..], end);
    } else {
      assert ts[1..] == [];
    }
  }

  lemma {:induction false} LastMoment(st: State, ts: seq<State>, end: State)
    requires Unbroken(st, ts, end) && ts != []
    ensures ts[|ts| - 1] == end
    decreases ts
  {
    hide Hop;
    if |ts| > 1 {
      LastMoment(ts[0], ts[1..], end);
    } else {
      assert ts[1..] == [];
    }
  }

  // ---------------------------------------------------------------- an asset account over a run

  lemma {:induction false} RunSplits(st: State, env: Env, a: seq<Command>, b: seq<Command>)
    ensures Run(st, env, a + b) == Run(Run(st, env, a), env, b)
    ensures RunMoments(st, env, a + b) == RunMoments(st, env, a) + RunMoments(Run(st, env, a), env, b)
    decreases a
  {
    hide Serve, CommandMoments;
    if a == [] {
      assert a + b == b;
    } else {
      assert (a + b)[1..] == a[1..] + b;
      RunSplits(Serve(st, env, a[0]), env, a[1..], b);
    }
  }

  /** What the table says of the account with this id, if there is one. */
  ghost predicate IsAsset(t: State, id: AccountID, name: string, currency: Currency) {
    id in t.accounts ==> t.accounts[id].name == name && t.accounts[id].currency == currency && t.accounts[id].kind.Asset?
  }

  /** Up to the opening there is no such account. */
  lemma NotYet(env: Env, before: seq<Command>, i: nat, name: string, currency: Currency)
    requires i < |RunMoments(Init, env, before)|
    ensures IsAsset(RunMoments(Init, env, before)[i], Run(Init, env, before).nextId, name, currency)
  {
    hide Run, RunMoments, Sound, Reached, Unbroken;
    EveryMomentIsSound(env, before);
    var t := RunMoments(Init, env, before)[i];
    MomentDraws(Init, RunMoments(Init, env, before), Run(Init, env, before), i);
    NoneAhead(t, Run(Init, env, before).nextId);
  }

  lemma NoneAhead(t: State, id: AccountID)
    requires Sound(t) && t.nextId <= id
    ensures id !in t.accounts
  {
    hide BooksOK, ReadOK, TotalOK, ExactTotalOK, ReadTotalOK, OverdraftOK, Coherent, Known;
  }

  /** While it is being opened, and afterwards for ever, it is the asset account asked for. */
  lemma OpeningMoment(st: State, env: Env, name: string, text: string, currency: Currency, i: nat)
    requires WellFormed(st) && text != "EQUITY" && text != "LIABILITY"
    requires i < |OpenMoments(st, env, name, text, currency)|
    ensures IsAsset(OpenMoments(st, env, name, text, currency)[i], st.nextId, name, currency)
  {
    hide Coherent, Known;
  }

  lemma AfterOpening(st: State, env: Env, name: string, text: string, currency: Currency)
    requires WellFormed(st) && text != "EQUITY" && text != "LIABILITY"
    ensures var st' := OpenAccount(st, env, name, text, currency).0;
            && IsAsset(st', st.nextId, name, currency)
            && (st' == st || st'.nextId == st.nextId + 1)
  {
    hide OpenAccount, WellFormed;
    assert st.nextId !in st.accounts by { FreshId(st); }
    OpenAccountLaw(st, env, name, text, currency);
  }

  lemma StaysAsset(st: State, t: State, id: AccountID, name: string, currency: Currency)
    requires IsAsset(st, id, name, currency) && id < st.nextId && OldKept(st, t)
    ensures IsAsset(t, id, name, currency)
  {
  }

  /** The run up to the opening, the opening, and the rest. */
  function WithOpening(before: seq<Command>, name: string, text: string, currency: Currency, after: seq<Command>): seq<Command> {
    before + ([OpenCmd(name, text, currency)] + after)
  }

  lemma LaterMoment(st: State, env: Env, after: seq<Command>, i: nat, id: AccountID, name: string, currency: Currency)
    requires WellFormed(st) && st.audit.pending == [] && id < st.nextId && IsAsset(st, id, name, currency)
    requires i < |RunMoments(st, env, after)|
    ensures IsAsset(RunMoments(st, env, after)[i], id, name, currency)
  {
    hide WellFormed, RunMoments, Run, Reached, Unbroken, IsAsset;
    RunTraces(st, env, after);
    var t := RunMoments(st, env, after)[i];
    ReachedKeepsOld(st, t, RunVolume(after), PositiveRun(after));
    StaysAsset(st, t, id, name, currency);
  }

  lemma OpenCommandMoments(st: State, env: Env, name: string, text: string, currency: Currency, after: seq<Command>)
    ensures RunMoments(st, env, [OpenCmd(name, text, currency)] + after)
         == OpenMoments(st, env, name, text, currency) + RunMoments(OpenAccount(st, env, name, text, currency).0, env, after)
  {
    hide OpenAccount, OpenMoments;
    var cmds := [OpenCmd(name, text, currency)] + after;
    assert cmds[1..] == after;
    var calls := [OpenCall(name, text, currency)];
    assert CommandCalls(st, env, cmds[0]) == calls && calls[1..] == [];
    assert CallsMoments(Make(st, env, calls[0]), env, []) == [];
    assert OpenMoments(st, env, name, text, currency) + [] == OpenMoments(st, env, name, text, currency);
  }

  /** At every moment of the run, the id the opening draws belongs to the asset account asked for, or to nobody. */
  lemma OpenedIsAsset(env: Env, before: seq<Command>, name: string, text: string, currency: Currency, after: seq<Command>, i: nat)
    requires name != "" && ValidCurrency(currency) && text != "EQUITY" && text != "LIABILITY"
    requires i < |RunMoments(Init, env, WithOpening(before, name, text, currency, after))|
    ensures IsAsset(RunMoments(Init, env, WithOpening(before, name, text, currency, after))[i], Run(Init, env, before).nextId, name, currency)
  {
    hide Run, RunMoments, OpenMoments, OpenAccount, Sound, WellFormed, Traces, IsAsset;
    var st := Run(Init, env, before);
    var begun := OpenAccount(st, env, name, text, currency).0;
    EveryMomentIsSound(env, before);
    SoundIsWellFormed(st);
    RunSplits(Init, env, before, [OpenCmd(name, text, currency)] + after);
    OpenCommandMoments(st, env, name, text, currency, after);
    OpenTraces(st, env, name, text, currency, true);
    var a, b := |RunMoments(Init, env, before)|, |OpenMoments(st, env, name, text, currency)|;
    if i < a {
      NotYet(env, before, i, name, currency);
    } else if i < a + b {
      OpeningMoment(st, env, name, text, currency, i - a);
    } else {
      AfterOpening(st, env, name, text, currency);
      OpenAccountLaw(st, env, name, text, currency);
      LaterMoment(begun, env, after, i - a - b, st.nextId, name, currency);
    }
  }

  /**
   From the client's command: an account opened with type "ASSET", or any text other than the two known
   ones, is never negative at any moment of any run whose amounts are positive and total less than 2^63.
   */
  lemma OpenedAssetNeverNegative(env: Env, before: seq<Command>, name: string, text: string, currency: Currency, after: seq<Command>)
    requires name != "" && currency in {"USD", "MYR", "SGD", "EUR", "GBP"} && text != "EQUITY" && text != "LIABILITY"
    requires var cmds := WithOpening(before, name, text, currency, after);
             PositiveRun(cmds) && RunVolume(cmds) < 0x8000_0000_0000_0000
    ensures var ts := RunMoments(Init, env, WithOpening(before, name, text, currency, after));
            var id := Run(Init, env, before).nextId;
            forall i :: 0 <= i < |ts| && id in ts[i].accounts ==>
              && ts[i].accounts[id].name == name && ts[i].accounts[id].currency == currency
              && ts[i].accounts[id].kind == Asset && ts[i].accounts[id].balance.amount >= 0
  {
    hide Run, RunMoments, WithOpening, RunVolume, PositiveRun;
    var cmds := WithOpening(before, name, text, currency, after);
    var ts, id := RunMoments(Init, env, cmds), Run(Init, env, before).nextId;
    NeverOverdrawn(env, cmds);
    forall i | 0 <= i < |ts| && id in ts[i].accounts ensures IsAsset(ts[i], id, name, currency) && ts[i].accounts[id].balance.amount >= 0 {
      OpenedIsAsset(env, before, name, text, currency, after, i);
      assert NoOverdraft(ts[i]);
    }
  }
}
