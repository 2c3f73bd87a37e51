/**
 Posting entries to a table of accounts when storage does not fail: the loop of RecordTransaction
 without its storage calls, and the exact condition under which it gets through.
 */
module Posting {
  import opened Results
  import opened Money
  import opened Accounts
  import opened Transactions
  import opened Ledger
  import opened Steps

  type Table = map<AccountID, Account>

  ghost predicate CoherentTable(m: Table) {
    forall id :: id in m ==> m[id].id == id && Coherent(m[id])
  }

  function BalanceIn(m: Table, a: AccountID): int64 {
    if a in m then m[a].balance.amount else 0
  }

  /** The entry's account exists and takes the entry. */
  predicate Accepts(m: Table, e: Entry) {
    e.account in m && ApplyTo(m[e.account], e).Ok?
  }

  function Post(m: Table, e: Entry): Table
    requires Accepts(m, e)
  {
    m[e.account := ApplyTo(m[e.account], e).value]
  }

  /** Every entry is accepted in turn. */
  predicate AllAccepted(m: Table, es: seq<Entry>)
    decreases |es|, 0
  {
    es != [] ==> AllAccepted(m, es[..|es| - 1]) && Accepts(PostAll(m, es[..|es| - 1]), es[|es| - 1])
  }

  function PostAll(m: Table, es: seq<Entry>): Table
    requires AllAccepted(m, es)
    decreases |es|, 1
  {
    if es == [] then m else Post(PostAll(m, es[..|es| - 1]), es[|es| - 1])
  }

  /** m' has m's accounts, with other balances at most. */
  ghost predicate SameButBalances(m: Table, m': Table) {
    m.Keys == m'.Keys && forall id :: id in m ==> m'[id] == m[id].(balance := m'[id].balance)
  }

  lemma PostMeans(m: Table, e: Entry)
    requires CoherentTable(m) && Accepts(m, e)
    ensures CoherentTable(Post(m, e)) && SameButBalances(m, Post(m, e))
    ensures forall a :: BalanceIn(Post(m, e), a) == if a == e.account then Wrap(BalanceIn(m, a) + Signed(e)) else BalanceIn(m, a)
  {
    ApplyToMeans(m[e.account], e);
  }

  lemma {:induction false} PostAllKeeps(m: Table, es: seq<Entry>)
    requires CoherentTable(m) && AllAccepted(m, es)
    ensures CoherentTable(PostAll(m, es)) && SameButBalances(m, PostAll(m, es))
  {
    if es != [] {
      PostAllKeeps(m, es[..|es| - 1]);
      PostMeans(PostAll(m, es[..|es| - 1]), es[|es| - 1]);
    }
  }

  /** The last entry moves its own account and no other. */
  lemma LastPosted(m: Table, es: seq<Entry>, a: AccountID)
    requires CoherentTable(m) && es != [] && AllAccepted(m, es)
    ensures var m1, e := PostAll(m, es[..|es| - 1]), es[|es| - 1];
            BalanceIn(PostAll(m, es), a) == if e.account == a then Wrap(BalanceIn(m1, a) + Signed(e)) else BalanceIn(m1, a)
  {
    hide CoherentTable, SameButBalances, BalanceIn, Wrap, Signed;
    PostAllKeeps(m, es[..|es| - 1]);
    PostMeans(PostAll(m, es[..|es| - 1]), es[|es| - 1]);
  }

  /** Posting a list moves each balance by the exact sum of its entries, wrapped once. */
  lemma {:induction false} PostAllBalance(m: Table, es: seq<Entry>, a: AccountID)
    requires CoherentTable(m) && AllAccepted(m, es)
    ensures BalanceIn(PostAll(m, es), a) == Wrap(BalanceIn(m, a) + AccountSum(es, a))
  {
    hide CoherentTable, Signed;
    if es != [] {
      hide BalanceIn, Wrap, PostAll, Accepts;
      var n := |es| - 1;
      PostAllBalance(m, es[..n], a);
      LastPosted(m, es, a);
      WrapAdd(BalanceIn(m, a) + AccountSum(es[..n], a), Signed(es[n]));
    }
  }

  // ---------------------------------------------------------------- when a list gets through

  /** What an account checks regardless of its balance. */
  predicate Usable(m: Table, e: Entry) {
    && e.account in m
    && (e.kind.Unknown? ||
        (m[e.account].status.Active? && e.amount.amount != 0 && e.amount.currency == m[e.account].currency))
  }

  /** A debit of e must leave the balance non-negative. */
  predicate Guarded(m: Table, e: Entry) {
    e.kind.Debit? && e.account in m && !AllowsNegativeBalance(m[e.account])
  }

  predicate Funded(m: Table, es: seq<Entry>, k: nat)
    requires k < |es|
  {
    Usable(m, es[k]) &&
    (Guarded(m, es[k]) ==> Wrap(BalanceIn(m, es[k].account) + AccountSum(es[..k + 1], es[k].account)) >= 0)
  }

  lemma AcceptsIff(m: Table, e: Entry)
    requires CoherentTable(m)
    ensures Accepts(m, e) <==> Usable(m, e) && (Guarded(m, e) ==> Wrap(BalanceIn(m, e.account) + Signed(e)) >= 0)
  {
  }

  lemma FundedOfPrefix(m: Table, es: seq<Entry>, n: nat, k: nat)
    requires k < n <= |es|
    ensures Funded(m, es[..n], k) == Funded(m, es, k)
  {
    assert es[..n][..k + 1] == es[..k + 1];
  }

  /** A list is accepted exactly when every account is open and every guarded debit is covered at its turn. */
  lemma {:induction false} AllAcceptedIff(m: Table, es: seq<Entry>)
    requires CoherentTable(m)
    ensures AllAccepted(m, es) <==> forall k :: 0 <= k < |es| ==> Funded(m, es, k)
  {
    if es != [] {
      var n := |es| - 1;
      AllAcceptedIff(m, es[..n]);
      forall k | 0 <= k < n ensures Funded(m, es[..n], k) == Funded(m, es, k) {
        FundedOfPrefix(m, es, n, k);
      }
      if AllAccepted(m, es[..n]) {
        LastAcceptedIff(m, es);
      }
    }
  }

  lemma LastAcceptedIff(m: Table, es: seq<Entry>)
    requires CoherentTable(m) && es != [] && AllAccepted(m, es[..|es| - 1])
    ensures Accepts(PostAll(m, es[..|es| - 1]), es[|es| - 1]) <==> Funded(m, es, |es| - 1)
  {
    hide AllAccepted, PostAll, Accepts, CoherentTable, Wrap, Signed;
    var n := |es| - 1;
    var e, a := es[n], es[n].account;
    PostAllKeeps(m, es[..n]);
    PostAllBalance(m, es[..n], a);
    AcceptsIff(PostAll(m, es[..n]), e);
    WrapAdd(BalanceIn(m, a) + AccountSum(es[..n], a), Signed(e));
    assert es[..n + 1] == es;
    assert AccountSum(es, a) == AccountSum(es[..n], a) + Signed(e);
  }

  // ---------------------------------------------------------------- the loop without faults

  lemma {:induction false} FirstThenRest(m: Table, es: seq<Entry>)
    requires es != []
    ensures AllAccepted(m, es) <==> Accepts(m, es[0]) && AllAccepted(Post(m, es[0]), es[1..])
    ensures AllAccepted(m, es) ==> PostAll(m, es) == PostAll(Post(m, es[0]), es[1..])
    decreases |es|
  {
    var n := |es| - 1;
    if n > 0 {
      FirstThenRest(m, es[..n]);
      assert es[1..][..n - 1] == es[..n][1..];
    } else {
      assert es[..0] == [] && es[1..] == [];
    }
  }

  lemma PostNone(m: Table)
    ensures AllAccepted(m, []) && PostAll(m, []) == m
  {
  }

  /** One turn of the loop, under any replies. */
  lemma EntryPosts(st: State, env: Env, e: Entry)
    requires CoherentTable(st.accounts)
    ensures var (st', r) := ApplyEntry(st, env, e);
            if !env.reply(Finding, st.ops).Done? || !Accepts(st.accounts, e) then r.Err? && st' == st.Tick()
            else && r.Ok? == env.reply(Updating, st.ops + 1).Done?
                 && st' == if env.reply(Updating, st.ops + 1).Refused? then st.Tick().Tick()
                           else st.Tick().Tick().(accounts := Post(st.accounts, e)).Applied(e)
  {
    if Accepts(st.accounts, e) {
      ApplyToMeans(st.accounts[e.account], e);
    }
  }

  /**
   How many saves of the loop take effect, told from the table and the replies alone: the loop stops at
   the first account that is not found, the first entry that is not accepted, or the first save that is
   not acknowledged, and a save whose acknowledgement is lost still counts.
   */
  ghost function Saves(m: Table, env: Env, n: nat, es: seq<Entry>): nat
    decreases es
  {
    if es == [] || !env.reply(Finding, n).Done? || !Accepts(m, es[0]) || env.reply(Updating, n + 1).Refused? then 0
    else if env.reply(Updating, n + 1).Lost? then 1
    else 1 + Saves(Post(m, es[0]), env, n + 2, es[1..])
  }

  lemma PostOne(m: Table, e: Entry)
    requires Accepts(m, e)
    ensures AllAccepted(m, [e]) && PostAll(m, [e]) == Post(m, e)
  {
    assert [e][..0] == [];
  }

  /** The first entry posted, then some of the rest. */
  lemma FirstThenSome(m: Table, es: seq<Entry>, k: nat)
    requires es != [] && k < |es| && Accepts(m, es[0]) && AllAccepted(Post(m, es[0]), es[1..][..k])
    ensures AllAccepted(m, es[..1 + k]) && PostAll(m, es[..1 + k]) == PostAll(Post(m, es[0]), es[1..][..k])
  {
    hide AllAccepted, PostAll;
    assert es[..1 + k][1..] == es[1..][..k];
    FirstThenRest(m, es[..1 + k]);
  }

  /** st' is st with the first k entries posted to the accounts and noted as pending. */
  ghost predicate PostedFirst(st: State, st': State, es: seq<Entry>, k: nat) {
    && k <= |es| && AllAccepted(st.accounts, es[..k]) && st'.accounts == PostAll(st.accounts, es[..k])
    && st' == st.(accounts := st'.accounts, ops := st'.ops, audit := st'.audit)
    && st'.audit == st.audit.(pending := st.audit.pending + es[..k], moved := st'.audit.moved)
  }

  lemma PostedNone(st: State, ops: nat, es: seq<Entry>)
    ensures PostedFirst(st, st.(ops := ops), es, 0)
  {
    assert es[..0] == [] && st.audit.pending + [] == st.audit.pending;
  }

  lemma PostedOne(st: State, st1: State, es: seq<Entry>)
    requires es != [] && Accepts(st.accounts, es[0])
    requires st1 == st.Tick().Tick().(accounts := Post(st.accounts, es[0])).Applied(es[0])
    ensures PostedFirst(st, st1, es, 1)
  {
    PostOne(st.accounts, es[0]);
    assert es[..1] == [es[0]];
  }

  lemma PostedMore(st: State, st1: State, st2: State, es: seq<Entry>, k: nat)
    requires es != [] && Accepts(st.accounts, es[0])
    requires st1 == st.Tick().Tick().(accounts := Post(st.accounts, es[0])).Applied(es[0])
    requires PostedFirst(st1, st2, es[1..], k)
    ensures PostedFirst(st, st2, es, 1 + k)
  {
    hide AllAccepted, PostAll, Accepts, Post;
    FirstThenSome(st.accounts, es, k);
    assert es[..1 + k] == [es[0]] + es[1..][..k];
    assert (st.audit.pending + [es[0]]) + es[1..][..k] == st.audit.pending + es[..1 + k];
  }

  /**
   What the loop leaves behind, exactly, under every fault pattern: the accounts with the first k entries
   posted, k being the saves that took effect; it succeeds if and only if that is all of them and the last
   save was acknowledged.
   */
  lemma {:induction false} LoopLeaves(st: State, env: Env, es: seq<Entry>)
    requires CoherentTable(st.accounts)
    ensures var (st', r) := ApplyEntries(st, env, es);
            var k := Saves(st.accounts, env, st.ops, es);
            && PostedFirst(st, st', es, k)
            && (r.Ok? <==> k == |es| && (es != [] ==> env.reply(Updating, st.ops + 2 * |es| - 1).Done?))
    decreases es
  {
    hide Accepts, CoherentTable, Post, PostedFirst, ApplyEntry;
    if es == [] {
      PostedNone(st, st.ops, es);
    } else {
      EntryPosts(st, env, es[0]);
      var (st1, r) := ApplyEntry(st, env, es[0]);
      if !env.reply(Finding, st.ops).Done? || !Accepts(st.accounts, es[0]) || env.reply(Updating, st.ops + 1).Refused? {
        PostedNone(st, st1.ops, es);
      } else if r.Err? {
        PostedOne(st, st1, es);
      } else {
        PostMeans(st.accounts, es[0]);
        LoopLeaves(st1, env, es[1..]);
        PostedMore(st, st1, ApplyEntries(st1, env, es[1..]).0, es, Saves(st1.accounts, env, st1.ops, es[1..]));
      }
    }
  }

  // ---------------------------------------------------------------- why a list does not get through

  /** Why an entry is refused, in the order the account makes its checks. */
  function Refusal(m: Table, e: Entry): Error {
    if e.account !in m then AccountNotFound
    else if m[e.account].status != Active then AccountNotActive
    else if e.amount.amount == 0 then ZeroAmount
    else if e.amount.currency != m[e.account].currency then CurrencyMismatch
    else InsufficientFunds
  }

  lemma RefusedEntry(st: State, env: Env, e: Entry)
    requires CoherentTable(st.accounts) && ApplyEntry(st, env, e).1.Err?
    ensures ApplyEntry(st, env, e).1.error
         == if env.reply(Finding, st.ops).Done? && !Accepts(st.accounts, e) then Refusal(st.accounts, e) else StorageFault
  {
  }

  /** The loop, having saved k entries, stops at the next one because its account refuses it. */
  ghost predicate StopsAt(m: Table, env: Env, n: nat, es: seq<Entry>, k: nat)
    requires k <= |es| && AllAccepted(m, es[..k])
  {
    && k < |es| && (k > 0 ==> env.reply(Updating, n + 2 * k - 1).Done?) && env.reply(Finding, n + 2 * k).Done?
    && !Accepts(PostAll(m, es[..k]), es[k])
  }

  /** Posting does not change why an entry is refused, as long as it is refused. */
  lemma SameRefusal(m: Table, e0: Entry, e: Entry)
    requires CoherentTable(m) && Accepts(m, e0)
    ensures Refusal(Post(m, e0), e) == Refusal(m, e)
  {
    PostMeans(m, e0);
  }

  /** r is the answer of a loop that saved k entries: the refusal of the entry it stops at, or a storage fault. */
  ghost predicate Answers(m: Table, env: Env, n: nat, es: seq<Entry>, k: nat, r: Result<()>) {
    && k <= |es| && AllAccepted(m, es[..k])
    && (r.Err? ==> r.error == if StopsAt(m, env, n, es, k) then Refusal(m, es[k]) else StorageFault)
  }

  lemma AnswersAtOnce(st: State, env: Env, es: seq<Entry>)
    requires CoherentTable(st.accounts) && es != [] && ApplyEntry(st, env, es[0]).1.Err?
    ensures Answers(st.accounts, env, st.ops, es, Saves(st.accounts, env, st.ops, es), ApplyEntry(st, env, es[0]).1)
  {
    hide CoherentTable, Accepts, ApplyEntry, Refusal, Post;
    EntryPosts(st, env, es[0]);
    RefusedEntry(st, env, es[0]);
    PostNone(st.accounts);
    assert es[..0] == [];
    if Accepts(st.accounts, es[0]) {
      PostOne(st.accounts, es[0]);
      assert es[..1] == [es[0]];
    }
  }

  lemma AnswersLater(m: Table, env: Env, n: nat, es: seq<Entry>, k: nat, r: Result<()>)
    requires CoherentTable(m) && es != [] && Accepts(m, es[0]) && env.reply(Updating, n + 1).Done?
    requires Answers(Post(m, es[0]), env, n + 2, es[1..], k, r)
    ensures Answers(m, env, n, es, 1 + k, r)
  {
    hide AllAccepted, PostAll, Accepts, Post, Refusal, CoherentTable;
    FirstThenSome(m, es, k);
    if k < |es[1..]| {
      SameRefusal(m, es[0], es[1..][k]);
    }
  }

  /**
   Why the loop fails, exactly: with the refusal of the entry it stops at, told from the table and that
   entry, and with a storage fault otherwise.
   */
  lemma {:induction false} LoopAnswers(st: State, env: Env, es: seq<Entry>)
    requires CoherentTable(st.accounts)
    ensures Answers(st.accounts, env, st.ops, es, Saves(st.accounts, env, st.ops, es), ApplyEntries(st, env, es).1)
    decreases es
  {
    hide CoherentTable, Accepts, ApplyEntry, Post, Answers;
    if es == [] {
      assert Answers(st.accounts, env, st.ops, es, 0, Ok(())) by { AnswersNothing(st, env, es); }
    } else {
      var (st1, r) := ApplyEntry(st, env, es[0]);
      if r.Err? {
        AnswersAtOnce(st, env, es);
      } else {
        EntryPosts(st, env, es[0]);
        PostMeans(st.accounts, es[0]);
        LoopAnswers(st1, env, es[1..]);
        AnswersLater(st.accounts, env, st.ops, es, Saves(st1.accounts, env, st1.ops, es[1..]), ApplyEntries(st1, env, es[1..]).1);
      }
    }
  }

  lemma AnswersNothing(st: State, env: Env, es: seq<Entry>)
    requires es == []
    ensures Answers(st.accounts, env, st.ops, es, 0, Ok(()))
  {
  }

  // ---------------------------------------------------------------- the longest funded prefix

  /** The entries before the first one that is not funded. */
  function FundedPrefix(m: Table, es: seq<Entry>): (k: nat)
    ensures k <= |es|
  {
    if es == [] then 0
    else
      var n := |es| - 1;
      if FundedPrefix(m, es[..n]) == n && Funded(m, es, n) then n + 1 else FundedPrefix(m, es[..n])
  }

  lemma {:induction false} FundedPrefixIs(m: Table, es: seq<Entry>)
    ensures forall i :: 0 <= i < FundedPrefix(m, es) ==> Funded(m, es, i)
    ensures FundedPrefix(m, es) < |es| ==> !Funded(m, es, FundedPrefix(m, es))
  {
    if es != [] {
      hide Funded;
      var n := |es| - 1;
      FundedPrefixIs(m, es[..n]);
      forall i | 0 <= i < n ensures Funded(m, es[..n], i) == Funded(m, es, i) {
        FundedOfPrefix(m, es, n, i);
      }
    }
  }

  /** The longest accepted prefix is the funded one. */
  lemma AcceptedPrefix(m: Table, es: seq<Entry>, k: nat)
    requires CoherentTable(m) && k <= |es|
    ensures AllAccepted(m, es[..k]) <==> k <= FundedPrefix(m, es)
  {
    hide Funded, AllAccepted, CoherentTable;
    AllAcceptedIff(m, es[..k]);
    FundedPrefixIs(m, es);
    forall i | 0 <= i < k ensures Funded(m, es[..k], i) == Funded(m, es, i) {
      FundedOfPrefix(m, es, k, i);
    }
  }

  /** The first k entries are accepted and no more. */
  ghost predicate LongestAccepted(m: Table, es: seq<Entry>, k: nat) {
    k <= |es| && AllAccepted(m, es[..k]) && (k < |es| ==> !AllAccepted(m, es[..k + 1]))
  }

  lemma NoneAccepted(m: Table, es: seq<Entry>)
    requires es == [] || !Accepts(m, es[0])
    ensures LongestAccepted(m, es, 0)
  {
    assert es[..0] == [];
    if es != [] {
      assert es[..1] == [es[0]] && [es[0]][..0] == [];
    }
  }

  lemma OneMoreAccepted(m: Table, es: seq<Entry>, k: nat)
    requires es != [] && Accepts(m, es[0]) && LongestAccepted(Post(m, es[0]), es[1..], k)
    ensures LongestAccepted(m, es, 1 + k)
  {
    hide AllAccepted, PostAll, Accepts, Post;
    FirstThenSome(m, es, k);
    if 1 + k < |es| {
      assert es[..k + 2][1..] == es[1..][..k + 1];
      FirstThenRest(m, es[..k + 2]);
    }
  }

  /** Without storage faults the loop saves exactly the longest accepted prefix. */
  lemma {:induction false} FaultFreeSaves(m: Table, env: Env, n: nat, es: seq<Entry>)
    requires FaultFree(env) && CoherentTable(m)
    ensures LongestAccepted(m, es, Saves(m, env, n, es))
    decreases es
  {
    hide LongestAccepted, Accepts, Post, CoherentTable;
    if es == [] || !Accepts(m, es[0]) {
      NoneAccepted(m, es);
    } else {
      PostMeans(m, es[0]);
      FaultFreeSaves(Post(m, es[0]), env, n + 2, es[1..]);
      OneMoreAccepted(m, es, Saves(Post(m, es[0]), env, n + 2, es[1..]));
    }
  }

  lemma SavesAreFunded(m: Table, env: Env, n: nat, es: seq<Entry>)
    requires FaultFree(env) && CoherentTable(m)
    ensures Saves(m, env, n, es) == FundedPrefix(m, es)
  {
    hide AllAccepted, CoherentTable, FundedPrefix, Saves;
    FaultFreeSaves(m, env, n, es);
    var k := Saves(m, env, n, es);
    AcceptedPrefix(m, es, k);
    if k < |es| {
      AcceptedPrefix(m, es, k + 1);
    }
  }

  /**
   Without storage faults the loop posts the funded prefix of its entries and no more, and succeeds if and
   only if that is all of them.
   */
  lemma LoopPosts(st: State, env: Env, es: seq<Entry>)
    requires FaultFree(env) && CoherentTable(st.accounts)
    ensures var (st', r) := ApplyEntries(st, env, es);
            var k := FundedPrefix(st.accounts, es);
            && PostedFirst(st, st', es, k)
            && (r.Ok? <==> k == |es|) && (r.Ok? <==> AllAccepted(st.accounts, es))
  {
    hide AllAccepted, PostAll, CoherentTable, FundedPrefix, ApplyEntries, Saves;
    LoopLeaves(st, env, es);
    SavesAreFunded(st.accounts, env, st.ops, es);
    AcceptedPrefix(st.accounts, es, |es|);
    assert es[..|es|] == es;
  }

  /** Fault-free, a transaction whose entries are all applied is stored, emitted and acknowledged. */
  lemma FinishSucceeds(st: State, env: Env, tx: Transaction)
    requires FaultFree(env)
    requires forall i :: 0 <= i < |st.tables.events| ==> st.tables.events[i].aggregate != tx.id
    ensures var (st', r) := Finish(st, env, tx);
            && r == Ok(tx) && st'.accounts == st.accounts && st'.nextId == st.nextId
            && st'.audit.stranded == st.audit.stranded && st'.transactions == st.transactions[tx.id := tx]
  {
  }
}
