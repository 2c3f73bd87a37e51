/**
 The order of a transaction's entries. Two orders that both get through leave the same accounts, and if
 any order gets through then so does every order that puts credits before debits.
 */
module Reordering {
  import opened Results
  import opened Money
  import opened Accounts
  import opened Transactions
  import opened Ledger
  import opened Steps
  import opened Posting
  import opened Commands
  import opened Moments

  function Without<T>(es: seq<T>, i: nat): seq<T>
    requires i < |es|
  {
    es[..i] + es[i + 1..]
  }

  lemma {:induction false} SignedSumConcat(x: seq<Entry>, y: seq<Entry>)
    ensures SignedSum(x + y) == SignedSum(x) + SignedSum(y)
  {
    if y == [] {
      assert x + y == x;
    } else {
      assert (x + y)[..|x + y| - 1] == x + y[..|y| - 1];
      SignedSumConcat(x, y[..|y| - 1]);
    }
  }

  lemma SumsWithout(es: seq<Entry>, i: nat, a: AccountID)
    requires i < |es|
    ensures SignedSum(es) == SignedSum(Without(es, i)) + Signed(es[i])
    ensures AccountSum(es, a) == AccountSum(Without(es, i), a) + if es[i].account == a then Signed(es[i]) else 0
    ensures Volume(es) == Volume(Without(es, i)) + Abs(es[i].amount.amount)
  {
    assert es == es[..i + 1] + es[i + 1..];
    assert es[..i + 1][..i] == es[..i];
    SignedSumConcat(es[..i + 1], es[i + 1..]);
    SignedSumConcat(es[..i], es[i + 1..]);
    AccountSumConcat(es[..i + 1], es[i + 1..], a);
    AccountSumConcat(es[..i], es[i + 1..], a);
    VolumeConcat(es[..i + 1], es[i + 1..]);
    VolumeConcat(es[..i], es[i + 1..]);
  }

  /** Takes the last entry of one order out of the other. */
  lemma PickOut<T>(es: seq<T>, es': seq<T>) returns (i: nat)
    requires multiset(es) == multiset(es') && es != []
    ensures i < |es'| && es'[i] == es[|es| - 1]
    ensures multiset(es[..|es| - 1]) == multiset(Without(es', i))
  {
    var n := |es| - 1;
    assert es[n] in multiset(es');
    i :| 0 <= i < |es'| && es'[i] == es[n];
    assert es == es[..n] + [es[n]];
    assert es' == es'[..i] + [es'[i]] + es'[i + 1..];
    assert multiset(es') == multiset(Without(es', i)) + multiset{es[n]};
    assert multiset(es[..n]) == multiset(es) - multiset{es[n]};
  }

  /** Sums do not depend on the order. */
  lemma {:induction false} SumsPermute(es: seq<Entry>, es': seq<Entry>, a: AccountID)
    requires multiset(es) == multiset(es')
    ensures SignedSum(es) == SignedSum(es') && AccountSum(es, a) == AccountSum(es', a) && Volume(es) == Volume(es')
    decreases |es|
  {
    if es == [] {
      assert |multiset(es')| == |es'|;
    } else {
      var i := PickOut(es, es');
      SumsPermute(es[..|es| - 1], Without(es', i), a);
      SumsWithout(es', i, a);
    }
  }

  lemma SameTable(m: Table, m1: Table, m2: Table)
    requires SameButBalances(m, m1) && SameButBalances(m, m2) && CoherentTable(m1) && CoherentTable(m2)
    requires forall id :: id in m ==> BalanceIn(m1, id) == BalanceIn(m2, id)
    ensures m1 == m2
  {
    forall id | id in m ensures m1[id] == m2[id] {
      assert BalanceIn(m1, id) == BalanceIn(m2, id);
      assert m1[id].balance == m2[id].balance;
    }
  }

  /** If two orders of the same entries both get through, they leave the same accounts. */
  lemma OrderDoesNotMatter(m: Table, es: seq<Entry>, es': seq<Entry>)
    requires CoherentTable(m) && AllAccepted(m, es) && AllAccepted(m, es')
    requires multiset(es) == multiset(es')
    ensures PostAll(m, es) == PostAll(m, es')
  {
    hide PostAll, AllAccepted, AccountSum, CoherentTable, SameButBalances, BalanceIn, Wrap;
    PostAllKeeps(m, es);
    PostAllKeeps(m, es');
    forall id | id in m ensures BalanceIn(PostAll(m, es), id) == BalanceIn(PostAll(m, es'), id) {
      PostAllBalance(m, es, id);
      PostAllBalance(m, es', id);
      SumsPermute(es, es', id);
    }
    SameTable(m, PostAll(m, es), PostAll(m, es'));
  }

  ghost predicate CreditsFirst(es: seq<Entry>) {
    forall i, j :: 0 <= i < j < |es| && es[i].kind.Debit? ==> !es[j].kind.Credit?
  }

  ghost predicate Positive(es: seq<Entry>) {
    forall i :: 0 <= i < |es| ==> es[i].amount.amount > 0
  }

  /** No balance can wrap while the entries are posted. */
  ghost predicate Roomy(m: Table, es: seq<Entry>) {
    forall id :: id in m ==> Abs(m[id].balance.amount) + Volume(es) < 0x8000_0000_0000_0000
  }

  lemma {:induction false} PrefixVolume(es: seq<Entry>, n: nat)
    requires n <= |es|
    ensures Volume(es[..n]) <= Volume(es)
    decreases |es|
  {
    if n < |es| {
      assert es[..|es| - 1][..n] == es[..n];
      PrefixVolume(es[..|es| - 1], n);
    } else {
      assert es[..n] == es;
    }
  }

  /** With room to spare, the wrapped prefix balance is the exact one. */
  lemma PrefixDoesNotWrap(m: Table, es: seq<Entry>, n: nat, a: AccountID)
    requires Roomy(m, es) && n <= |es| && a in m
    ensures Wrap(BalanceIn(m, a) + AccountSum(es[..n], a)) == BalanceIn(m, a) + AccountSum(es[..n], a)
  {
    AccountSumBound(es[..n], a);
    PrefixVolume(es, n);
  }

  /** Past the last debit of a its sum only rises. */
  lemma {:induction false} RisesWithoutDebits(es: seq<Entry>, n: nat, a: AccountID)
    requires n <= |es| && Positive(es)
    requires forall i :: n <= i < |es| && es[i].kind.Debit? ==> es[i].account != a
    ensures AccountSum(es[..n], a) <= AccountSum(es, a)
    decreases |es|
  {
    if n < |es| {
      assert es[..|es| - 1][..n] == es[..n];
      RisesWithoutDebits(es[..|es| - 1], n, a);
    } else {
      assert es[..n] == es;
    }
  }

  /** Past the last credit of a its sum only falls. */
  lemma {:induction false} FallsWithoutCredits(es: seq<Entry>, n: nat, a: AccountID)
    requires n <= |es| && Positive(es)
    requires forall i :: n <= i < |es| ==> !es[i].kind.Credit?
    ensures AccountSum(es, a) <= AccountSum(es[..n], a)
    decreases |es|
  {
    if n < |es| {
      assert es[..|es| - 1][..n] == es[..n];
      FallsWithoutCredits(es[..|es| - 1], n, a);
    } else {
      assert es[..n] == es;
    }
  }

  lemma {:induction false} LastDebit(es: seq<Entry>, a: AccountID) returns (j: nat)
    requires exists i :: 0 <= i < |es| && es[i].kind.Debit? && es[i].account == a
    ensures j < |es| && es[j].kind.Debit? && es[j].account == a
    ensures forall i :: j < i < |es| && es[i].kind.Debit? ==> es[i].account != a
  {
    var n := |es| - 1;
    if es[n].kind.Debit? && es[n].account == a {
      j := n;
    } else {
      var i :| 0 <= i < |es| && es[i].kind.Debit? && es[i].account == a;
      assert es[..n][i] == es[i];
      j := LastDebit(es[..n], a);
      assert forall i :: 0 <= i < n ==> es[..n][i] == es[i];
    }
  }

  /** An account guarded against overdraft that some accepted debit touches ends non-negative. */
  lemma GuardedEndsNonNegative(m: Table, es: seq<Entry>, i: nat)
    requires CoherentTable(m) && AllAccepted(m, es) && Positive(es) && Roomy(m, es)
    requires i < |es| && Guarded(m, es[i])
    ensures BalanceIn(m, es[i].account) + AccountSum(es, es[i].account) >= 0
  {
    var a := es[i].account;
    AllAcceptedIff(m, es);
    var j := LastDebit(es, a);
    assert Funded(m, es, j);
    PrefixDoesNotWrap(m, es, j + 1, a);
    RisesWithoutDebits(es, j + 1, a);
  }

  /**
   If some order of positive entries gets through, so does every order of them with credits before
   debits, as long as no balance can wrap.
   */
  lemma CreditsFirstSucceeds(m: Table, es: seq<Entry>, es': seq<Entry>)
    requires CoherentTable(m) && AllAccepted(m, es) && Positive(es) && Roomy(m, es)
    requires multiset(es) == multiset(es') && CreditsFirst(es')
    ensures AllAccepted(m, es') && PostAll(m, es') == PostAll(m, es)
  {
    hide PostAll, AllAccepted, AccountSum, CoherentTable, Positive, Roomy, SignedSum, Volume;
    PermutedRoom(m, es, es');
    AllAcceptedIff(m, es);
    forall k | 0 <= k < |es'| ensures Funded(m, es', k) {
      var e, a := es'[k], es'[k].account;
      assert e in multiset(es);
      var i :| 0 <= i < |es| && es[i] == e;
      assert Funded(m, es, i);
      if Guarded(m, e) {
        GuardedEndsNonNegative(m, es, i);
        SumsPermute(es, es', a);
        FallsWithoutCredits(es', k + 1, a);
        PrefixDoesNotWrap(m, es', k + 1, a);
      }
    }
    AllAcceptedIff(m, es');
    OrderDoesNotMatter(m, es, es');
  }

  lemma PermutedRoom(m: Table, es: seq<Entry>, es': seq<Entry>)
    requires Positive(es) && Roomy(m, es) && multiset(es) == multiset(es')
    ensures Positive(es') && Roomy(m, es')
  {
    SumsPermute(es, es', 0);
    forall i | 0 <= i < |es'| ensures es'[i].amount.amount > 0 {
      assert es'[i] in multiset(es);
    }
  }

  /** The constructor's checks do not depend on the order either. */
  lemma RejectionPermutes(es: seq<Entry>, es': seq<Entry>)
    requires multiset(es) == multiset(es') && Rejection(es) == None
    ensures Rejection(es') == None
  {
    assert |es| == |multiset(es)| == |multiset(es')| == |es'|;
    assert forall e :: e in es' ==> e in multiset(es);
    assert es'[0] in multiset(es);
    SumsPermute(es, es', 0);
    AcceptedIffBalanced(0, es, "");
    AcceptedIffBalanced(0, es', "");
  }

  // ---------------------------------------------------------------- the call itself

  lemma {:induction false} ToEntriesConcat(x: seq<EntryCmd>, y: seq<EntryCmd>)
    ensures ToEntries(x + y).Ok? <==> ToEntries(x).Ok? && ToEntries(y).Ok?
    ensures ToEntries(x + y).Ok? ==> ToEntries(x + y).value == ToEntries(x).value + ToEntries(y).value
  {
    if y == [] {
      assert x + y == x;
    } else {
      assert (x + y)[..|x + y| - 1] == x + y[..|y| - 1];
      ToEntriesConcat(x, y[..|y| - 1]);
    }
  }

  lemma Regroup(f: seq<Entry>, x: seq<Entry>, e: seq<Entry>, y: seq<Entry>)
    requires multiset(f) == multiset(x + y)
    ensures multiset(f + e) == multiset(x + (e + y))
  {
  }

  /** The entries of one command put among the others. */
  lemma EntriesAround(x: seq<EntryCmd>, c: EntryCmd, y: seq<EntryCmd>, front: seq<EntryCmd>)
    requires ToEntries(front + [c]).Ok?
    requires ToEntries(front).Ok? ==> ToEntries(x + y).Ok? && multiset(ToEntries(x + y).value) == multiset(ToEntries(front).value)
    ensures ToEntries(x + ([c] + y)).Ok?
    ensures multiset(ToEntries(x + ([c] + y)).value) == multiset(ToEntries(front + [c]).value)
  {
    hide ToEntries;
    ToEntriesConcat(front, [c]);
    ToEntriesConcat(x, y);
    ToEntriesConcat([c], y);
    ToEntriesConcat(x, [c] + y);
    Regroup(ToEntries(front).value, ToEntries(x).value, ToEntries([c]).value, ToEntries(y).value);
  }

  /** Commands that make entries make the same ones, in any order. */
  ghost predicate SameEntries(cmds: seq<EntryCmd>, cmds': seq<EntryCmd>) {
    ToEntries(cmds).Ok? ==> ToEntries(cmds').Ok? && multiset(ToEntries(cmds').value) == multiset(ToEntries(cmds).value)
  }

  lemma PutBack(cmds: seq<EntryCmd>, cmds': seq<EntryCmd>, i: nat)
    requires cmds != [] && i < |cmds'| && cmds'[i] == cmds[|cmds| - 1]
    requires SameEntries(cmds[..|cmds| - 1], Without(cmds', i))
    ensures SameEntries(cmds, cmds')
  {
    hide ToEntries;
    var n, c := |cmds| - 1, cmds'[i];
    assert cmds == cmds[..n] + [c];
    assert cmds' == cmds'[..i] + ([c] + cmds'[i + 1..]);
    if ToEntries(cmds).Ok? {
      ToEntriesConcat(cmds[..n], [c]);
      EntriesAround(cmds'[..i], c, cmds'[i + 1..], cmds[..n]);
    }
  }

  /** Permuted commands make permuted entries. */
  lemma {:induction false} EntriesPermute(cmds: seq<EntryCmd>, cmds': seq<EntryCmd>)
    requires multiset(cmds) == multiset(cmds')
    ensures SameEntries(cmds, cmds')
    decreases |cmds|
  {
    if cmds == [] {
      assert |multiset(cmds')| == |cmds'|;
    } else {
      hide SameEntries;
      var i := PickOut(cmds, cmds');
      EntriesPermute(cmds[..|cmds| - 1], Without(cmds', i));
      PutBack(cmds, cmds', i);
    }
  }

  ghost predicate CreditsFirstCmds(cmds: seq<EntryCmd>) {
    forall i, j :: 0 <= i < j < |cmds| && cmds[i].kind.Debit? ==> !cmds[j].kind.Credit?
  }

  lemma {:induction false} EntryKinds(cmds: seq<EntryCmd>)
    requires ToEntries(cmds).Ok?
    ensures |ToEntries(cmds).value| == |cmds|
    ensures forall i :: 0 <= i < |cmds| ==> ToEntries(cmds).value[i].kind == cmds[i].kind
  {
    if cmds != [] {
      var n := |cmds| - 1;
      EntryKinds(cmds[..n]);
      assert forall i :: 0 <= i < n ==> cmds[..n][i] == cmds[i];
    }
  }

  /**
   The same for the call: fault-free, if recording some order of a list of positive entries succeeds, then
   recording any credits-first order of it succeeds too and leaves the same accounts, as long as no balance
   can wrap.
   */
  lemma RecordCreditsFirst(st: State, env: Env, cmds: seq<EntryCmd>, cmds': seq<EntryCmd>, description: string)
    requires FaultFree(env) && WellFormed(st) && PositiveAmounts(cmds)
    requires forall id :: id in st.accounts ==> Abs(st.accounts[id].balance.amount) + AmountVolume(cmds) < 0x8000_0000_0000_0000
    requires multiset(cmds) == multiset(cmds') && CreditsFirstCmds(cmds')
    requires RecordTransaction(st, env, cmds, description).1.Ok?
    ensures RecordTransaction(st, env, cmds', description).1.Ok?
    ensures RecordTransaction(st, env, cmds', description).0.accounts == RecordTransaction(st, env, cmds, description).0.accounts
  {
    hide WellFormed, Commit, Rejection, AllAccepted, PostAll, CoherentTable, FaultFree, Volume;
    EntriesPermute(cmds, cmds');
    EntriesWithin(cmds);
    EntryKinds(cmds');
    var es, es', drawn := ToEntries(cmds).value, ToEntries(cmds').value, st.Draw();
    RejectionPermutes(es, es');
    assert CoherentTable(st.accounts) by { Coheres(st); }
    assert forall i :: 0 <= i < |st.tables.events| ==> st.tables.events[i].aggregate != st.nextId by { assert WellFormed(st); UnusedId(st); }
    CommitIff(drawn, env, Transaction(st.nextId, es, description));
    CreditsFirstSucceeds(st.accounts, es, es');
    CommitIff(drawn, env, Transaction(st.nextId, es', description));
  }

  lemma UnusedId(st: State)
    requires WellFormed(st)
    ensures forall i :: 0 <= i < |st.tables.events| ==> st.tables.events[i].aggregate != st.nextId
  {
  }

  lemma CommitIff(st: State, env: Env, tx: Transaction)
    requires FaultFree(env) && CoherentTable(st.accounts)
    requires forall i :: 0 <= i < |st.tables.events| ==> st.tables.events[i].aggregate != tx.id
    ensures Commit(st, env, tx).1.Ok? <==> AllAccepted(st.accounts, tx.entries)
    ensures Commit(st, env, tx).1.Ok? ==> Commit(st, env, tx).0.accounts == PostAll(st.accounts, tx.entries)
  {
    hide AllAccepted, PostAll, CoherentTable, ApplyEntries, FundedPrefix, Finish;
    LoopPosts(st, env, tx.entries);
    assert tx.entries[..|tx.entries|] == tx.entries;
    FinishSucceeds(ApplyEntries(st, env, tx.entries).0, env, tx);
  }
}
