/** Entries, double-entry transactions, and the sums used to state conservation. */
module Transactions {
  import opened Results
  import opened Money
  import opened Accounts

  type TransactionID = nat

  /** Entry types are free text in the source; every text but the two known ones is Unknown. */
  datatype EntryType = Debit | Credit | Unknown(text: string)

  datatype Entry = Entry(account: AccountID, amount: Money, kind: EntryType)

  datatype Transaction = Transaction(id: TransactionID, entries: seq<Entry>, description: string)

  /** What an entry means to the write model: credits add, debits subtract, unknown types do nothing. */
  function Signed(e: Entry): int {
    match e.kind
    case Credit => e.amount.amount
    case Debit => 0 - e.amount.amount
    case Unknown(_) => 0
  }

  function Abs(x: int): nat {
    if x < 0 then -x else x
  }

  /** Exact signed sum of all entries. */
  function SignedSum(es: seq<Entry>): int {
    if es == [] then 0 else SignedSum(es[..|es| - 1]) + Signed(es[|es| - 1])
  }

  /** Exact signed sum of the entries that touch account a. */
  function AccountSum(es: seq<Entry>, a: AccountID): int {
    if es == [] then 0
    else
      var last := es[|es| - 1];
      AccountSum(es[..|es| - 1], a) + if last.account == a then Signed(last) else 0
  }

  /** Exact signed sum of the entries in currency c. */
  function CurrencySum(es: seq<Entry>, c: Currency): int {
    if es == [] then 0
    else
      var last := es[|es| - 1];
      CurrencySum(es[..|es| - 1], c) + if last.amount.currency == c then Signed(last) else 0
  }

  /** Exact total of the amounts of one entry type. */
  function KindSum(es: seq<Entry>, kind: EntryType): int {
    if es == [] then 0
    else
      var last := es[|es| - 1];
      KindSum(es[..|es| - 1], kind) + if last.kind == kind then last.amount.amount else 0
  }

  /** Total magnitude moved by a list of entries. */
  function Volume(es: seq<Entry>): nat {
    if es == [] then 0 else Volume(es[..|es| - 1]) + Abs(es[|es| - 1].amount.amount)
  }

  /** Appending one entry adds its contribution to each sum. */
  lemma PushAccount(es: seq<Entry>, e: Entry, a: AccountID)
    ensures AccountSum(es + [e], a) == AccountSum(es, a) + if e.account == a then Signed(e) else 0
  {
    assert (es + [e])[..|es|] == es;
  }

  lemma PushCurrency(es: seq<Entry>, e: Entry, c: Currency)
    ensures CurrencySum(es + [e], c) == CurrencySum(es, c) + if e.amount.currency == c then Signed(e) else 0
  {
    assert (es + [e])[..|es|] == es;
  }

  lemma PushKind(es: seq<Entry>, e: Entry, kind: EntryType)
    ensures KindSum(es + [e], kind) == KindSum(es, kind) + if e.kind == kind then e.amount.amount else 0
  {
    assert (es + [e])[..|es|] == es;
  }

  lemma {:induction false} AccountSumConcat(x: seq<Entry>, y: seq<Entry>, a: AccountID)
    ensures AccountSum(x + y, a) == AccountSum(x, a) + AccountSum(y, a)
  {
    if y == [] {
      assert x + y == x;
    } else {
      assert (x + y)[..|x + y| - 1] == x + y[..|y| - 1];
      AccountSumConcat(x, y[..|y| - 1], a);
    }
  }

  lemma {:induction false} VolumeConcat(a: seq<Entry>, b: seq<Entry>)
    ensures Volume(a + b) == Volume(a) + Volume(b)
  {
    if b == [] {
      assert a + b == a;
    } else {
      assert (a + b)[..|a + b| - 1] == a + b[..|b| - 1];
      VolumeConcat(a, b[..|b| - 1]);
    }
  }

  lemma {:induction false} AccountSumBound(es: seq<Entry>, a: AccountID)
    ensures Abs(AccountSum(es, a)) <= Volume(es)
  {
    if es != [] {
      AccountSumBound(es[..|es| - 1], a);
    }
  }

  ghost predicate SameCurrency(es: seq<Entry>) {
    forall e :: e in es ==> e.amount.currency == es[0].amount.currency
  }

  ghost predicate NoZeroAmount(es: seq<Entry>) {
    forall e :: e in es ==> e.amount.amount != 0
  }

  /** The first check that a list of entries fails, in the order the constructor makes them. */
  ghost function Rejection(es: seq<Entry>): Option<Error> {
    if |es| == 0 then Some(NoEntries)
    else if |es| < 2 then Some(InsufficientEntries)
    else if !NoZeroAmount(es) then Some(ZeroAmount)
    else if !SameCurrency(es) then Some(CurrencyMismatch)
    else if Wrap(KindSum(es, Debit)) != Wrap(KindSum(es, Credit)) then Some(UnbalancedTransaction)
    else None
  }

  ghost function Built(id: TransactionID, es: seq<Entry>, description: string): Result<Transaction> {
    match Rejection(es)
    case Some(e) => Err(e)
    case None => Ok(Transaction(id, es, description))
  }

  /** The validating constructor: int64 totals accumulated entry by entry. */
  method NewTransaction(id: TransactionID, params: seq<Entry>, description: string) returns (r: Result<Transaction>)
    ensures r == Built(id, params, description)
  {
    if |params| == 0 {
      return Err(NoEntries);
    }
    if |params| < 2 {
      return Err(InsufficientEntries);
    }
    for i := 0 to |params|
      invariant forall k :: 0 <= k < i ==> params[k].amount.amount != 0
    {
      if params[i].amount.amount == 0 {
        return Err(ZeroAmount);
      }
    }
    var currency := params[0].amount.currency;
    for i := 1 to |params|
      invariant forall k :: 0 <= k < i ==> params[k].amount.currency == currency
    {
      if params[i].amount.currency != currency {
        return Err(CurrencyMismatch);
      }
    }
    var totalDebits: int64, totalCredits: int64 := 0, 0;
    assert Wrap(0) == 0;
    hide Wrap;
    for i := 0 to |params|
      invariant totalDebits == Wrap(KindSum(params[..i], Debit))
      invariant totalCredits == Wrap(KindSum(params[..i], Credit))
    {
      assert params[..i + 1][..i] == params[..i];
      var amount := params[i].amount.amount;
      match params[i].kind {
        case Debit =>
          WrapAdd(KindSum(params[..i], Debit), amount);
          totalDebits := Wrap(totalDebits + amount);
        case Credit =>
          WrapAdd(KindSum(params[..i], Credit), amount);
          totalCredits := Wrap(totalCredits + amount);
        case Unknown(_) =>
      }
    }
    assert params[..|params|] == params;
    if totalDebits != totalCredits {
      return Err(UnbalancedTransaction);
    }
    return Ok(Transaction(id, params, description));
  }

  lemma {:induction false} SignedSumSplits(es: seq<Entry>)
    ensures SignedSum(es) == KindSum(es, Credit) - KindSum(es, Debit)
    ensures Abs(SignedSum(es)) <= Volume(es)
  {
    if es != [] {
      SignedSumSplits(es[..|es| - 1]);
    }
  }

  /**
   The double-entry invariant as the code really keeps it. Among entries that pass the other checks,
   the constructor accepts exactly those whose signed sum is zero modulo 2^64; when the amounts total
   less than 2^64 in magnitude that is exactly zero.
   */
  lemma AcceptedIffBalanced(id: TransactionID, es: seq<Entry>, description: string)
    requires |es| >= 2 && NoZeroAmount(es) && SameCurrency(es)
    ensures Built(id, es, description).Ok? <==> Wrap(SignedSum(es)) == 0
    ensures Volume(es) < 0x1_0000_0000_0000_0000 ==>
              (Built(id, es, description).Ok? <==> SignedSum(es) == 0)
  {
    hide KindSum, SignedSum, Volume, NoZeroAmount, SameCurrency;
    assert Wrap(0) == 0;
    hide Wrap;
    SignedSumSplits(es);
    WrapCongruent(KindSum(es, Debit), KindSum(es, Credit));
    WrapCongruent(KindSum(es, Credit), KindSum(es, Debit));
    WrapCongruent(SignedSum(es), 0);
  }

  /** Every answer of the constructor's checks, from the entries themselves and in their order. */
  lemma RejectionIs(es: seq<Entry>)
    ensures Rejection(es) ==
              if |es| == 0 then Some(NoEntries)
              else if |es| == 1 then Some(InsufficientEntries)
              else if exists i :: 0 <= i < |es| && es[i].amount.amount == 0 then Some(ZeroAmount)
              else if exists i :: 0 <= i < |es| && es[i].amount.currency != es[0].amount.currency then Some(CurrencyMismatch)
              else if Wrap(SignedSum(es)) != 0 then Some(UnbalancedTransaction)
              else None
  {
    hide KindSum, SignedSum, Wrap;
    if |es| >= 2 && NoZeroAmount(es) && SameCurrency(es) {
      AcceptedIffBalanced(0, es, "");
    }
  }

  /** n equal entries. */
  function Copies(e: Entry, n: nat): (es: seq<Entry>)
    ensures |es| == n && forall x :: x in es ==> x == e
  {
    if n == 0 then [] else Copies(e, n - 1) + [e]
  }

  lemma {:induction false} CopiesSum(e: Entry, n: nat)
    requires e.kind.Debit?
    ensures KindSum(Copies(e, n), Debit) == n * e.amount.amount
    ensures KindSum(Copies(e, n), Credit) == 0
  {
    if n > 0 {
      CopiesSum(e, n - 1);
      PushKind(Copies(e, n - 1), e, Debit);
      PushKind(Copies(e, n - 1), e, Credit);
    }
  }

  /** Entries that pass the other checks and whose totals wrap to the same int64 are accepted. */
  lemma CopiesAccepted(e: Entry, n: nat)
    requires n >= 2 && e.amount.amount != 0
    requires Wrap(KindSum(Copies(e, n), Debit)) == Wrap(KindSum(Copies(e, n), Credit))
    ensures Rejection(Copies(e, n)) == None
  {
    hide KindSum, Wrap, Copies;
    assert Copies(e, n)[0] in Copies(e, n);
  }

  /** Beyond that bound unbalanced entries are accepted: 4n debits of 2^62 and no credit at all. */
  lemma {:induction false} UnbalancedAccepted(id: TransactionID, a: AccountID, n: nat)
    requires n > 0
    ensures var es := Copies(Entry(a, Money(0x4000_0000_0000_0000, "USD"), Debit), 4 * n);
            && Built(id, es, "") == Ok(Transaction(id, es, ""))
            && SignedSum(es) == -0x1_0000_0000_0000_0000 * n
  {
    hide KindSum, SignedSum, Wrap, Rejection, Copies;
    var d := Entry(a, Money(0x4000_0000_0000_0000, "USD"), Debit);
    var total := 0x1_0000_0000_0000_0000 * n;
    CopiesSum(d, 4 * n);
    assert (4 * n) * d.amount.amount == total;
    SignedSumSplits(Copies(d, 4 * n));
    WrapCongruent(total, 0);
    CopiesAccepted(d, 4 * n);
  }

  /** In a one-currency list the currency sum is the whole sum, and zero for any other currency. */
  lemma {:induction false} CurrencySumOfOne(es: seq<Entry>, own: Currency, c: Currency)
    requires forall e :: e in es ==> e.amount.currency == own
    ensures CurrencySum(es, c) == if c == own then SignedSum(es) else 0
  {
    if es != [] {
      CurrencySumOfOne(es[..|es| - 1], own, c);
    }
  }
}
