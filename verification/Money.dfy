/**
 Money as an int64 amount in the smallest unit of one of five currencies.
 Go's int64 addition wraps silently; `Wrap` says so explicitly, and every balance statement in
 this project has the form `balance == Wrap(exact integer)`.
 */
module Money {
  import opened Results

  type int64 = x: int | -0x8000_0000_0000_0000 <= x < 0x8000_0000_0000_0000

  type Currency = string

  datatype Money = Money(amount: int64, currency: Currency)

  predicate ValidCurrency(c: Currency) {
    c == "USD" || c == "MYR" || c == "SGD" || c == "EUR" || c == "GBP"
  }

  predicate FitsInt64(x: int) {
    -0x8000_0000_0000_0000 <= x < 0x8000_0000_0000_0000
  }

  /** The int64 that two's complement arithmetic leaves for the exact integer x. */
  function Wrap(x: int): (w: int64)
    decreases if x < 0 then -x else x + 1
  {
    if x >= 0x8000_0000_0000_0000 then Wrap(x - 0x1_0000_0000_0000_0000)
    else if x < -0x8000_0000_0000_0000 then Wrap(x + 0x1_0000_0000_0000_0000)
    else x
  }

  lemma WrapPeriod(x: int)
    ensures Wrap(x + 0x1_0000_0000_0000_0000) == Wrap(x)
  {
  }

  /** Wrapping after every addition gives the same int64 as wrapping the exact sum once. */
  lemma {:induction false} WrapAdd(x: int, y: int)
    ensures Wrap(Wrap(x) + y) == Wrap(x + y)
    decreases if x < 0 then -x else x + 1
  {
    if x >= 0x8000_0000_0000_0000 {
      WrapAdd(x - 0x1_0000_0000_0000_0000, y);
      WrapPeriod(x - 0x1_0000_0000_0000_0000 + y);
    } else if x < -0x8000_0000_0000_0000 {
      WrapAdd(x + 0x1_0000_0000_0000_0000, y);
      WrapPeriod(x + y);
    }
  }

  /** Wrapping changes a number by a multiple of 2^64. */
  lemma {:induction false} WrapQuotient(x: int) returns (k: int)
    ensures x == Wrap(x) + 0x1_0000_0000_0000_0000 * k
    decreases if x < 0 then -x else x + 1
  {
    k := 0;
    if x >= 0x8000_0000_0000_0000 {
      k := WrapQuotient(x - 0x1_0000_0000_0000_0000);
      k := k + 1;
    } else if x < -0x8000_0000_0000_0000 {
      k := WrapQuotient(x + 0x1_0000_0000_0000_0000);
      k := k - 1;
    }
  }

  /** Two integers wrap to the same int64 exactly when they differ by a multiple of 2^64. */
  lemma WrapCongruent(x: int, y: int)
    ensures Wrap(x) == Wrap(y) <==> (x - y) % 0x1_0000_0000_0000_0000 == 0
  {
    hide Wrap;
    var j := WrapQuotient(x);
    var k := WrapQuotient(y);
    assert x - y == (Wrap(x) - Wrap(y)) + 0x1_0000_0000_0000_0000 * (j - k);
  }

  function NewMoney(amount: int64, currency: Currency): (r: Result<Money>)
    ensures r.Ok? <==> currency in {"USD", "MYR", "SGD", "EUR", "GBP"}
    ensures r.Ok? ==> r.value.amount == amount && r.value.currency == currency
    ensures r.Err? ==> r.error == InvalidCurrency
  {
    if ValidCurrency(currency) then Ok(Money(amount, currency)) else Err(InvalidCurrency)
  }

  function Add(m: Money, other: Money): Result<Money> {
    if m.currency != other.currency then Err(CurrencyMismatch)
    else Ok(Money(Wrap(m.amount + other.amount), m.currency))
  }

  function Subtract(m: Money, other: Money): Result<Money> {
    if m.currency != other.currency then Err(CurrencyMismatch)
    else Ok(Money(Wrap(m.amount - other.amount), m.currency))
  }

  function Negate(m: Money): Money {
    Money(Wrap(0 - m.amount), m.currency)
  }

  /**
   For every pair of amounts of one currency, overflow included: subtracting undoes adding, adding the
   negation is subtracting, and negating twice is the identity. Across currencies both operations refuse,
   with the error for mismatched currencies.
   */
  lemma MoneyGroupLaws(m: Money, other: Money)
    ensures Add(m, other).Ok? <==> m.currency == other.currency
    ensures Subtract(m, other).Ok? <==> m.currency == other.currency
    ensures m.currency != other.currency ==> Add(m, other) == Err(CurrencyMismatch) && Subtract(m, other) == Err(CurrencyMismatch)
    ensures m.currency == other.currency ==>
              && Subtract(Add(m, other).value, other) == Ok(m)
              && Add(m, Negate(other)) == Subtract(m, other)
              && Negate(Negate(other)) == other
  {
    if m.currency == other.currency {
      WrapAdd(m.amount + other.amount, 0 - other.amount);
      WrapAdd(0 - other.amount, m.amount);
      WrapCongruent(0 - Wrap(0 - other.amount), other.amount);
    }
  }
}
