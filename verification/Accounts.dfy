/** The account entity: value receivers that return a changed copy. */
module Accounts {
  import opened Results
  import opened Money

  /** A UUID; 0 is the nil UUID, and fresh identifiers are drawn from an increasing supply. */
  type AccountID = nat

  datatype AccountType = Asset | Liability | Equity

  datatype Status = Active | Suspended | Closed

  datatype Account = Account(
    id: AccountID,
    name: string,
    kind: AccountType,
    currency: Currency,
    balance: Money,
    status: Status)

  function NewAccountWithType(id: AccountID, name: string, kind: AccountType, currency: Currency): (r: Result<Account>)
    ensures r.Ok? <==> name != "" && ValidCurrency(currency)
  {
    if name == "" then Err(EmptyName)
    else match NewMoney(0, currency)
      case Err(e) => Err(e)
      case Ok(zero) => Ok(Account(id, name, kind, currency, zero, Active))
  }

  predicate AllowsNegativeBalance(a: Account) {
    a.kind.Liability? || a.kind.Equity?
  }

  function ValidateOperation(a: Account, amount: Money): Option<Error> {
    if !a.status.Active? then Some(AccountNotActive)
    else if amount.amount == 0 then Some(ZeroAmount)
    else if amount.currency != a.currency then Some(CurrencyMismatch)
    else None
  }

  function Credit(a: Account, amount: Money): Result<Account> {
    match ValidateOperation(a, amount)
    case Some(e) => Err(e)
    case None =>
      match Add(a.balance, amount)
      case Err(e) => Err(e)
      case Ok(sum) => Ok(a.(balance := sum))
  }

  function Debit(a: Account, amount: Money): Result<Account> {
    match ValidateOperation(a, amount)
    case Some(e) => Err(e)
    case None =>
      match Subtract(a.balance, amount)
      case Err(e) => Err(e)
      case Ok(rest) =>
        if rest.amount < 0 && !AllowsNegativeBalance(a) then Err(InsufficientFunds)
        else Ok(a.(balance := rest))
  }

  function Suspend(a: Account): Account {
    if a.status.Active? then a.(status := Suspended) else a
  }

  function Reactivate(a: Account): Account {
    if a.status.Suspended? then a.(status := Active) else a
  }

  function Close(a: Account): Account {
    if !a.status.Closed? then a.(status := Closed) else a
  }

  datatype Operation =
    | DoCredit(amount: Money)
    | DoDebit(amount: Money)
    | DoSuspend
    | DoReactivate
    | DoClose

  /** One operation; a refused one leaves the account as it was. */
  function Operate(a: Account, op: Operation): Account {
    match op
    case DoCredit(m) => (match Credit(a, m) case Ok(b) => b case Err(_) => a)
    case DoDebit(m) => (match Debit(a, m) case Ok(b) => b case Err(_) => a)
    case DoSuspend => Suspend(a)
    case DoReactivate => Reactivate(a)
    case DoClose => Close(a)
  }

  function OperateAll(a: Account, ops: seq<Operation>): Account
    decreases ops
  {
    if ops == [] then a else OperateAll(Operate(a, ops[0]), ops[1..])
  }

  /** The balance is kept in the account's own currency. */
  predicate Coherent(a: Account) {
    a.balance.currency == a.currency && ValidCurrency(a.currency)
  }

  /** Everything but the balance and the status is fixed when the account is opened. */
  predicate SameIdentity(a: Account, b: Account) {
    a.id == b.id && a.name == b.name && a.kind == b.kind && a.currency == b.currency
  }

  /**
   Over every sequence of operations an account keeps its identity and its currency, and a closed
   account is frozen: no sequence of operations changes anything about it.
   */
  lemma {:induction false} LifecycleKeepsIdentity(a: Account, ops: seq<Operation>)
    requires Coherent(a)
    ensures SameIdentity(a, OperateAll(a, ops)) && Coherent(OperateAll(a, ops))
    ensures a.status.Closed? ==> OperateAll(a, ops) == a
    decreases ops
  {
    if ops != [] {
      LifecycleKeepsIdentity(Operate(a, ops[0]), ops[1..]);
    }
  }

  /**
   The lifecycle: only an active account can be suspended, only a suspended one reactivated, and closing is
   final; suspending and reactivating an active account gives it back unchanged; the balance is never
   touched; and an account that is not active takes no credit and no debit, whatever the amount.
   */
  lemma LifecycleLaws(a: Account, amount: Money)
    ensures Suspend(a).status == (if a.status == Active then Suspended else a.status)
    ensures Reactivate(a).status == (if a.status == Suspended then Active else a.status)
    ensures Close(a).status == Closed && Reactivate(Close(a)) == Suspend(Close(a)) == Close(a)
    ensures Suspend(a).balance == Reactivate(a).balance == Close(a).balance == a.balance
    ensures a.status == Active ==> Reactivate(Suspend(a)) == a
    ensures a.status != Active ==> Credit(a, amount) == Err(AccountNotActive) && Debit(a, amount) == Err(AccountNotActive)
  {
  }

  /**
   "Debit exceeding balance is always rejected (asset accounts)", exactly: a debit the account would
   otherwise take, for more than its balance, is rejected if and only if the difference fits in int64.
   */
  lemma ExcessiveDebitRejectedIff(a: Account, amount: Money)
    requires Coherent(a) && a.kind.Asset? && ValidateOperation(a, amount) == None && a.balance.amount < amount.amount
    ensures Debit(a, amount).Err? <==> a.balance.amount - amount.amount >= -0x8000_0000_0000_0000
  {
    var rest := a.balance.amount - amount.amount;
    if rest < -0x8000_0000_0000_0000 {
      assert Wrap(rest) == Wrap(rest + 0x1_0000_0000_0000_0000) == rest + 0x1_0000_0000_0000_0000;
    }
  }

  /** Where it fails: at the lowest balance a debit of 1 is accepted and leaves the highest. */
  lemma ExcessiveDebitAccepted(a: Account)
    requires Coherent(a) && a.kind.Asset? && a.status.Active? && a.balance.amount == -0x8000_0000_0000_0000
    ensures Debit(a, Money(1, a.currency)) == Ok(a.(balance := Money(0x7FFF_FFFF_FFFF_FFFF, a.currency)))
  {
    assert Wrap(-0x8000_0000_0000_0001) == Wrap(0x7FFF_FFFF_FFFF_FFFF);
  }
}
