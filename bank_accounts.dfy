/** A small in-memory ledger: named accounts holding a balance, with deposit,
    withdrawal and transfer, and a reward variant whose deposit credits 105%.

    The two account classes of the original (a base account and an
    interest-rewards account that overrides only the deposit) become one class
    whose constant `kind` records which of the two an object is. The two
    exceptions the original raises become values of `Exception`, and an
    operation that may raise returns an `Outcome`.

    Balances are exact reals: the original uses binary floating point, whose
    rounding is not modelled, and its factor 1.05 is written as 21/20.
 */
module BankAccounts {

  /** The runtime class of an account object. */
  datatype Kind = Basic | InterestRewards

  /** The two exceptions the ledger can raise. */
  datatype Exception =
    | BalanceException  // the balance does not cover the amount
    | ValueError        // a reward deposit of a non-positive amount

  /** How a call returns: normally, or by raising an exception. */
  datatype Outcome = Normal | Raised(exception: Exception)

  /** The factor a reward deposit applies: 1.05. */
  const RewardRate: real := 21.0 / 20.0

  /** The guard of a withdrawal: the balance covers the amount. */
  predicate Viable(balance: real, amount: real)
  {
    balance >= amount
  }

  /** What the viability check does for a given balance: return normally
      exactly when the balance covers the amount, and otherwise raise
      `BalanceException` (never any other exception). */
  function ViableOutcome(balance: real, amount: real): (o: Outcome)
    ensures o == Normal <==> balance >= amount
    ensures o != Normal ==> o == Raised(BalanceException)
  {
    if Viable(balance, amount) then Normal else Raised(BalanceException)
  }

  /** The amount a deposit that returns normally adds to the balance. */
  function Credit(kind: Kind, amount: real): (c: real)
    ensures kind == Basic ==> c == amount
    ensures kind == InterestRewards ==> c == amount + amount / 20.0
    ensures kind == InterestRewards && amount > 0.0 ==> c > amount
  {
    match kind
    case Basic => amount
    case InterestRewards => amount * RewardRate
  }

  /** The balance after a call together with how the call returned. */
  datatype Effect = Effect(balance: real, outcome: Outcome)

  /** What a deposit of `amount` does to an account of the given kind and
      balance. A basic deposit accepts every amount, negative ones included,
      and never raises; a reward deposit raises `ValueError` for a
      non-positive amount, before touching the balance. */
  function DepositEffect(kind: Kind, balance: real, amount: real): (r: Effect)
    ensures r.outcome != Normal <==> kind == InterestRewards && amount <= 0.0
    ensures r.outcome != Normal ==> r.outcome == Raised(ValueError) && r.balance == balance
    ensures r.outcome == Normal ==> r.balance == balance + Credit(kind, amount)
    ensures kind == Basic ==> r.balance - balance == amount
    ensures kind == InterestRewards ==> r.balance >= balance
  {
    match kind
    case Basic => Effect(balance + amount, Normal)
    case InterestRewards =>
      if amount <= 0.0 then Effect(balance, Raised(ValueError))
      else Effect(balance + amount * RewardRate, Normal)
  }

  /** The balance after a withdrawal of `amount`: debited when the balance
      covers the amount, which leaves it non-negative, and untouched
      otherwise. A withdrawal never raises. */
  function WithdrawnBalance(balance: real, amount: real): (r: real)
    ensures balance >= amount ==> r == balance - amount && r >= 0.0
    ensures balance < amount ==> r == balance
    ensures r != balance <==> balance >= amount && amount != 0.0
  {
    if ViableOutcome(balance, amount) == Normal then balance - amount else balance
  }

  /** The state of two distinct accounts after a transfer, and how the
      transfer returned. */
  datatype TransferResult = TransferResult(source: real, dest: real, outcome: Outcome)

  /** What a transfer of `amount` from an account with balance `source` to
      a different account of kind `destKind` with balance `dest` does. The
      source is debited only when it covers the amount, yet the destination
      is credited in every case; a `ValueError` from a reward destination
      escapes after the source has already been debited; a
      `BalanceException` never escapes. */
  function TransferEffect(source: real, destKind: Kind, dest: real, amount: real): (r: TransferResult)
    ensures r.source == WithdrawnBalance(source, amount)
    ensures r.dest == DepositEffect(destKind, dest, amount).balance
    ensures r.outcome == DepositEffect(destKind, dest, amount).outcome
    ensures r.outcome != Raised(BalanceException)
  {
    var debited := WithdrawnBalance(source, amount);
    var credited := DepositEffect(destKind, dest, amount);
    TransferResult(debited, credited.balance, credited.outcome)
  }

  /** What a transfer of `amount` from an account to itself does: the
      withdrawal and then the deposit both act on the same balance. */
  function SelfTransferEffect(kind: Kind, balance: real, amount: real): (r: Effect)
    ensures balance >= amount ==> r == DepositEffect(kind, balance - amount, amount)
    ensures balance < amount ==> r == DepositEffect(kind, balance, amount)
    ensures r.outcome != Raised(BalanceException)
  {
    DepositEffect(kind, WithdrawnBalance(balance, amount), amount)
  }

  /** A bank account. Its balance and name are stored as given; the balance
      changes only through `Deposit`, `Withdraw` and `Transfer`. */
  class BankAccount {
    var balance: real
    var name: string
    const kind: Kind

    /** A base account, with no check on the amount's sign. */
    constructor (initialAmount: real, acctName: string)
      ensures balance == initialAmount && name == acctName && kind == Basic
    {
      balance := initialAmount;
      name := acctName;
      kind := Basic;
    }

    /** An interest-rewards account; it shares the base initialisation. */
    constructor InterestRewardsAcct(initialAmount: real, acctName: string)
      ensures balance == initialAmount && name == acctName && kind == InterestRewards
    {
      balance := initialAmount;
      name := acctName;
      kind := InterestRewards;
    }

    /** The current balance; nothing changes. */
    method GetBalance() returns (r: real)
      ensures r == balance
    {
      r := balance;
    }

    /** Checks that the balance covers `amount`, raising `BalanceException`
        otherwise; nothing changes. */
    method ViableTransaction(amount: real) returns (o: Outcome)
      ensures o == Normal <==> balance >= amount
      ensures o == ViableOutcome(balance, amount)
    {
      if balance >= amount {
        o := Normal;
      } else {
        o := Raised(BalanceException);
      }
    }

    /** The base deposit: adds any amount, negative ones included. */
    method BasicDeposit(amount: real)
      modifies this
      ensures balance == old(balance) + amount
      ensures balance == DepositEffect(Basic, old(balance), amount).balance
      ensures name == old(name)
    {
      balance := balance + amount;
    }

    /** The reward deposit: refuses a non-positive amount with `ValueError`,
        otherwise adds 105% of the amount. */
    method RewardDeposit(amount: real) returns (o: Outcome)
      modifies this
      ensures o == (if amount <= 0.0 then Raised(ValueError) else Normal)
      ensures balance == if amount <= 0.0 then old(balance) else old(balance) + amount * RewardRate
      ensures balance == DepositEffect(InterestRewards, old(balance), amount).balance
      ensures o == DepositEffect(InterestRewards, old(balance), amount).outcome
      ensures name == old(name)
    {
      if amount <= 0.0 {
        return Raised(ValueError);
      }
      balance := balance + amount * RewardRate;
      o := Normal;
    }

    /** A deposit, dispatched on the account's runtime class. */
    method Deposit(amount: real) returns (o: Outcome)
      modifies this
      ensures balance == DepositEffect(kind, old(balance), amount).balance
      ensures o == DepositEffect(kind, old(balance), amount).outcome
      ensures name == old(name)
    {
      match kind
      case Basic =>
        BasicDeposit(amount);
        o := Normal;
      case InterestRewards =>
        o := RewardDeposit(amount);
    }

    /** Debits `amount` when the balance covers it. A failed check is caught
        here (the original only reports it on the console), so the caller
        sees a normal return either way. */
    method Withdraw(amount: real)
      modifies this
      ensures balance == WithdrawnBalance(old(balance), amount)
      ensures name == old(name)
    {
      var viable := ViableTransaction(amount);
      if viable == Normal {
        balance := balance - amount;
      }
    }

    /** Withdraws `amount` from this account, then deposits it into
        `account`, which may be this very account. The deposit runs whether
        or not the withdrawal debited anything. A `ValueError` from the
        deposit escapes; the `BalanceException` handler around the two calls
        can never fire, since the withdrawal already caught that exception. */
    method Transfer(amount: real, account: BankAccount) returns (o: Outcome)
      modifies this, account
      ensures account != this ==>
        var r := TransferEffect(old(balance), account.kind, old(account.balance), amount);
        balance == r.source && account.balance == r.dest && o == r.outcome
      ensures account == this ==>
        var r := SelfTransferEffect(kind, old(balance), amount);
        balance == r.balance && o == r.outcome
      ensures o != Raised(BalanceException)
      ensures name == old(name) && account.name == old(account.name)
    {
      Withdraw(amount);
      o := account.Deposit(amount);
      // The handler for BalanceException is unreachable:
      assert o != Raised(BalanceException);
    }
  }
}
