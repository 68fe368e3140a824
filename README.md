# Bank accounts ledger

A model of `bank_accounts.py`: named accounts holding a balance, with
deposit, withdrawal and transfer between accounts, and an interest-rewards
variant whose deposit credits 105% of the amount and refuses non-positive
amounts.

- `bank_accounts.dfy`, module `BankAccounts`: the class `BankAccount`, whose
  fields `balance` and `name` are updated in place and whose constant `kind`
  says whether the object is a base account or an `InterestRewardsAcct`.
  The override of `deposit` becomes a dispatch on `kind`. The exceptions
  `BalanceException` and `ValueError` become `Outcome` values. Every method
  that changes state is tied by its `ensures` to a value-level function
  (`DepositEffect`, `WithdrawnBalance`, `TransferEffect`,
  `SelfTransferEffect`), and those functions state what the code promises.
  `BasicDeposit` and `RewardDeposit` also state their new balance as an
  explicit expression of the old one.
- `bank_properties.dfy`, module `BankProperties`: properties that relate
  several calls. These are the balance invariant over any sequence of calls,
  what a transfer does to the total of two accounts, the quirks of a transfer
  whose withdrawal fails, and withdrawal and deposit as inverses. A client
  method `Scenario` walks through a session with three accounts.

Two behaviours of the code are kept as written:

- `withdraw` catches its own `BalanceException`, so that `transfert` deposits
  into the destination even when nothing was withdrawn, and its
  `except BalanceException` clause can never run. With a base
  destination, the total of the two balances then changes by the amount. An uncovered transfer of a positive
  amount creates money, and the amount is always positive when the source
  balance is non-negative. The `except BalanceException` wrapped around
  both calls in `transfert` (bank_accounts.py:109-113) suggests that a
  transfer the source cannot cover was meant to credit nobody. The model
  follows the code (`UncoveredTransferStillCredits`,
  `UncoveredBasicTransferAddsAmount`, `UncoveredNegativeTransferLowersTotal`).
- A base deposit accepts negative amounts and lowers the balance. So
  "deposits never decrease the balance" holds only for the reward account
  (`DepositEffect`, `NegativeBasicDepositBreaksInvariant`).

Balances are exact reals, and 1.05 is written as 21/20.

## Model

| member | source | states |
|---|---|---|
| `BankAccounts.BankAccount.constructor` | bank_accounts.py:30-39 | a base account stores the initial amount and the name exactly as given, with no check of sign |
| `BankAccounts.BankAccount.InterestRewardsAcct` | bank_accounts.py:116-122 | a reward account is initialised the same way, with the reward kind |
| `BankAccounts.BankAccount.GetBalance` | bank_accounts.py:47-54 | returns the current balance and changes nothing |
| `BankAccounts.ViableOutcome` | bank_accounts.py:77-83 | the check returns normally iff balance >= amount, and otherwise raises exactly `BalanceException` |
| `BankAccounts.BankAccount.ViableTransaction` | bank_accounts.py:65-83 | the method call behaves as `ViableOutcome` of the current balance and changes nothing |
| `BankAccounts.Credit` | bank_accounts.py:124-136 | a successful deposit credits the amount itself into a base account (the `+=` of line 63), and amount + amount/20 (more than the amount, when positive) into a reward account |
| `BankAccounts.DepositEffect` | bank_accounts.py:124-136 | for both the base deposit of lines 56-63 and the reward deposit: a deposit raises iff the account is a reward account and amount <= 0; the exception is then `ValueError` and leaves the balance untouched; a base deposit changes the balance by exactly the amount, whatever its sign; a reward deposit never lowers the balance |
| `BankAccounts.BankAccount.BasicDeposit` | bank_accounts.py:56-63 | the new balance is the old balance plus the amount, for any amount; the name is unchanged |
| `BankAccounts.BankAccount.RewardDeposit` | bank_accounts.py:124-136 | raises `ValueError` with the balance unchanged when amount <= 0; otherwise adds amount * 21/20 |
| `BankAccounts.BankAccount.Deposit` | bank_accounts.py:116-124 | a deposit dispatches on the runtime class of the account, so its effect and its outcome are `DepositEffect` of that class |
| `BankAccounts.WithdrawnBalance` | bank_accounts.py:95-99 | a covered withdrawal subtracts the amount and leaves a non-negative balance; an uncovered one leaves the balance as it was; the balance changes iff the withdrawal is covered and the amount is non-zero |
| `BankAccounts.BankAccount.Withdraw` | bank_accounts.py:85-99 | the new balance is `WithdrawnBalance` of the old balance; it never raises (it has no outcome); the name is unchanged |
| `BankAccounts.TransferEffect` | bank_accounts.py:109-113 | between two distinct accounts, the source ends as after a withdrawal, the destination is credited as by its own deposit whatever happened to the source, and the transfer returns as that deposit does, so it never raises `BalanceException` |
| `BankAccounts.SelfTransferEffect` | bank_accounts.py:101-113 | a transfer to the same account deposits into the debited balance when covered, and into the untouched balance when not; it never raises `BalanceException` |
| `BankAccounts.BankAccount.Transfer` | bank_accounts.py:101-113 | two distinct accounts end as `TransferEffect` says and one account transferring to itself ends as `SelfTransferEffect` says; the `BalanceException` handler is unreachable; names are unchanged |
| `BankProperties.RunKeepsBalanceNonNegative` | bank_accounts.py:56-99 | from a non-negative balance, any sequence of withdrawals and deposits keeps the balance non-negative, provided that no negative amount is deposited into a base account |
| `BankProperties.RewardRunKeepsBalanceNonNegative` | bank_accounts.py:124-136 | a reward account that starts non-negative stays non-negative under any sequence of calls on exact reals, because it refuses non-positive deposits itself |
| `BankProperties.NegativeBasicDepositBreaksInvariant` | bank_accounts.py:63 | a base deposit of -1 into a zero balance leaves -1, so the hypothesis above is needed |
| `BankProperties.BasicDepositUndoesWithdraw` | bank_accounts.py:56-99 | a covered withdrawal followed by a base deposit of the same amount restores the balance |
| `BankProperties.WithdrawUndoesDeposit` | bank_accounts.py:56-99 | from a non-negative balance, a deposit that returns normally followed by withdrawing what it credited restores the balance |
| `BankProperties.RewardDepositOfHundred` | bank_accounts.py:131-136 | depositing 100 into a reward account adds exactly 105 |
| `BankProperties.CoveredBasicTransferConservesTotal` | bank_accounts.py:109-111 | a covered transfer between distinct base accounts moves the amount and keeps the total of the two balances |
| `BankProperties.CoveredRewardTransferAddsBonus` | bank_accounts.py:109-111 | a covered positive transfer into a reward account debits the amount, credits amount * 21/20 and grows the total by amount/20 |
| `BankProperties.UncoveredTransferStillCredits` | bank_accounts.py:95-111 | when the source does not cover the amount, the source is unchanged, yet the destination is credited and the call returns normally |
| `BankProperties.UncoveredBasicTransferAddsAmount` | bank_accounts.py:95-111 | an uncovered transfer between base accounts changes the total of the two balances by exactly the amount: it grows for a positive amount and falls for a negative one; from a non-negative source an uncovered amount is always positive |
| `BankProperties.UncoveredNegativeTransferLowersTotal` | bank_accounts.py:95-111 | from a source of -10, an uncovered transfer of -5 leaves the source at -10 and still deposits -5 into a base destination at 0 |
| `BankProperties.NonPositiveRewardTransferRaisesAfterWithdraw` | bank_accounts.py:109-112 | a non-positive transfer into a reward account first runs the withdrawal, which never lowers the source here, then lets the destination's `ValueError` escape with the destination untouched |
| `BankProperties.BasicSelfTransfer` | bank_accounts.py:101-113 | a base account transferring to itself keeps its balance when covered and gains the amount when not |

## Left out

- `get_acct_data` and the `print` calls in `withdraw` and `transfert` are not modelled. They only write text to the console and do not affect any balance.
- The exception messages are not modelled, including the account name and the balance formatted to two decimals. Exceptions are represented by their type only.
- Floating-point rounding is not modelled. Balances and amounts are exact reals, and `amount*1.05` is the exact `amount * 21/20`.
- Non-finite floats (`inf`, `nan`) are not modelled. With them the invariant lemmas fail in the original: `nan <= 0` is false, so a reward account accepts a deposit of `nan`, and a deposit of `inf` followed by a withdrawal of `inf` leaves `nan`.
- The model does not cover Python's dynamic typing. Here a balance is always a real and a name always a string. The original stores whatever values it is given.
- The model does not cover changing an object's class after construction. The `kind` of an account is fixed when it is created.
