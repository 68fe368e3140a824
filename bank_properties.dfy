/** Properties of the ledger that relate several calls: the balance invariant
    over any sequence of calls, what a transfer does to the total held by the
    two accounts, the quirks of a transfer whose withdrawal fails, and the
    inverse relation between withdrawal and deposit. */
module BankProperties {
  import opened BankAccounts

  /** One call a client makes on a single account. Seen from the source
      account, a transfer out of it is a withdrawal; seen from the
      destination, a transfer into it is a deposit. */
  datatype Call = DepositCall(amount: real) | WithdrawCall(amount: real)

  /** The balance after one call. A `ValueError` from a reward deposit
      leaves the balance as it was, so a client that handles it carries on
      from the same balance. */
  function Step(kind: Kind, balance: real, call: Call): real
  {
    match call
    case DepositCall(amount) => DepositEffect(kind, balance, amount).balance
    case WithdrawCall(amount) => WithdrawnBalance(balance, amount)
  }

  /** The balance after the calls, in order. */
  function Run(kind: Kind, balance: real, calls: seq<Call>): real
    decreases |calls|
  {
    if calls == [] then balance else Run(kind, Step(kind, balance, calls[0]), calls[1..])
  }

  /** The deposits a client makes are never negative. Only a base account
      needs this: a reward account refuses non-positive deposits itself. */
  predicate NoNegativeDeposits(kind: Kind, calls: seq<Call>)
  {
    kind == Basic ==>
      forall i :: 0 <= i < |calls| && calls[i].DepositCall? ==> calls[i].amount >= 0.0
  }

  /** An account that starts with a non-negative balance keeps one through
      any sequence of withdrawals, transfers and deposits, as long as no
      negative amount is deposited into a base account. */
  lemma {:induction false} RunKeepsBalanceNonNegative(kind: Kind, balance: real, calls: seq<Call>)
    requires balance >= 0.0
    requires NoNegativeDeposits(kind, calls)
    ensures Run(kind, balance, calls) >= 0.0
    decreases |calls|
  {
    if calls != [] {
      var next := Step(kind, balance, calls[0]);
      assert kind == Basic && calls[0].DepositCall? ==> calls[0].amount >= 0.0;
      assert next >= 0.0;
      assert NoNegativeDeposits(kind, calls[1..]) by {
        if kind == Basic {
          forall i | 0 <= i < |calls[1..]| && calls[1..][i].DepositCall?
            ensures calls[1..][i].amount >= 0.0
          {
            assert calls[1..][i] == calls[i + 1];
          }
        }
      }
      RunKeepsBalanceNonNegative(kind, next, calls[1..]);
    }
  }

  /** A reward account that starts non-negative stays non-negative whatever
      its client calls. */
  lemma RewardRunKeepsBalanceNonNegative(balance: real, calls: seq<Call>)
    requires balance >= 0.0
    ensures Run(InterestRewards, balance, calls) >= 0.0
  {
    RunKeepsBalanceNonNegative(InterestRewards, balance, calls);
  }

  /** The hypothesis on deposits is needed: a base account accepts a
      negative deposit, which takes a zero balance below zero. */
  lemma NegativeBasicDepositBreaksInvariant()
    ensures Run(Basic, 0.0, [DepositCall(-1.0)]) == -1.0
  {
    assert Run(Basic, -1.0, []) == -1.0;
  }

  /** A covered withdrawal is undone by a base deposit of the same amount. */
  lemma BasicDepositUndoesWithdraw(balance: real, amount: real)
    requires balance >= amount
    ensures DepositEffect(Basic, WithdrawnBalance(balance, amount), amount).balance == balance
  {
  }

  /** A deposit that returns normally into a non-negative account is undone
      by withdrawing the amount it credited. */
  lemma WithdrawUndoesDeposit(kind: Kind, balance: real, amount: real)
    requires balance >= 0.0
    requires DepositEffect(kind, balance, amount).outcome == Normal
    ensures WithdrawnBalance(DepositEffect(kind, balance, amount).balance, Credit(kind, amount)) == balance
  {
  }

  /** The example of the reward deposit: depositing 100 adds 105. */
  lemma RewardDepositOfHundred(balance: real)
    ensures DepositEffect(InterestRewards, balance, 100.0) == Effect(balance + 105.0, Normal)
  {
  }

  /** A transfer the source covers, into a distinct base account, moves the
      amount: the total held by the two accounts is unchanged. */
  lemma CoveredBasicTransferConservesTotal(source: real, dest: real, amount: real)
    requires source >= amount
    ensures var r := TransferEffect(source, Basic, dest, amount);
      r.source == source - amount && r.dest == dest + amount && r.outcome == Normal &&
      r.source + r.dest == source + dest
  {
  }

  /** A covered transfer of a positive amount into a reward account adds
      105% of it to the destination: the total grows by a twentieth. */
  lemma CoveredRewardTransferAddsBonus(source: real, dest: real, amount: real)
    requires source >= amount && amount > 0.0
    ensures var r := TransferEffect(source, InterestRewards, dest, amount);
      r.source == source - amount && r.dest == dest + amount * 21.0 / 20.0 &&
      r.outcome == Normal && r.source + r.dest == source + dest + amount / 20.0
  {
  }

  /** When the source does not cover the amount, the source is left as it
      was but the destination is credited all the same, and the call
      returns normally. */
  lemma UncoveredTransferStillCredits(source: real, destKind: Kind, dest: real, amount: real)
    requires source < amount
    requires destKind == Basic || amount > 0.0
    ensures var r := TransferEffect(source, destKind, dest, amount);
      r.source == source && r.dest == dest + Credit(destKind, amount) && r.outcome == Normal
  {
  }

  /** So an uncovered transfer between two base accounts changes the total
      held by the two accounts by the amount. The total grows when the
      amount is positive, which is always the case when the source balance
      is non-negative; an uncovered negative amount (possible only from a
      negative source balance) lowers it. */
  lemma UncoveredBasicTransferAddsAmount(source: real, dest: real, amount: real)
    requires source < amount
    ensures var r := TransferEffect(source, Basic, dest, amount);
      r.source + r.dest == source + dest + amount &&
      (amount > 0.0 ==> r.source + r.dest > source + dest) &&
      (amount < 0.0 ==> r.source + r.dest < source + dest)
    ensures source >= 0.0 ==> amount > 0.0
  {
  }

  /** The edge case: from a source of -10, a transfer of -5 is uncovered,
      yet the base destination is still deposited -5, so the total falls. */
  lemma UncoveredNegativeTransferLowersTotal()
    ensures TransferEffect(-10.0, Basic, 0.0, -5.0) == TransferResult(-10.0, -5.0, Normal)
  {
  }

  /** A non-positive transfer into a reward account still runs the
      withdrawal (a negative amount that the source covers credits the
      source), and then the destination's `ValueError` escapes with the
      destination untouched. */
  lemma NonPositiveRewardTransferRaisesAfterWithdraw(source: real, dest: real, amount: real)
    requires amount <= 0.0
    ensures var r := TransferEffect(source, InterestRewards, dest, amount);
      r.outcome == Raised(ValueError) && r.dest == dest &&
      r.source == (if source >= amount then source - amount else source) &&
      r.source >= source
  {
  }

  /** A base account transferring to itself: a covered transfer leaves the
      balance as it was, an uncovered one credits the amount. */
  lemma BasicSelfTransfer(balance: real, amount: real)
    ensures SelfTransferEffect(Basic, balance, amount) ==
      if balance >= amount then Effect(balance, Normal) else Effect(balance + amount, Normal)
  {
  }

  /** What a client can conclude from the contracts of the class alone. */
  method Scenario()
  {
    var alice := new BankAccount(100.0, "Alice");
    alice.Withdraw(150.0);
    assert alice.balance == 100.0;
    alice.Withdraw(40.0);
    assert alice.balance == 60.0;

    var bob := new BankAccount(0.0, "Bob");
    var o := alice.Transfer(50.0, bob);
    assert alice.balance == 10.0 && bob.balance == 50.0 && o == Normal;

    // Alice no longer covers 50, yet Bob is credited again.
    o := alice.Transfer(50.0, bob);
    assert alice.balance == 10.0 && bob.balance == 100.0 && o == Normal;

    var carol := new BankAccount.InterestRewardsAcct(0.0, "Carol");
    o := carol.Deposit(100.0);
    assert carol.balance == 105.0 && o == Normal;
    o := carol.Deposit(-1.0);
    assert carol.balance == 105.0 && o == Raised(ValueError);

    // A transfer of 0 into Carol runs Bob's withdrawal, then raises.
    o := bob.Transfer(0.0, carol);
    assert bob.balance == 100.0 && carol.balance == 105.0 && o == Raised(ValueError);

    var b := bob.GetBalance();
    assert b == 100.0;
  }
}
