/**
 * Client code for module Banking whose outcomes follow from the contracts
 * alone: concrete sessions the console driver could run with fixed inputs,
 * and a loop of balance checks on any valid account.
 */
module Scenarios {
  import opened Outcomes
  import opened AccountNumbers
  import opened Transactions
  import opened Banking

  /** Opening at 999.99 is refused and logged; opening at 1000.00 is kept. */
  method OpeningThreshold() returns (low: real, lowLog: seq<Transaction>, high: real, highLog: seq<Transaction>)
    ensures low == 0.0 && lowLog == [Transaction(0.0, FailedInitialDeposit, "t0", Savings)]
    ensures high == 1000.0 && highLog == [Transaction(1000.0, InitialDeposit, "t0", Savings)]
  {
    var counter := new AccountCounter();
    var a := new SavingsAccount(999.99, 2.5, counter, "t0");
    var b := new SavingsAccount(1000.0, 2.5, counter, "t0");
    low, lowLog, high, highLog := a.base.balance, a.base.log, b.base.balance, b.base.log;
  }

  /** The first two numbers a fresh counter hands out. */
  lemma FirstTwoNumbers()
    ensures AccountNumber(FirstCounterValue) == "ACC1000"
    ensures AccountNumber(FirstCounterValue + 1) == "ACC1001"
  {
    assert DecimalString(1000) == "1000" && DecimalString(1001) == "1001";
  }

  /** Two accounts opened without a number get ACC1000 and ACC1001; a supplied number is kept. */
  method Numbering() returns (first: string, second: string, supplied: string)
    ensures first == "ACC1000" && second == "ACC1001" && supplied == "CHQ-7"
  {
    var counter := new AccountCounter();
    var s := new SavingsAccount(1500.0, 1.0, counter, "t0");
    var c := new ChequingAccount(1500.0, 1.0, counter, "t0");
    var k := new ChequingAccount(1500.0, 1.0, counter, "t0", "CHQ-7");
    FirstTwoNumbers();
    first, second, supplied := s.base.accountNumber, c.base.accountNumber, k.base.accountNumber;
  }

  /** SavingsAccount(1000.00, 5.0) followed by AddInterest: balance 1050.00, one INTEREST record of 50.00. */
  method InterestScenario() returns (balance: real, log: seq<Transaction>)
    ensures balance == 1050.0
    ensures log == [Transaction(1000.0, InitialDeposit, "t0", Savings), Transaction(50.0, Interest, "t1", Savings)]
  {
    var counter := new AccountCounter();
    var s := new SavingsAccount(1000.0, 5.0, counter, "t0", "ACC-S");
    s.AddInterest("t1");
    balance, log := s.base.balance, s.base.log;
  }

  /**
   * ChequingAccount(1000.00, 2.50): depositing 10.00 leaves 1007.50 with DEPOSIT
   * and FEE logged; then depositing 2.00 fails because it does not exceed the fee.
   */
  method ChequingFeeScenario() returns (afterFirst: real, outcome: Outcome, afterSecond: real, log: seq<Transaction>)
    ensures afterFirst == 1007.5
    ensures outcome == FeeExceedsDeposit && afterSecond == 1007.5
    ensures log == [Transaction(1000.0, InitialDeposit, "t0", Chequing),
                    Transaction(10.0, Kind.Deposit, "t1", Chequing),
                    Transaction(2.5, Fee, "t1", Chequing),
                    Transaction(2.0, FailedDeposit, "t2", Chequing)]
  {
    var counter := new AccountCounter();
    var c := new ChequingAccount(1000.0, 2.5, counter, "t0", "ACC-C");
    var first := c.Deposit(10.0, "t1");
    afterFirst := c.base.balance;
    outcome := c.Deposit(2.0, "t2");
    afterSecond, log := c.base.balance, c.base.log;
  }

  /** Checking the balance twice returns it twice, changes nothing else and logs two inquiries. */
  method InquiryScenario() returns (first: real, second: real, log: seq<Transaction>)
    ensures first == second == 1200.0
    ensures log == [Transaction(1200.0, InitialDeposit, "t0", Savings),
                    Transaction(1200.0, BalanceInquiry, "t1", Savings),
                    Transaction(1200.0, BalanceInquiry, "t2", Savings)]
  {
    var counter := new AccountCounter();
    var s := new SavingsAccount(1200.0, 3.0, counter, "t0", "ACC-S");
    first := s.base.GetBalance("t1");
    second := s.base.GetBalance("t2");
    log := s.base.log;
  }

  /**
   * Checking the balance of any valid account `n` times: each call returns the
   * same balance, and the log grows by exactly `n` inquiries and nothing else.
   */
  method Inquiries(a: Account, n: nat, now: string) returns (balances: seq<real>)
    requires a.Valid()
    modifies a`log
    ensures a.Valid() && a.balance == old(a.balance)
    ensures balances == seq(n, _ => old(a.balance))
    ensures a.log == old(a.log) + seq(n, _ => Transaction(old(a.balance), BalanceInquiry, now, a.accountTypeName))
  {
    balances := [];
    var i := 0;
    while i < n
      invariant 0 <= i <= n
      invariant a.Valid() && a.balance == old(a.balance)
      invariant balances == seq(i, _ => old(a.balance))
      invariant a.log == old(a.log) + seq(i, _ => Transaction(old(a.balance), BalanceInquiry, now, a.accountTypeName))
    {
      var current := a.GetBalance(now);
      balances := balances + [current];
      i := i + 1;
    }
  }
}
