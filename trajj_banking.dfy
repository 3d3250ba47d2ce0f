/**
 * The copy of the ledger in OLDOOP/trajj_banking.cpp. Its rules are
 * those of Banking.cpp; it differs in where a record's account type comes
 * from: every record, the opening one included, is tagged with the virtual
 * `getAccountType()`. Calling that pure virtual from the base constructor is
 * undefined behaviour in C++; the model passes the derived class's type to the
 * base constructor instead and keeps it as `accountType`.
 *
 * Inheritance is modelled by composition as in module Banking: SavingsAccount
 * and ChequingAccount hold their `Account` part as `base`.
 */
module TrajjBanking {
  import opened Outcomes
  import opened AccountNumbers
  import opened Transactions

  const Savings: string := "SAVINGS"
  const Chequing: string := "CHEQUING"

  class Account {
    var balance: real
    var log: seq<Transaction>
    const accountNumber: string
    /** What the derived class's `getAccountType()` returns. */
    const accountType: string

    /**
     * The ledger invariant: the balance is never negative, it is exactly what
     * the log accounts for, the log starts with the opening record, and every
     * record carries this account's type.
     */
    ghost predicate Valid()
      reads this
    {
      && balance >= 0.0
      && balance == Net(log)
      && |log| > 0 && OpensLedger(log[0])
      && forall i :: 0 <= i < |log| ==> log[i].accountType == accountType
    }

    /** Construction never fails: a low opening balance is replaced by 0 and logged as a failure. */
    constructor (initialBalance: real, accType: string, counter: AccountCounter, now: string, accNum: string := "")
      requires counter.Valid()
      modifies counter
      ensures Valid() && counter.Valid()
      ensures accountType == accType && OpenedWith(balance, log, initialBalance, accType, now)
      ensures accNum != "" ==> accountNumber == accNum && unchanged(counter)
      ensures accNum == "" ==> accountNumber == AccountNumber(old(counter.next))
                                && counter.issued == old(counter.issued) + [accountNumber]
    {
      var number := accNum;
      if accNum == "" {
        number := counter.Generate();
      }
      accountNumber := number;
      this.accountType := accType;
      if initialBalance >= MinimumOpeningBalance {
        balance := initialBalance;
        log := [Transaction(initialBalance, InitialDeposit, now, accType)];
      } else {
        balance := 0.0;
        log := [Transaction(0.0, FailedInitialDeposit, now, accType)];
      }
    }

    /** `addToLog`: the only way records enter the log, at its end. */
    method AddToLog(t: Transaction)
      modifies this`log
      ensures log == old(log) + [t]
    {
      log := log + [t];
    }

    method Deposit(amount: real, now: string) returns (outcome: Outcome)
      requires Valid()
      modifies this
      ensures Valid()
      ensures outcome == if amount <= 0.0 then InvalidAmount else Ok
      ensures outcome == Ok ==>
                balance == old(balance) + amount
                && log == old(log) + [Transaction(amount, Kind.Deposit, now, accountType)]
      ensures outcome != Ok ==>
                balance == old(balance)
                && log == old(log) + [Transaction(amount, FailedDeposit, now, accountType)]
    {
      if amount <= 0.0 {
        outcome := InvalidAmount;
        AddToLog(Transaction(amount, FailedDeposit, now, accountType));
      } else {
        outcome := Ok;
        balance := balance + amount;
        AddToLog(Transaction(amount, Kind.Deposit, now, accountType));
      }
      NetOfAppendedRecord(old(log), log[|log| - 1]);
    }

    method Withdraw(amount: real, now: string) returns (outcome: Outcome)
      requires Valid()
      modifies this
      ensures Valid()
      ensures outcome == if amount <= 0.0 then InvalidAmount
                         else if amount <= old(balance) then Ok
                         else InsufficientFunds
      ensures outcome == Ok ==>
                balance == old(balance) - amount
                && log == old(log) + [Transaction(amount, Kind.Withdrawal, now, accountType)]
      ensures outcome != Ok ==>
                balance == old(balance)
                && log == old(log) + [Transaction(amount, FailedWithdrawal, now, accountType)]
    {
      if amount <= 0.0 {
        outcome := InvalidAmount;
        AddToLog(Transaction(amount, FailedWithdrawal, now, accountType));
      } else if amount <= balance {
        outcome := Ok;
        balance := balance - amount;
        AddToLog(Transaction(amount, Kind.Withdrawal, now, accountType));
      } else {
        outcome := InsufficientFunds;
        AddToLog(Transaction(amount, FailedWithdrawal, now, accountType));
      }
      NetOfAppendedRecord(old(log), log[|log| - 1]);
    }

    /** Declared const, yet it logs the inquiry: only `log` may change. */
    method GetBalance(now: string) returns (current: real)
      requires Valid()
      modifies this`log
      ensures Valid()
      ensures current == balance
      ensures log == old(log) + [Transaction(balance, BalanceInquiry, now, accountType)]
    {
      AddToLog(Transaction(balance, BalanceInquiry, now, accountType));
      NetOfAppendedRecord(old(log), log[|log| - 1]);
      current := balance;
    }

    /** The lines `Account::report` prints (a const member: it reads the account only). */
    function Report(money: real -> string): (lines: seq<string>)
      reads this
      ensures |lines| == 9 + |History(log, money)|
      ensures lines[0] == "" && lines[1] == "=== TRANSACTION REPORT ==="
      ensures lines[2..|lines| - 1] == AccountSummary(accountNumber, accountType, balance, log, money)
      ensures lines[8..|lines| - 1] == History(log, money)
      ensures lines[|lines| - 1] == "====================="
    {
      ["", "=== TRANSACTION REPORT ==="]
      + AccountSummary(accountNumber, accountType, balance, log, money)
      + ["====================="]
    }

    /**
     * The lines `saveReportToFile` writes when the file opens; `generated` is
     * the clock reading it takes. It carries the same account summary as Report.
     */
    function SavedReport(generated: string, money: real -> string): (lines: seq<string>)
      reads this
      ensures |lines| == |Report(money)|
      ensures lines[0] == "=== TRAJJ BANKING SERVICES - TRANSACTION REPORT ==="
      ensures lines[1] == "Generated: " + generated
      ensures lines[2..|lines| - 1] == Report(money)[2..|Report(money)| - 1]
      ensures lines[|lines| - 1] == "==================================================="
    {
      ["=== TRAJJ BANKING SERVICES - TRANSACTION REPORT ===", "Generated: " + generated]
      + AccountSummary(accountNumber, accountType, balance, log, money)
      + ["==================================================="]
    }
  }

  /** A valid account's log is never empty, so its report never takes the "no transactions" branch. */
  lemma ReportAlwaysListsRecords(a: Account, money: real -> string)
    requires a.Valid()
    ensures a.Report(money)[8..|a.Report(money)| - 1] == HistoryLines(a.log, money)
    ensures a.Report(money)[8] == Report(a.log[0], money)
  {
  }

  class SavingsAccount {
    const base: Account
    /** As a percentage: 2.5 means 2.5%. */
    const interestRate: real

    ghost predicate Valid()
      reads this, base
    {
      base.Valid() && base.accountType == Savings
    }

    constructor (initialBalance: real, rate: real, counter: AccountCounter, now: string, accNum: string := "")
      requires counter.Valid()
      modifies counter
      ensures Valid() && counter.Valid() && fresh(base)
      ensures interestRate == rate
      ensures OpenedWith(base.balance, base.log, initialBalance, Savings, now)
      ensures accNum != "" ==> base.accountNumber == accNum && unchanged(counter)
      ensures accNum == "" ==> base.accountNumber == AccountNumber(old(counter.next))
                                && counter.issued == old(counter.issued) + [base.accountNumber]
    {
      base := new Account(initialBalance, Savings, counter, now, accNum);
      interestRate := rate;
    }

    /** Interest on the current balance at `interestRate` percent; nothing changes. */
    function CalculateInterest(): (interest: real)
      reads this, base
      requires Valid()
      ensures interest * 100.0 == base.balance * interestRate
      ensures interest > 0.0 <==> base.balance > 0.0 && interestRate > 0.0
      ensures interest == 0.0 <==> base.balance == 0.0 || interestRate == 0.0
    {
      var interest := base.balance * (interestRate / 100.0);
      assert base.balance > 0.0 && interestRate > 0.0 ==> interest > 0.0;
      assert base.balance > 0.0 && interestRate < 0.0 ==> interest < 0.0;
      interest
    }

    /** Credits and logs the interest when it is positive; otherwise a complete no-op. */
    method AddInterest(now: string)
      requires Valid()
      modifies base
      ensures Valid()
      ensures var interest := old(CalculateInterest());
              if interest > 0.0 then
                base.balance == old(base.balance) + interest
                && base.log == old(base.log) + [Transaction(interest, Interest, now, Savings)]
              else
                base.balance == old(base.balance) && base.log == old(base.log)
    {
      var interest := CalculateInterest();
      if interest > 0.0 {
        base.balance := base.balance + interest;
        base.AddToLog(Transaction(interest, Interest, now, Savings));
        NetOfAppendedRecord(old(base.log), base.log[|base.log| - 1]);
      }
    }

    /** `SavingsAccount::report`: the base report, then the rate and the interest available now. */
    function Report(money: real -> string): (lines: seq<string>)
      reads this, base
      requires Valid()
      ensures |lines| == |base.Report(money)| + 2
      ensures lines[..|base.Report(money)|] == base.Report(money)
      ensures lines[|base.Report(money)|..] ==
                InterestLines(interestRate, CalculateInterest(), money)
    {
      base.Report(money)
      + InterestLines(interestRate, CalculateInterest(), money)
    }
  }

  class ChequingAccount {
    const base: Account
    const transactionFee: real

    ghost predicate Valid()
      reads this, base
    {
      base.Valid() && base.accountType == Chequing
    }

    constructor (initialBalance: real, fee: real, counter: AccountCounter, now: string, accNum: string := "")
      requires counter.Valid()
      modifies counter
      ensures Valid() && counter.Valid() && fresh(base)
      ensures transactionFee == fee
      ensures OpenedWith(base.balance, base.log, initialBalance, Chequing, now)
      ensures accNum != "" ==> base.accountNumber == accNum && unchanged(counter)
      ensures accNum == "" ==> base.accountNumber == AccountNumber(old(counter.next))
                                && counter.issued == old(counter.issued) + [base.accountNumber]
    {
      base := new Account(initialBalance, Chequing, counter, now, accNum);
      transactionFee := fee;
    }

    /** Debits amount plus fee and logs WITHDRAWAL then FEE, or logs one FAILED_WITHDRAWAL. */
    method Withdraw(amount: real, now: string) returns (outcome: Outcome)
      requires Valid()
      modifies base
      ensures Valid()
      ensures outcome == if amount <= 0.0 then InvalidAmount
                         else if amount + transactionFee <= old(base.balance) then Ok
                         else InsufficientFunds
      ensures outcome == Ok ==>
                base.balance == old(base.balance) - (amount + transactionFee)
                && base.log == old(base.log) + [Transaction(amount, Kind.Withdrawal, now, Chequing),
                                                Transaction(transactionFee, Fee, now, Chequing)]
      ensures outcome != Ok ==>
                base.balance == old(base.balance)
                && base.log == old(base.log) + [Transaction(amount, FailedWithdrawal, now, Chequing)]
    {
      if amount <= 0.0 {
        outcome := InvalidAmount;
        base.AddToLog(Transaction(amount, FailedWithdrawal, now, Chequing));
      } else {
        var totalAmount := amount + transactionFee;
        if totalAmount <= base.balance {
          outcome := Ok;
          base.balance := base.balance - totalAmount;
          base.AddToLog(Transaction(amount, Kind.Withdrawal, now, Chequing));
          base.AddToLog(Transaction(transactionFee, Fee, now, Chequing));
        } else {
          outcome := InsufficientFunds;
          base.AddToLog(Transaction(amount, FailedWithdrawal, now, Chequing));
        }
      }
      NetAppend(old(base.log), base.log[|old(base.log)|..]);
      assert old(base.log) + base.log[|old(base.log)|..] == base.log;
    }

    /** Credits amount minus fee and logs DEPOSIT then FEE, or logs one FAILED_DEPOSIT. */
    method Deposit(amount: real, now: string) returns (outcome: Outcome)
      requires Valid()
      modifies base
      ensures Valid()
      ensures outcome == if amount <= 0.0 then InvalidAmount
                         else if amount > transactionFee then Ok
                         else FeeExceedsDeposit
      ensures outcome == Ok ==>
                base.balance == old(base.balance) + amount - transactionFee
                && base.log == old(base.log) + [Transaction(amount, Kind.Deposit, now, Chequing),
                                                Transaction(transactionFee, Fee, now, Chequing)]
      ensures outcome != Ok ==>
                base.balance == old(base.balance)
                && base.log == old(base.log) + [Transaction(amount, FailedDeposit, now, Chequing)]
    {
      if amount <= 0.0 {
        outcome := InvalidAmount;
        base.AddToLog(Transaction(amount, FailedDeposit, now, Chequing));
      } else if amount > transactionFee {
        outcome := Ok;
        base.balance := base.balance + (amount - transactionFee);
        base.AddToLog(Transaction(amount, Kind.Deposit, now, Chequing));
        base.AddToLog(Transaction(transactionFee, Fee, now, Chequing));
      } else {
        outcome := FeeExceedsDeposit;
        base.AddToLog(Transaction(amount, FailedDeposit, now, Chequing));
      }
      NetAppend(old(base.log), base.log[|old(base.log)|..]);
      assert old(base.log) + base.log[|old(base.log)|..] == base.log;
    }

    /** `ChequingAccount::report`: the base report, then the fee. */
    function Report(money: real -> string): (lines: seq<string>)
      reads this, base
      ensures |lines| == |base.Report(money)| + 1
      ensures lines[..|base.Report(money)|] == base.Report(money)
      ensures lines[|base.Report(money)|..] == FeeLines(transactionFee, money)
    {
      base.Report(money) + FeeLines(transactionFee, money)
    }
  }
}
