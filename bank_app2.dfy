/**
 * The log-less variant, OLDOOP/bank_app2.cpp: the same three classes, with
 * only a balance. Its chequing deposit is guarded differently from the later
 * versions: it asks whether the balance can pay the fee, not whether the
 * deposit exceeds it, so a small deposit can lower the balance. Its interest
 * rate is not checked, so a rate below -100 percent can make the balance
 * negative; the model therefore keeps no balance invariant and states, per
 * operation, when a non-negative balance stays non-negative.
 *
 * Inheritance is modelled by composition: SavingsAccount and ChequingAccount
 * hold their `Account` part as `base`.
 */
module BankApp2 {
  import opened Outcomes

  class Account {
    var balance: real

    /** A balance below the minimum is replaced by 0 (with a warning on the console). */
    constructor (initialBalance: real)
      ensures initialBalance >= MinimumOpeningBalance ==> balance == initialBalance
      ensures initialBalance < MinimumOpeningBalance ==> balance == 0.0
    {
      if initialBalance >= MinimumOpeningBalance {
        balance := initialBalance;
      } else {
        balance := 0.0;
      }
    }

    method Deposit(amount: real) returns (outcome: Outcome)
      modifies this
      ensures outcome == if amount > 0.0 then Ok else InvalidAmount
      ensures balance == if outcome == Ok then old(balance) + amount else old(balance)
    {
      if amount > 0.0 {
        balance := balance + amount;
        outcome := Ok;
      } else {
        outcome := InvalidAmount;
      }
    }

    method Withdraw(amount: real) returns (outcome: Outcome)
      modifies this
      ensures outcome == if amount <= 0.0 then InvalidAmount
                         else if amount <= old(balance) then Ok
                         else InsufficientFunds
      ensures balance == if outcome == Ok then old(balance) - amount else old(balance)
      ensures outcome == Ok ==> balance >= 0.0
    {
      if amount > 0.0 {
        if amount <= balance {
          balance := balance - amount;
          outcome := Ok;
        } else {
          outcome := InsufficientFunds;
        }
      } else {
        outcome := InvalidAmount;
      }
    }

    /** A pure read. */
    method GetBalance() returns (current: real)
      ensures current == balance
    {
      current := balance;
    }
  }

  class SavingsAccount {
    const base: Account
    /** As a percentage; not validated. */
    const interestRate: real

    constructor (initialBalance: real, rate: real)
      ensures fresh(base) && interestRate == rate
      ensures initialBalance >= MinimumOpeningBalance ==> base.balance == initialBalance
      ensures initialBalance < MinimumOpeningBalance ==> base.balance == 0.0
    {
      base := new Account(initialBalance);
      interestRate := rate;
    }

    function CalculateInterest(): (interest: real)
      reads this, base
      ensures interest * 100.0 == base.balance * interestRate
      ensures base.balance >= 0.0 && interestRate >= 0.0 ==> interest >= 0.0
      ensures base.balance >= 0.0 && interestRate >= -100.0 ==> base.balance + interest >= 0.0
    {
      var interest := base.balance * (interestRate / 100.0);
      assert base.balance + interest == base.balance * (1.0 + interestRate / 100.0);
      interest
    }

    /** Credits the interest unconditionally, whatever its sign. */
    method AddInterest()
      modifies base
      ensures base.balance == old(base.balance) + old(CalculateInterest())
      ensures old(base.balance) >= 0.0 && interestRate >= -100.0 ==> base.balance >= 0.0
    {
      var interest := CalculateInterest();
      base.balance := base.balance + interest;
    }
  }

  class ChequingAccount {
    const base: Account
    const transactionFee: real

    constructor (initialBalance: real, fee: real)
      ensures fresh(base) && transactionFee == fee
      ensures initialBalance >= MinimumOpeningBalance ==> base.balance == initialBalance
      ensures initialBalance < MinimumOpeningBalance ==> base.balance == 0.0
    {
      base := new Account(initialBalance);
      transactionFee := fee;
    }

    /** Debits amount plus fee only when the balance covers both. */
    method Withdraw(amount: real) returns (outcome: Outcome)
      modifies base
      ensures outcome == if amount <= 0.0 then InvalidAmount
                         else if amount + transactionFee <= old(base.balance) then Ok
                         else InsufficientFunds
      ensures base.balance == if outcome == Ok then old(base.balance) - (amount + transactionFee)
                              else old(base.balance)
      ensures outcome == Ok ==> base.balance >= 0.0
    {
      if amount > 0.0 {
        var totalAmount := amount + transactionFee;
        if totalAmount <= base.balance {
          base.balance := base.balance - totalAmount;
          outcome := Ok;
        } else {
          outcome := InsufficientFunds;
        }
      } else {
        outcome := InvalidAmount;
      }
    }

    /**
     * Succeeds when the amount is positive and the balance can pay the fee;
     * a successful deposit smaller than the fee lowers the balance.
     */
    method Deposit(amount: real) returns (outcome: Outcome)
      modifies base
      ensures outcome == if amount <= 0.0 then InvalidAmount
                         else if transactionFee <= old(base.balance) then Ok
                         else InsufficientFunds
      ensures base.balance == if outcome == Ok then old(base.balance) - transactionFee + amount
                              else old(base.balance)
      ensures outcome == Ok ==> (base.balance < old(base.balance) <==> amount < transactionFee)
      ensures outcome == Ok ==> base.balance > 0.0
    {
      if amount > 0.0 {
        if transactionFee <= base.balance {
          base.balance := base.balance - transactionFee;
          base.balance := base.balance + amount;
          outcome := Ok;
        } else {
          outcome := InsufficientFunds;
        }
      } else {
        outcome := InvalidAmount;
      }
    }
  }
}
