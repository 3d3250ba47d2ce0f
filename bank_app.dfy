/**
 * The single-account program, bank_app.cpp: one plain account with a balance and no
 * log. Its invariant is that the balance is never negative: the constructor
 * establishes it and every operation keeps it, so it holds after any
 * sequence of deposits and withdrawals.
 */
module BankApp {
  import opened Outcomes

  class Account {
    var balance: real

    ghost predicate Valid()
      reads this
    {
      balance >= 0.0
    }

    constructor (initialBalance: real)
      ensures Valid()
      ensures initialBalance >= MinimumOpeningBalance ==> balance == initialBalance
      ensures initialBalance < MinimumOpeningBalance ==> balance == 0.0
    {
      if initialBalance >= MinimumOpeningBalance {
        balance := initialBalance;
      } else {
        balance := 0.0;
      }
    }

    /** Adds a positive amount; anything else changes nothing. */
    method Deposit(amount: real) returns (outcome: Outcome)
      requires Valid()
      modifies this
      ensures Valid()
      ensures outcome == if amount > 0.0 then Ok else InvalidAmount
      ensures balance == if outcome == Ok then old(balance) + amount else old(balance)
    {
      if amount > 0.0 {
        balance := balance + amount;
        outcome := Ok;
      } else {
        outcome := InvalidAmount;
      }
    }

    /** Subtracts an amount in (0, balance]; anything else changes nothing. */
    method Withdraw(amount: real) returns (outcome: Outcome)
      requires Valid()
      modifies this
      ensures Valid()
      ensures outcome == if amount <= 0.0 then InvalidAmount
                         else if amount <= old(balance) then Ok
                         else InsufficientFunds
      ensures balance == if outcome == Ok then old(balance) - amount else old(balance)
    {
      if amount > 0.0 {
        if amount <= balance {
          balance := balance - amount;
          outcome := Ok;
        } else {
          outcome := InsufficientFunds;
        }
      } else {
        outcome := InvalidAmount;
      }
    }

    /** A pure read. */
    method GetBalance() returns (current: real)
      ensures current == balance
    {
      current := balance;
    }
  }
}
