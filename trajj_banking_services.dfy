/**
 * The variant in OLDOOP/TrajjBankingServices.cpp. Its rules differ from the
 * other ledgers: a constructor refuses an opening balance below the minimum
 * by throwing, so no account exists; the opening deposit is not logged;
 * failed requests change nothing and are not logged; interest is always
 * applied and logged; a negative interest rate is clamped to zero; and the
 * report is returned as one string.
 *
 * Inheritance is modelled by composition: SavingsAccount and ChequingAccount
 * hold their `Account` part as `base`.
 */
module TrajjBankingServices {
  import opened Outcomes
  import opened Sequences

  /** The `type` strings this variant logs. */
  datatype EntryType =
    | DepositEntry | WithdrawalEntry | InterestAdded
    | ChequingDeposit | ChequingWithdrawal | TransactionFee

  function TypeName(t: EntryType): string {
    match t
    case DepositEntry => "Deposit"
    case WithdrawalEntry => "Withdrawal"
    case InterestAdded => "Interest Added"
    case ChequingDeposit => "Chequing Deposit"
    case ChequingWithdrawal => "Chequing Withdrawal"
    case TransactionFee => "Transaction Fee"
  }

  const EntryPrefix: string := "Transaction Type: "

  /** A log entry: an amount and its type (this variant keeps no timestamp). */
  datatype Transaction = Transaction(amount: real, kind: EntryType) {
    /** `Transaction::report`; `money` is the two-decimal rendering of an amount. */
    function Report(money: real -> string): (line: string)
      ensures |line| > |EntryPrefix| && line[..|EntryPrefix|] == EntryPrefix
      ensures StartsWith(line, EntryPrefix + TypeName(kind))
      ensures EndsWith(line, " | Amount: $" + money(amount))
    {
      EntryPrefix + TypeName(kind) + " | Amount: $" + money(amount)
    }

    /** The rendered entry as `Account::report` emits it, newline included. */
    function Line(money: real -> string): string {
      Report(money) + "\n"
    }
  }

  /** The type is legible from the line: entries of different types never render alike, whatever their amounts. */
  lemma ReportShowsKind(t: Transaction, u: Transaction, money: real -> string)
    requires t.kind != u.kind
    ensures t.Report(money) != u.Report(money)
  {
    var a, b, p := t.Report(money), u.Report(money), |EntryPrefix|;
    if {t.kind, u.kind} == {ChequingDeposit, ChequingWithdrawal} {
      assert a[p + 9] != b[p + 9];
    } else {
      assert a[p] != b[p];
    }
  }

  /** Each entry's line, in log order. */
  function Lines(log: seq<Transaction>, money: real -> string): (lines: seq<string>)
    ensures |lines| == |log| && forall i :: 0 <= i < |log| ==> lines[i] == log[i].Line(money)
  {
    seq(|log|, i requires 0 <= i < |log| => log[i].Line(money))
  }

  /** The entries rendered one per line, each ended by a newline, in log order. */
  function HistoryText(log: seq<Transaction>, money: real -> string): (text: string)
    ensures log != [] ==> |text| > 0 && text[0] == EntryPrefix[0]
  {
    Flatten(Lines(log, money))
  }

  lemma HistoryTextAppend(a: seq<Transaction>, b: seq<Transaction>, money: real -> string)
    ensures HistoryText(a + b, money) == HistoryText(a, money) + HistoryText(b, money)
  {
    assert Lines(a + b, money) == Lines(a, money) + Lines(b, money);
    FlattenAppend(Lines(a, money), Lines(b, money));
  }

  lemma HistoryTextSingle(t: Transaction, money: real -> string)
    ensures HistoryText([t], money) == t.Report(money) + "\n"
  {
    assert Lines([t], money) == [t.Line(money)];
    assert Lines([t], money)[1..] == [];
    assert Flatten(Lines([t], money)) == t.Line(money) + Flatten<char>([]);
  }

  const HistoryBanner: string := "\n=== TRANSACTION HISTORY ===\n"
  const NoTransactions: string := "No transactions recorded.\n"
  const HistoryFooter: string := "===========================\n"

  function Effect(t: Transaction): real {
    match t.kind
    case DepositEntry => t.amount
    case InterestAdded => t.amount
    case ChequingDeposit => t.amount
    case WithdrawalEntry => -t.amount
    case ChequingWithdrawal => -t.amount
    case TransactionFee => -t.amount
  }

  /** What the logged entries add to the opening balance. */
  function Net(log: seq<Transaction>): real {
    if log == [] then 0.0 else Net(log[..|log| - 1]) + Effect(log[|log| - 1])
  }

  lemma {:induction false} NetAppend(a: seq<Transaction>, b: seq<Transaction>)
    ensures Net(a + b) == Net(a) + Net(b)
  {
    if b == [] {
      assert a + b == a;
    } else {
      assert (a + b)[..|a + b| - 1] == a + b[..|b| - 1];
      NetAppend(a, b[..|b| - 1]);
    }
  }

  lemma NetOfPair(x: Transaction, y: Transaction)
    ensures Net([x, y]) == Effect(x) + Effect(y)
  {
    assert [x, y][..1] == [x];
    assert [x][..0] == [];
    assert Net([x]) == Effect(x);
  }

  /** A construction either yields the account or throws `invalid_argument`. */
  datatype Opening<T> = Opened(account: T) | BelowMinimum

  class Account {
    var balance: real
    var log: seq<Transaction>
    /** The balance the account was opened with; it is never logged. */
    ghost const opening: real

    /** The balance is never negative and is the opening balance plus what the log accounts for. */
    ghost predicate Valid()
      reads this
    {
      && opening >= MinimumOpeningBalance
      && balance >= 0.0
      && balance == opening + Net(log)
    }

    /** The constructor's success path; `Open` is the whole constructor, throw included. */
    constructor (initialBalance: real)
      requires initialBalance >= MinimumOpeningBalance
      ensures Valid() && balance == initialBalance && log == []
    {
      balance := initialBalance;
      log := [];
      opening := initialBalance;
    }

    static method Open(initialBalance: real) returns (r: Opening<Account>)
      ensures r.BelowMinimum? <==> initialBalance < MinimumOpeningBalance
      ensures r.Opened? ==>
                fresh(r.account) && r.account.Valid()
                && r.account.balance == initialBalance && r.account.log == []
    {
      if initialBalance >= MinimumOpeningBalance {
        var a := new Account(initialBalance);
        r := Opened(a);
      } else {
        r := BelowMinimum;
      }
    }

    /** A rejected deposit changes nothing; an accepted one is logged as "Deposit". */
    method Deposit(amount: real) returns (outcome: Outcome)
      requires Valid()
      modifies this
      ensures Valid()
      ensures outcome == if amount <= 0.0 then InvalidAmount else Ok
      ensures outcome == Ok ==>
                balance == old(balance) + amount && log == old(log) + [Transaction(amount, DepositEntry)]
      ensures outcome != Ok ==> balance == old(balance) && log == old(log)
    {
      if amount <= 0.0 {
        outcome := InvalidAmount;
      } else {
        outcome := Ok;
        balance := balance + amount;
        log := log + [Transaction(amount, DepositEntry)];
        NetAppend(old(log), [Transaction(amount, DepositEntry)]);
      }
    }

    /** A rejected withdrawal changes nothing; an accepted one is logged as "Withdrawal". */
    method Withdraw(amount: real) returns (outcome: Outcome)
      requires Valid()
      modifies this
      ensures Valid()
      ensures outcome == if amount <= 0.0 then InvalidAmount
                         else if amount > old(balance) then InsufficientFunds
                         else Ok
      ensures outcome == Ok ==>
                balance == old(balance) - amount && log == old(log) + [Transaction(amount, WithdrawalEntry)]
      ensures outcome != Ok ==> balance == old(balance) && log == old(log)
    {
      if amount <= 0.0 {
        outcome := InvalidAmount;
      } else if amount > balance {
        outcome := InsufficientFunds;
      } else {
        outcome := Ok;
        balance := balance - amount;
        log := log + [Transaction(amount, WithdrawalEntry)];
        NetAppend(old(log), [Transaction(amount, WithdrawalEntry)]);
      }
    }

    /** A plain read: this variant does not log inquiries. */
    method GetBalance() returns (current: real)
      ensures current == balance
    {
      current := balance;
    }

    /** `Account::report`: the history banner, the entries or the empty-log line, the footer. */
    function Report(money: real -> string): (text: string)
      reads this
      ensures log == [] <==> text == HistoryBanner + NoTransactions + HistoryFooter
      ensures log != [] ==> text == HistoryBanner + HistoryText(log, money) + HistoryFooter
    {
      if log == [] then HistoryBanner + NoTransactions + HistoryFooter
      else
        var text := HistoryBanner + HistoryText(log, money) + HistoryFooter;
        assert text[|HistoryBanner|] == HistoryText(log, money)[0] != NoTransactions[0];
        text
    }
  }

  class SavingsAccount {
    const base: Account
    /** As a percentage, never negative. */
    const interestRate: real

    ghost predicate Valid()
      reads this, base
    {
      base.Valid() && interestRate >= 0.0
    }

    constructor (initialBalance: real, rate: real)
      requires initialBalance >= MinimumOpeningBalance
      ensures Valid() && fresh(base)
      ensures base.balance == initialBalance && base.log == []
      ensures interestRate == if rate >= 0.0 then rate else 0.0
    {
      base := new Account(initialBalance);
      interestRate := if rate >= 0.0 then rate else 0.0;
    }

    static method Open(initialBalance: real, rate: real) returns (r: Opening<SavingsAccount>)
      ensures r.BelowMinimum? <==> initialBalance < MinimumOpeningBalance
      ensures r.Opened? ==>
                fresh(r.account) && fresh(r.account.base) && r.account.Valid()
                && r.account.base.balance == initialBalance && r.account.base.log == []
                && r.account.interestRate == if rate >= 0.0 then rate else 0.0
    {
      if initialBalance >= MinimumOpeningBalance {
        var s := new SavingsAccount(initialBalance, rate);
        r := Opened(s);
      } else {
        r := BelowMinimum;
      }
    }

    function CalculateInterest(): (interest: real)
      reads this, base
      requires Valid()
      ensures interest >= 0.0
      ensures interest * 100.0 == base.balance * interestRate
    {
      var interest := base.balance * (interestRate / 100.0);
      assert interest >= 0.0;
      interest
    }

    /** Always credits the interest and always logs "Interest Added", even a zero amount. */
    method AddInterest()
      requires Valid()
      modifies base
      ensures Valid()
      ensures var interest := old(CalculateInterest());
              base.balance == old(base.balance) + interest
              && base.log == old(base.log) + [Transaction(interest, InterestAdded)]
    {
      var interest := CalculateInterest();
      base.balance := base.balance + interest;
      base.log := base.log + [Transaction(interest, InterestAdded)];
      NetAppend(old(base.log), [Transaction(interest, InterestAdded)]);
    }
  }

  class ChequingAccount {
    const base: Account
    const transactionFee: real

    ghost predicate Valid()
      reads this, base
    {
      base.Valid()
    }

    constructor (initialBalance: real, fee: real)
      requires initialBalance >= MinimumOpeningBalance
      ensures Valid() && fresh(base)
      ensures base.balance == initialBalance && base.log == [] && transactionFee == fee
    {
      base := new Account(initialBalance);
      transactionFee := fee;
    }

    static method Open(initialBalance: real, fee: real) returns (r: Opening<ChequingAccount>)
      ensures r.BelowMinimum? <==> initialBalance < MinimumOpeningBalance
      ensures r.Opened? ==>
                fresh(r.account) && fresh(r.account.base) && r.account.Valid()
                && r.account.base.balance == initialBalance && r.account.base.log == []
                && r.account.transactionFee == fee
    {
      if initialBalance >= MinimumOpeningBalance {
        var c := new ChequingAccount(initialBalance, fee);
        r := Opened(c);
      } else {
        r := BelowMinimum;
      }
    }

    /** Rejected, with nothing changed, exactly when the amount does not exceed the fee. */
    method Deposit(amount: real) returns (outcome: Outcome)
      requires Valid()
      modifies base
      ensures Valid()
      ensures outcome == if amount <= transactionFee then FeeExceedsDeposit else Ok
      ensures outcome == Ok ==>
                base.balance == old(base.balance) + (amount - transactionFee)
                && base.log == old(base.log) + [Transaction(amount, ChequingDeposit),
                                                Transaction(transactionFee, TransactionFee)]
      ensures outcome != Ok ==> base.balance == old(base.balance) && base.log == old(base.log)
    {
      if amount <= transactionFee {
        outcome := FeeExceedsDeposit;
      } else {
        outcome := Ok;
        var entries := [Transaction(amount, ChequingDeposit), Transaction(transactionFee, TransactionFee)];
        base.balance := base.balance + (amount - transactionFee);
        base.log := base.log + entries;
        NetAppend(old(base.log), entries);
        NetOfPair(entries[0], entries[1]);
      }
    }

    method Withdraw(amount: real) returns (outcome: Outcome)
      requires Valid()
      modifies base
      ensures Valid()
      ensures outcome == if amount <= 0.0 then InvalidAmount
                         else if amount + transactionFee > old(base.balance) then InsufficientFunds
                         else Ok
      ensures outcome == Ok ==>
                base.balance == old(base.balance) - (amount + transactionFee)
                && base.log == old(base.log) + [Transaction(amount, ChequingWithdrawal),
                                                Transaction(transactionFee, TransactionFee)]
      ensures outcome != Ok ==> base.balance == old(base.balance) && base.log == old(base.log)
    {
      var total := amount + transactionFee;
      if amount <= 0.0 {
        outcome := InvalidAmount;
      } else if total > base.balance {
        outcome := InsufficientFunds;
      } else {
        outcome := Ok;
        var entries := [Transaction(amount, ChequingWithdrawal), Transaction(transactionFee, TransactionFee)];
        base.balance := base.balance - total;
        base.log := base.log + entries;
        NetAppend(old(base.log), entries);
        NetOfPair(entries[0], entries[1]);
      }
    }
  }
}
