/**
 * The transaction record of the timestamped ledgers (Banking.cpp and its
 * copy OLDOOP/trajj_banking.cpp, whose Transaction classes are the
 * same), how one record and a whole log are rendered, and what each record
 * means for the balance.
 */
module Transactions {
  import Outcomes
  import opened Sequences

  /** The `type` strings the ledgers write. */
  datatype Kind =
    | InitialDeposit | FailedInitialDeposit
    | Deposit | FailedDeposit
    | Withdrawal | FailedWithdrawal
    | Interest | FailedInterest
    | Fee | BalanceInquiry

  function KindName(k: Kind): string {
    match k
    case InitialDeposit => "INITIAL_DEPOSIT"
    case FailedInitialDeposit => "FAILED_INITIAL_DEPOSIT"
    case Deposit => "DEPOSIT"
    case FailedDeposit => "FAILED_DEPOSIT"
    case Withdrawal => "WITHDRAWAL"
    case FailedWithdrawal => "FAILED_WITHDRAWAL"
    case Interest => "INTEREST"
    case FailedInterest => "FAILED_INTEREST"
    case Fee => "FEE"
    case BalanceInquiry => "BALANCE_INQUIRY"
  }

  /** An immutable ledger entry; `timestamp` is the clock reading taken when it was made. */
  datatype Transaction = Transaction(amount: real, kind: Kind, timestamp: string, accountType: string)

  const NoTransactions: string := "No transactions recorded."

  /** The fixed part of a rendered record: "[time] TYPE Account - KIND: ". */
  function Heading(t: Transaction): string {
    "[" + t.timestamp + "] " + t.accountType + " Account - " + KindName(t.kind) + ": "
  }

  /**
   * `Transaction::report`. `money` is the two-decimal rendering of an amount
   * (`fixed << setprecision(2)`), which the model leaves abstract.
   */
  function Report(t: Transaction, money: real -> string): (line: string)
    ensures StartsWith(line, Heading(t)) && line[0] == '['
    ensures t.kind == BalanceInquiry ==> line == Heading(t) + "Balance checked"
    ensures t.kind != BalanceInquiry ==> StartsWith(line[|Heading(t)|..], "$" + money(t.amount))
    ensures t.kind == Fee ==> EndsWith(line, " (Transaction Fee)")
    ensures t.kind == Interest ==> EndsWith(line, " (Interest Added)")
    ensures t.kind !in {Fee, Interest, BalanceInquiry} ==> line == Heading(t) + "$" + money(t.amount)
  {
    Heading(t) + Detail(t, money)
  }

  function Detail(t: Transaction, money: real -> string): string {
    if t.kind == BalanceInquiry then "Balance checked"
    else "$" + money(t.amount) + Remark(t.kind)
  }

  function Remark(k: Kind): string {
    if k == Fee then " (Transaction Fee)"
    else if k == Interest then " (Interest Added)"
    else ""
  }

  /** A balance inquiry renders without its amount. */
  lemma InquiryOmitsAmount(t: Transaction, other: real, money: real -> string)
    requires t.kind == BalanceInquiry
    ensures Report(t, money) == Report(t.(amount := other), money)
  {
  }

  /** The first record of every ledger: the opening deposit, accepted or refused. */
  predicate OpensLedger(t: Transaction) {
    t.kind == InitialDeposit || t.kind == FailedInitialDeposit
  }

  /**
   * The threshold rule of both timestamped Account constructors: the balance
   * and the one-record log an account opened with `initialBalance` starts with.
   */
  predicate OpenedWith(balance: real, log: seq<Transaction>, initialBalance: real, accType: string, now: string) {
    && (initialBalance >= Outcomes.MinimumOpeningBalance ==>
          balance == initialBalance && log == [Transaction(initialBalance, InitialDeposit, now, accType)])
    && (initialBalance < Outcomes.MinimumOpeningBalance ==>
          balance == 0.0 && log == [Transaction(0.0, FailedInitialDeposit, now, accType)])
  }

  /** The lines `SavingsAccount::report` adds after the base report. */
  function InterestLines(rate: real, interest: real, money: real -> string): seq<string> {
    ["Interest Rate: " + money(rate) + "%", "Available Interest: $" + money(interest)]
  }

  /** The line `ChequingAccount::report` adds after the base report. */
  function FeeLines(fee: real, money: real -> string): seq<string> {
    ["Transaction Fee: $" + money(fee) + " per transaction"]
  }

  /** One rendered line per record, in log order: the loop of `Account::report`. */
  function HistoryLines(log: seq<Transaction>, money: real -> string): (lines: seq<string>)
    ensures |lines| == |log|
    ensures forall i :: 0 <= i < |log| ==> lines[i] == Report(log[i], money)
  {
    seq(|log|, i requires 0 <= i < |log| => Report(log[i], money))
  }

  /** The "Transaction History" section: the explicit empty-log line, or the rendered log. */
  function History(log: seq<Transaction>, money: real -> string): (lines: seq<string>)
    ensures log == [] <==> lines == [NoTransactions]
    ensures log != [] ==> lines == HistoryLines(log, money)
  {
    if log == [] then [NoTransactions]
    else
      assert HistoryLines(log, money)[0][0] == '[' != NoTransactions[0];
      HistoryLines(log, money)
  }

  /**
   * The lines that both `Account::report` and `Account::saveReportToFile`
   * print between their banners: identification, balance and history.
   */
  function AccountSummary(number: string, accountType: string, balance: real,
                          log: seq<Transaction>, money: real -> string): (lines: seq<string>)
    ensures |lines| == 6 + |History(log, money)|
    ensures lines[6..] == History(log, money)
  {
    ["Account Number: " + number,
     "Account Type: " + accountType,
     "Current Balance: $" + money(balance),
     "",
     "Transaction History:",
     "--------------------"]
    + History(log, money)
  }

  /** Corollary of the definition, kept as the law a log that only grows relies on: rendering an extended log extends the rendering. */
  lemma HistoryLinesAppend(a: seq<Transaction>, b: seq<Transaction>, money: real -> string)
    ensures HistoryLines(a + b, money) == HistoryLines(a, money) + HistoryLines(b, money)
  {
  }

  /** What a record does to the balance: credits, debits, and records that move nothing. */
  function Effect(t: Transaction): real {
    match t.kind
    case InitialDeposit => t.amount
    case Deposit => t.amount
    case Interest => t.amount
    case Withdrawal => -t.amount
    case Fee => -t.amount
    case _ => 0.0
  }

  /** The balance a log accounts for: the sum of the effects of its records. */
  function Net(log: seq<Transaction>): real {
    if log == [] then 0.0 else Net(log[..|log| - 1]) + Effect(log[|log| - 1])
  }

  lemma {:induction false} NetAppend(a: seq<Transaction>, b: seq<Transaction>)
    ensures Net(a + b) == Net(a) + Net(b)
  {
    if b != [] {
      assert (a + b)[..|a + b| - 1] == a + b[..|b| - 1];
      NetAppend(a, b[..|b| - 1]);
    } else {
      assert a + b == a;
    }
  }

  /** Appending one record moves the net balance by that record's effect. */
  lemma NetOfAppendedRecord(log: seq<Transaction>, t: Transaction)
    ensures Net(log + [t]) == Net(log) + Effect(t)
  {
    assert (log + [t])[..|log|] == log;
  }
}
