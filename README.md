# Banking ledger model

This project models the account ledger of the TRAJJ Banking Services console
programs. Every account holds a balance. In `Banking` and `TrajjBanking` it
also holds an account number, an account type and an append-only log of
timestamped transaction records. `TrajjBankingServices` keeps a log without
numbers or timestamps, and `BankApp2` and `BankApp` keep the balance alone. A
savings account adds an interest rate and `AddInterest`. A chequing account
charges a flat fee on every deposit and withdrawal. The repository carries five
versions of this ledger, and their rules differ. Each one is its own module here:

| module | file | what sets it apart |
|---|---|---|
| `Banking` | Banking.h, Banking.cpp | the version at the repository root; logs every attempt, failures and balance inquiries included |
| `TrajjBanking` | OLDOOP/trajj_banking.cpp | a second copy of the same rules; the account type comes from a virtual call |
| `TrajjBankingServices` | OLDOOP/TrajjBankingServices.cpp | constructor throws below the minimum; only successes are logged; interest always applied; report returned as a string |
| `BankApp2` | OLDOOP/bank_app2.cpp | no log; chequing deposit guarded by "balance covers the fee" |
| `BankApp` | bank_app.cpp | a single plain account |

Shared modules:
- `Outcomes` holds the `Outcome` datatype. It says which branch an operation
  took, standing in for the C++ exception that was thrown and caught, or the
  error message that was printed.
- `AccountNumbers` holds the account-number counter, passed explicitly to the
  constructors instead of living in a function-local `static`, and the decimal
  rendering of its value.
- `Transactions` holds the timestamped `Transaction` record of Banking.cpp,
  which is identical in OLDOOP/trajj_banking.cpp, and how records and logs
  are rendered.
- `Sequences` holds prefix and suffix predicates and the concatenation of a
  run of pieces, with its append law.
- `Scenarios` is client code against `Banking`. Five of its members run fixed
  sessions with concrete inputs. `Scenarios.Inquiries` covers any valid account
  and any number of balance checks.

Modelling choices:
- Amounts are `real`, so the arithmetic is exact.
- The two-decimal rendering `fixed << setprecision(2)` is a function parameter
  `money: real -> string`.
- The clock is a parameter `now: string`: the timestamp of the records an
  operation appends.
- C++ inheritance is modelled by composition. `SavingsAccount` and
  `ChequingAccount` each hold their base part as `const base: Account`.
  Inherited operations are called on `base`, and overridden ones are members
  of the derived class. That only `ChequingAccount` overrides `Deposit` and
  `Withdraw` shows in the model: a savings deposit or withdrawal is
  `base.Deposit` / `base.Withdraw`, the base rules exactly.
- Fields the source never reassigns after construction (account number,
  account type, interest rate, fee) are `const`.

What is proved:
- In `Banking` and `TrajjBanking`, every constructor establishes, and every
  operation keeps, the ledger invariant `Valid()`:
  - the balance is never negative;
  - the balance equals `Net(log)`, the signed sum of the logged records, so the
    log fully explains the balance;
  - the log starts with the opening record;
  - every record carries the account's type.
- In `TrajjBankingServices`, the invariant is that the balance is the unlogged
  opening balance plus `Net(log)`, and never negative.
- Each operation's `ensures` gives:
  - which guard fails, as the `Outcome`;
  - the new balance;
  - exactly which records are appended, and in what order
    (`log == old(log) + [...]`).
  
  Together with the `modifies` clause, that pins down the whole new state.
- `GetBalance` may modify only `log`, which is the model's form of its `const`
  declaration. `Scenarios.Inquiries` proves, for any valid account and any N,
  that calling it N times in a loop leaves the balance unchanged, returns it
  every time and appends exactly N `BALANCE_INQUIRY` records.
- Rendering: `Account::report` lists one line per record in log order. It shows
  "No transactions recorded." exactly when the log is empty, and a valid
  account's log is never empty.
- Account numbers: the decimal rendering has a proved inverse, so the numbers
  a counter generates are pairwise distinct.

## Model

| member | source | states |
|---|---|---|
| `AccountNumbers.DecimalString` | Banking.cpp:192 | `to_string` of a non-negative counter: at least one character, all decimal digits, one digit exactly below 10 |
| `AccountNumbers.DecimalRoundTrip` | Banking.cpp:192 | reading the digits back gives the number: `DecimalValue(DecimalString(n)) == n` |
| `AccountNumbers.DecimalStringInjective` | Banking.cpp:192 | two counter values render equally if and only if they are equal |
| `AccountNumbers.AccountNumber` | Banking.cpp:190-193 | a generated number is "ACC" followed by the decimal counter value |
| `AccountNumbers.AccountNumberInjective` | OLDOOP/trajj_banking.cpp:209-212 | two generated numbers are equal if and only if the counter values were |
| `AccountNumbers.AccountCounter.constructor` | Banking.cpp:191 | the counter starts at 1000 with nothing issued |
| `AccountNumbers.AccountCounter.Generate` | OLDOOP/trajj_banking.cpp:209-212 | returns "ACC" + the current value and increments it; the number differs from every number issued before |
| `AccountNumbers.IssuedDistinct` | OLDOOP/trajj_banking.cpp:209-212 | all numbers a counter has generated are pairwise distinct |
| `Transactions.Report` | Banking.cpp:35-54 | a record renders as "[time] TYPE Account - KIND: " followed by "Balance checked" for an inquiry, otherwise "$" and the amount; a FEE line ends " (Transaction Fee)", an INTEREST line " (Interest Added)", other kinds have no remark |
| `Transactions.InquiryOmitsAmount` | Banking.cpp:41-42 | a BALANCE_INQUIRY line does not depend on the record's amount |
| `Transactions.HistoryLines` | Banking.cpp:145-147 | one line per record, line i is record i's rendering |
| `Transactions.History` | Banking.cpp:142-148 | the history section is the single line "No transactions recorded." if and only if the log is empty, else the per-record lines |
| `Transactions.AccountSummary` | Banking.cpp:136-148 | the identification and balance lines are followed by exactly the history section |
| `Transactions.HistoryLinesAppend` | Banking.cpp:129-131 | rendering a log extended by appends extends the rendering (the history of a + b is the history of a then of b) |
| `Transactions.NetAppend` | Banking.cpp:129-131 | the balance a log accounts for is additive over appended records |
| `Banking.Account.constructor` | Banking.cpp:61-78 | never fails: opening balance >= 1000 is kept and the log is exactly [INITIAL_DEPOSIT(initial)], otherwise balance 0 and log exactly [FAILED_INITIAL_DEPOSIT(0)]; an empty `accNum` (the default) is replaced by the next generated number and advances the counter, a supplied one is kept and the counter is untouched; type defaults to "UNKNOWN", which only a direct construction can produce: in C++ `Account` is abstract (pure virtual `getAccountType`, Banking.h:80) and both derived constructors pass their type (Banking.cpp:216, 263) |
| `Banking.Account.AddToLog` | Banking.cpp:129-131 | appends the record at the end, changes nothing but the log |
| `Banking.Account.Deposit` | Banking.cpp:81-95 | amount <= 0: InvalidAmount, balance unchanged, exactly FAILED_DEPOSIT(amount) appended; else balance + amount and exactly DEPOSIT(amount) appended; invariant kept |
| `Banking.Account.Withdraw` | Banking.cpp:98-119 | amount <= 0: InvalidAmount; amount > balance: InsufficientFunds; both leave the balance and append exactly FAILED_WITHDRAWAL(amount); else balance - amount (never negative) and exactly WITHDRAWAL(amount) |
| `Banking.Account.GetBalance` | Banking.cpp:122-126 | returns the balance, may modify only the log (the `const` of Banking.h:77), appends exactly BALANCE_INQUIRY(balance) |
| `Banking.Account.Report` | Banking.cpp:134-150 | banner, account number, type, balance, then exactly the history section, then the closing line |
| `Banking.Account.SavedReport` | Banking.cpp:153-187 | the file holds the opening banner, the generated-at line, the same account summary and history as Report, and the closing line of 51 '=' |
| `Banking.ReportAlwaysListsRecords` | Banking.cpp:142-148 | for a valid account the report lists the records: the empty-log line never appears, and the first listed line is the opening record |
| `Banking.SavingsAccount.constructor` | Banking.cpp:215-217 | base part opened under the threshold rule with type "SAVINGS", rate kept, account number as for Account |
| `Banking.SavingsAccount.CalculateInterest` | Banking.cpp:220-222 | interest times 100 equals balance times rate; it is positive exactly when balance and rate are, zero exactly when either is; nothing changes |
| `Banking.SavingsAccount.AddInterest` | Banking.cpp:225-238 | positive interest is credited and exactly one INTEREST(interest) appended; otherwise balance and log are both untouched |
| `Banking.SavingsAccount.Report` | Banking.cpp:251-255 | the base report followed by the rate line and the currently available interest |
| `Banking.ChequingAccount.constructor` | Banking.cpp:262-264 | base part opened under the threshold rule with type "CHEQUING", fee kept |
| `Banking.ChequingAccount.Withdraw` | Banking.cpp:267-295 | succeeds if and only if amount > 0 and amount + fee <= balance: balance drops by amount + fee, exactly [WITHDRAWAL(amount), FEE(fee)] appended; on failure (InvalidAmount or InsufficientFunds) balance unchanged and exactly FAILED_WITHDRAWAL(amount) appended |
| `Banking.ChequingAccount.Deposit` | Banking.cpp:298-326 | amount <= 0: InvalidAmount; 0 < amount <= fee: FeeExceedsDeposit; both leave the balance and append exactly FAILED_DEPOSIT(amount); else balance + amount - fee and exactly [DEPOSIT(amount), FEE(fee)] in that order |
| `Banking.ChequingAccount.Report` | Banking.cpp:339-342 | the base report followed by the fee line |
| `TrajjBanking.Account.constructor` | OLDOOP/trajj_banking.cpp:79-95 | the threshold rule of Banking: >= 1000 kept with [INITIAL_DEPOSIT], else 0 with [FAILED_INITIAL_DEPOSIT]; supplied number kept verbatim, empty one generated |
| `TrajjBanking.Account.AddToLog` | OLDOOP/trajj_banking.cpp:73-75 | only appends: the old log is a prefix of the new one and its entries are unchanged |
| `TrajjBanking.Account.Deposit` | OLDOOP/trajj_banking.cpp:101-115 | amount <= 0: unchanged balance, one FAILED_DEPOSIT(amount); else + amount, one DEPOSIT(amount) |
| `TrajjBanking.Account.Withdraw` | OLDOOP/trajj_banking.cpp:118-139 | never drives the balance negative; both failure paths append exactly one FAILED_WITHDRAWAL with the attempted amount; success debits and appends WITHDRAWAL |
| `TrajjBanking.Account.GetBalance` | OLDOOP/trajj_banking.cpp:142-146 | returns the balance, may modify only the log, appends one BALANCE_INQUIRY(balance) |
| `TrajjBanking.Account.Report` | OLDOOP/trajj_banking.cpp:152-168 | banner, identification and balance, then exactly the history section |
| `TrajjBanking.Account.SavedReport` | OLDOOP/trajj_banking.cpp:171-205 | the opening banner and generated-at line, the same summary and history as Report, and the closing line of 51 '=' |
| `TrajjBanking.ReportAlwaysListsRecords` | OLDOOP/trajj_banking.cpp:160-166 | a valid account's report always lists records, starting with the opening one |
| `TrajjBanking.SavingsAccount.constructor` | OLDOOP/trajj_banking.cpp:232-234 | base opened under the threshold rule, tagged "SAVINGS", rate kept |
| `TrajjBanking.SavingsAccount.CalculateInterest` | OLDOOP/trajj_banking.cpp:237-239 | balance times rate over 100; positive exactly when both are positive, zero exactly when either is zero |
| `TrajjBanking.SavingsAccount.AddInterest` | OLDOOP/trajj_banking.cpp:242-255 | positive interest credited with one INTEREST record; a zero balance or rate is a complete no-op |
| `TrajjBanking.SavingsAccount.Report` | OLDOOP/trajj_banking.cpp:268-272 | base report, then rate and available interest |
| `TrajjBanking.ChequingAccount.constructor` | OLDOOP/trajj_banking.cpp:282-284 | base opened under the threshold rule, tagged "CHEQUING", fee kept |
| `TrajjBanking.ChequingAccount.Withdraw` | OLDOOP/trajj_banking.cpp:287-315 | debits amount + fee only when that total is <= balance, appending WITHDRAWAL then FEE; otherwise one FAILED_WITHDRAWAL |
| `TrajjBanking.ChequingAccount.Deposit` | OLDOOP/trajj_banking.cpp:318-346 | 0 < amount <= fee fails with no balance change; success credits amount - fee and appends DEPOSIT then FEE |
| `TrajjBanking.ChequingAccount.Report` | OLDOOP/trajj_banking.cpp:359-362 | base report, then the fee line |
| `TrajjBankingServices.Transaction.Report` | OLDOOP/TrajjBankingServices.cpp:25-30 | an entry's line starts with "Transaction Type: " followed by its type name, and ends with " \| Amount: $" followed by the rendered amount |
| `TrajjBankingServices.ReportShowsKind` | OLDOOP/TrajjBankingServices.cpp:25-30 | entries of different types never render to the same line, whatever their amounts: the type name is legible from the line |
| `TrajjBankingServices.HistoryText` | OLDOOP/TrajjBankingServices.cpp:96-97 | the entries' lines in log order; for a non-empty log the text is non-empty and opens with "Transaction Type: "'s first character, so it never reads as the empty-log line |
| `TrajjBankingServices.HistoryTextAppend` | OLDOOP/TrajjBankingServices.cpp:96-97 | the history of a + b is the history of a followed by that of b |
| `TrajjBankingServices.HistoryTextSingle` | OLDOOP/TrajjBankingServices.cpp:96-97 | one entry renders as its report and a newline, so with HistoryTextAppend there is one line per entry, in order |
| `TrajjBankingServices.NetAppend` | OLDOOP/TrajjBankingServices.cpp:57 | what the log adds to the opening balance is additive over appended entries |
| `TrajjBankingServices.Account.constructor` | OLDOOP/TrajjBankingServices.cpp:42-44 | the non-throwing path: balance equals the initial value and the log starts empty |
| `TrajjBankingServices.Account.Open` | OLDOOP/TrajjBankingServices.cpp:42-47 | construction throws (no account) exactly when the initial balance is < 1000; otherwise balance = initial, log empty |
| `TrajjBankingServices.Account.Deposit` | OLDOOP/TrajjBankingServices.cpp:51-64 | amount <= 0: InvalidAmount, balance and log both unchanged; else balance + amount and exactly one "Deposit" entry |
| `TrajjBankingServices.Account.Withdraw` | OLDOOP/TrajjBankingServices.cpp:66-82 | amount <= 0 or amount > balance: no state change; else balance - amount and one "Withdrawal" entry |
| `TrajjBankingServices.Account.GetBalance` | OLDOOP/TrajjBankingServices.cpp:84-86 | returns the balance and changes nothing (no inquiry is logged here) |
| `TrajjBankingServices.Account.Report` | OLDOOP/TrajjBankingServices.cpp:89-102 | is banner + "No transactions recorded." + footer if and only if the log is empty; otherwise banner + one line per entry in order + footer |
| `TrajjBankingServices.SavingsAccount.constructor` | OLDOOP/TrajjBankingServices.cpp:113-116 | negative rate clamped to 0; base balance = initial, log empty |
| `TrajjBankingServices.SavingsAccount.Open` | OLDOOP/TrajjBankingServices.cpp:113-116 | throws (from the base constructor) exactly when initial < 1000; otherwise as the constructor |
| `TrajjBankingServices.SavingsAccount.CalculateInterest` | OLDOOP/TrajjBankingServices.cpp:118-120 | never negative; times 100 equals balance times rate |
| `TrajjBankingServices.SavingsAccount.AddInterest` | OLDOOP/TrajjBankingServices.cpp:122-128 | always adds balance * rate / 100 and always appends "Interest Added", even when the interest is 0 |
| `TrajjBankingServices.ChequingAccount.constructor` | OLDOOP/TrajjBankingServices.cpp:143-144 | base balance = initial, log empty, fee kept |
| `TrajjBankingServices.ChequingAccount.Open` | OLDOOP/TrajjBankingServices.cpp:143-144 | throws exactly when initial < 1000 |
| `TrajjBankingServices.ChequingAccount.Deposit` | OLDOOP/TrajjBankingServices.cpp:146-161 | rejected with no state change if and only if amount <= fee; otherwise balance + (amount - fee), "Chequing Deposit" then "Transaction Fee" appended |
| `TrajjBankingServices.ChequingAccount.Withdraw` | OLDOOP/TrajjBankingServices.cpp:163-183 | rejected with no state change if amount <= 0 or amount + fee > balance; otherwise balance - (amount + fee), "Chequing Withdrawal" then "Transaction Fee" |
| `BankApp2.Account.constructor` | OLDOOP/bank_app2.cpp:13-20 | keeps an initial balance >= 1000, otherwise 0 |
| `BankApp2.Account.Deposit` | OLDOOP/bank_app2.cpp:26-33 | adds amount if and only if amount > 0, otherwise balance unchanged |
| `BankApp2.Account.Withdraw` | OLDOOP/bank_app2.cpp:36-47 | subtracts if and only if 0 < amount <= balance, and then the result is >= 0 |
| `BankApp2.Account.GetBalance` | OLDOOP/bank_app2.cpp:50-52 | a pure read |
| `BankApp2.SavingsAccount.constructor` | OLDOOP/bank_app2.cpp:62-64 | threshold rule on the base balance, rate kept unvalidated |
| `BankApp2.SavingsAccount.CalculateInterest` | OLDOOP/bank_app2.cpp:67-69 | times 100 equals balance times rate; non-negative for non-negative balance and rate; crediting it keeps a non-negative balance non-negative when rate >= -100 |
| `BankApp2.SavingsAccount.AddInterest` | OLDOOP/bank_app2.cpp:72-77 | unconditionally balance' = balance + balance * rate / 100 |
| `BankApp2.ChequingAccount.constructor` | OLDOOP/bank_app2.cpp:92-94 | threshold rule on the base balance, fee kept |
| `BankApp2.ChequingAccount.Withdraw` | OLDOOP/bank_app2.cpp:97-111 | succeeds if and only if amount > 0 and amount + fee <= balance, then debits amount + fee |
| `BankApp2.ChequingAccount.Deposit` | OLDOOP/bank_app2.cpp:114-129 | succeeds if and only if amount > 0 and fee <= balance, then balance - fee + amount; such a deposit lowers the balance exactly when amount < fee |
| `BankApp.Account.constructor` | bank_app.cpp:13-20 | keeps an initial balance >= 1000, otherwise 0; establishes balance >= 0 |
| `BankApp.Account.Deposit` | bank_app.cpp:23-30 | adds amount if and only if amount > 0, otherwise nothing changes; keeps balance >= 0 |
| `BankApp.Account.Withdraw` | bank_app.cpp:33-44 | subtracts if and only if 0 < amount <= balance, otherwise nothing changes; keeps balance >= 0, so the invariant holds after any sequence of calls |
| `BankApp.Account.GetBalance` | bank_app.cpp:47-49 | returns the balance without changing it |
| `Scenarios.OpeningThreshold` | Banking.cpp:65-77 | opening at 999.99 gives balance 0 and [FAILED_INITIAL_DEPOSIT(0)]; at 1000.00 gives 1000 and [INITIAL_DEPOSIT(1000)] |
| `Scenarios.Numbering` | Banking.cpp:61-62 | two accounts opened without numbers get "ACC1000" and "ACC1001"; a supplied number is kept |
| `Scenarios.InterestScenario` | Banking.cpp:225-238 | SavingsAccount(1000, 5%) then AddInterest: balance 1050 and one INTEREST record of 50 |
| `Scenarios.ChequingFeeScenario` | Banking.cpp:298-326 | ChequingAccount(1000, fee 2.50): deposit 10 gives 1007.50 with DEPOSIT 10, FEE 2.50; deposit 2 then fails with FeeExceedsDeposit and one FAILED_DEPOSIT |
| `Scenarios.InquiryScenario` | Banking.cpp:122-126 | two balance checks return the same balance and append two BALANCE_INQUIRY records |
| `Scenarios.Inquiries` | Banking.cpp:122-126 | for any valid account and any n, n balance checks in a loop each return the unchanged balance, keep the invariant, and append exactly n BALANCE_INQUIRY(balance) records stamped with the account's type |
| `Scenarios.FirstTwoNumbers` | Banking.cpp:190-193 | a fresh counter's first two numbers are "ACC1000" and "ACC1001" |

## Left out

- The console drivers: every `main()` (main.cpp and those inside the other
  files), `displayMainMenu`, `displayAccountMenu`, `displayAccountInfo` and
  `displayMenu`. They only read input and route it to the account operations.
- All `cout` output: the success and error messages that operations print.
  The `Outcome` result says which message path was taken.
- `saveReportToFile`: opening and writing the file, its path argument and its
  `bool` result. `SavedReport` models the lines the file receives when it opens.
- Clock access (`chrono`, `ctime`, `strftime`): each timestamp is an opaque
  string parameter. Both records of a chequing fee pair carry the same
  parameter `now`, where the source reads the clock once per record.
- IEEE `double` behaviour: amounts are exact reals. The two-decimal formatting
  is the abstract parameter `money`.
- The `FAILED_INTEREST` catch branch of `AddInterest` in Banking.cpp and
  OLDOOP/trajj_banking.cpp: nothing in its `try` block throws, so the branch
  cannot be reached. The model's `AddInterest` has no such path.
- The virtual `getAccountType()` call from the base constructor in
  OLDOOP/trajj_banking.cpp: it is undefined behaviour in C++. The type is a
  constructor parameter instead, as in Banking.cpp.
- `getAccountTypeForLog` (Banking.h): it is declared but nothing calls it.
- The getters `getAmount`, `getType`, `getTimestamp`, `getAccountType`,
  `GetInterestRate` and `GetTransactionFee`: they are plain reads of fields,
  which the model exposes directly.
- `AccountNumbers.AccountCounter.Generate`: the source counter is a
  process-wide `static int`, and sharing it between threads is not modelled.
  Its overflow past 2147483647 is not modelled either: the counter is an
  unbounded natural number.
- Banking.cpp has two type tags. The constructor logs with `accountTypeName`
  and the operations log with the virtual `getAccountType()`. Every derived
  class returns the same string as it passes to the base constructor, so the
  model uses the single field `accountTypeName`.
- OLDOOP/Converter.cpp, OLDOOP/Rectangle_Triangle.cpp,
  OLDOOP/Animal_Reptile.cpp, appraisal.cpp and new_salary.cpp: they are
  unrelated classroom programs.
- A failed deposit or withdrawal logs the attempted amount as given, and no
  check in Banking.cpp:10-26 or Banking.cpp:35-54 rejects a negative amount.
  A record's amount can therefore be zero or negative, and the model allows it.
- Virtual dispatch is not modelled. `c.base.Deposit` and `c.base.Withdraw`
  stand for the qualified calls `Account::Deposit` / `Account::Withdraw`, and
  they stay callable on a chequing account, where they charge no fee. The C++
  driver always calls through `Account*` (main.cpp:86, 130, 136, 196, 202),
  so the override runs. A chequing client of the model must call
  `ChequingAccount.Deposit` / `ChequingAccount.Withdraw`.
- `Banking.Account.constructor` can build an account of type "UNKNOWN", which
  C++ cannot, because `Account` is abstract there (Banking.h:80).
- `Banking.Account.AddToLog` and `TrajjBanking.Account.AddToLog` are public
  methods here, where `addToLog` is protected in C++ (Banking.h:52). A client
  that calls them directly can append a record without moving the balance and
  so break `Valid()`. The invariant is promised only for clients that change
  an account through its constructors, `Deposit`, `Withdraw`, `GetBalance` and
  `AddInterest`.
