# Bank deposit accounts, modelled in Dafny

This project models the bank-account exercise of the repository
(`Task2.BankDeposit/Program.cs`). An account has an account number and a
holder name that never change, and a balance that only `Deposit` and
`Withdraw` change. A regular account withdraws under two checks: the amount
must be positive, and it must not exceed the balance. A savings account
adds a limit of one withdrawal per month. It keeps the date of its last
successful withdrawal and refuses a withdrawal when that date's month
number equals the current one. The limit check runs before the two base
checks. Every refusal leaves the account exactly as it was.

The project has three modules:

- `Ledger` (`ledger.dfy`): the rules as pure functions over a balance or an
  account state. `Deposit`, `BaseWithdraw` (the base class's `Withdraw`),
  `SavingsWithdraw` (the override) and `Withdraw` (dispatch on the kind of
  account). Each reports an `Outcome`. The three exception classes become
  the refusals `InvalidAmount`, `InsufficientBalance` and
  `WithdrawalLimitExceeded`.
- `Accounts` (`accounts.dfy`): the account object. Its balance and
  last-withdrawal date are fields that the methods update in place. Each
  method is proved equal to the matching `Ledger` function. `BankAccount`,
  `RegularAccount` and `SavingsAccount` become one class `Account` tagged
  with its `Kind`. It has two constructors: `RegularAccount` stands for
  both `BankAccount` and `RegularAccount`, which behave the same, and
  `SavingsAccount` for the savings class. `Withdraw` dispatches on the tag,
  as the virtual method does in the source. The base class's checks sit
  inside `Withdraw` itself, because the source reaches them on a savings
  account only through the override's `base.Withdraw` call.
- `History` (`history.dfy`): sequences of deposits and withdrawals on one
  account, with lemmas that hold for every such sequence. The balance
  stays non-negative when the account started with a non-negative
  balance. The recorded date is that of the last successful
  withdrawal. A savings account has at most one successful withdrawal per
  calendar month when the clock does not run backwards.

How the source maps to the model:

- `decimal` amounts are Dafny `real`s.
- The clock reading `DateTime.Now` becomes a parameter `now: Date`. A date
  keeps only its year and month, because nothing else of it is read. One
  `now` serves both clock reads of a savings withdrawal (see Left out).
- The savings limit is a `LimitRule` value:
  - `SameMonthOfYear` compares month numbers only. This is the check as
    written (`Program.cs:95`), and the `Account` class uses it.
  - `SameCalendarMonth` compares year and month.

  Both rules are modelled, and every `History` lemma is proved for both
  (see Findings).
- The constructors do not check the initial balance, as in the source. So
  an account can start with a negative balance. No withdrawal succeeds
  from such an account until deposits bring the balance up to the amount.
- Every successful deposit changes the balance by exactly the amount. The
  constant `WithdrawalLimitPerMonth` (`Program.cs:85`) is never read in the
  source. The limit of one comes from the month comparison itself, and the
  model encodes it the same way.

## Model

| member | source | states |
|---|---|---|
| `Ledger.Deposit` | Task2.BankDeposit/Program.cs:38-47 | A deposit is refused with InvalidAmount exactly when the amount is not positive, and then the balance is unchanged. Otherwise it succeeds and the balance grows by exactly the amount. |
| `Ledger.BaseWithdraw` | Task2.BankDeposit/Program.cs:50-64 | A non-positive amount is InvalidAmount whatever the balance, because that check comes first. A positive amount above the balance is InsufficientBalance. A refusal leaves the balance unchanged. A success lowers it by exactly the amount, and the new balance is at least 0. |
| `Ledger.SavingsWithdraw` | Task2.BankDeposit/Program.cs:93-102 | The limit is reached exactly when the result is WithdrawalLimitExceeded, whatever the amount. The base refusals happen only when the limit is not reached. Every refusal leaves the balance and the last-withdrawal date untouched. A success lowers the balance by the amount and records the current date. |
| `Ledger.Withdraw` | Task2.BankDeposit/Program.cs:74-102 | WithdrawalLimitExceeded is reported exactly when the account is a savings account whose limit is reached, so a regular account never reports it. Otherwise InvalidAmount is reported exactly when the amount is not positive, InsufficientBalance exactly when it exceeds the balance, and Ok exactly when it is positive and covered. A refusal changes nothing. A success lowers the balance by exactly the amount to a non-negative value. On success a savings account records the current date, and a regular account never records one. |
| `Ledger.DepositThenWithdrawRestores` | Task2.BankDeposit/Program.cs:38-62 | Depositing a positive amount and then withdrawing the same amount gives back the original balance when that balance was non-negative. From a negative starting balance the withdrawal is refused as InsufficientBalance. |
| `Ledger.NewMonthAllowsWithdrawal` | Task2.BankDeposit/Program.cs:95-101 | Once the month number has changed, a savings withdrawal that the balance covers succeeds again and records the new date. |
| `Ledger.SecondWithdrawalSameMonthRefused` | Task2.BankDeposit/Program.cs:95-101 | After a successful savings withdrawal, a second one at the same clock reading is refused with WithdrawalLimitExceeded for any amount, and the state does not change. |
| `Ledger.SameMonthOfYearBlocksNextYear` | Task2.BankDeposit/Program.cs:95 | The check as written refuses a withdrawal in January 2025 after one in January 2024. The year-aware rule lets the same withdrawal through. |
| `Ledger.CalendarMonthRuleRefusesOnlySameMonth` | Task2.BankDeposit/Program.cs:95-98 | Under the year-aware rule, the limit refuses exactly when the last withdrawal falls in the current year and month. Every such refusal is also a refusal under the month-only rule. |
| `Accounts.Account.RegularAccount` | Task2.BankDeposit/Program.cs:30-35 | A new regular account has exactly the given number, holder and initial balance, unchecked, and no withdrawal on record. The number and holder are constants that no method can change. |
| `Accounts.Account.SavingsAccount` | Task2.BankDeposit/Program.cs:87-90 | A new savings account has exactly the given number, holder and initial balance, and no withdrawal on record. |
| `Accounts.Account.Deposit` | Task2.BankDeposit/Program.cs:38-47 | Changes only the balance. The outcome and the new balance are those of `Ledger.Deposit` applied to the old balance. |
| `Accounts.Account.Withdraw` | Task2.BankDeposit/Program.cs:50-102 | Changes only the balance and the last-withdrawal date. The outcome and the new state are those of `Ledger.Withdraw`, using the month-only limit rule for savings accounts. A regular account still has no date on record afterwards. |
| `Accounts.DemoScenario` | Task2.BankDeposit/Program.cs:119-165 | Runs the demonstration's calls on fresh accounts. The regular account ends at 1300 and the savings account at 5000. The refusals are, in order, WithdrawalLimitExceeded, InsufficientBalance and InvalidAmount. |
| `History.ApplyRecords` | Task2.BankDeposit/Program.cs:100-101 | A single call changes the last-withdrawal date exactly when it is a successful savings withdrawal, and then sets it to the call's clock reading. |
| `History.RunKeepsBalanceNonNegative` | Task2.BankDeposit/Program.cs:57-62 | After any sequence of deposits and withdrawals on an account that started at a non-negative balance, the balance is non-negative. |
| `History.RunRecordsLastWithdrawal` | Task2.BankDeposit/Program.cs:84-101 | After any sequence of calls, a savings account's recorded date is that of its last successful withdrawal, or the earlier one if none succeeded. A regular account's date never changes. |
| `History.ConsecutiveWithdrawalsPassTheLimit` | Task2.BankDeposit/Program.cs:95-101 | For any clock, each successful savings withdrawal passes the limit rule against the one before it, and the first passes it against the date recorded beforehand. |
| `History.WithdrawalMonthsIncrease` | Task2.BankDeposit/Program.cs:95-101 | When the clock does not run backwards, successful savings withdrawals fall in strictly increasing calendar months, all later than the date recorded beforehand. This holds under both limit rules. |
| `History.OneWithdrawalPerCalendarMonth` | Task2.BankDeposit/Program.cs:85-101 | When the clock does not run backwards, no two successful savings withdrawals share a year and month. |

## Left out

- Console output in `Deposit` and `Withdraw` (`Program.cs:46`, `Program.cs:63`). It does not affect the account's state.
- The `ToString` overrides (`Program.cs:67-70`, `Program.cs:104-108`). They format text using library routines for `decimal` and dates.
- The demonstration program's console output, its `try`/`catch` printing and `Console.ReadKey`. `Accounts.DemoScenario` models only its calls on accounts.
- `DateTime.Now`. It becomes the `now` parameter. Day and time of day are not kept, because the limit check reads only the month.
- The two clock reads of a savings withdrawal. The source reads the clock once for the limit check (`Program.cs:95`) and again for the date it records (`Program.cs:101`). The model uses one `now` for both. A call that crosses a month boundary between the two reads passes the check in one month and records the next; that recorded date then blocks a withdrawal in the later month. The model does not capture this.
- `decimal` precision and overflow. Balances are unbounded reals, so the runtime overflow exception on `Balance += amount` is not modelled.
- Access protection of the mutable state. In the source the balance has a protected setter (`Program.cs:28`) and the last-withdrawal date is private (`Program.cs:84`), so only the account's own methods change them. Dafny cannot hide fields without export sets, so `balance` and `lastWithdrawal` are public fields that a client with modification rights could assign directly, for instance to clear the date and get around the savings limit. The `History` lemmas cover only sequences of `Deposit` and `Withdraw` calls.
- The exception messages. A refusal is an `Outcome` value, not an exception with a message.
- The other two exercises (`Task1.DivideNumbers/Program.cs`, `Task4.FileExeptions/Program.cs`). They are file and console I/O, floating-point division and matching on localized exception text. They are not part of this model.

## Findings

| source | as written | input that shows it | evidently intended | confidence | as-written member | corrected member |
|---|---|---|---|---|---|---|
| Task2.BankDeposit/Program.cs:95 | The savings limit compares only the month number of the last withdrawal with the current month. | Last withdrawal in January 2024, balance 1000; withdrawing 100 in January 2025 is refused with WithdrawalLimitExceeded. | Refuse only when the last withdrawal was in the current calendar month, as the comment on that line says. | medium, not executed | `Ledger.SameMonthOfYearBlocksNextYear` | `Ledger.CalendarMonthRuleRefusesOnlySameMonth` |

The `Account` class keeps the as-written rule so that it behaves like the
source. The `History` lemmas are proved for both rules.
