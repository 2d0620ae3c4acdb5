/**
 The rules of the bank-account exercise as pure functions: what a deposit, a
 base withdrawal and a savings withdrawal do to an account's balance and
 last-withdrawal date, and which of the three refusals each one reports.
 The classes in module Accounts are proved against these functions.
 */
module Ledger {

  /** The three exceptions of the source become refusals beside `Ok`. */
  datatype Outcome = Ok | InvalidAmount | InsufficientBalance | WithdrawalLimitExceeded

  datatype Option<T> = None | Some(value: T)

  /**
   A clock reading, kept to the parts the withdrawal rule can look at. The
   clock gives months 1 to 12; no rule or proof here depends on that range.
   */
  datatype Date = Date(year: int, month: int)

  /** Which dates the savings limit treats as "the current month". */
  datatype LimitRule =
    | SameMonthOfYear    // the check as written: compares the month number only
    | SameCalendarMonth  // the year-aware reading: compares year and month

  /** The mutable part of an account: its balance and, for savings, the last withdrawal. */
  datatype State = State(balance: real, lastWithdrawal: Option<Date>)

  /** What a balance-only operation reports and the balance it leaves. */
  datatype Step = Step(outcome: Outcome, balance: real)

  /** What an operation on a whole account reports and the state it leaves. */
  datatype Transition = Transition(outcome: Outcome, state: State)

  datatype Kind = Regular | Savings

  /** Deposit: refuses a non-positive amount, otherwise adds it to the balance. */
  function Deposit(balance: real, amount: real): (r: Step)
    ensures r.outcome == Ok || r.outcome == InvalidAmount
    ensures r.outcome == InvalidAmount <==> amount <= 0.0
    ensures r.outcome == InvalidAmount ==> r.balance == balance
    ensures r.outcome == Ok ==> r.balance - balance == amount && r.balance > balance
  {
    if amount <= 0.0 then Step(InvalidAmount, balance)
    else Step(Ok, balance + amount)
  }

  /**
   The base withdrawal: the amount check comes before the balance check, so a
   non-positive amount is reported as invalid whatever the balance is.
   */
  function BaseWithdraw(balance: real, amount: real): (r: Step)
    ensures r.outcome != WithdrawalLimitExceeded
    ensures r.outcome == InvalidAmount <==> amount <= 0.0
    ensures r.outcome == InsufficientBalance <==> 0.0 < amount && balance < amount
    ensures r.outcome != Ok ==> r.balance == balance
    ensures r.outcome == Ok ==> balance - r.balance == amount && 0.0 <= r.balance < balance
  {
    if amount <= 0.0 then Step(InvalidAmount, balance)
    else if amount > balance then Step(InsufficientBalance, balance)
    else Step(Ok, balance - amount)
  }

  /** Whether the savings limit refuses a withdrawal at `now`, given the last one. */
  predicate LimitReached(rule: LimitRule, last: Option<Date>, now: Date)
  {
    match last
    case None => false
    case Some(d) =>
      match rule
      case SameMonthOfYear => d.month == now.month
      case SameCalendarMonth => d.year == now.year && d.month == now.month
  }

  /**
   The savings withdrawal: the limit check first, then the base checks, and the
   date is recorded only when the base withdrawal succeeds.
   */
  function SavingsWithdraw(rule: LimitRule, s: State, amount: real, now: Date): (r: Transition)
    ensures r.outcome == WithdrawalLimitExceeded <==> LimitReached(rule, s.lastWithdrawal, now)
    ensures r.outcome == InvalidAmount <==> !LimitReached(rule, s.lastWithdrawal, now) && amount <= 0.0
    ensures r.outcome == InsufficientBalance <==>
              !LimitReached(rule, s.lastWithdrawal, now) && 0.0 < amount && s.balance < amount
    ensures r.outcome != Ok ==> r.state == s
    ensures r.outcome == Ok ==>
              r.state == State(s.balance - amount, Some(now)) && 0.0 <= r.state.balance < s.balance
  {
    if LimitReached(rule, s.lastWithdrawal, now) then Transition(WithdrawalLimitExceeded, s)
    else
      var b := BaseWithdraw(s.balance, amount);
      if b.outcome == Ok then Transition(Ok, State(b.balance, Some(now)))
      else Transition(b.outcome, s)
  }

  /** The virtual `Withdraw`: a regular account runs the base rule, a savings account its own. */
  function Withdraw(kind: Kind, rule: LimitRule, s: State, amount: real, now: Date): (r: Transition)
    ensures kind == Regular ==> r.state.lastWithdrawal == s.lastWithdrawal
    ensures r.outcome == WithdrawalLimitExceeded <==> kind == Savings && LimitReached(rule, s.lastWithdrawal, now)
    ensures r.outcome == Ok <==>
              !(kind == Savings && LimitReached(rule, s.lastWithdrawal, now)) && 0.0 < amount <= s.balance
    ensures r.outcome == InvalidAmount <==>
              !(kind == Savings && LimitReached(rule, s.lastWithdrawal, now)) && amount <= 0.0
    ensures r.outcome == InsufficientBalance <==>
              !(kind == Savings && LimitReached(rule, s.lastWithdrawal, now)) && 0.0 < amount && s.balance < amount
    ensures r.outcome != Ok ==> r.state == s
    ensures r.outcome == Ok ==> s.balance - r.state.balance == amount && r.state.balance >= 0.0
    ensures kind == Savings && r.outcome == Ok ==> r.state.lastWithdrawal == Some(now)
  {
    match kind
    case Regular =>
      var b := BaseWithdraw(s.balance, amount);
      Transition(b.outcome, State(b.balance, s.lastWithdrawal))
    case Savings => SavingsWithdraw(rule, s, amount, now)
  }

  /**
   A successful deposit followed by a withdrawal of the same amount restores
   the balance. Since the initial balance is never checked, a balance that
   was negative to begin with stays below the amount and the withdrawal is
   refused instead.
   */
  lemma DepositThenWithdrawRestores(balance: real, amount: real)
    requires amount > 0.0
    ensures Deposit(balance, amount).outcome == Ok
    ensures BaseWithdraw(Deposit(balance, amount).balance, amount) ==
              if balance >= 0.0 then Step(Ok, balance) else Step(InsufficientBalance, balance + amount)
  {
  }

  /** Once the month has changed, a savings withdrawal the balance covers goes through again. */
  lemma NewMonthAllowsWithdrawal(rule: LimitRule, s: State, amount: real, now: Date)
    requires s.lastWithdrawal.Some? && s.lastWithdrawal.value.month != now.month
    requires 0.0 < amount <= s.balance
    ensures SavingsWithdraw(rule, s, amount, now) == Transition(Ok, State(s.balance - amount, Some(now)))
  {
  }

  /**
   After a successful savings withdrawal, any further withdrawal at the same
   clock reading is refused by the limit, whatever its amount, and changes nothing.
   */
  lemma SecondWithdrawalSameMonthRefused(rule: LimitRule, s: State, first: real, second: real, now: Date)
    requires SavingsWithdraw(rule, s, first, now).outcome == Ok
    ensures var after := SavingsWithdraw(rule, s, first, now).state;
            SavingsWithdraw(rule, after, second, now) == Transition(WithdrawalLimitExceeded, after)
  {
  }

  /**
   The check as written: a withdrawal one year after the last one, in the same
   month number, is refused although nothing was withdrawn in the current month.
   */
  lemma SameMonthOfYearBlocksNextYear()
    ensures var s := State(1000.0, Some(Date(2024, 1)));
            && SavingsWithdraw(SameMonthOfYear, s, 100.0, Date(2025, 1)).outcome == WithdrawalLimitExceeded
            && SavingsWithdraw(SameCalendarMonth, s, 100.0, Date(2025, 1)).outcome == Ok
  {
  }

  /**
   The year-aware rule refuses a savings withdrawal exactly when the last
   withdrawal fell in the current calendar month, and the month-only rule
   refuses at least in those cases.
   */
  lemma CalendarMonthRuleRefusesOnlySameMonth(s: State, amount: real, now: Date)
    ensures (SavingsWithdraw(SameCalendarMonth, s, amount, now).outcome == WithdrawalLimitExceeded)
            <==> s.lastWithdrawal == Some(now)
    ensures (SavingsWithdraw(SameCalendarMonth, s, amount, now).outcome == WithdrawalLimitExceeded)
            ==> SavingsWithdraw(SameMonthOfYear, s, amount, now).outcome == WithdrawalLimitExceeded
  {
  }
}
