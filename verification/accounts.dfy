/**
 The account objects. The source's `BankAccount`, `RegularAccount` and
 `SavingsAccount` classes become one class tagged with its kind: a regular
 account never records a withdrawal date, a savings account does, and
 `Withdraw` dispatches on the kind as the overridden method does.
 */
module Accounts {
  import opened Ledger

  class Account {
    const accountNumber: string
    const holderName: string
    const kind: Kind
    var balance: real
    var lastWithdrawal: Option<Date>

    /** Only a savings account ever records a withdrawal date. */
    ghost predicate Valid()
      reads this
    {
      kind == Regular ==> lastWithdrawal == None
    }

    /** The account's mutable state as a value of the ledger rules. */
    function Current(): (st: State)
      reads this
    {
      State(balance, lastWithdrawal)
    }

    /** `BankAccount` and `RegularAccount`: the initial balance is taken as given, unchecked. */
    constructor RegularAccount(number: string, holder: string, initialBalance: real := 0.0)
      ensures Valid()
      ensures accountNumber == number && holderName == holder && kind == Regular
      ensures balance == initialBalance && lastWithdrawal == None
    {
      accountNumber := number;
      holderName := holder;
      kind := Regular;
      balance := initialBalance;
      lastWithdrawal := None;
    }

    /** `SavingsAccount`: starts with no withdrawal on record. */
    constructor SavingsAccount(number: string, holder: string, initialBalance: real := 0.0)
      ensures Valid()
      ensures accountNumber == number && holderName == holder && kind == Savings
      ensures balance == initialBalance && lastWithdrawal == None
    {
      accountNumber := number;
      holderName := holder;
      kind := Savings;
      balance := initialBalance;
      lastWithdrawal := None;
    }

    method Deposit(amount: real) returns (outcome: Outcome)
      modifies this`balance
      ensures Step(outcome, balance) == Ledger.Deposit(old(balance), amount)
    {
      if amount <= 0.0 {
        return InvalidAmount;
      }
      balance := balance + amount;
      outcome := Ok;
    }

    /**
     `Withdraw` as dispatched on the account's kind; `now` stands for the
     clock reading. A savings account first checks its limit, comparing
     month numbers only; then both kinds run the base class's checks, and a
     savings account records the date only when those pass.
     */
    method Withdraw(amount: real, now: Date) returns (outcome: Outcome)
      requires Valid()
      modifies this`balance, this`lastWithdrawal
      ensures Valid()
      ensures Transition(outcome, Current()) ==
                Ledger.Withdraw(kind, SameMonthOfYear, old(Current()), amount, now)
    {
      if kind == Savings && lastWithdrawal.Some? && lastWithdrawal.value.month == now.month {
        return WithdrawalLimitExceeded;
      }
      // the base class's checks, reached from the override through `base.Withdraw`
      if amount <= 0.0 {
        return InvalidAmount;
      }
      if amount > balance {
        return InsufficientBalance;
      }
      balance := balance - amount;
      if kind == Savings {
        lastWithdrawal := Some(now);
      }
      outcome := Ok;
    }
  }

  /**
   The account calls of the source's demonstration program, all on one clock
   reading: the balances it ends with and the refusals it reports.
   */
  method DemoScenario(now: Date) returns (regularBalance: real, savingsBalance: real, refusals: seq<Outcome>)
    ensures regularBalance == 1300.0 && savingsBalance == 5000.0
    ensures refusals == [WithdrawalLimitExceeded, InsufficientBalance, InvalidAmount]
  {
    var regular := new Account.RegularAccount("1234567890", "Ivan Ivanov", 1000.0);
    var savings := new Account.SavingsAccount("9876543210", "Maria Petrova", 5000.0);
    var o := regular.Deposit(500.0);
    o := savings.Deposit(1000.0);
    o := regular.Withdraw(200.0, now);
    o := savings.Withdraw(1000.0, now);
    var limit := savings.Withdraw(500.0, now);
    var insufficient := regular.Withdraw(2000.0, now);
    var invalid := regular.Deposit(-100.0);
    regularBalance, savingsBalance := regular.balance, savings.balance;
    refusals := [limit, insufficient, invalid];
  }
}
