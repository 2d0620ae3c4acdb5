/**
 Sequences of deposits and withdrawals on one account, and what holds of
 every such history: the balance never goes below zero when it started at
 zero or above, and a savings account, on a clock that does not run
 backwards, has at most one successful withdrawal in any calendar month.
 */
module History {
  import opened Ledger

  /** One call on an account; a withdrawal carries the clock reading it is made at. */
  datatype Op = DepositOp(amount: real) | WithdrawOp(amount: real, now: Date)

  function Apply(kind: Kind, rule: LimitRule, s: State, op: Op): (t: Transition)
  {
    match op
    case DepositOp(amount) =>
      var d := Deposit(s.balance, amount);
      Transition(d.outcome, State(d.balance, s.lastWithdrawal))
    case WithdrawOp(amount, now) => Withdraw(kind, rule, s, amount, now)
  }

  /** The state an account is left in after the calls `ops`, refused ones included. */
  function Run(kind: Kind, rule: LimitRule, s: State, ops: seq<Op>): (final: State)
    decreases |ops|
  {
    if ops == [] then s
    else Run(kind, rule, Apply(kind, rule, s, ops[0]).state, ops[1..])
  }

  /** The clock readings of the successful withdrawals among `ops`, in order. */
  function Withdrawals(kind: Kind, rule: LimitRule, s: State, ops: seq<Op>): (w: seq<Date>)
    decreases |ops|
  {
    if ops == [] then []
    else
      var t := Apply(kind, rule, s, ops[0]);
      var rest := Withdrawals(kind, rule, t.state, ops[1..]);
      if ops[0].WithdrawOp? && t.outcome == Ok then [ops[0].now] + rest else rest
  }

  /** The clock readings of all withdrawal attempts among `ops`, in order. */
  function Clock(ops: seq<Op>): (clock: seq<Date>)
    decreases |ops|
  {
    if ops == [] then []
    else if ops[0].WithdrawOp? then [ops[0].now] + Clock(ops[1..])
    else Clock(ops[1..])
  }

  /** Calendar order on (year, month). */
  predicate NotAfter(a: Date, b: Date)
  {
    a.year < b.year || (a.year == b.year && a.month <= b.month)
  }

  predicate Before(a: Date, b: Date)
  {
    NotAfter(a, b) && a != b
  }

  /** Dates in strictly increasing calendar months. */
  predicate Increasing(w: seq<Date>)
  {
    forall i, j :: 0 <= i < j < |w| ==> Before(w[i], w[j])
  }

  predicate AllAfter(d: Date, w: seq<Date>)
  {
    forall i :: 0 <= i < |w| ==> Before(d, w[i])
  }

  /** Each date in `w` would have passed the limit rule given the one before it. */
  predicate PassesLimit(rule: LimitRule, last: Option<Date>, w: seq<Date>)
  {
    && (w != [] ==> !LimitReached(rule, last, w[0]))
    && forall i :: 0 <= i < |w| - 1 ==> !LimitReached(rule, Some(w[i]), w[i + 1])
  }

  /** No (year, month) occurs twice in `w`. */
  predicate Distinct(w: seq<Date>)
  {
    forall i, j :: 0 <= i < j < |w| ==> w[i] != w[j]
  }

  /** The clock never runs backwards, and never behind the recorded last withdrawal. */
  predicate Monotone(last: Option<Date>, clock: seq<Date>)
  {
    && (forall i, j :: 0 <= i < j < |clock| ==> NotAfter(clock[i], clock[j]))
    && (last.Some? ==> forall i :: 0 <= i < |clock| ==> NotAfter(last.value, clock[i]))
  }

  /**
   Every state an account passes through keeps a non-negative balance when
   the initial balance was non-negative.
   */
  lemma {:induction false} RunKeepsBalanceNonNegative(kind: Kind, rule: LimitRule, s: State, ops: seq<Op>)
    requires s.balance >= 0.0
    ensures Run(kind, rule, s, ops).balance >= 0.0
    decreases |ops|
  {
    if ops != [] {
      RunKeepsBalanceNonNegative(kind, rule, Apply(kind, rule, s, ops[0]).state, ops[1..]);
    }
  }

  /** A single call records a withdrawal date exactly when it is a successful savings withdrawal. */
  lemma ApplyRecords(kind: Kind, rule: LimitRule, s: State, op: Op)
    ensures var t := Apply(kind, rule, s, op);
            t.state.lastWithdrawal ==
              if kind == Savings && op.WithdrawOp? && t.outcome == Ok then Some(op.now) else s.lastWithdrawal
  {
  }

  /**
   The last-withdrawal date a savings history leaves is that of its last
   successful withdrawal, or the one recorded before if there was none; a
   regular account's date is never touched.
   */
  lemma {:induction false} RunRecordsLastWithdrawal(kind: Kind, rule: LimitRule, s: State, ops: seq<Op>)
    ensures var w := Withdrawals(kind, rule, s, ops);
            kind == Savings ==>
              Run(kind, rule, s, ops).lastWithdrawal == (if w == [] then s.lastWithdrawal else Some(w[|w| - 1]))
    ensures kind == Regular ==> Run(kind, rule, s, ops).lastWithdrawal == s.lastWithdrawal
    decreases |ops|
  {
    if ops != [] {
      var t := Apply(kind, rule, s, ops[0]);
      ApplyRecords(kind, rule, s, ops[0]);
      RunRecordsLastWithdrawal(kind, rule, t.state, ops[1..]);
      var w' := Withdrawals(kind, rule, t.state, ops[1..]);
      if ops[0].WithdrawOp? && t.outcome == Ok {
        assert Withdrawals(kind, rule, s, ops) == [ops[0].now] + w';
      }
    }
  }

  /**
   Whatever the clock does, the limit rule holds between consecutive
   successful withdrawals: none of them would have been refused by the rule
   given the previous one.
   */
  lemma {:induction false} ConsecutiveWithdrawalsPassTheLimit(rule: LimitRule, s: State, ops: seq<Op>)
    ensures PassesLimit(rule, s.lastWithdrawal, Withdrawals(Savings, rule, s, ops))
    decreases |ops|
  {
    if ops != [] {
      var t := Apply(Savings, rule, s, ops[0]);
      ConsecutiveWithdrawalsPassTheLimit(rule, t.state, ops[1..]);
    }
  }

  /** A later date the limit does not refuse lies in a later calendar month. */
  lemma PassedLimitIsLaterMonth(rule: LimitRule, a: Date, b: Date)
    requires NotAfter(a, b) && !LimitReached(rule, Some(a), b)
    ensures Before(a, b)
  {
  }

  lemma BeforeIsTransitive(a: Date, b: Date, c: Date)
    requires Before(a, b) && Before(b, c)
    ensures Before(a, c)
  {
  }

  /** A monotone clock stays monotone without its first reading, from either starting point. */
  lemma MonotoneTail(last: Option<Date>, d: Date, rest: seq<Date>)
    requires Monotone(last, [d] + rest)
    ensures Monotone(last, rest) && Monotone(Some(d), rest)
  {
    var clock := [d] + rest;
    forall i | 0 <= i < |rest| ensures NotAfter(d, rest[i]) {
      assert clock[0] == d && clock[i + 1] == rest[i];
    }
    forall i, j | 0 <= i < j < |rest| ensures NotAfter(rest[i], rest[j]) {
      assert clock[i + 1] == rest[i] && clock[j + 1] == rest[j];
    }
    if last.Some? {
      forall i | 0 <= i < |rest| ensures NotAfter(last.value, rest[i]) {
        assert clock[i + 1] == rest[i];
      }
    }
  }

  /** Dropping the first call keeps the clock monotone from the state that call leaves. */
  lemma MonotoneAfterFirst(rule: LimitRule, s: State, ops: seq<Op>)
    requires ops != [] && Monotone(s.lastWithdrawal, Clock(ops))
    ensures Monotone(Apply(Savings, rule, s, ops[0]).state.lastWithdrawal, Clock(ops[1..]))
  {
    ApplyRecords(Savings, rule, s, ops[0]);
    if ops[0].WithdrawOp? {
      MonotoneTail(s.lastWithdrawal, ops[0].now, Clock(ops[1..]));
    }
  }

  /**
   On a clock that does not run backwards, the successful withdrawals of a
   savings account fall in strictly increasing calendar months, all after
   the one recorded before.
   */
  lemma {:induction false} WithdrawalMonthsIncrease(rule: LimitRule, s: State, ops: seq<Op>)
    requires Monotone(s.lastWithdrawal, Clock(ops))
    ensures Increasing(Withdrawals(Savings, rule, s, ops))
    ensures s.lastWithdrawal.Some? ==> AllAfter(s.lastWithdrawal.value, Withdrawals(Savings, rule, s, ops))
    decreases |ops|
  {
    if ops != [] {
      var t := Apply(Savings, rule, s, ops[0]);
      ApplyRecords(Savings, rule, s, ops[0]);
      MonotoneAfterFirst(rule, s, ops);
      WithdrawalMonthsIncrease(rule, t.state, ops[1..]);
      var w' := Withdrawals(Savings, rule, t.state, ops[1..]);
      if ops[0].WithdrawOp? && t.outcome == Ok {
        var now := ops[0].now;
        assert Clock(ops) == [now] + Clock(ops[1..]);
        assert t.state.lastWithdrawal == Some(now);
        var w := [now] + w';
        assert Withdrawals(Savings, rule, s, ops) == w;
        forall i, j | 0 <= i < j < |w| ensures Before(w[i], w[j]) {
          assert w[j] == w'[j - 1];
          if i > 0 {
            assert w[i] == w'[i - 1];
          }
        }
        if s.lastWithdrawal.Some? {
          var last := s.lastWithdrawal.value;
          assert NotAfter(last, Clock(ops)[0]);
          PassedLimitIsLaterMonth(rule, last, now);
          forall i | 0 <= i < |w| ensures Before(last, w[i]) {
            if i > 0 {
              BeforeIsTransitive(last, now, w[i]);
            }
          }
        }
      }
    }
  }

  /**
   At most one successful savings withdrawal per calendar month: on a clock
   that does not run backwards, no two successful withdrawals share a year
   and month, under either limit rule.
   */
  lemma OneWithdrawalPerCalendarMonth(rule: LimitRule, s: State, ops: seq<Op>)
    requires Monotone(s.lastWithdrawal, Clock(ops))
    ensures Distinct(Withdrawals(Savings, rule, s, ops))
  {
    WithdrawalMonthsIncrease(rule, s, ops);
  }
}
