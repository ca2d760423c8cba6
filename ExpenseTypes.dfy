/**
 * The records of the expense tracker (app/expenses/components/types.ts and the
 * server's models/Expense.ts describe the same shape) and the paid-status rule
 * that every derived view depends on.
 */
module ExpenseTypes {
  import opened Js

  /** The result of checking a request: the value to go on with, or the message the user or caller sees. */
  datatype Checked<T> = Accept(value: T) | Reject(message: string)

  datatype Role = Founder | Manager | Other

  /** The role as stored and sent over the wire. */
  function RoleName(r: Role): string {
    match r
    case Founder => "founder"
    case Manager => "manager"
    case Other => "other"
  }

  /** `["founder", "manager", "other"].includes(raw) ? raw : "other"` */
  function ParseRole(raw: string): Role {
    if raw == "founder" then Founder
    else if raw == "manager" then Manager
    else Other
  }

  /** A known role name is read back as that role, and only a known name yields Founder or Manager. */
  lemma ParseRoleSpec(raw: string)
    ensures forall r :: RoleName(r) == raw ==> ParseRole(raw) == r
    ensures ParseRole(raw) != Other ==> RoleName(ParseRole(raw)) == raw
    ensures (forall r :: RoleName(r) != raw) ==> ParseRole(raw) == Other
  {
  }

  /**
   * A sub-expense. Its amount may be missing, and on the client it may be NaN
   * (the page stores `Number(input)` as it is).
   */
  datatype Subtask = Subtask(
    id: string,
    title: string,
    done: bool,
    amount: Option<Number>,
    date: Option<string>,
    employeeId: Option<string>,
    employeeName: Option<string>)

  /**
   * An expense. A missing subtask list is the same as an empty one: every use in
   * the source reads it as `subtasks || []`. The creation and update timestamps
   * are not modelled.
   */
  datatype Expense = Expense(
    id: string,
    shop: string,
    description: string,
    amount: int,
    date: string,
    weekStart: string,
    role: Role,
    employeeId: Option<string>,
    employeeName: Option<string>,
    paid: bool,
    subtasks: seq<Subtask>)

  datatype Employee = Employee(id: string, name: string)

  /** One entry of the initial-budget log; the most recent entry comes first. */
  datatype InitialAmountEntry = InitialAmountEntry(amount: int, date: string)

  /** The budget used when no (non-zero) budget has been recorded. */
  const INITIAL_AMOUNT_CONSTANT: int := 500000

  /** `subs.every((sub) => sub.done)` */
  predicate AllDone(subs: seq<Subtask>) {
    forall i :: 0 <= i < |subs| ==> subs[i].done
  }

  /**
   * isExpensePaid: an expense is paid when its own flag is set, or when it has
   * at least one subtask and every subtask is done.
   */
  predicate IsExpensePaid(e: Expense) {
    if e.paid then true
    else if |e.subtasks| == 0 then false
    else AllDone(e.subtasks)
  }

  /** The three cases of the rule, and the rule as one equivalence. */
  lemma PaidRule(e: Expense)
    ensures e.paid ==> IsExpensePaid(e)
    ensures !e.paid && e.subtasks == [] ==> !IsExpensePaid(e)
    ensures !e.paid && e.subtasks != [] ==> (IsExpensePaid(e) <==> forall s :: s in e.subtasks ==> s.done)
    ensures IsExpensePaid(e) <==> e.paid || (e.subtasks != [] && forall s :: s in e.subtasks ==> s.done)
  {
    if !e.paid && e.subtasks != [] {
      if AllDone(e.subtasks) {
        assert forall s :: s in e.subtasks ==> s.done;
      }
    }
  }

  /** `after` is `before` with some subtasks' done flags switched on and nothing else changed. */
  predicate MoreDone(before: seq<Subtask>, after: seq<Subtask>) {
    && |before| == |after|
    && forall i :: 0 <= i < |before| ==>
         after[i] == before[i].(done := after[i].done) && (before[i].done ==> after[i].done)
  }

  /** Switching subtasks to done never makes a paid expense unpaid. */
  lemma PaidMonotoneInDone(e: Expense, subs: seq<Subtask>)
    requires MoreDone(e.subtasks, subs)
    ensures IsExpensePaid(e) ==> IsExpensePaid(e.(subtasks := subs))
  {
  }

  /** `sub.amount || 0`: a missing, NaN or zero amount counts as 0. */
  function AmountOrZero(a: Option<Number>): int {
    match a
    case None => 0
    case Some(n) => if n.Fin? then n.v else 0
  }

  /** `(subtasks || []).reduce((s, sub) => s + (sub.amount || 0), 0)` */
  function SubsTotal(subs: seq<Subtask>): int {
    if |subs| == 0 then 0 else SubsTotal(subs[..|subs| - 1]) + AmountOrZero(subs[|subs| - 1].amount)
  }

  /** An expense's full amount: its base plus the sum of its subtask amounts. */
  function FullTotal(e: Expense): int {
    e.amount + SubsTotal(e.subtasks)
  }

  lemma {:induction false} SubsTotalAppend(a: seq<Subtask>, b: seq<Subtask>)
    ensures SubsTotal(a + b) == SubsTotal(a) + SubsTotal(b)
    decreases |b|
  {
    if |b| > 0 {
      assert (a + b)[..|a + b| - 1] == a + b[..|b| - 1];
      SubsTotalAppend(a, b[..|b| - 1]);
    } else {
      assert a + b == a;
    }
  }

  /** A subtask list whose amounts are all valid non-negative numbers totals at least 0. */
  lemma {:induction false} SubsTotalNonNegative(subs: seq<Subtask>)
    requires forall i :: 0 <= i < |subs| ==> AmountOrZero(subs[i].amount) >= 0
    ensures SubsTotal(subs) >= 0
  {
    if |subs| > 0 {
      SubsTotalNonNegative(subs[..|subs| - 1]);
    }
  }
}
