/**
 * The list rewrites inside the expenses page's handlers (app/expenses/page.tsx):
 * `prev.map((e) => e._id === id ? ... : e)` over the expense list, and the
 * `map`/`filter` expressions that rebuild one expense's sub-expense list.
 */
module ListUpdates {
  import opened Js
  import opened ExpenseTypes
  import opened Collections

  // ---------------------------------------------------------------------------
  // Rewriting the expense with a given id

  /** `list.map((e) => (e._id === id ? f(e) : e))` */
  function UpdateById(list: seq<Expense>, id: string, f: Expense -> Expense): (r: seq<Expense>)
    ensures |r| == |list|
  {
    if |list| == 0 then []
    else
      var last := list[|list| - 1];
      UpdateById(list[..|list| - 1], id, f) + [if last.id == id then f(last) else last]
  }

  /** The rewrite gives an expense with the id an expense with the same id. */
  ghost predicate KeepsId(f: Expense -> Expense, id: string) {
    forall e: Expense :: e.id == id ==> f(e).id == id
  }

  /** `{ ...exp, subtasks }` */
  function WithSubtasks(subs: seq<Subtask>): Expense -> Expense {
    (e: Expense) => e.(subtasks := subs)
  }

  /** `{ ...exp, subtasks, paid }` */
  function WithSubtasksPaid(subs: seq<Subtask>, paid: bool): Expense -> Expense {
    (e: Expense) => e.(subtasks := subs, paid := paid)
  }

  /** `(e) => replacement`, whatever the element held before. */
  function ReplaceWith(x: Expense): Expense -> Expense {
    (e: Expense) => x
  }

  function OtherId(id: string): Expense -> bool {
    (e: Expense) => e.id != id
  }

  /** Each expense with the id is rewritten; every other expense stays where it was, as it was. */
  lemma {:induction false} UpdateByIdAt(list: seq<Expense>, id: string, f: Expense -> Expense)
    ensures forall i :: 0 <= i < |list| && list[i].id != id ==> UpdateById(list, id, f)[i] == list[i]
    ensures forall i :: 0 <= i < |list| && list[i].id == id ==> UpdateById(list, id, f)[i] == f(list[i])
  {
    if |list| > 0 {
      UpdateByIdAt(list[..|list| - 1], id, f);
    }
  }

  /** A rewrite that keeps ids keeps every position's id. */
  lemma UpdateByIdIds(list: seq<Expense>, id: string, f: Expense -> Expense)
    requires KeepsId(f, id)
    ensures forall i :: 0 <= i < |list| ==> UpdateById(list, id, f)[i].id == list[i].id
  {
    UpdateByIdAt(list, id, f);
  }

  /** With no expense carrying the id, the list is unchanged. */
  lemma {:induction false} UpdateByIdAbsent(list: seq<Expense>, id: string, f: Expense -> Expense)
    requires forall i :: 0 <= i < |list| ==> list[i].id != id
    ensures UpdateById(list, id, f) == list
  {
    if |list| > 0 {
      UpdateByIdAbsent(list[..|list| - 1], id, f);
    }
  }

  /** The expenses with other ids are exactly the ones before, in the same order. */
  lemma {:induction false} UpdateByIdOthers(list: seq<Expense>, id: string, f: Expense -> Expense)
    requires KeepsId(f, id)
    ensures Filter(UpdateById(list, id, f), OtherId(id)) == Filter(list, OtherId(id))
  {
    if |list| > 0 {
      var init, last := list[..|list| - 1], list[|list| - 1];
      UpdateByIdOthers(init, id, f);
      var before := UpdateById(init, id, f);
      assert list == init + [last];
      FilterSnoc(init, last, OtherId(id));
      if last.id == id {
        assert f(last).id == id;
        FilterSnoc(before, f(last), OtherId(id));
      } else {
        FilterSnoc(before, last, OtherId(id));
      }
    }
  }

  /** Two rewrites of the same id in a row are one rewrite by their composition. */
  lemma {:induction false} UpdateByIdTwice(list: seq<Expense>, id: string, f: Expense -> Expense, g: Expense -> Expense, h: Expense -> Expense)
    requires KeepsId(f, id)
    requires forall e: Expense :: e.id == id ==> h(e) == g(f(e))
    ensures UpdateById(UpdateById(list, id, f), id, g) == UpdateById(list, id, h)
  {
    if |list| > 0 {
      var init := list[..|list| - 1];
      UpdateByIdTwice(init, id, f, g, h);
      var once := UpdateById(list, id, f);
      assert once[..|once| - 1] == UpdateById(init, id, f);
    }
  }

  /** `prev.filter((e) => e._id !== exp._id)` */
  function RemoveById(list: seq<Expense>, id: string): (r: seq<Expense>)
    ensures |r| <= |list|
  {
    FilterMembers(list, OtherId(id));
    Filter(list, OtherId(id))
  }

  /** Deleting keeps every expense with another id, as often as before, and no expense with the id. */
  lemma RemoveByIdSpec(list: seq<Expense>, id: string)
    ensures forall e :: e in RemoveById(list, id) <==> e in list && e.id != id
    ensures forall e :: multiset(RemoveById(list, id))[e] == if e.id != id then multiset(list)[e] else 0
    ensures (forall i :: 0 <= i < |list| ==> list[i].id != id) ==> RemoveById(list, id) == list
  {
    FilterMembers(list, OtherId(id));
    forall e ensures multiset(RemoveById(list, id))[e] == if e.id != id then multiset(list)[e] else 0 {
      FilterCount(list, OtherId(id), e);
    }
    if forall i :: 0 <= i < |list| ==> list[i].id != id {
      FilterAll(list, OtherId(id));
    }
  }

  /** `list.find((e) => e._id === id)`: the first expense with the id. */
  function FindById(list: seq<Expense>, id: string): (r: Option<Expense>)
    ensures r.None? <==> forall i :: 0 <= i < |list| ==> list[i].id != id
    ensures r.Some? ==> r.value.id == id && r.value in list
  {
    if |list| == 0 then None
    else if list[0].id == id then Some(list[0])
    else
      var r := FindById(list[1..], id);
      assert r.Some? ==> r.value in list[1..];
      r
  }

  // ---------------------------------------------------------------------------
  // Sub-expense lists

  /** `(exp.subtasks || []).map((sub) => ({ ...sub, done: isPaid ? true : sub.done }))` */
  function MarkSubtasks(subs: seq<Subtask>, isPaid: bool): (r: seq<Subtask>)
    ensures isPaid ==> AllDone(r) && MoreDone(subs, r)
    ensures !isPaid ==> r == subs
  {
    seq(|subs|, i requires 0 <= i < |subs| => subs[i].(done := if isPaid then true else subs[i].done))
  }

  /**
   * The expense `handleUpdatePaidStatus` stores: its flag set to `isPaid`, and
   * its sub-expenses marked as `MarkSubtasks` does when `updateSubtasks` is set.
   */
  function MarkPaid(exp: Expense, isPaid: bool, updateSubtasks: bool): (r: Expense)
    ensures r.paid == isPaid && r == exp.(paid := isPaid, subtasks := r.subtasks)
    ensures isPaid ==> IsExpensePaid(r)
    ensures !isPaid ==> r.subtasks == exp.subtasks
  {
    exp.(paid := isPaid, subtasks := if updateSubtasks then MarkSubtasks(exp.subtasks, isPaid) else exp.subtasks)
  }

  /**
   * Marking paid with the sub-expenses updated marks every sub-expense done,
   * and then the expense stays paid even if its flag is cleared later. Marking
   * pending keeps the done flags, so an expense whose sub-expenses are all done
   * still counts as paid afterwards.
   */
  lemma MarkPaidStatus(exp: Expense, isPaid: bool)
    ensures isPaid ==> AllDone(MarkPaid(exp, isPaid, true).subtasks) && MoreDone(exp.subtasks, MarkPaid(exp, isPaid, true).subtasks)
    ensures !isPaid ==> (IsExpensePaid(MarkPaid(exp, isPaid, true)) <==> exp.subtasks != [] && AllDone(exp.subtasks))
  {
  }

  /** `(parentExp.subtasks || []).map((sub) => sub.id === subtaskId ? { ...sub, done: isDone } : sub)` */
  function SetSubtaskDone(subs: seq<Subtask>, id: string, isDone: bool): (r: seq<Subtask>)
    ensures |r| == |subs|
    ensures forall i :: 0 <= i < |subs| ==> r[i] == subs[i].(done := r[i].done)
    ensures forall i :: 0 <= i < |subs| && subs[i].id == id ==> r[i].done == isDone
    ensures forall i :: 0 <= i < |subs| && subs[i].id != id ==> r[i] == subs[i]
  {
    seq(|subs|, i requires 0 <= i < |subs| => if subs[i].id == id then subs[i].(done := isDone) else subs[i])
  }

  /** Setting a flag on only adds done flags; clearing it only removes them. */
  lemma SetSubtaskDoneMonotone(subs: seq<Subtask>, id: string, isDone: bool)
    ensures isDone ==> MoreDone(subs, SetSubtaskDone(subs, id, isDone))
    ensures !isDone ==> MoreDone(SetSubtaskDone(subs, id, isDone), subs)
  {
  }

  /**
   * The parent's new flag after a toggle: set when it was clear and every
   * sub-expense is now done, otherwise unchanged.
   */
  function NewPaidStatus(paid: bool, updated: seq<Subtask>): (r: bool)
    ensures paid ==> r
    ensures !paid ==> (r <==> AllDone(updated))
  {
    if !paid && AllDone(updated) then true else paid
  }

  /**
   * The stored flag agrees with the paid rule: for a non-empty list the
   * toggled expense is paid exactly when the rule says so, and its flag is set
   * exactly when it is paid or the flag was already set. (The empty list, on
   * which `every` holds, would set the flag.)
   */
  lemma NewPaidStatusAgrees(e: Expense, updated: seq<Subtask>)
    requires updated != []
    ensures var after := e.(subtasks := updated, paid := NewPaidStatus(e.paid, updated));
            IsExpensePaid(after) <==> IsExpensePaid(e.(subtasks := updated))
    ensures NewPaidStatus(e.paid, updated) <==> e.paid || IsExpensePaid(e.(subtasks := updated))
    ensures NewPaidStatus(false, []) == true
  {
  }

  /**
   * After a toggle has stored `{ ...exp, subtasks: updated, paid: newPaid }`,
   * the follow-up `handleUpdatePaidStatus` call (with `updateSubtasks` off)
   * stores the same value again, as long as the list held the parent as the
   * handler saw it.
   */
  lemma ToggleFollowUpRedundant(list: seq<Expense>, parentExp: Expense, updated: seq<Subtask>, newPaid: bool)
    requires forall i :: 0 <= i < |list| && list[i].id == parentExp.id ==> list[i] == parentExp
    ensures var id := parentExp.id;
            var once := UpdateById(list, id, WithSubtasksPaid(updated, newPaid));
            UpdateById(once, id, ReplaceWith(MarkPaid(parentExp.(subtasks := updated), newPaid, false))) == once
  {
    var id := parentExp.id;
    var once := UpdateById(list, id, WithSubtasksPaid(updated, newPaid));
    var x := MarkPaid(parentExp.(subtasks := updated), newPaid, false);
    var twice := UpdateById(once, id, ReplaceWith(x));
    UpdateByIdAt(list, id, WithSubtasksPaid(updated, newPaid));
    UpdateByIdAt(once, id, ReplaceWith(x));
    forall i | 0 <= i < |once| ensures twice[i] == once[i] {
      if list[i].id == id {
        assert once[i] == parentExp.(subtasks := updated, paid := newPaid);
      }
    }
  }

  /** `(parentExp.subtasks || []).filter((sub) => sub.id !== subtaskId)` */
  function RemoveSubtask(subs: seq<Subtask>, id: string): seq<Subtask> {
    Filter(subs, (s: Subtask) => s.id != id)
  }

  /**
   * Deleting removes exactly the sub-expenses with the id: every other one is
   * kept as often as before and in the same order (a filter).
   */
  lemma RemoveSubtaskSpec(subs: seq<Subtask>, id: string)
    ensures forall s :: s in RemoveSubtask(subs, id) <==> s in subs && s.id != id
    ensures forall s :: multiset(RemoveSubtask(subs, id))[s] == if s.id != id then multiset(subs)[s] else 0
    ensures (forall i :: 0 <= i < |subs| ==> subs[i].id != id) ==> RemoveSubtask(subs, id) == subs
    ensures |RemoveSubtask(subs, id)| <= |subs|
  {
    var p := (s: Subtask) => s.id != id;
    FilterMembers(subs, p);
    forall s ensures multiset(RemoveSubtask(subs, id))[s] == if s.id != id then multiset(subs)[s] else 0 {
      FilterCount(subs, p, s);
    }
    if forall i :: 0 <= i < |subs| ==> subs[i].id != id {
      FilterAll(subs, p);
    }
  }

  /** Removing a sub-expense from a list that is all done leaves it all done. */
  lemma RemoveSubtaskAllDone(subs: seq<Subtask>, id: string)
    requires AllDone(subs)
    ensures AllDone(RemoveSubtask(subs, id))
  {
    RemoveSubtaskSpec(subs, id);
    var r := RemoveSubtask(subs, id);
    forall i | 0 <= i < |r| ensures r[i].done {
      assert r[i] in subs;
    }
  }

  /** The fields the sub-expense editor writes. */
  datatype SubtaskEdit = SubtaskEdit(
    title: string,
    amount: Number,
    date: string,
    employeeId: Option<string>,
    employeeName: Option<string>)

  /** `(parent.subtasks || []).map((s) => s.id === subId ? { ...s, title, amount, date, employeeId, employeeName } : s)` */
  function EditSubtask(subs: seq<Subtask>, id: string, edit: SubtaskEdit): (r: seq<Subtask>)
    ensures |r| == |subs|
    ensures forall i :: 0 <= i < |subs| && subs[i].id != id ==> r[i] == subs[i]
    ensures forall i :: 0 <= i < |subs| && subs[i].id == id ==>
              r[i] == Subtask(id, edit.title, subs[i].done, Some(edit.amount), Some(edit.date), edit.employeeId, edit.employeeName)
  {
    seq(|subs|, i requires 0 <= i < |subs| =>
      if subs[i].id == id
      then subs[i].(title := edit.title, amount := Some(edit.amount), date := Some(edit.date),
                    employeeId := edit.employeeId, employeeName := edit.employeeName)
      else subs[i])
  }

  /** Editing a sub-expense keeps every done flag, so it never changes whether the parent counts as paid. */
  lemma EditSubtaskKeepsStatus(e: Expense, id: string, edit: SubtaskEdit)
    ensures IsExpensePaid(e.(subtasks := EditSubtask(e.subtasks, id, edit))) == IsExpensePaid(e)
  {
    var r := EditSubtask(e.subtasks, id, edit);
    assert forall i :: 0 <= i < |r| ==> r[i].done == e.subtasks[i].done;
  }

  // ---------------------------------------------------------------------------
  // Adding a sub-expense

  /** `employees.find((e) => e._id === id)?.name`: the first employee with the id. */
  function FindEmployeeName(employees: seq<Employee>, id: string): (r: Option<string>)
    ensures r.None? <==> forall i :: 0 <= i < |employees| ==> employees[i].id != id
    ensures r.Some? ==> exists i :: 0 <= i < |employees| && employees[i] == Employee(id, r.value) &&
                          forall j :: 0 <= j < i ==> employees[j].id != id
  {
    if |employees| == 0 then None
    else if employees[0].id == id then Some(employees[0].name)
    else
      var r := FindEmployeeName(employees[1..], id);
      if r.Some? then
        var i :| 0 <= i < |employees| - 1 && employees[1..][i] == Employee(id, r.value) &&
                 forall j :: 0 <= j < i ==> employees[1..][j].id != id;
        assert employees[i + 1] == Employee(id, r.value);
        r
      else r
  }

  /**
   * The sub-expense `handleAddSubtask` creates: a trimmed title, done exactly
   * when the parent is paid, the amount as `Number` reads it, and the employee
   * only when one is selected. `subEmployeeId && ...` is "" when none is
   * selected, so the name is then the empty string.
   */
  function NewSubtask(id: string, title: string, amountInput: string, date: string, employeeId: string,
                      employees: seq<Employee>, parent: Expense): (s: Subtask)
    ensures s.id == id && s.title == Trim(title) && s.done == IsExpensePaid(parent)
    ensures s.amount == Some(StringToNumber(amountInput)) && s.date == Some(date)
    ensures (s.employeeId == None) <==> employeeId == ""
    ensures employeeId == "" ==> s.employeeName == Some("")
    ensures employeeId != "" ==> s.employeeId == Some(employeeId) && s.employeeName == FindEmployeeName(employees, employeeId)
  {
    Subtask(id, Trim(title), IsExpensePaid(parent), Some(StringToNumber(amountInput)), Some(date),
            if employeeId == "" then None else Some(employeeId),
            if employeeId == "" then Some("") else FindEmployeeName(employees, employeeId))
  }

  /**
   * The parent after the new sub-expense is put in front of the list and its
   * flag cleared: paid exactly when it was paid and every earlier sub-expense
   * was done. So a parent paid by its flag while a sub-expense was pending
   * becomes pending; otherwise the status is kept.
   */
  lemma AddSubtaskStatus(parent: Expense, s: Subtask)
    requires s.done == IsExpensePaid(parent)
    ensures IsExpensePaid(parent.(subtasks := [s] + parent.subtasks, paid := false)) <==>
              IsExpensePaid(parent) && AllDone(parent.subtasks)
    ensures AllDone(parent.subtasks) ==>
              (IsExpensePaid(parent.(subtasks := [s] + parent.subtasks, paid := false)) <==> IsExpensePaid(parent))
  {
    var subs := [s] + parent.subtasks;
    assert AllDone(subs) <==> s.done && AllDone(parent.subtasks) by {
      assert subs[0] == s;
      assert forall i :: 0 <= i < |parent.subtasks| ==> subs[i + 1] == parent.subtasks[i];
    }
  }

  /** The new sub-expense adds its amount to the parent's total. */
  lemma AddSubtaskTotal(parent: Expense, s: Subtask)
    ensures FullTotal(parent.(subtasks := [s] + parent.subtasks)) == FullTotal(parent) + AmountOrZero(s.amount)
  {
    SubsTotalAppend([s], parent.subtasks);
    assert SubsTotal([s]) == SubsTotal([]) + AmountOrZero(s.amount);
  }
}
