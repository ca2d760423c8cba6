/**
 * The expenses page (app/expenses/page.tsx) as an object: the React state the
 * bookkeeping depends on becomes fields, and each handler becomes a method.
 * The confirmation dialog and the server's reply are parameters; toasts,
 * spinners and the form fields that only feed a request are left out.
 */
module ExpensesPage {
  import opened Js
  import opened ExpenseTypes
  import opened Collections
  import opened ExpenseViews
  import opened ListUpdates

  /** How a request ended: `json.success`, a reply without success, or a thrown error. */
  datatype Reply = Succeeded | Refused | Threw

  /** What a handler did: applied its change, did nothing, warned about its input, or failed at the server. */
  datatype Outcome = Done | Cancelled | Warned(message: string) | Failed

  // ---------------------------------------------------------------------------
  // Requests built from the forms

  /** The add form and, with the same fields, the edit modal. */
  datatype ExpenseForm = ExpenseForm(
    shop: string,
    description: string,
    amount: string,
    date: string,
    role: Role,
    employeeId: string)

  /** The body of the POST that `handleAddExpense` sends (its `subtasks` is always empty). */
  datatype ExpensePayload = ExpensePayload(
    description: string,
    amount: Number,
    date: string,
    weekStart: string,
    shop: string,
    role: Role,
    employeeId: Option<string>,
    employeeName: Option<string>)

  const RequiredFieldsMessage: string := "Description, amount, date are required."
  const ManagerEmployeeMessage: string := "Select employee for Manager role."

  /**
   * The checks and the payload of `handleAddExpense`. `getWeekStart` is the
   * parameter `weekStartOf`; `selectedEmployeeId && ...` is "" when no employee
   * is selected, so the name is then the empty string.
   */
  function AddExpenseRequest(form: ExpenseForm, weekStartOf: string -> string, employees: seq<Employee>): (r: Checked<ExpensePayload>)
    ensures r.Reject? <==> Trim(form.description) == "" || form.amount == "" || form.date == "" ||
                           (form.role == Manager && form.employeeId == "")
    ensures (Trim(form.description) == "" || form.amount == "" || form.date == "") ==> r == Reject(RequiredFieldsMessage)
    ensures (!(Trim(form.description) == "" || form.amount == "" || form.date == "") &&
             form.role == Manager && form.employeeId == "") ==> r == Reject(ManagerEmployeeMessage)
    ensures r.Accept? ==>
              && r.value.description == Trim(form.description) && r.value.shop == Trim(form.shop)
              && r.value.amount == StringToNumber(form.amount)
              && r.value.date == form.date && r.value.weekStart == weekStartOf(form.date)
              && r.value.role == form.role
              && (r.value.employeeId.None? <==> form.employeeId == "")
              && (form.employeeId != "" ==> r.value.employeeId == Some(form.employeeId) &&
                                            r.value.employeeName == FindEmployeeName(employees, form.employeeId))
              && (form.employeeId == "" ==> r.value.employeeName == Some(""))
              && (form.role == Manager ==> r.value.employeeId == Some(form.employeeId))
  {
    if Trim(form.description) == "" || form.amount == "" || form.date == "" then Reject(RequiredFieldsMessage)
    else if form.role == Manager && form.employeeId == "" then Reject(ManagerEmployeeMessage)
    else
      Accept(ExpensePayload(
        Trim(form.description), StringToNumber(form.amount), form.date, weekStartOf(form.date),
        Trim(form.shop), form.role,
        if form.employeeId == "" then None else Some(form.employeeId),
        if form.employeeId == "" then Some("") else FindEmployeeName(employees, form.employeeId)))
  }

  /**
   * The `updates` of `handleSaveEditExpense`; shop and description are sent as
   * typed, untrimmed. `employeeId` None is null. `employeeName` None is
   * undefined, a key the JSON body leaves out so the stored name is kept;
   * Some(None) is null, which clears it.
   */
  datatype EditUpdates = EditUpdates(
    shop: string,
    description: string,
    amount: Number,
    date: string,
    role: Role,
    employeeId: Option<string>,
    employeeName: Option<Option<string>>)

  const EditManagerMessage: string := "Employee ID is required for Manager role."

  function Other(x: Expense): Expense -> bool {
    (e: Expense) => e != x
  }

  /** The list after `handleAddExpense` is sorted by date and holds the old expenses and the created one. */
  lemma AddedExpenseSpec(list: seq<Expense>, created: Expense)
    ensures SortedBy(SortByDate(list + [created], false), false)
    ensures multiset(SortByDate(list + [created], false)) == multiset(list) + multiset{created}
  {
    SortSorted(list + [created], false);
    SortPermutation(list + [created], false);
  }

  /** When the old list was sorted, the old expenses keep their order among themselves. */
  lemma AddedExpenseKeepsOrder(list: seq<Expense>, created: Expense)
    requires SortedBy(list, false)
    ensures Filter(SortByDate(list + [created], false), Other(created)) == Filter(list, Other(created))
  {
    var q := Other(created);
    FilterSortCommute(list + [created], false, q);
    assert !q(created);
    FilterSnoc(list, created, q);
    assert Filter(list + [created], q) == Filter(list, q);
    FilterSortCommute(list, false, q);
    SortOfSorted(list, false);
    assert SortByDate(Filter(list, q), false) == Filter(list, q);
  }

  /** The edit modal's request: an empty employee becomes null, and a manager without one is refused. */
  function EditExpenseRequest(fields: ExpenseForm, employees: seq<Employee>): (r: Checked<EditUpdates>)
    ensures r.Reject? <==> fields.role == Manager && fields.employeeId == ""
    ensures r.Reject? ==> r.message == EditManagerMessage
    ensures r.Accept? ==>
              && r.value.shop == fields.shop && r.value.description == fields.description
              && r.value.amount == StringToNumber(fields.amount) && r.value.date == fields.date
              && r.value.role == fields.role
              && (r.value.employeeId.None? <==> fields.employeeId == "")
              && (r.value.employeeId.Some? ==> r.value.employeeId.value == fields.employeeId)
              && (fields.employeeId == "" ==> r.value.employeeName == Some(None))
              && (fields.employeeId != "" && FindEmployeeName(employees, fields.employeeId).Some? ==>
                    r.value.employeeName == Some(FindEmployeeName(employees, fields.employeeId)))
              && (fields.employeeId != "" && FindEmployeeName(employees, fields.employeeId).None? ==>
                    r.value.employeeName.None?)
  {
    var finalEmployeeId := if fields.employeeId == "" then None else Some(fields.employeeId);
    var found := FindEmployeeName(employees, fields.employeeId);
    var newEmployeeName := if finalEmployeeId.None? then Some(None) else if found.Some? then Some(found) else None;
    if fields.role == Manager && finalEmployeeId.None? then Reject(EditManagerMessage)
    else Accept(EditUpdates(fields.shop, fields.description, StringToNumber(fields.amount), fields.date,
                            fields.role, finalEmployeeId, newEmployeeName))
  }

  /** The sub-expense editor's state (`editingSubtask`). */
  datatype SubtaskEditForm = SubtaskEditForm(
    parentId: string,
    subId: string,
    title: string,
    amount: string,
    date: string,
    employeeId: string)

  /** The fields `handleSaveEditSubtask` writes into the sub-expense: an empty employee becomes undefined. */
  function SubtaskEditFor(form: SubtaskEditForm, employees: seq<Employee>): (r: SubtaskEdit)
    ensures r.title == form.title && r.amount == StringToNumber(form.amount) && r.date == form.date
    ensures r.employeeId.None? <==> form.employeeId == ""
    ensures form.employeeId != "" ==> r.employeeId == Some(form.employeeId) && r.employeeName == FindEmployeeName(employees, form.employeeId)
    ensures form.employeeId == "" ==> r.employeeName.None?
  {
    var finalSubEmployeeId := if form.employeeId == "" then None else Some(form.employeeId);
    SubtaskEdit(form.title, StringToNumber(form.amount), form.date, finalSubEmployeeId,
                if finalSubEmployeeId.Some? then FindEmployeeName(employees, form.employeeId) else None)
  }

  /**
   * The list `handleSaveEditSubtask` stores: the first expense with the form's
   * parent id is the parent, and each expense with that id gets the parent's
   * sub-expenses with the edited one changed. None when there is no parent.
   */
  function EditedSubtaskList(list: seq<Expense>, form: SubtaskEditForm, employees: seq<Employee>): (r: Option<seq<Expense>>)
    ensures r.None? <==> forall i :: 0 <= i < |list| ==> list[i].id != form.parentId
    ensures r.Some? ==>
              var parent := FindById(list, form.parentId).value;
              var edited := EditSubtask(parent.subtasks, form.subId, SubtaskEditFor(form, employees));
              && |r.value| == |list|
              && forall i :: 0 <= i < |list| ==>
                   r.value[i] == if list[i].id == form.parentId then list[i].(subtasks := edited) else list[i]
  {
    var found := FindById(list, form.parentId);
    if found.None? then None
    else
      var parent := found.value;
      var f := WithSubtasks(EditSubtask(parent.subtasks, form.subId, SubtaskEditFor(form, employees)));
      UpdateByIdAt(list, parent.id, f);
      Some(UpdateById(list, parent.id, f))
  }

  // ---------------------------------------------------------------------------
  // The budget history

  /**
   * The history the page starts from: the server's list when it is a non-empty
   * array, otherwise (any failure included) one entry of the default budget.
   */
  function InitialHistory(response: Option<seq<InitialAmountEntry>>, now: string): (r: seq<InitialAmountEntry>)
    ensures |r| > 0
    ensures response.Some? && |response.value| > 0 ==> r == response.value
    ensures !(response.Some? && |response.value| > 0) ==> InitialAmount(r) == INITIAL_AMOUNT_CONSTANT
  {
    if response.Some? && |response.value| > 0 then response.value
    else [InitialAmountEntry(INITIAL_AMOUNT_CONSTANT, now)]
  }

  /**
   * After a new entry is put in front, the budget is the entered amount, except
   * that an entered 0 reads back as the default budget; the older entries are
   * kept behind it.
   */
  lemma BudgetAfterSave(history: seq<InitialAmountEntry>, amount: int, now: string)
    ensures var h := [InitialAmountEntry(amount, now)] + history;
            && InitialAmount(h) == (if amount != 0 then amount else INITIAL_AMOUNT_CONSTANT)
            && h[1..] == history
  {
  }

  const InvalidAmountMessage: string := "Please enter a valid amount."

  // ---------------------------------------------------------------------------
  // The page

  class Page {
    var expenses: seq<Expense>
    var employees: seq<Employee>
    var initialAmountHistory: seq<InitialAmountEntry>
    var isEditingInitialAmount: bool
    var filters: Filters
    var budgetPeriodStart: string
    var visibleRowCount: nat

    /** The first render; `monthStart` is `getMonthStart` of today. */
    constructor(monthStart: string)
      ensures expenses == [] && employees == [] && initialAmountHistory == [] && !isEditingInitialAmount
      ensures filters == NoFilters && budgetPeriodStart == monthStart && visibleRowCount == INITIAL_ROWS
    {
      expenses := [];
      employees := [];
      initialAmountHistory := [];
      isEditingInitialAmount := false;
      filters := NoFilters;
      budgetPeriodStart := monthStart;
      visibleRowCount := INITIAL_ROWS;
    }

    /** Only the expense list changed. */
    twostate predicate OnlyExpensesChanged()
      reads this
    {
      && employees == old(employees)
      && initialAmountHistory == old(initialAmountHistory)
      && isEditingInitialAmount == old(isEditingInitialAmount)
      && filters == old(filters)
      && budgetPeriodStart == old(budgetPeriodStart)
      && visibleRowCount == old(visibleRowCount)
    }

    /** `filteredExpenses` of the current state. */
    function Filtered(): seq<Expense>
      reads this
    {
      FilteredExpenses(expenses, filters)
    }

    /** `visibleExpenses`: the first rows of the filtered list. */
    function Visible(): (r: seq<Expense>)
      reads this
      ensures |r| == if visibleRowCount < |Filtered()| then visibleRowCount else |Filtered()|
      ensures r == Filtered()[..|r|]
    {
      VisibleExpenses(Filtered(), visibleRowCount)
    }

    /** `initialAmount` of the current state. */
    function Budget(): (r: int)
      reads this
      ensures r != 0
    {
      InitialAmount(initialAmountHistory)
    }

    /** `walletStats` of the current state. */
    method Stats() returns (spent: int, pending: int, remaining: int)
      ensures spent == PaidTotal(PeriodExpenses(expenses, budgetPeriodStart))
      ensures spent + pending == SumTotals(PeriodExpenses(expenses, budgetPeriodStart))
      ensures remaining == Budget() - spent
    {
      spent, pending, remaining := WalletStats(expenses, Budget(), budgetPeriodStart);
    }

    /** The expense list arrives: ascending by date, equal dates in server order. */
    method ReceiveExpenses(fetched: seq<Expense>)
      modifies this
      ensures expenses == SortByDate(fetched, false)
      ensures OnlyExpensesChanged()
    {
      expenses := SortByDate(fetched, false);
    }

    method ReceiveEmployees(list: seq<Employee>)
      modifies this
      ensures employees == list
      ensures expenses == old(expenses) && initialAmountHistory == old(initialAmountHistory)
      ensures isEditingInitialAmount == old(isEditingInitialAmount) && filters == old(filters)
      ensures budgetPeriodStart == old(budgetPeriodStart) && visibleRowCount == old(visibleRowCount)
    {
      employees := list;
    }

    /** The budget history arrives, or its request fails (`response` None) and the default is used. */
    method ReceiveInitialHistory(response: Option<seq<InitialAmountEntry>>, now: string)
      modifies this
      ensures initialAmountHistory == InitialHistory(response, now)
      ensures expenses == old(expenses) && employees == old(employees)
      ensures isEditingInitialAmount == old(isEditingInitialAmount) && filters == old(filters)
      ensures budgetPeriodStart == old(budgetPeriodStart) && visibleRowCount == old(visibleRowCount)
    {
      initialAmountHistory := InitialHistory(response, now);
    }

    /** A filter control changes; the effect on the filters puts the row count back to five. */
    method SetFilters(f: Filters)
      modifies this
      ensures filters == f
      ensures visibleRowCount == if f != old(filters) then INITIAL_ROWS else old(visibleRowCount)
      ensures expenses == old(expenses) && employees == old(employees)
      ensures initialAmountHistory == old(initialAmountHistory) && isEditingInitialAmount == old(isEditingInitialAmount)
      ensures budgetPeriodStart == old(budgetPeriodStart)
    {
      if f != filters {
        visibleRowCount := INITIAL_ROWS;
      }
      filters := f;
    }

    /** The budget period changes; the same effect resets the row count. */
    method SetBudgetPeriodStart(start: string)
      modifies this
      ensures budgetPeriodStart == start
      ensures visibleRowCount == if start != old(budgetPeriodStart) then INITIAL_ROWS else old(visibleRowCount)
      ensures expenses == old(expenses) && employees == old(employees)
      ensures initialAmountHistory == old(initialAmountHistory) && isEditingInitialAmount == old(isEditingInitialAmount)
      ensures filters == old(filters)
    {
      if start != budgetPeriodStart {
        visibleRowCount := INITIAL_ROWS;
      }
      budgetPeriodStart := start;
    }

    /** `loadMoreRows`: ten more rows, but never more than the filtered list holds. */
    method LoadMoreRows()
      modifies this
      ensures visibleRowCount == LoadMore(old(visibleRowCount), |old(Filtered())|)
      ensures visibleRowCount <= |Filtered()|
      ensures old(Visible()) == Visible()[..|old(Visible())|]
      ensures expenses == old(expenses) && employees == old(employees)
      ensures initialAmountHistory == old(initialAmountHistory) && isEditingInitialAmount == old(isEditingInitialAmount)
      ensures filters == old(filters) && budgetPeriodStart == old(budgetPeriodStart)
    {
      LoadMoreExtendsView(Filtered(), visibleRowCount);
      visibleRowCount := LoadMore(visibleRowCount, |Filtered()|);
    }

    /**
     * `handleUpdatePaidStatus`: after the user confirms and the server accepts,
     * the expense with the id is replaced by the caller's copy with the new flag
     * (and, with `updateSubtasks`, the sub-expenses marked).
     */
    method UpdatePaidStatus(exp: Expense, isPaid: bool, updateSubtasks: bool, confirmed: bool, reply: Reply)
      returns (outcome: Outcome)
      modifies this
      ensures outcome == if !confirmed then Cancelled else if reply != Succeeded then Failed else Done
      ensures expenses == if outcome == Done
                          then UpdateById(old(expenses), exp.id, ReplaceWith(MarkPaid(exp, isPaid, updateSubtasks)))
                          else old(expenses)
      ensures OnlyExpensesChanged()
    {
      if !confirmed {
        return Cancelled;
      }
      var updatedExpense := MarkPaid(exp, isPaid, updateSubtasks);
      if reply != Succeeded {
        return Failed;
      }
      expenses := UpdateById(expenses, exp.id, ReplaceWith(updatedExpense));
      outcome := Done;
    }

    /**
     * `handleUpdateSubtaskStatus`: the sub-expense's flag is stored, the parent
     * becomes paid when every sub-expense is now done, and when that changed its
     * flag the paid-status handler runs as well (asking again, with its own reply).
     * `ListUpdates.ToggleFollowUpRedundant` shows that second write changes nothing
     * when the list held the parent as the handler saw it.
     */
    method UpdateSubtaskStatus(parentExp: Expense, subtaskId: string, isDone: bool, reply: Reply,
                               followUpConfirmed: bool, followUpReply: Reply)
      returns (outcome: Outcome)
      modifies this
      ensures outcome == if reply == Succeeded then Done else Failed
      ensures reply != Succeeded ==> expenses == old(expenses)
      ensures reply == Succeeded ==>
                var updated := SetSubtaskDone(parentExp.subtasks, subtaskId, isDone);
                var newPaid := NewPaidStatus(parentExp.paid, updated);
                var once := UpdateById(old(expenses), parentExp.id, WithSubtasksPaid(updated, newPaid));
                expenses == if newPaid != parentExp.paid && followUpConfirmed && followUpReply == Succeeded
                            then UpdateById(once, parentExp.id, ReplaceWith(MarkPaid(parentExp.(subtasks := updated), newPaid, false)))
                            else once
      ensures OnlyExpensesChanged()
    {
      var updatedSubtasks := SetSubtaskDone(parentExp.subtasks, subtaskId, isDone);
      if reply != Succeeded {
        return Failed;
      }
      var newPaidStatus := NewPaidStatus(parentExp.paid, updatedSubtasks);
      expenses := UpdateById(expenses, parentExp.id, WithSubtasksPaid(updatedSubtasks, newPaidStatus));
      if newPaidStatus != parentExp.paid {
        var _ := UpdatePaidStatus(parentExp.(subtasks := updatedSubtasks), newPaidStatus, false, followUpConfirmed, followUpReply);
      }
      outcome := Done;
    }

    /**
     * `handleAddSubtask`: with a sub-expense form open and filled in, the new
     * sub-expense (id `newId`) goes in front of the parent's list and the
     * parent's flag is cleared.
     */
    method AddSubtask(parent: Expense, formOpen: bool, title: string, amountInput: string, date: string,
                      subEmployeeId: string, newId: string, reply: Reply)
      returns (outcome: Outcome)
      modifies this
      ensures !formOpen ==> outcome == Cancelled
      ensures formOpen && (Trim(title) == "" || amountInput == "") ==> outcome == Warned("Sub description and amount required.")
      ensures formOpen && Trim(title) != "" && amountInput != "" ==> outcome == if reply == Succeeded then Done else Failed
      ensures expenses == if outcome == Done
                          then UpdateById(old(expenses), parent.id,
                                 WithSubtasksPaid([NewSubtask(newId, title, amountInput, date, subEmployeeId, employees, parent)] + parent.subtasks, false))
                          else old(expenses)
      ensures OnlyExpensesChanged()
    {
      if !formOpen {
        return Cancelled;
      }
      if Trim(title) == "" || amountInput == "" {
        return Warned("Sub description and amount required.");
      }
      var newSub := NewSubtask(newId, title, amountInput, date, subEmployeeId, employees, parent);
      var updatedSubtasks := [newSub] + parent.subtasks;
      if reply != Succeeded {
        return Failed;
      }
      expenses := UpdateById(expenses, parent.id, WithSubtasksPaid(updatedSubtasks, false));
      outcome := Done;
    }

    /** `handleDeleteSubtask`: the parent keeps every sub-expense with another id. */
    method DeleteSubtask(parentExp: Expense, subtaskId: string, confirmed: bool, reply: Reply)
      returns (outcome: Outcome)
      modifies this
      ensures outcome == if !confirmed then Cancelled else if reply != Succeeded then Failed else Done
      ensures expenses == if outcome == Done
                          then UpdateById(old(expenses), parentExp.id, WithSubtasks(RemoveSubtask(parentExp.subtasks, subtaskId)))
                          else old(expenses)
      ensures OnlyExpensesChanged()
    {
      if !confirmed {
        return Cancelled;
      }
      var updatedSubtasks := RemoveSubtask(parentExp.subtasks, subtaskId);
      if reply != Succeeded {
        return Failed;
      }
      expenses := UpdateById(expenses, parentExp.id, WithSubtasks(updatedSubtasks));
      outcome := Done;
    }

    /** `handleDeleteExpense`: every expense with the id leaves the list. */
    method DeleteExpense(exp: Expense, confirmed: bool, reply: Reply) returns (outcome: Outcome)
      modifies this
      ensures outcome == if !confirmed then Cancelled else if reply != Succeeded then Failed else Done
      ensures expenses == if outcome == Done then RemoveById(old(expenses), exp.id) else old(expenses)
      ensures OnlyExpensesChanged()
    {
      if !confirmed {
        return Cancelled;
      }
      if reply != Succeeded {
        return Failed;
      }
      expenses := RemoveById(expenses, exp.id);
      outcome := Done;
    }

    /**
     * `handleAddExpense`: a form that passes the checks is sent (`sent`); when
     * the server stores it, the record it returns (`created`) joins the list,
     * which is sorted by date again.
     */
    method AddExpense(form: ExpenseForm, weekStartOf: string -> string, reply: Reply, created: Expense)
      returns (outcome: Outcome, sent: Option<ExpensePayload>)
      modifies this
      ensures var request := AddExpenseRequest(form, weekStartOf, old(employees));
              && sent == (if request.Accept? then Some(request.value) else None)
              && outcome == (if request.Reject? then Warned(request.message) else if reply != Succeeded then Failed else Done)
      ensures expenses == if outcome == Done then SortByDate(old(expenses) + [created], false) else old(expenses)
      ensures OnlyExpensesChanged()
    {
      var request := AddExpenseRequest(form, weekStartOf, employees);
      if request.Reject? {
        return Warned(request.message), None;
      }
      sent := Some(request.value);
      if reply != Succeeded {
        return Failed, sent;
      }
      expenses := SortByDate(expenses + [created], false);
      outcome := Done;
    }

    /**
     * `handleSaveEditExpense`: with an expense being edited and the request
     * passing its check, the server's stored record (`updated`) replaces every
     * listed expense with its id.
     */
    method SaveEditExpense(editing: Option<Expense>, fields: ExpenseForm, reply: Reply, updated: Expense)
      returns (outcome: Outcome, sent: Option<EditUpdates>)
      modifies this
      ensures editing.None? ==> outcome == Cancelled && sent == None
      ensures editing.Some? ==>
                var request := EditExpenseRequest(fields, old(employees));
                && sent == (if request.Accept? then Some(request.value) else None)
                && outcome == (if request.Reject? then Warned(request.message) else if reply != Succeeded then Failed else Done)
      ensures expenses == if outcome == Done then UpdateById(old(expenses), updated.id, ReplaceWith(updated)) else old(expenses)
      ensures OnlyExpensesChanged()
    {
      if editing.None? {
        return Cancelled, None;
      }
      var request := EditExpenseRequest(fields, employees);
      if request.Reject? {
        return Warned(request.message), None;
      }
      sent := Some(request.value);
      if reply != Succeeded {
        return Failed, sent;
      }
      expenses := UpdateById(expenses, updated.id, ReplaceWith(updated));
      outcome := Done;
    }

    /**
     * `handleSaveEditSubtask`: the parent is looked up in the current list; its
     * sub-expense with the id takes the edited fields.
     */
    method SaveEditSubtask(editing: Option<SubtaskEditForm>, reply: Reply) returns (outcome: Outcome)
      modifies this
      ensures editing.None? ==> outcome == Cancelled
      ensures editing.Some? ==>
                var edited := EditedSubtaskList(old(expenses), editing.value, old(employees));
                outcome == if edited.None? then Warned("Parent expense not found")
                           else if reply == Succeeded then Done else Failed
      ensures expenses == if outcome == Done then EditedSubtaskList(old(expenses), editing.value, old(employees)).value else old(expenses)
      ensures OnlyExpensesChanged()
    {
      if editing.None? {
        return Cancelled;
      }
      var form := editing.value;
      var found := FindById(expenses, form.parentId);
      if found.None? {
        return Warned("Parent expense not found");
      }
      var parent := found.value;
      var updatedSubtasks := EditSubtask(parent.subtasks, form.subId, SubtaskEditFor(form, employees));
      if reply != Succeeded {
        return Failed;
      }
      expenses := UpdateById(expenses, parent.id, WithSubtasks(updatedSubtasks));
      outcome := Done;
    }

    /**
     * `handleUpdateInitialAmount`: the input is read with `Number`; NaN and
     * negative amounts are refused. An amount equal to the current head entry's
     * is not sent. Otherwise a stored entry goes in front of the history. The
     * editor closes except when the server answers without success.
     */
    method UpdateInitialAmount(input: string, now: string, reply: Reply) returns (outcome: Outcome)
      modifies this
      ensures var n := StringToNumber(input);
              if n.NaN? || n.v < 0 then
                outcome == Warned(InvalidAmountMessage) &&
                initialAmountHistory == old(initialAmountHistory) && isEditingInitialAmount == old(isEditingInitialAmount)
              else
                var changed := old(initialAmountHistory) == [] || n.v != old(initialAmountHistory)[0].amount;
                && outcome == (if changed && reply != Succeeded then Failed else Done)
                && initialAmountHistory == (if changed && reply == Succeeded
                                            then [InitialAmountEntry(n.v, now)] + old(initialAmountHistory)
                                            else old(initialAmountHistory))
                && isEditingInitialAmount == (if changed && reply == Refused then old(isEditingInitialAmount) else false)
      ensures expenses == old(expenses) && employees == old(employees) && filters == old(filters)
      ensures budgetPeriodStart == old(budgetPeriodStart) && visibleRowCount == old(visibleRowCount)
    {
      var newAmount := StringToNumber(input);
      if newAmount.NaN? || newAmount.v < 0 {
        return Warned(InvalidAmountMessage);
      }
      var newEntry := InitialAmountEntry(newAmount.v, now);
      outcome := Done;
      if initialAmountHistory == [] || newAmount.v != initialAmountHistory[0].amount {
        if reply == Refused {
          return Failed;
        }
        if reply == Succeeded {
          initialAmountHistory := [newEntry] + initialAmountHistory;
        } else {
          outcome := Failed;
        }
      }
      isEditingInitialAmount := false;
    }
  }
}
