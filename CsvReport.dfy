/**
 * The CSV report the expenses page downloads (`convertToCSV` in
 * app/expenses/page.tsx): a header row, for each expense its own row followed
 * by one row per sub-expense, and a grand-total row.
 */
module CsvReport {
  import opened Js
  import opened ExpenseTypes
  import opened Collections
  import opened ExpenseViews

  const Headers: seq<string> := [
    "Date", "Shop/Vendor", "Description", "Role", "Employee",
    "Amount (Base)", "Sub Expenses Total", "Total Expense", "Status"]

  /** Every row of the report has one cell per header. */
  const Width: nat := 9

  /**
   * `employeeMap.get(id)`, where the map is built by setting each employee's
   * name under its id in list order, so a later entry for the same id wins.
   */
  function LookupEmployee(employees: seq<Employee>, id: string): (r: Option<string>)
    ensures r.None? <==> forall i :: 0 <= i < |employees| ==> employees[i].id != id
    ensures r.Some? ==> exists i :: 0 <= i < |employees| && employees[i] == Employee(id, r.value) &&
                          forall j :: i < j < |employees| ==> employees[j].id != id
  {
    if |employees| == 0 then None
    else
      var last := employees[|employees| - 1];
      if last.id == id then Some(last.name) else LookupEmployee(employees[..|employees| - 1], id)
  }

  /** `id ? employeeMap.get(id) || name || "-" : "-"` */
  function EmployeeLabel(employees: seq<Employee>, id: Option<string>, name: Option<string>): (r: string)
    ensures r != ""
    ensures (id.None? || id.value == "") ==> r == "-"
    ensures id.Some? && id.value != "" ==>
              var known := LookupEmployee(employees, id.value);
              && (known.Some? && known.value != "" ==> r == known.value)
              && (!(known.Some? && known.value != "") && name.Some? && name.value != "" ==> r == name.value)
              && (!(known.Some? && known.value != "") && !(name.Some? && name.value != "") ==> r == "-")
  {
    if id.None? || id.value == "" then "-"
    else
      var known := LookupEmployee(employees, id.value);
      if known.Some? && known.value != "" then known.value
      else if name.Some? && name.value != "" then name.value
      else "-"
  }

  /** The expense's own row; `formatDate` is a parameter of the model. */
  function MainRow(exp: Expense, employees: seq<Employee>, formatDate: Option<string> -> string): seq<string> {
    [ formatDate(Some(exp.date)),
      RemoveCommas(if exp.shop == "" then "-" else exp.shop),
      RemoveCommas(exp.description),
      RoleName(exp.role),
      RemoveCommas(EmployeeLabel(employees, exp.employeeId, exp.employeeName)),
      ToFixed2(Fin(exp.amount)),
      ToFixed2(Fin(SubsTotal(exp.subtasks))),
      ToFixed2(Fin(FullTotal(exp))),
      if IsExpensePaid(exp) then "Done" else "Pending" ]
  }

  /** `sub.amount ?? 0`: only a missing amount becomes 0; NaN stays NaN. */
  function SubAmountValue(amount: Option<Number>): Number {
    match amount
    case None => Fin(0)
    case Some(n) => n
  }

  /** One sub-expense's row: no shop, base "0.00", and its amount as sub total and total. */
  function SubRow(exp: Expense, sub: Subtask, employees: seq<Employee>, formatDate: Option<string> -> string): seq<string> {
    [ formatDate(sub.date),
      "",
      RemoveCommas("  -> " + sub.title),
      RoleName(exp.role),
      RemoveCommas(EmployeeLabel(employees, sub.employeeId, sub.employeeName)),
      "0.00",
      ToFixed2(SubAmountValue(sub.amount)),
      ToFixed2(SubAmountValue(sub.amount)),
      if sub.done then "Done (Sub)" else "Pending (Sub)" ]
  }

  /** `(exp.subtasks || []).map(...)`: one row per sub-expense, in order. */
  function SubRows(exp: Expense, subs: seq<Subtask>, employees: seq<Employee>, formatDate: Option<string> -> string): (rows: seq<seq<string>>)
    ensures |rows| == |subs|
  {
    if |subs| == 0 then []
    else SubRows(exp, subs[..|subs| - 1], employees, formatDate) + [SubRow(exp, subs[|subs| - 1], employees, formatDate)]
  }

  /** `[mainRow, ...subRows]` */
  function ExpenseRows(exp: Expense, employees: seq<Employee>, formatDate: Option<string> -> string): (rows: seq<seq<string>>)
    ensures |rows| == 1 + |exp.subtasks|
  {
    [MainRow(exp, employees, formatDate)] + SubRows(exp, exp.subtasks, employees, formatDate)
  }

  /** The detail rows: `data.map(...).flat()`. */
  function DetailRows(data: seq<Expense>, employees: seq<Employee>, formatDate: Option<string> -> string): seq<seq<string>> {
    if |data| == 0 then []
    else DetailRows(data[..|data| - 1], employees, formatDate) + ExpenseRows(data[|data| - 1], employees, formatDate)
  }

  function SumBase(data: seq<Expense>): int {
    if |data| == 0 then 0 else SumBase(data[..|data| - 1]) + data[|data| - 1].amount
  }

  function SumSubs(data: seq<Expense>): int {
    if |data| == 0 then 0 else SumSubs(data[..|data| - 1]) + SubsTotal(data[|data| - 1].subtasks)
  }

  function TotalRow(base: int, subs: int, total: int): seq<string> {
    ["", "", "GRAND TOTAL", "", "", ToFixed2(Fin(base)), ToFixed2(Fin(subs)), ToFixed2(Fin(total)), ""]
  }

  /** The whole table: header, detail rows, grand totals. */
  function CsvRows(data: seq<Expense>, employees: seq<Employee>, formatDate: Option<string> -> string): seq<seq<string>> {
    [Headers] + DetailRows(data, employees, formatDate) +
    [TotalRow(SumBase(data), SumSubs(data), SumTotals(data))]
  }

  function CsvLine(row: seq<string>): string {
    Join(row, ",")
  }

  /** The rows joined with "," and the lines joined with "\n". */
  function CsvBody(rows: seq<seq<string>>): string {
    Join(Map(rows, CsvLine), "\n")
  }

  const CsvPrefix: string := "data:text/csv;charset=utf-8,"

  /** The data URI before `encodeURI`. */
  function CsvContent(rows: seq<seq<string>>): (r: string)
    ensures |r| >= |CsvPrefix| && r[..|CsvPrefix|] == CsvPrefix && r[|CsvPrefix|..] == CsvBody(rows)
  {
    CsvPrefix + CsvBody(rows)
  }

  /**
   * `convertToCSV`: one pass over the expenses that emits each expense's rows
   * and adds its base, sub-expense and full totals to the three grand totals.
   * It returns `encodeURI` of the data URI; the browser's `encodeURI` is the
   * parameter `encodeUri`, and `rows` and `content` are the table and the text
   * it is applied to.
   */
  method ConvertToCSV(data: seq<Expense>, employees: seq<Employee>, formatDate: Option<string> -> string,
                      encodeUri: string -> string)
    returns (rows: seq<seq<string>>, content: string, uri: string)
    ensures rows == CsvRows(data, employees, formatDate)
    ensures content == CsvContent(rows)
    ensures uri == encodeUri(content)
  {
    var grandTotalAmountBase, grandTotalSubExpenses, grandTotalExpense := 0, 0, 0;
    var detailRows: seq<seq<string>> := [];
    var i := 0;
    while i < |data|
      invariant 0 <= i <= |data|
      invariant detailRows == DetailRows(data[..i], employees, formatDate)
      invariant grandTotalAmountBase == SumBase(data[..i])
      invariant grandTotalSubExpenses == SumSubs(data[..i])
      invariant grandTotalExpense == SumTotals(data[..i])
    {
      var exp := data[i];
      var subsTotal := SubsTotal(exp.subtasks);
      var total := exp.amount + subsTotal;
      grandTotalAmountBase := grandTotalAmountBase + exp.amount;
      grandTotalSubExpenses := grandTotalSubExpenses + subsTotal;
      grandTotalExpense := grandTotalExpense + total;
      detailRows := detailRows + ExpenseRows(exp, employees, formatDate);
      ReportStep(data, i, employees, formatDate);
      i := i + 1;
    }
    assert data[..i] == data;
    rows := [Headers] + detailRows + [TotalRow(grandTotalAmountBase, grandTotalSubExpenses, grandTotalExpense)];
    content := CsvContent(rows);
    uri := encodeUri(content);
  }

  /** One more expense extends the detail rows and each of the three grand totals. */
  lemma ReportStep(data: seq<Expense>, i: nat, employees: seq<Employee>, formatDate: Option<string> -> string)
    requires i < |data|
    ensures DetailRows(data[..i + 1], employees, formatDate)
         == DetailRows(data[..i], employees, formatDate) + ExpenseRows(data[i], employees, formatDate)
    ensures SumBase(data[..i + 1]) == SumBase(data[..i]) + data[i].amount
    ensures SumSubs(data[..i + 1]) == SumSubs(data[..i]) + SubsTotal(data[i].subtasks)
    ensures SumTotals(data[..i + 1]) == SumTotals(data[..i]) + data[i].amount + SubsTotal(data[i].subtasks)
  {
    assert data[..i + 1][..i] == data[..i];
    assert data[..i + 1][i] == data[i];
  }

  // ---------------------------------------------------------------------------
  // Properties of the report

  /** The number of sub-expenses of a list of expenses. */
  function SubtaskCount(data: seq<Expense>): nat {
    if |data| == 0 then 0 else SubtaskCount(data[..|data| - 1]) + |data[|data| - 1].subtasks|
  }

  lemma {:induction false} SubRowsIndex(exp: Expense, subs: seq<Subtask>, employees: seq<Employee>, formatDate: Option<string> -> string)
    ensures forall j :: 0 <= j < |subs| ==> SubRows(exp, subs, employees, formatDate)[j] == SubRow(exp, subs[j], employees, formatDate)
  {
    if |subs| > 0 {
      SubRowsIndex(exp, subs[..|subs| - 1], employees, formatDate);
    }
  }

  /** An expense contributes its own row and then one row per sub-expense, in order. */
  lemma ExpenseRowsShape(exp: Expense, employees: seq<Employee>, formatDate: Option<string> -> string)
    ensures var rows := ExpenseRows(exp, employees, formatDate);
            && |rows| == 1 + |exp.subtasks|
            && rows[0] == MainRow(exp, employees, formatDate)
            && forall j :: 0 <= j < |exp.subtasks| ==>
                 rows[j + 1] == SubRow(exp, exp.subtasks[j], employees, formatDate)
  {
    var subs := SubRows(exp, exp.subtasks, employees, formatDate);
    assert ExpenseRows(exp, employees, formatDate) == [MainRow(exp, employees, formatDate)] + subs;
    SubRowsIndex(exp, exp.subtasks, employees, formatDate);
  }

  lemma {:induction false} DetailRowsCount(data: seq<Expense>, employees: seq<Employee>, formatDate: Option<string> -> string)
    ensures |DetailRows(data, employees, formatDate)| == |data| + SubtaskCount(data)
  {
    if |data| > 0 {
      DetailRowsCount(data[..|data| - 1], employees, formatDate);
    }
  }

  /** The report has a header, one row per expense and per sub-expense, and a total row. */
  lemma CsvRowsCount(data: seq<Expense>, employees: seq<Employee>, formatDate: Option<string> -> string)
    ensures |CsvRows(data, employees, formatDate)| == 2 + |data| + SubtaskCount(data)
    ensures CsvRows(data, employees, formatDate)[0] == Headers
    ensures CsvRows(data, employees, formatDate)[1 + |data| + SubtaskCount(data)][2] == "GRAND TOTAL"
  {
    DetailRowsCount(data, employees, formatDate);
  }

  /** The grand total of the expenses is the grand base total plus the grand sub-expense total. */
  lemma {:induction false} GrandTotalsAdd(data: seq<Expense>)
    ensures SumTotals(data) == SumBase(data) + SumSubs(data)
  {
    if |data| > 0 {
      GrandTotalsAdd(data[..|data| - 1]);
    }
  }

  /** The total row's third amount is the sum of its first two amounts. */
  lemma TotalRowAdds(data: seq<Expense>, employees: seq<Employee>, formatDate: Option<string> -> string)
    ensures var rows := CsvRows(data, employees, formatDate);
            rows[|rows| - 1] == TotalRow(SumBase(data), SumSubs(data), SumBase(data) + SumSubs(data))
  {
    var detail := DetailRows(data, employees, formatDate);
    var total := TotalRow(SumBase(data), SumSubs(data), SumTotals(data));
    var rows := CsvRows(data, employees, formatDate);
    assert rows == [Headers] + detail + [total];
    assert rows[|rows| - 1] == total;
    GrandTotalsAdd(data);
  }

  predicate CommaFree(row: seq<string>) {
    forall k :: 0 <= k < |row| ==> ',' !in row[k]
  }

  lemma MainRowCommaFree(exp: Expense, employees: seq<Employee>, formatDate: Option<string> -> string)
    requires forall d :: ',' !in formatDate(d)
    ensures |MainRow(exp, employees, formatDate)| == Width && CommaFree(MainRow(exp, employees, formatDate))
  {
    var status := if IsExpensePaid(exp) then "Done" else "Pending";
    assert ',' !in status;
    assert ',' !in RoleName(exp.role);
    NineCommaFree(
      formatDate(Some(exp.date)),
      RemoveCommas(if exp.shop == "" then "-" else exp.shop),
      RemoveCommas(exp.description),
      RoleName(exp.role),
      RemoveCommas(EmployeeLabel(employees, exp.employeeId, exp.employeeName)),
      ToFixed2(Fin(exp.amount)),
      ToFixed2(Fin(SubsTotal(exp.subtasks))),
      ToFixed2(Fin(FullTotal(exp))),
      status);
  }

  /** A nine-cell row whose cells hold no comma. */
  lemma NineCommaFree(c0: string, c1: string, c2: string, c3: string, c4: string, c5: string, c6: string, c7: string, c8: string)
    requires ',' !in c0 && ',' !in c1 && ',' !in c2 && ',' !in c3 && ',' !in c4
    requires ',' !in c5 && ',' !in c6 && ',' !in c7 && ',' !in c8
    ensures |[c0, c1, c2, c3, c4, c5, c6, c7, c8]| == Width && CommaFree([c0, c1, c2, c3, c4, c5, c6, c7, c8])
  {
  }

  lemma SubRowCommaFree(exp: Expense, sub: Subtask, employees: seq<Employee>, formatDate: Option<string> -> string)
    requires forall d :: ',' !in formatDate(d)
    ensures |SubRow(exp, sub, employees, formatDate)| == Width && CommaFree(SubRow(exp, sub, employees, formatDate))
  {
    var done := if sub.done then "Done (Sub)" else "Pending (Sub)";
    assert ',' !in done;
    assert ',' !in RoleName(exp.role);
    NineCommaFree(
      formatDate(sub.date),
      "",
      RemoveCommas("  -> " + sub.title),
      RoleName(exp.role),
      RemoveCommas(EmployeeLabel(employees, sub.employeeId, sub.employeeName)),
      "0.00",
      ToFixed2(SubAmountValue(sub.amount)),
      ToFixed2(SubAmountValue(sub.amount)),
      done);
  }

  lemma {:induction false} SubRowsCommaFree(exp: Expense, subs: seq<Subtask>, employees: seq<Employee>, formatDate: Option<string> -> string)
    requires forall d :: ',' !in formatDate(d)
    ensures forall r :: r in SubRows(exp, subs, employees, formatDate) ==> |r| == Width && CommaFree(r)
  {
    if |subs| > 0 {
      SubRowsCommaFree(exp, subs[..|subs| - 1], employees, formatDate);
      SubRowCommaFree(exp, subs[|subs| - 1], employees, formatDate);
    }
  }

  lemma ExpenseRowsCommaFree(exp: Expense, employees: seq<Employee>, formatDate: Option<string> -> string)
    requires forall d :: ',' !in formatDate(d)
    ensures forall r :: r in ExpenseRows(exp, employees, formatDate) ==> |r| == Width && CommaFree(r)
  {
    MainRowCommaFree(exp, employees, formatDate);
    SubRowsCommaFree(exp, exp.subtasks, employees, formatDate);
  }

  lemma {:induction false} DetailRowsCommaFree(data: seq<Expense>, employees: seq<Employee>, formatDate: Option<string> -> string)
    requires forall d :: ',' !in formatDate(d)
    ensures forall r :: r in DetailRows(data, employees, formatDate) ==> |r| == Width && CommaFree(r)
  {
    if |data| > 0 {
      DetailRowsCommaFree(data[..|data| - 1], employees, formatDate);
      ExpenseRowsCommaFree(data[|data| - 1], employees, formatDate);
    }
  }

  lemma HeadersCommaFree()
    ensures |Headers| == Width && CommaFree(Headers)
  {
    forall k | 0 <= k < |Headers| ensures ',' !in Headers[k] {
      assert Headers[k] in Headers;
    }
  }

  lemma TotalRowCommaFree(base: int, subs: int, total: int)
    ensures |TotalRow(base, subs, total)| == Width && CommaFree(TotalRow(base, subs, total))
  {
  }

  /**
   * With a date format that never prints a comma, every row has nine cells and no
   * cell holds a comma (shop, description, titles and names have theirs removed),
   * so each line reads back as exactly its nine cells.
   */
  lemma CsvRowsCommaFree(data: seq<Expense>, employees: seq<Employee>, formatDate: Option<string> -> string)
    requires forall d :: ',' !in formatDate(d)
    ensures forall i :: 0 <= i < |CsvRows(data, employees, formatDate)| ==>
              var r := CsvRows(data, employees, formatDate)[i];
              |r| == Width && CommaFree(r) && Split(CsvLine(r), ',') == r
  {
    var detail := DetailRows(data, employees, formatDate);
    DetailRowsCommaFree(data, employees, formatDate);
    HeadersCommaFree();
    var total := TotalRow(SumBase(data), SumSubs(data), SumTotals(data));
    TotalRowCommaFree(SumBase(data), SumSubs(data), SumTotals(data));
    var rows := [Headers] + detail + [total];
    forall i | 0 <= i < |rows| ensures |rows[i]| == Width && CommaFree(rows[i]) && Split(CsvLine(rows[i]), ',') == rows[i] {
      if 0 < i < |rows| - 1 {
        assert rows[i] == detail[i - 1];
        assert detail[i - 1] in detail;
      }
      SplitJoin(rows[i], ',');
    }
  }

  /** Reading a report back: lines at "\n", cells at ",". */
  function SplitLine(line: string): seq<string> {
    Split(line, ',')
  }

  function ParseCsv(body: string): seq<seq<string>> {
    Map(Split(body, '\n'), SplitLine)
  }

  /** A table whose cells hold neither separator is read back from its text unchanged. */
  lemma CsvRoundTrip(rows: seq<seq<string>>)
    requires |rows| >= 1
    requires forall i :: 0 <= i < |rows| ==> |rows[i]| >= 1
    requires forall i, k :: 0 <= i < |rows| && 0 <= k < |rows[i]| ==> ',' !in rows[i][k] && '\n' !in rows[i][k]
    ensures ParseCsv(CsvBody(rows)) == rows
  {
    var lines := Map(rows, CsvLine);
    forall i | 0 <= i < |lines| ensures '\n' !in lines[i] && SplitLine(lines[i]) == rows[i] {
      JoinExcludes(rows[i], ",", '\n');
      SplitJoin(rows[i], ',');
    }
    SplitJoin(lines, '\n');
  }
}
