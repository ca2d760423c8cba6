/**
 * The views the expenses page derives from its list of expenses
 * (app/expenses/page.tsx): the date sort, the filter panel, pagination, the
 * paid history, shop suggestions, the current budget and the wallet figures.
 */
module ExpenseViews {
  import opened Js
  import opened ExpenseTypes
  import opened Collections

  /** Rows added by one "load more". */
  const ROWS_PER_PAGE: nat := 10
  /** Rows shown after the filters or the budget period change. */
  const INITIAL_ROWS: nat := 5

  // ---------------------------------------------------------------------------
  // Sorting by date

  /**
   * `x` may stand before `y`: the comparators `a.date > b.date ? 1 : a.date < b.date ? -1 : 0`
   * (ascending) and `a.date < b.date ? 1 : -1` (descending, `desc`).
   */
  predicate InOrder(x: Expense, y: Expense, desc: bool) {
    if desc then StrLessEq(y.date, x.date) else StrLessEq(x.date, y.date)
  }

  predicate SortedBy(s: seq<Expense>, desc: bool) {
    forall i, j :: 0 <= i < j < |s| ==> InOrder(s[i], s[j], desc)
  }

  lemma InOrderTransitive(x: Expense, y: Expense, z: Expense, desc: bool)
    requires InOrder(x, y, desc) && InOrder(y, z, desc)
    ensures InOrder(x, z, desc)
  {
    if desc {
      StrLessEqTransitive(z.date, y.date, x.date);
    } else {
      StrLessEqTransitive(x.date, y.date, z.date);
    }
  }

  lemma InOrderTotal(x: Expense, y: Expense, desc: bool)
    ensures InOrder(x, y, desc) || InOrder(y, x, desc)
  {
    StrLessEqTotal(x.date, y.date);
  }

  /** Puts `x` behind every element it need not precede, so equal dates keep their order. */
  function Insert(r: seq<Expense>, x: Expense, desc: bool): seq<Expense> {
    if |r| == 0 || InOrder(r[|r| - 1], x, desc) then r + [x]
    else Insert(r[..|r| - 1], x, desc) + [r[|r| - 1]]
  }

  /** `Array.prototype.sort` with a date comparator; it is stable, as ECMAScript 2019 requires. */
  function SortByDate(s: seq<Expense>, desc: bool): seq<Expense> {
    if |s| == 0 then [] else Insert(SortByDate(s[..|s| - 1], desc), s[|s| - 1], desc)
  }

  lemma {:induction false} InsertCount(r: seq<Expense>, x: Expense, desc: bool)
    ensures multiset(Insert(r, x, desc)) == multiset(r) + multiset{x}
  {
    if |r| > 0 && !InOrder(r[|r| - 1], x, desc) {
      InsertCount(r[..|r| - 1], x, desc);
      assert r == r[..|r| - 1] + [r[|r| - 1]];
    }
  }

  /** Sorting only reorders: the result is a permutation of the input. */
  lemma {:induction false} SortPermutation(s: seq<Expense>, desc: bool)
    ensures multiset(SortByDate(s, desc)) == multiset(s)
    ensures |SortByDate(s, desc)| == |s|
  {
    if |s| > 0 {
      SortPermutation(s[..|s| - 1], desc);
      InsertCount(SortByDate(s[..|s| - 1], desc), s[|s| - 1], desc);
      assert s == s[..|s| - 1] + [s[|s| - 1]];
    }
    assert |multiset(SortByDate(s, desc))| == |multiset(s)|;
  }

  lemma {:induction false} InsertSorted(r: seq<Expense>, x: Expense, desc: bool)
    requires SortedBy(r, desc)
    ensures SortedBy(Insert(r, x, desc), desc)
  {
    if |r| == 0 {
    } else if InOrder(r[|r| - 1], x, desc) {
      var t := r + [x];
      forall i, j | 0 <= i < j < |t| ensures InOrder(t[i], t[j], desc) {
        if j == |r| && i < |r| - 1 {
          InOrderTransitive(r[i], r[|r| - 1], x, desc);
        }
      }
    } else {
      var init, last := r[..|r| - 1], r[|r| - 1];
      InsertSorted(init, x, desc);
      var u := Insert(init, x, desc);
      InsertCount(init, x, desc);
      InOrderTotal(last, x, desc);
      var t := u + [last];
      forall i, j | 0 <= i < j < |t| ensures InOrder(t[i], t[j], desc) {
        if j == |u| {
          assert t[i] in multiset(u);
          if t[i] != x {
            assert t[i] in multiset(init);
            var k :| 0 <= k < |init| && init[k] == t[i];
            assert InOrder(r[k], r[|r| - 1], desc);
          }
        }
      }
    }
  }

  /** The result of the sort is in date order. */
  lemma {:induction false} SortSorted(s: seq<Expense>, desc: bool)
    ensures SortedBy(SortByDate(s, desc), desc)
  {
    if |s| > 0 {
      SortSorted(s[..|s| - 1], desc);
      InsertSorted(SortByDate(s[..|s| - 1], desc), s[|s| - 1], desc);
    }
  }

  /** A list already in date order is left as it is. */
  lemma {:induction false} SortOfSorted(s: seq<Expense>, desc: bool)
    requires SortedBy(s, desc)
    ensures SortByDate(s, desc) == s
  {
    if |s| > 0 {
      var init := s[..|s| - 1];
      assert SortedBy(init, desc);
      SortOfSorted(init, desc);
      assert s == init + [s[|s| - 1]];
    }
  }

  /** Inserting behind elements that may all precede `x` appends it. */
  lemma InsertAtEnd(t: seq<Expense>, x: Expense, desc: bool)
    requires forall y :: y in t ==> InOrder(y, x, desc)
    ensures Insert(t, x, desc) == t + [x]
  {
    if |t| > 0 {
      assert t[|t| - 1] in t;
    }
  }

  /** When `x` goes at the end, filtering the result is filtering the list and then appending `x`. */
  lemma FilterInsertAtEnd(r: seq<Expense>, x: Expense, desc: bool, q: Expense -> bool)
    requires SortedBy(r, desc)
    requires |r| > 0 && InOrder(r[|r| - 1], x, desc)
    ensures Filter(Insert(r, x, desc), q) ==
            if q(x) then Insert(Filter(r, q), x, desc) else Filter(r, q)
  {
    FilterSnoc(r, x, q);
    if q(x) {
      FilterMembers(r, q);
      forall y | y in Filter(r, q) ensures InOrder(y, x, desc) {
        var k :| 0 <= k < |r| && r[k] == y;
        if k < |r| - 1 {
          InOrderTransitive(r[k], r[|r| - 1], x, desc);
        }
      }
      InsertAtEnd(Filter(r, q), x, desc);
    }
  }

  /** Filtering commutes with inserting into a sorted list. */
  lemma {:induction false} FilterInsert(r: seq<Expense>, x: Expense, desc: bool, q: Expense -> bool)
    requires SortedBy(r, desc)
    ensures Filter(Insert(r, x, desc), q) ==
            if q(x) then Insert(Filter(r, q), x, desc) else Filter(r, q)
  {
    if |r| == 0 {
      FilterSnoc(r, x, q);
    } else if InOrder(r[|r| - 1], x, desc) {
      FilterInsertAtEnd(r, x, desc, q);
    } else {
      var init, last := r[..|r| - 1], r[|r| - 1];
      assert r == init + [last];
      assert SortedBy(init, desc);
      FilterInsert(init, x, desc, q);
      var u, fi := Insert(init, x, desc), Filter(init, q);
      assert Insert(r, x, desc) == u + [last];
      FilterSnoc(u, last, q);
      FilterSnoc(init, last, q);
      var tail := if q(last) then [last] else [];
      assert Filter(r, q) == fi + tail;
      if q(x) {
        if q(last) {
          assert (fi + [last])[..|fi + [last]| - 1] == fi;
          assert Insert(fi + [last], x, desc) == Insert(fi, x, desc) + [last];
        } else {
          assert Insert(fi, x, desc) + tail == Insert(fi, x, desc);
          assert fi + tail == fi;
        }
      }
    }
  }

  /**
   * Filtering a sorted list is sorting the filtered list: the stable sort keeps
   * the relative order of the elements a filter lets through.
   */
  lemma {:induction false} FilterSortCommute(s: seq<Expense>, desc: bool, q: Expense -> bool)
    ensures Filter(SortByDate(s, desc), q) == SortByDate(Filter(s, q), desc)
  {
    if |s| > 0 {
      var init, x := s[..|s| - 1], s[|s| - 1];
      assert s == init + [x];
      FilterSortCommute(init, desc, q);
      SortSorted(init, desc);
      FilterInsert(SortByDate(init, desc), x, desc, q);
      FilterSnoc(init, x, q);
      if q(x) {
        var fi := Filter(init, q);
        assert (fi + [x])[..|fi + [x]| - 1] == fi;
        assert SortByDate(fi + [x], desc) == Insert(SortByDate(fi, desc), x, desc);
        assert Filter(s, q) == fi + [x];
        assert SortByDate(s, desc) == Insert(SortByDate(init, desc), x, desc);
        assert Filter(SortByDate(init, desc), q) == SortByDate(fi, desc);
        assert Filter(Insert(SortByDate(init, desc), x, desc), q) == Insert(SortByDate(fi, desc), x, desc);
        assert Filter(SortByDate(s, desc), q) == Insert(SortByDate(fi, desc), x, desc);
        assert SortByDate(Filter(s, q), desc) == SortByDate(fi + [x], desc);
      } else {
        assert Filter(s, q) == Filter(init, q);
      }
    }
  }

  function HasDate(d: string): Expense -> bool {
    (e: Expense) => e.date == d
  }

  /** A list whose expenses all carry the same date is in order either way. */
  lemma SameDateSorted(s: seq<Expense>, d: string, desc: bool)
    requires forall i :: 0 <= i < |s| ==> s[i].date == d
    ensures SortedBy(s, desc)
  {
    StrLessIrreflexive(d);
  }

  /** Stability: the expenses of one date come out in the order they went in. */
  lemma SortStable(s: seq<Expense>, desc: bool, d: string)
    ensures Filter(SortByDate(s, desc), HasDate(d)) == Filter(s, HasDate(d))
  {
    FilterSortCommute(s, desc, HasDate(d));
    var f := Filter(s, HasDate(d));
    FilterMembers(s, HasDate(d));
    forall i | 0 <= i < |f| ensures f[i].date == d {
      assert f[i] in f;
    }
    SameDateSorted(f, d, desc);
    SortOfSorted(f, desc);
  }

  // ---------------------------------------------------------------------------
  // Totals

  /** The sum of the full totals (base plus sub-expenses) of a list of expenses. */
  function SumTotals(s: seq<Expense>): int {
    if |s| == 0 then 0 else SumTotals(s[..|s| - 1]) + FullTotal(s[|s| - 1])
  }

  lemma {:induction false} SumTotalsAppend(a: seq<Expense>, b: seq<Expense>)
    ensures SumTotals(a + b) == SumTotals(a) + SumTotals(b)
    decreases |b|
  {
    if |b| == 0 {
      assert a + b == a;
    } else {
      assert (a + b)[..|a + b| - 1] == a + b[..|b| - 1];
      SumTotalsAppend(a, b[..|b| - 1]);
    }
  }

  lemma SumTotalsSnoc(s: seq<Expense>, e: Expense)
    ensures SumTotals(s + [e]) == SumTotals(s) + FullTotal(e)
  {
    assert (s + [e])[..|s + [e]| - 1] == s;
  }

  lemma {:induction false} SumTotalsInsert(r: seq<Expense>, x: Expense, desc: bool)
    ensures SumTotals(Insert(r, x, desc)) == SumTotals(r) + FullTotal(x)
  {
    if |r| > 0 && !InOrder(r[|r| - 1], x, desc) {
      SumTotalsInsert(r[..|r| - 1], x, desc);
      SumTotalsAppend(Insert(r[..|r| - 1], x, desc), [r[|r| - 1]]);
    } else {
      SumTotalsAppend(r, [x]);
    }
  }

  /** Sorting does not change the total. */
  lemma {:induction false} SumTotalsSort(s: seq<Expense>, desc: bool)
    ensures SumTotals(SortByDate(s, desc)) == SumTotals(s)
  {
    if |s| > 0 {
      SumTotalsSort(s[..|s| - 1], desc);
      SumTotalsInsert(SortByDate(s[..|s| - 1], desc), s[|s| - 1], desc);
    }
  }

  // ---------------------------------------------------------------------------
  // The filter panel

  /** `"all" | "paid" | "unpaid"` */
  datatype StatusFilter = AnyStatus | PaidOnly | UnpaidOnly

  /**
   * The filter panel. `role` None is "all"; `employee` and `shop` impose nothing
   * when they are "all" or empty; `from`, `to` and `search` impose nothing when empty.
   */
  datatype Filters = Filters(
    role: Option<Role>,
    status: StatusFilter,
    employee: string,
    shop: string,
    from: string,
    to: string,
    search: string)

  const NoFilters: Filters := Filters(None, AnyStatus, "all", "all", "", "", "")

  /** Case-insensitive search in the description or the shop name. */
  predicate SearchHit(e: Expense, search: string) {
    var s := ToLower(search);
    Includes(ToLower(e.description), s) || Includes(ToLower(e.shop), s)
  }

  /** The filter callback of `filteredExpenses`, one early return per test. */
  predicate Keep(f: Filters, e: Expense) {
    var paid := IsExpensePaid(e);
    if f.role.Some? && e.role != f.role.value then false
    else if f.status == PaidOnly && !paid then false
    else if f.status == UnpaidOnly && paid then false
    else if f.employee != "all" && f.employee != "" && e.employeeId != Some(f.employee) then false
    else if f.shop != "all" && f.shop != "" && e.shop != f.shop then false
    else if f.from != "" && StrLess(e.date, f.from) then false
    else if f.to != "" && StrLess(f.to, e.date) then false
    else if f.search != "" && !SearchHit(e, f.search) then false
    else true
  }

  function Passes(f: Filters): Expense -> bool {
    (e: Expense) => Keep(f, e)
  }

  /** `filteredExpenses`: the expenses that pass the filter panel, sorted by date ascending. */
  function FilteredExpenses(expenses: seq<Expense>, f: Filters): seq<Expense> {
    SortByDate(Filter(expenses, Passes(f)), false)
  }

  /** An expense is kept exactly when it satisfies every active criterion. */
  lemma KeepIff(f: Filters, e: Expense)
    ensures Keep(f, e) <==>
      && (f.role.Some? ==> e.role == f.role.value)
      && (f.status == PaidOnly ==> IsExpensePaid(e))
      && (f.status == UnpaidOnly ==> !IsExpensePaid(e))
      && (f.employee != "all" && f.employee != "" ==> e.employeeId == Some(f.employee))
      && (f.shop != "all" && f.shop != "" ==> e.shop == f.shop)
      && (f.from != "" ==> StrLessEq(f.from, e.date))
      && (f.to != "" ==> StrLessEq(e.date, f.to))
      && (f.search != "" ==> SearchHit(e, f.search))
  {
  }

  /**
   * The filtered list holds exactly the expenses that pass, each as often as in
   * the input, in ascending date order; among equal dates the input order is kept.
   */
  lemma FilteredSpec(expenses: seq<Expense>, f: Filters)
    ensures SortedBy(FilteredExpenses(expenses, f), false)
    ensures multiset(FilteredExpenses(expenses, f)) == multiset(Filter(expenses, Passes(f)))
    ensures forall e :: e in FilteredExpenses(expenses, f) <==> e in expenses && Keep(f, e)
    ensures forall d :: Filter(FilteredExpenses(expenses, f), HasDate(d)) == Filter(Filter(expenses, Passes(f)), HasDate(d))
  {
    var kept := Filter(expenses, Passes(f));
    SortSorted(kept, false);
    SortPermutation(kept, false);
    FilterMembers(expenses, Passes(f));
    forall e ensures e in FilteredExpenses(expenses, f) <==> e in kept {
      assert e in FilteredExpenses(expenses, f) <==> e in multiset(FilteredExpenses(expenses, f));
    }
    forall d ensures Filter(FilteredExpenses(expenses, f), HasDate(d)) == Filter(kept, HasDate(d)) {
      SortStable(kept, false, d);
    }
  }

  /** On a list already sorted by date, filtering keeps the list's own order. */
  lemma FilteredOfSorted(expenses: seq<Expense>, f: Filters)
    requires SortedBy(expenses, false)
    ensures FilteredExpenses(expenses, f) == Filter(expenses, Passes(f))
  {
    FilterSortCommute(expenses, false, Passes(f));
    SortOfSorted(expenses, false);
  }

  /** With every filter on "all" or empty, every expense passes. */
  lemma NoFiltersKeepAll(expenses: seq<Expense>)
    ensures FilteredExpenses(expenses, NoFilters) == SortByDate(expenses, false)
  {
    FilterAll(expenses, Passes(NoFilters));
  }

  // ---------------------------------------------------------------------------
  // Pagination

  /** `filteredExpenses.slice(0, visibleRowCount)` */
  function VisibleExpenses(list: seq<Expense>, count: nat): (r: seq<Expense>)
    ensures |r| == if count < |list| then count else |list|
    ensures r == list[..|r|]
  {
    if count < |list| then list[..count] else list
  }

  /** `visibleRowCount < filteredExpenses.length` */
  predicate HasMore(count: nat, n: nat) {
    count < n
  }

  /** There are more rows to load exactly when some filtered expense is not shown. */
  lemma HasMoreIff(list: seq<Expense>, count: nat)
    ensures HasMore(count, |list|) <==> |VisibleExpenses(list, count)| < |list|
  {
  }

  /** `Math.min(prevCount + ROWS_PER_PAGE, filteredExpenses.length)` */
  function LoadMore(count: nat, n: nat): (r: nat)
    ensures r <= n
    ensures count < n ==> count < r <= count + ROWS_PER_PAGE
    ensures count + ROWS_PER_PAGE <= n ==> r == count + ROWS_PER_PAGE
    ensures n < count + ROWS_PER_PAGE ==> r == n
  {
    if count + ROWS_PER_PAGE < n then count + ROWS_PER_PAGE else n
  }

  /** Loading more never hides a row that was shown: the old view is a prefix of the new one. */
  lemma LoadMoreExtendsView(list: seq<Expense>, count: nat)
    ensures var before := VisibleExpenses(list, count);
            var after := VisibleExpenses(list, LoadMore(count, |list|));
            |before| <= |after| && after[..|before|] == before
    ensures !HasMore(LoadMore(count, |list|), |list|) <==> |list| <= count + ROWS_PER_PAGE
  {
  }

  // ---------------------------------------------------------------------------
  // The paid history

  /** `historyExpenses`: the paid expenses, newest first. */
  function HistoryExpenses(expenses: seq<Expense>): seq<Expense> {
    SortByDate(Filter(expenses, IsExpensePaid), true)
  }

  function ByEmployee(id: string): Expense -> bool {
    (e: Expense) => e.employeeId == Some(id)
  }

  /** `employeeHistory`: no employee selected gives nothing. */
  function EmployeeHistory(expenses: seq<Expense>, employeeId: string): seq<Expense> {
    if employeeId == "" then [] else Filter(HistoryExpenses(expenses), ByEmployee(employeeId))
  }

  function PaidBy(id: string): Expense -> bool {
    (e: Expense) => IsExpensePaid(e) && e.employeeId == Some(id)
  }

  /** The history holds exactly the paid expenses, newest first. */
  lemma HistorySpec(expenses: seq<Expense>)
    ensures SortedBy(HistoryExpenses(expenses), true)
    ensures multiset(HistoryExpenses(expenses)) == multiset(Filter(expenses, IsExpensePaid))
    ensures forall e :: e in HistoryExpenses(expenses) <==> e in expenses && IsExpensePaid(e)
  {
    var paid := Filter(expenses, IsExpensePaid);
    SortSorted(paid, true);
    SortPermutation(paid, true);
    FilterMembers(expenses, IsExpensePaid);
    forall e ensures e in HistoryExpenses(expenses) <==> e in paid {
      assert e in HistoryExpenses(expenses) <==> e in multiset(HistoryExpenses(expenses));
    }
  }

  /**
   * One employee's history is their paid expenses, newest first, and its total
   * (`employeeHistoryTotal`) is the sum of those expenses' full totals.
   */
  lemma EmployeeHistorySpec(expenses: seq<Expense>, employeeId: string)
    requires employeeId != ""
    ensures EmployeeHistory(expenses, employeeId) == SortByDate(Filter(expenses, PaidBy(employeeId)), true)
    ensures SumTotals(EmployeeHistory(expenses, employeeId)) == SumTotals(Filter(expenses, PaidBy(employeeId)))
  {
    var id := employeeId;
    FilterSortCommute(Filter(expenses, IsExpensePaid), true, ByEmployee(id));
    FilterFilter(expenses, IsExpensePaid, ByEmployee(id), PaidBy(id));
    SumTotalsSort(Filter(expenses, PaidBy(id)), true);
  }

  /** The all-time total shown when no employee is selected: every paid expense's full total. */
  lemma AllTimeTotal(expenses: seq<Expense>)
    ensures SumTotals(HistoryExpenses(expenses)) == SumTotals(Filter(expenses, IsExpensePaid))
  {
    SumTotalsSort(Filter(expenses, IsExpensePaid), true);
  }

  // ---------------------------------------------------------------------------
  // Shop suggestions

  /** `(e.shop || "").trim()`; a missing shop is the empty name. */
  function ShopName(e: Expense): string {
    Trim(e.shop)
  }

  /** `expenses.map((e) => (e.shop || "").trim())` */
  function TrimmedShops(expenses: seq<Expense>): seq<string> {
    Map(expenses, ShopName)
  }

  predicate NonEmpty(s: string) {
    |s| > 0
  }

  /** `shopSuggestions`: the non-empty trimmed shop names, each once, in order of first use. */
  function ShopSuggestions(expenses: seq<Expense>): seq<string> {
    Distinct(Filter(TrimmedShops(expenses), NonEmpty))
  }

  /** Each suggestion is a non-empty trimmed shop name of some expense, and every such name is suggested. */
  lemma ShopSuggestionsMembers(expenses: seq<Expense>)
    ensures forall s :: s in ShopSuggestions(expenses) <==>
              s != "" && exists i :: 0 <= i < |expenses| && ShopName(expenses[i]) == s
  {
    var shops := TrimmedShops(expenses);
    var names := Filter(shops, NonEmpty);
    DistinctMembers(names);
    FilterMembers(shops, NonEmpty);
    forall s ensures s in ShopSuggestions(expenses) <==>
                     s != "" && exists i :: 0 <= i < |expenses| && ShopName(expenses[i]) == s {
      MapMember(expenses, ShopName, s);
      assert s in ShopSuggestions(expenses) <==> s in names;
      assert s in names <==> s in shops && |s| > 0;
      assert |s| > 0 <==> s != "";
    }
  }

  /** No name is suggested twice, and the names come in the order of their first use. */
  lemma ShopSuggestionsOrder(expenses: seq<Expense>)
    ensures NoDuplicates(ShopSuggestions(expenses))
    ensures forall s :: s in ShopSuggestions(expenses) <==> s in Filter(TrimmedShops(expenses), NonEmpty)
    ensures var names := Filter(TrimmedShops(expenses), NonEmpty);
            var r := ShopSuggestions(expenses);
            forall i, j :: 0 <= i < j < |r| ==> FirstIndex(names, r[i]) < FirstIndex(names, r[j])
  {
    DistinctSpec(Filter(TrimmedShops(expenses), NonEmpty));
  }

  // ---------------------------------------------------------------------------
  // The budget

  /** `initialAmountHistory[0]?.amount || INITIAL_AMOUNT_CONSTANT` */
  function InitialAmount(history: seq<InitialAmountEntry>): (r: int)
    ensures r != 0
    ensures |history| > 0 && history[0].amount != 0 ==> r == history[0].amount
    ensures |history| == 0 || history[0].amount == 0 ==> r == INITIAL_AMOUNT_CONSTANT
  {
    if |history| > 0 && history[0].amount != 0 then history[0].amount else INITIAL_AMOUNT_CONSTANT
  }

  // ---------------------------------------------------------------------------
  // Wallet statistics

  /** `e.date >= budgetPeriodStart` */
  function InPeriod(start: string): Expense -> bool {
    (e: Expense) => StrLessEq(start, e.date)
  }

  predicate IsPending(e: Expense) {
    !IsExpensePaid(e)
  }

  function PeriodExpenses(expenses: seq<Expense>, start: string): seq<Expense> {
    Filter(expenses, InPeriod(start))
  }

  /** The total of a filtered list grows by an appended element's total exactly when it passes. */
  lemma SumTotalsFilterSnoc(s: seq<Expense>, x: Expense, p: Expense -> bool)
    ensures SumTotals(Filter(s + [x], p)) == SumTotals(Filter(s, p)) + (if p(x) then FullTotal(x) else 0)
  {
    FilterSnoc(s, x, p);
    if p(x) {
      SumTotalsSnoc(Filter(s, p), x);
    } else {
      assert Filter(s, p) + [] == Filter(s, p);
    }
  }

  /** The full totals of the paid expenses of a list. */
  function PaidTotal(s: seq<Expense>): int {
    if |s| == 0 then 0
    else PaidTotal(s[..|s| - 1]) + (if IsExpensePaid(s[|s| - 1]) then FullTotal(s[|s| - 1]) else 0)
  }

  /** The full totals of the expenses of a list that are not paid. */
  function PendingTotal(s: seq<Expense>): int {
    if |s| == 0 then 0
    else PendingTotal(s[..|s| - 1]) + (if IsExpensePaid(s[|s| - 1]) then 0 else FullTotal(s[|s| - 1]))
  }

  /** Every expense is either paid or pending, so the two totals make up the whole. */
  lemma {:induction false} PaidPendingPartition(s: seq<Expense>)
    ensures PaidTotal(s) + PendingTotal(s) == SumTotals(s)
  {
    if |s| > 0 {
      PaidPendingPartition(s[..|s| - 1]);
    }
  }

  /** The paid total is the total of the list of paid expenses. */
  lemma {:induction false} PaidTotalIsFilter(s: seq<Expense>)
    ensures PaidTotal(s) == SumTotals(Filter(s, IsExpensePaid))
  {
    if |s| > 0 {
      var init, x := s[..|s| - 1], s[|s| - 1];
      assert s == init + [x];
      assert PaidTotal(s) == PaidTotal(init) + (if IsExpensePaid(x) then FullTotal(x) else 0);
      PaidTotalIsFilter(init);
      SumTotalsFilterSnoc(init, x, IsExpensePaid);
    }
  }

  /**
   * `walletStats`: walks the budget period's expenses once, adding each full
   * total to `spent` when the expense is paid and to `pending` otherwise.
   */
  method WalletStats(expenses: seq<Expense>, initialAmount: int, budgetPeriodStart: string)
    returns (spent: int, pending: int, remaining: int)
    ensures spent == PaidTotal(PeriodExpenses(expenses, budgetPeriodStart))
    ensures pending == PendingTotal(PeriodExpenses(expenses, budgetPeriodStart))
    ensures spent + pending == SumTotals(PeriodExpenses(expenses, budgetPeriodStart))
    ensures remaining == initialAmount - spent
  {
    spent, pending := 0, 0;
    var period := Filter(expenses, InPeriod(budgetPeriodStart));
    var i := 0;
    while i < |period|
      invariant 0 <= i <= |period|
      invariant spent == PaidTotal(period[..i])
      invariant pending == PendingTotal(period[..i])
    {
      var e := period[i];
      var full := e.amount + SubsTotal(e.subtasks);
      assert period[..i + 1][..i] == period[..i];
      if IsExpensePaid(e) {
        spent := spent + full;
      } else {
        pending := pending + full;
      }
      i := i + 1;
    }
    assert period[..i] == period;
    PaidPendingPartition(period);
    remaining := initialAmount - spent;
  }

  /**
   * Only expenses dated on or after the period start are counted; a period that
   * starts before every date spends exactly the all-time total of the paid history.
   */
  lemma SpentSpec(expenses: seq<Expense>, start: string)
    ensures PaidTotal(PeriodExpenses(expenses, start))
         == SumTotals(Filter(expenses, (e: Expense) => StrLessEq(start, e.date) && IsExpensePaid(e)))
    ensures start == "" ==> PaidTotal(PeriodExpenses(expenses, start)) == SumTotals(HistoryExpenses(expenses))
  {
    PaidTotalIsFilter(PeriodExpenses(expenses, start));
    FilterFilter(expenses, InPeriod(start), IsExpensePaid, (e: Expense) => StrLessEq(start, e.date) && IsExpensePaid(e));
    if start == "" {
      forall e: Expense ensures InPeriod(start)(e) {
        assert !StrLess(e.date, start);
      }
      FilterAll(expenses, InPeriod(start));
      AllTimeTotal(expenses);
    }
  }
}
