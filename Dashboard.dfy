/**
 * The analytics dashboard (app/dashboard/page.tsx): the three statistics over
 * the listed expenses, how the fetched responses become the page's lists, and
 * the amount the add form sends. The page's own expense record carries a
 * status string instead of the paid flag.
 */
module Dashboard {
  import opened Js
  import opened ExpenseTypes
  import opened Collections

  /** The fields of a dashboard expense the statistics read; the amount may be missing or NaN. */
  datatype DashExpense = DashExpense(amount: Option<Number>, status: string)

  predicate IsApproved(e: DashExpense) {
    e.status == "APPROVED"
  }

  predicate IsPending(e: DashExpense) {
    e.status == "PENDING"
  }

  /** `es.reduce((sum, e) => sum + (e.amount || 0), 0)` */
  function SumAmounts(es: seq<DashExpense>): int {
    if |es| == 0 then 0 else SumAmounts(es[..|es| - 1]) + AmountOrZero(es[|es| - 1].amount)
  }

  datatype Stats = Stats(total: int, approved: int, pending: nat)

  /** The `stats` memo: total volume, approved volume, number of pending expenses. */
  function DashStats(es: seq<DashExpense>): Stats {
    Stats(SumAmounts(es), SumAmounts(Filter(es, IsApproved)), |Filter(es, IsPending)|)
  }

  predicate NotApproved(e: DashExpense) {
    !IsApproved(e)
  }

  lemma SumAmountsSnoc(es: seq<DashExpense>, e: DashExpense)
    ensures SumAmounts(es + [e]) == SumAmounts(es) + AmountOrZero(e.amount)
  {
    assert (es + [e])[..|es|] == es;
  }

  /** Splitting a list by a test and its negation splits its sum. */
  lemma {:induction false} SumAmountsSplit(es: seq<DashExpense>, p: DashExpense -> bool, q: DashExpense -> bool)
    requires forall x :: q(x) == !p(x)
    ensures SumAmounts(Filter(es, p)) + SumAmounts(Filter(es, q)) == SumAmounts(es)
  {
    if |es| > 0 {
      var init := es[..|es| - 1];
      var e := es[|es| - 1];
      assert es == init + [e];
      SumAmountsSplit(init, p, q);
      FilterSnoc(init, e, p);
      FilterSnoc(init, e, q);
      SumAmountsSnoc(init, e);
      if p(e) {
        SumAmountsSnoc(Filter(init, p), e);
        assert Filter(es, q) == Filter(init, q);
      } else {
        SumAmountsSnoc(Filter(init, q), e);
        assert Filter(es, p) == Filter(init, p);
      }
    }
  }

  lemma {:induction false} SumAmountsNonNegative(es: seq<DashExpense>)
    requires forall i :: 0 <= i < |es| ==> AmountOrZero(es[i].amount) >= 0
    ensures SumAmounts(es) >= 0
  {
    if |es| > 0 {
      SumAmountsNonNegative(es[..|es| - 1]);
    }
  }

  /**
   * One more expense adds its amount (0 when missing, NaN or zero) to the
   * total, to the approved volume only when approved, and one to the pending
   * count only when pending.
   */
  lemma DashStatsSnoc(es: seq<DashExpense>, e: DashExpense)
    ensures var before := DashStats(es);
            var after := DashStats(es + [e]);
            && after.total == before.total + AmountOrZero(e.amount)
            && after.approved == before.approved + (if IsApproved(e) then AmountOrZero(e.amount) else 0)
            && after.pending == before.pending + (if IsPending(e) then 1 else 0)
  {
    SumAmountsSnoc(es, e);
    FilterSnoc(es, e, IsApproved);
    FilterSnoc(es, e, IsPending);
    if IsApproved(e) {
      SumAmountsSnoc(Filter(es, IsApproved), e);
    } else {
      assert Filter(es + [e], IsApproved) == Filter(es, IsApproved);
    }
    assert |Filter(es + [e], IsPending)| == |Filter(es, IsPending)| + (if IsPending(e) then 1 else 0);
  }

  /**
   * The approved volume and the volume of every other expense make up the
   * total, so with no negative amounts the approved volume is at most the total.
   */
  lemma ApprovedWithinTotal(es: seq<DashExpense>)
    ensures DashStats(es).approved + SumAmounts(Filter(es, NotApproved)) == DashStats(es).total
    ensures (forall i :: 0 <= i < |es| ==> AmountOrZero(es[i].amount) >= 0) ==>
              0 <= DashStats(es).approved <= DashStats(es).total
  {
    SumAmountsSplit(es, IsApproved, NotApproved);
    if forall i :: 0 <= i < |es| ==> AmountOrZero(es[i].amount) >= 0 {
      FilterAmountsNonNegative(es, NotApproved);
      FilterAmountsNonNegative(es, IsApproved);
    }
  }

  /** A selection of amounts none of which is negative sums to at least 0. */
  lemma FilterAmountsNonNegative(es: seq<DashExpense>, p: DashExpense -> bool)
    requires forall i :: 0 <= i < |es| ==> AmountOrZero(es[i].amount) >= 0
    ensures SumAmounts(Filter(es, p)) >= 0
  {
    var f := Filter(es, p);
    FilterMembers(es, p);
    forall i | 0 <= i < |f| ensures AmountOrZero(f[i].amount) >= 0 {
      assert f[i] in es;
    }
    SumAmountsNonNegative(f);
  }

  /** The pending count is at most the number of expenses, and zero exactly when none is pending. */
  lemma PendingCountBounds(es: seq<DashExpense>)
    ensures DashStats(es).pending <= |es|
    ensures DashStats(es).pending == 0 <==> forall i :: 0 <= i < |es| ==> !IsPending(es[i])
  {
    FilterMembers(es, IsPending);
    if DashStats(es).pending == 0 {
      forall i | 0 <= i < |es| ensures !IsPending(es[i]) {
        assert es[i] in es;
      }
    } else {
      assert Filter(es, IsPending)[0] in Filter(es, IsPending);
    }
  }

  /** `Array.isArray(expData) ? expData : []` */
  function ExpensesFrom(expData: Json): (r: seq<Json>)
    ensures expData.Arr? ==> r == expData.items
    ensures !expData.Arr? ==> r == []
  {
    if expData.Arr? then expData.items else []
  }

  /**
   * The employee list after a fetch: an array as it is; for an object the first
   * truthy of `employees`, `data` and `users`, else an empty array; anything
   * else (null, a string, a number) leaves the list as it was.
   */
  function EmployeesAfter(previous: Json, empData: Json): (r: Json)
    ensures empData.Arr? ==> r == empData
    ensures !empData.Arr? && !empData.Obj? ==> r == previous
    ensures empData.Obj? ==>
              var f := empData.fields;
              && (Truthy(Get(f, "employees")) ==> r == Get(f, "employees"))
              && (!Truthy(Get(f, "employees")) && Truthy(Get(f, "data")) ==> r == Get(f, "data"))
              && (!Truthy(Get(f, "employees")) && !Truthy(Get(f, "data")) && Truthy(Get(f, "users")) ==>
                    r == Get(f, "users"))
              && (!Truthy(Get(f, "employees")) && !Truthy(Get(f, "data")) && !Truthy(Get(f, "users")) ==>
                    r == Arr([]))
  {
    if empData.Arr? then empData
    else if empData.Obj? then
      var f := empData.fields;
      Or(Get(f, "employees"), Or(Get(f, "data"), Or(Get(f, "users"), Arr([]))))
    else previous
  }

  /** An object response always replaces the list, and the result is never null or undefined. */
  lemma EmployeesAfterObject(previous: Json, empData: Json)
    requires empData.Obj?
    ensures !IsNullish(EmployeesAfter(previous, empData))
    ensures Truthy(EmployeesAfter(previous, empData))
  {
  }

  /** `formData.amount ? Number(formData.amount) : 0` */
  function AmountDefault(input: string): (r: Number)
    ensures input == "" ==> r == Fin(0)
    ensures input != "" ==> r == StringToNumber(input)
  {
    if input != "" then StringToNumber(input) else Fin(0)
  }

  /**
   * The default adds nothing to `Number` (which reads "" as 0), and an amount
   * typed as a printed integer is sent as that integer.
   */
  lemma AmountDefaultIsNumber(input: string)
    ensures AmountDefault(input) == StringToNumber(input)
  {
    if input == "" {
      TrimNoSpaceEnds(input);
    }
  }

  lemma AmountDefaultRoundTrip(n: int)
    ensures AmountDefault(IntToDecimal(n)) == Fin(n)
  {
    NumberRoundTrip(n);
  }
}
