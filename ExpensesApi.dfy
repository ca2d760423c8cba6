/**
 * The request handling of app/api/expenses/route.ts: the sub-expense
 * normalisers, the expense total, shop de-duplication, and the checks and
 * coercions of POST, PUT, PATCH and DELETE over a store that maps an
 * expense id to the stored expense.
 */
module ExpensesApi {
  import opened Js
  import opened ExpenseTypes
  import opened Collections
  import opened ExpenseViews

  /**
   * A route's answer: success with its status and data, a refusal with its
   * status and message, or a thrown error, which the catch block turns into a
   * 500 carrying the error's own message.
   */
  datatype Response<T> = Success(status: nat, data: T) | Failure(status: nat, error: string) | Crashed

  /** `v.k` on a value known not to be null or undefined. */
  function Field(v: Json, k: string): Json
    requires !IsNullish(v)
  {
    Prop(v, k).value
  }

  /** `typeof v === "string" ? v.trim() : ""` */
  function TrimmedString(v: Json): string {
    if v.Str? then Trim(v.s) else ""
  }

  // ---------------------------------------------------------------------------
  // normalizeSubExpense

  /** The outcome of normalising one entry: dropped (`null`), or the sub-expense to keep. */
  datatype Normalized = Dropped | Kept(sub: Subtask)

  /**
   * A sub-expense in the form the server stores: a trimmed non-empty title, an
   * amount only when it is a number, and the optional text fields only when
   * they are non-empty (the name trimmed).
   */
  predicate NormalSub(s: Subtask) {
    && s.title != "" && Trim(s.title) == s.title
    && (s.amount.Some? ==> s.amount.value.Fin?)
    && (s.date.Some? ==> s.date.value != "")
    && (s.employeeId.Some? ==> s.employeeId.value != "")
    && (s.employeeName.Some? ==> s.employeeName.value != "" && Trim(s.employeeName.value) == s.employeeName.value)
  }

  /** The id: a non-empty string id is kept, anything else is replaced by a fresh one. */
  function SubId(v: Json, genId: string): (r: string)
    ensures v.Str? && v.s != "" ==> r == v.s
    ensures !(v.Str? && v.s != "") ==> r == genId
  {
    if v.Str? && |v.s| > 0 then v.s else genId
  }

  /** `typeof raw.done === "boolean" ? raw.done : Boolean(raw.done)` */
  function SubDone(v: Json): (r: bool)
    ensures r == Truthy(v)
  {
    if v.Bool? then v.b else Truthy(v)
  }

  /** The amount before the NaN test: undefined for null or undefined, otherwise `Number(v)`. */
  function SubAmount(v: Json): (r: Option<Number>)
    ensures r.None? <==> IsNullish(v)
    ensures r.Some? ==> r.value == ToNumber(v)
  {
    if IsNullish(v) then None
    else if v.Num? && v.n.Fin? then Some(v.n)
    else Some(ToNumber(v))
  }

  /** The amount stored: only a number that is not NaN. */
  function KeptAmount(v: Json): (r: Option<Number>)
    ensures r.Some? <==> !IsNullish(v) && ToNumber(v).Fin?
    ensures r.Some? ==> r.value == ToNumber(v)
  {
    var a := SubAmount(v);
    if a.Some? && a.value.Fin? then a else None
  }

  /** The date before the emptiness test: a string as it is, another truthy value as `String(v)`. */
  function SubDate(v: Json): (r: Option<string>)
    ensures v.Str? ==> r == Some(v.s)
    ensures !v.Str? && !Truthy(v) ==> r.None?
  {
    if v.Str? then Some(v.s)
    else if Truthy(v) then Some(ToStr(v))
    else None
  }

  /** The date stored: only a non-empty one. */
  function KeptDate(v: Json): (r: Option<string>)
    ensures r.Some? ==> r.value != ""
    ensures v.Str? ==> r == if v.s == "" then None else Some(v.s)
    ensures !v.Str? && !Truthy(v) ==> r.None?
  {
    var d := SubDate(v);
    if d.Some? && d.value != "" then d else None
  }

  /** The employee id before the emptiness test: `String(v)` unless null or undefined. */
  function SubEmployeeId(v: Json): (r: Option<string>)
    ensures r.None? <==> IsNullish(v)
    ensures r.Some? ==> r.value == ToStr(v)
  {
    if IsNullish(v) then None else Some(ToStr(v))
  }

  /** The employee id stored: only a non-empty one. */
  function KeptEmployeeId(v: Json): (r: Option<string>)
    ensures r.Some? ==> r.value != "" && r.value == ToStr(v)
    ensures v.Str? ==> r == if v.s == "" then None else Some(v.s)
    ensures IsNullish(v) ==> r.None?
  {
    var x := SubEmployeeId(v);
    if x.Some? && x.value != "" then x else None
  }

  /** The employee name before the emptiness test: a string, trimmed. */
  function SubEmployeeName(v: Json): (r: Option<string>)
    ensures r.None? <==> !v.Str?
    ensures r.Some? ==> r.value == Trim(v.s)
  {
    if v.Str? then Some(Trim(v.s)) else None
  }

  /** The employee name stored: only a non-empty trimmed one. */
  function KeptEmployeeName(v: Json): (r: Option<string>)
    ensures r.Some? ==> v.Str? && r.value == Trim(v.s) && r.value != "" && Trim(r.value) == r.value
    ensures v.Str? && Trim(v.s) != "" ==> r == Some(Trim(v.s))
  {
    var x := SubEmployeeName(v);
    if x.Some? && x.value != "" then TrimIdempotent(v.s); x else None
  }

  /**
   * `normalizeSubExpense(raw)`, with the random id `genId`. Reading a property
   * of a null or undefined entry throws (None); an entry whose title trims to
   * nothing is dropped.
   */
  function NormalizedSub(raw: Json, genId: string): (r: Option<Normalized>)
    ensures r.None? <==> IsNullish(raw)
    ensures r.Some? && r.value.Kept? ==>
              var s := r.value.sub;
              && NormalSub(s)
              && s.title == TrimmedString(Field(raw, "title"))
              && s.id == SubId(Field(raw, "id"), genId)
              && s.done == Truthy(Field(raw, "done"))
  {
    if IsNullish(raw) then None
    else
      var title := TrimmedString(Field(raw, "title"));
      if title == "" then Some(Dropped)
      else
        TrimIdempotent(Field(raw, "title").s);
        Some(Kept(Subtask(
          SubId(Field(raw, "id"), genId),
          title,
          SubDone(Field(raw, "done")),
          KeptAmount(Field(raw, "amount")),
          KeptDate(Field(raw, "date")),
          KeptEmployeeId(Field(raw, "employeeId")),
          KeptEmployeeName(Field(raw, "employeeName")))))
  }

  /** An entry is dropped exactly when it is an object-like value whose title trims to nothing. */
  lemma NormalizedSubDrops(raw: Json, genId: string)
    ensures NormalizedSub(raw, genId) == Some(Dropped) <==>
              !IsNullish(raw) && TrimmedString(Field(raw, "title")) == ""
  {
  }

  /**
   * `normalizeSubExpense` as the route writes it: a fresh object holding id,
   * title and done, and each optional field assigned only when it has a value.
   */
  method NormalizeSubExpense(raw: Json, genId: string) returns (r: Option<Normalized>)
    ensures r == NormalizedSub(raw, genId)
  {
    if IsNullish(raw) {
      return None;
    }
    var title := TrimmedString(Field(raw, "title"));
    if title == "" {
      return Some(Dropped);
    }
    var id := SubId(Field(raw, "id"), genId);
    var done := SubDone(Field(raw, "done"));
    var amount := SubAmount(Field(raw, "amount"));
    var date := SubDate(Field(raw, "date"));
    var employeeId := SubEmployeeId(Field(raw, "employeeId"));
    var employeeName := SubEmployeeName(Field(raw, "employeeName"));

    var subExpense := Subtask(id, title, done, None, None, None, None);
    if amount.Some? && amount.value.Fin? {
      subExpense := subExpense.(amount := amount);
    }
    if date.Some? && date.value != "" {
      subExpense := subExpense.(date := date);
    }
    if employeeId.Some? && employeeId.value != "" {
      subExpense := subExpense.(employeeId := employeeId);
    }
    if employeeName.Some? && employeeName.value != "" {
      subExpense := subExpense.(employeeName := employeeName);
    }
    r := Some(Kept(subExpense));
  }

  /**
   * The optional fields of a kept entry: the amount is present exactly when the
   * raw amount is defined, not null and a number after coercion, and then it is
   * that number; a string date, a string employee id and the trimmed name are
   * kept exactly when non-empty.
   */
  lemma NormalizedSubOptional(raw: Json, genId: string)
    requires NormalizedSub(raw, genId).Some? && NormalizedSub(raw, genId).value.Kept?
    ensures var s := NormalizedSub(raw, genId).value.sub;
            var amount := Field(raw, "amount");
            && (s.amount.Some? <==> !IsNullish(amount) && ToNumber(amount).Fin?)
            && (s.amount.Some? ==> s.amount.value == ToNumber(amount))
    ensures var s := NormalizedSub(raw, genId).value.sub;
            var date := Field(raw, "date");
            var id := Field(raw, "employeeId");
            var name := Field(raw, "employeeName");
            && (date.Str? ==> s.date == if date.s == "" then None else Some(date.s))
            && (id.Str? ==> s.employeeId == if id.s == "" then None else Some(id.s))
            && (IsNullish(id) ==> s.employeeId.None?)
            && (name.Str? ==> s.employeeName == if Trim(name.s) == "" then None else Some(Trim(name.s)))
            && (!name.Str? ==> s.employeeName.None?)
  {
  }

  // ---------------------------------------------------------------------------
  // normalizeSubExpenses

  /** `arr.map(normalizeSubExpense).filter((s) => s !== null)`; `genId(i)` is the id drawn for entry `i`. */
  function NormalizeAll(items: seq<Json>, genId: nat -> string): Option<seq<Subtask>> {
    if |items| == 0 then Some([])
    else
      var n := |items| - 1;
      var init := NormalizeAll(items[..n], genId);
      var last := NormalizedSub(items[n], genId(n));
      if init.None? || last.None? then None
      else Some(init.value + if last.value.Kept? then [last.value.sub] else [])
  }

  /**
   * The list normaliser throws exactly when some entry is null or undefined;
   * otherwise it keeps at most one sub-expense per entry, each in normal form.
   */
  lemma {:induction false} NormalizeAllSpec(items: seq<Json>, genId: nat -> string)
    ensures NormalizeAll(items, genId).None? <==> exists i :: 0 <= i < |items| && IsNullish(items[i])
    ensures var r := NormalizeAll(items, genId);
            r.Some? ==> |r.value| <= |items| && forall j :: 0 <= j < |r.value| ==> NormalSub(r.value[j])
  {
    if |items| > 0 {
      var n := |items| - 1;
      var prefix := items[..n];
      NormalizeAllSpec(prefix, genId);
      var init := NormalizeAll(prefix, genId);
      var last := NormalizedSub(items[n], genId(n));
      if init.None? {
        var i :| 0 <= i < n && IsNullish(prefix[i]);
        assert IsNullish(items[i]);
      } else if last.None? {
        assert IsNullish(items[n]);
      } else {
        forall i | 0 <= i < |items|
          ensures !IsNullish(items[i])
        {
          if i < n {
            assert items[i] == prefix[i];
          }
        }
        var r := init.value + if last.value.Kept? then [last.value.sub] else [];
        NormalSubAppend(init.value, if last.value.Kept? then [last.value.sub] else []);
      }
    }
  }

  lemma NormalSubAppend(a: seq<Subtask>, b: seq<Subtask>)
    requires forall j :: 0 <= j < |a| ==> NormalSub(a[j])
    requires forall j :: 0 <= j < |b| ==> NormalSub(b[j])
    ensures forall j :: 0 <= j < |a + b| ==> NormalSub((a + b)[j])
  {
  }

  /** `normalizeSubExpenses(arr)`: a value that is not an array gives no sub-expenses. */
  function NormalizeSubExpenses(arr: Json, genId: nat -> string): (r: Option<seq<Subtask>>)
    ensures !arr.Arr? ==> r == Some([])
    ensures arr.Arr? ==> r == NormalizeAll(arr.items, genId)
  {
    if arr.Arr? then NormalizeAll(arr.items, genId) else Some([])
  }

  /** What `normalizeSubExpense` gives for each entry, in input order. */
  function Outcomes(items: seq<Json>, genId: nat -> string): seq<Option<Normalized>> {
    seq(|items|, i requires 0 <= i < |items| => NormalizedSub(items[i], genId(i)))
  }

  /** The sub-expenses of the kept outcomes, read front to back. */
  function KeptSubs(outcomes: seq<Option<Normalized>>): seq<Subtask> {
    if |outcomes| == 0 then []
    else
      (if outcomes[0].Some? && outcomes[0].value.Kept? then [outcomes[0].value.sub] else []) + KeptSubs(outcomes[1..])
  }

  lemma {:induction false} KeptSubsSnoc(a: seq<Option<Normalized>>, x: Option<Normalized>)
    ensures KeptSubs(a + [x]) == KeptSubs(a) + KeptSubs([x])
  {
    if |a| > 0 {
      assert (a + [x])[0] == a[0];
      assert (a + [x])[1..] == a[1..] + [x];
      KeptSubsSnoc(a[1..], x);
    }
  }

  /** A sub-expense is kept exactly when some outcome keeps it. */
  lemma {:induction false} KeptSubsMembers(outcomes: seq<Option<Normalized>>, s: Subtask)
    ensures s in KeptSubs(outcomes) <==> exists i :: 0 <= i < |outcomes| && outcomes[i] == Some(Kept(s))
  {
    if |outcomes| > 0 {
      KeptSubsMembers(outcomes[1..], s);
      if s in KeptSubs(outcomes) && outcomes[0] != Some(Kept(s)) {
        var i :| 0 <= i < |outcomes[1..]| && outcomes[1..][i] == Some(Kept(s));
        assert outcomes[i + 1] == Some(Kept(s));
      }
      if exists i :: 0 <= i < |outcomes| && outcomes[i] == Some(Kept(s)) {
        var i :| 0 <= i < |outcomes| && outcomes[i] == Some(Kept(s));
        if i > 0 {
          assert outcomes[1..][i - 1] == Some(Kept(s));
        }
      }
    }
  }

  /**
   * The entries kept are, in order, the normalised entries with a non-empty
   * title: the list is the kept sub-expenses of the entries read front to back.
   */
  lemma {:induction false} NormalizeAllKeeps(items: seq<Json>, genId: nat -> string)
    ensures NormalizeAll(items, genId).Some? ==> NormalizeAll(items, genId).value == KeptSubs(Outcomes(items, genId))
  {
    if |items| > 0 && NormalizeAll(items, genId).Some? {
      var n := |items| - 1;
      NormalizeAllKeeps(items[..n], genId);
      var last := NormalizedSub(items[n], genId(n));
      assert Outcomes(items, genId) == Outcomes(items[..n], genId) + [last];
      KeptSubsSnoc(Outcomes(items[..n], genId), last);
      assert KeptSubs([last]) == (if last.value.Kept? then [last.value.sub] else []) by {
        assert [last][1..] == [];
      }
    }
  }

  // ---------------------------------------------------------------------------
  // computeExpenseTotal

  /** The base amount: a number as it is, otherwise `Number(amount) || 0`. */
  function BaseAmount(amount: Json): (r: int)
    ensures ToNumber(amount).Fin? ==> r == ToNumber(amount).v
    ensures ToNumber(amount).NaN? ==> r == 0
  {
    if amount.Num? && amount.n.Fin? then amount.n.v
    else
      var n := ToNumber(amount);
      if n.Fin? && n.v != 0 then n.v else 0
  }

  /**
   * `computeExpenseTotal(e)`: the base amount plus every sub-expense amount
   * that is a number. The route's reduce counts a missing or NaN amount as 0,
   * which is how `SubsTotal` counts it.
   */
  function ComputeExpenseTotal(amount: Json, subtasks: seq<Subtask>): (r: int)
    ensures ToNumber(amount).Fin? ==> r == ToNumber(amount).v + SubsTotal(subtasks)
    ensures ToNumber(amount).NaN? ==> r == SubsTotal(subtasks)
  {
    BaseAmount(amount) + SubsTotal(subtasks)
  }

  /** For a stored expense the server's total is the page's full total. */
  lemma ComputeExpenseTotalMatchesPage(e: Expense)
    ensures ComputeExpenseTotal(Num(Fin(e.amount)), e.subtasks) == FullTotal(e)
  {
  }

  // ---------------------------------------------------------------------------
  // dedupeShopsFromExpenses

  /** Adding one expense to the list adds its trimmed shop at the end, unless it is empty or already listed. */
  lemma ShopSuggestionsSnoc(expenses: seq<Expense>, e: Expense)
    ensures var before := ShopSuggestions(expenses);
            var s := ShopName(e);
            ShopSuggestions(expenses + [e]) == if s == "" || s in before then before else before + [s]
  {
    MapSnoc(expenses, e, ShopName);
    NamesSnoc(TrimmedShops(expenses), ShopName(e));
  }

  /** The step of `ShopSuggestionsSnoc` on the list of names. */
  lemma NamesSnoc(names: seq<string>, x: string)
    ensures var before := Distinct(Filter(names, NonEmpty));
            Distinct(Filter(names + [x], NonEmpty)) == if x == "" || x in before then before else before + [x]
  {
    FilterSnoc(names, x, NonEmpty);
    assert NonEmpty(x) <==> x != "";
    if x == "" {
      assert Filter(names, NonEmpty) + [] == Filter(names, NonEmpty);
    } else {
      DistinctSnoc(Filter(names, NonEmpty), x);
    }
  }

  /**
   * `dedupeShopsFromExpenses`: one pass that skips empty shop names and
   * pushes each name the `seen` set does not hold yet.
   */
  method DedupeShops(expenses: seq<Expense>) returns (shops: seq<string>)
    ensures shops == ShopSuggestions(expenses)
  {
    var seen: set<string> := {};
    shops := [];
    for i := 0 to |expenses|
      invariant shops == ShopSuggestions(expenses[..i])
      invariant forall x :: x in seen <==> x in shops
    {
      assert expenses[..i + 1] == expenses[..i] + [expenses[i]];
      ShopSuggestionsSnoc(expenses[..i], expenses[i]);
      var s := Trim(expenses[i].shop);
      if s == "" {
        continue;
      }
      if s !in seen {
        seen := seen + {s};
        shops := shops + [s];
      }
    }
    assert expenses[..|expenses|] == expenses;
  }
}
