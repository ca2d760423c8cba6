/**
 * The handlers of app/api/expenses/route.ts: POST (create), PUT (mark paid in
 * bulk), PATCH (whitelisted update) and DELETE. The database is a map from an
 * expense id to the stored expense; a handler returns its response together
 * with the store as it leaves it.
 */
module ExpensesRoutes {
  import opened Js
  import opened ExpenseTypes
  import opened Collections
  import opened ExpensesApi

  /** A handler's response and the store after it. */
  datatype Answer<T> = Answer(response: Response<T>, store: map<string, Expense>)

  /** A present, non-empty optional string: what `!!x` tests for an optional string field. */
  predicate Present(o: Option<string>) {
    o.Some? && o.value != ""
  }

  // ---------------------------------------------------------------------------
  // POST

  const PostInvalidMessage: string :=
    "Missing or invalid fields. Required: description (string), amount (number >= 0), date (string), weekStart (string)"
  const PostManagerMessage: string := "Employee ID and Name are required for Manager role."

  /** The values POST reads from the request body, after its coercions. */
  datatype PostFields = PostFields(
    description: string,
    amount: Number,
    date: string,
    weekStart: string,
    shop: string,
    role: Role,
    employeeId: Option<string>,
    employeeName: Option<string>,
    subtasks: seq<Subtask>)

  /** `typeof v === "string" ? v : ""` */
  function StringOrEmpty(v: Json): (r: string)
    ensures v.Str? ==> r == v.s
    ensures !v.Str? ==> r == ""
  {
    if v.Str? then v.s else ""
  }

  /** The role POST stores: a known trimmed role name, anything else (a missing role included) "other". */
  function PostRole(v: Json): (r: Role)
    ensures !v.Str? ==> r == Other
    ensures v.Str? ==> r == ParseRole(Trim(v.s))
  {
    var roleRaw := if v.Str? then Trim(v.s) else "other";
    ParseRole(roleRaw)
  }

  /**
   * Reading the body: None when a property read throws (the body is null) or
   * the sub-expense list holds a null entry.
   */
  function ReadPostBody(body: Json, genId: nat -> string): (r: Option<PostFields>)
    ensures r.None? <==> IsNullish(body) || NormalizeSubExpenses(Field(body, "subtasks"), genId).None?
    ensures r.Some? ==>
              var f := r.value;
              && f.description == TrimmedString(Field(body, "description"))
              && f.amount == ToNumber(Field(body, "amount"))
              && f.date == StringOrEmpty(Field(body, "date"))
              && f.weekStart == StringOrEmpty(Field(body, "weekStart"))
              && f.role == PostRole(Field(body, "role"))
              && (IsNullish(Field(body, "shop")) ==> f.shop == "")
              && (!IsNullish(Field(body, "shop")) ==> f.shop == ToStr(Field(body, "shop")))
              && (f.employeeId.None? <==> IsNullish(Field(body, "employeeId")))
              && (!IsNullish(Field(body, "employeeId")) ==> f.employeeId == Some(ToStr(Field(body, "employeeId"))))
              && (f.employeeName.Some? <==> Field(body, "employeeName").Str?)
              && (Field(body, "employeeName").Str? ==> f.employeeName == Some(Trim(Field(body, "employeeName").s)))
              && Some(f.subtasks) == NormalizeSubExpenses(Field(body, "subtasks"), genId)
  {
    if IsNullish(body) then None
    else
      var amountValue := Field(body, "amount");
      var shopValue := Field(body, "shop");
      var idValue := Field(body, "employeeId");
      var nameValue := Field(body, "employeeName");
      var subtasks := NormalizeSubExpenses(Field(body, "subtasks"), genId);
      if subtasks.None? then None
      else
        Some(PostFields(
          TrimmedString(Field(body, "description")),
          if amountValue.Num? then amountValue.n else ToNumber(amountValue),
          StringOrEmpty(Field(body, "date")),
          StringOrEmpty(Field(body, "weekStart")),
          if IsNullish(shopValue) then "" else ToStr(shopValue),
          PostRole(Field(body, "role")),
          if IsNullish(idValue) then None else Some(ToStr(idValue)),
          if nameValue.Str? then Some(Trim(nameValue.s)) else None,
          subtasks.value))
  }

  /** The first check: a description, a date, a week start and an amount that is a number >= 0. */
  predicate PostFieldsValid(f: PostFields) {
    f.description != "" && f.date != "" && f.weekStart != "" && f.amount.Fin? && f.amount.v >= 0
  }

  /** The second check: a manager expense names its employee, by id and by name. */
  predicate ManagerNamed(f: PostFields) {
    f.role == Manager ==> Present(f.employeeId) && Present(f.employeeName)
  }

  /**
   * `POST`: the body is read (a throw is a 500), then checked in order, and a
   * valid expense is created unpaid with the id the store assigns.
   */
  function Post(body: Json, newId: string, genId: nat -> string): (r: Response<Expense>)
    ensures r.Crashed? <==> ReadPostBody(body, genId).None?
    ensures r.Success? ==>
              var e := r.data;
              && r.status == 201
              && e.id == newId
              && !e.paid
              && e.description != "" && e.date != "" && e.weekStart != "" && e.amount >= 0
              && (e.role == Manager ==> Present(e.employeeId) && Present(e.employeeName))
    ensures r.Success? ==>
              var f := ReadPostBody(body, genId).value;
              && PostFieldsValid(f) && ManagerNamed(f)
              && r.data == Expense(newId, f.shop, f.description, f.amount.v, f.date, f.weekStart, f.role,
                                f.employeeId, f.employeeName, false, f.subtasks)
  {
    var read := ReadPostBody(body, genId);
    if read.None? then Crashed
    else
      var f := read.value;
      if !PostFieldsValid(f) then Failure(400, PostInvalidMessage)
      else if !ManagerNamed(f) then Failure(400, PostManagerMessage)
      else
        Success(201, Expense(newId, f.shop, f.description, f.amount.v, f.date, f.weekStart, f.role,
                             f.employeeId, f.employeeName, false, f.subtasks))
  }

  /**
   * The checks run in order: missing or invalid fields first (so a request
   * failing both reports that one), then the manager's employee; a request
   * that passes both is created.
   */
  lemma PostChecks(body: Json, newId: string, genId: nat -> string)
    requires ReadPostBody(body, genId).Some?
    ensures var f := ReadPostBody(body, genId).value;
            && (!PostFieldsValid(f) ==> Post(body, newId, genId) == Failure(400, PostInvalidMessage))
            && (PostFieldsValid(f) && !ManagerNamed(f) ==> Post(body, newId, genId) == Failure(400, PostManagerMessage))
            && (Post(body, newId, genId).Success? <==> PostFieldsValid(f) && ManagerNamed(f))
  {
  }

  /** A created expense carries the normalised sub-expenses of the body. */
  lemma PostSubtasks(body: Json, newId: string, genId: nat -> string)
    requires Post(body, newId, genId).Success?
    ensures var subs := Post(body, newId, genId).data.subtasks;
            && Some(subs) == NormalizeSubExpenses(Field(body, "subtasks"), genId)
            && forall j :: 0 <= j < |subs| ==> NormalSub(subs[j])
  {
    var raw := Field(body, "subtasks");
    NormalizeAllSpec(if raw.Arr? then raw.items else [], genId);
  }

  // ---------------------------------------------------------------------------
  // PUT

  const PutMissingMessage: string := "Provide weekStart or ids array"

  /** Which unpaid expenses a PUT marks paid. */
  datatype PutCriteria = ByWeek(weekStart: string) | ByIds(ids: seq<Json>)

  /**
   * The PUT arguments: a truthy `weekStart` wins; otherwise a non-empty `ids`
   * array; otherwise the request is refused. Destructuring a null body throws.
   */
  function PutCriteriaOf(body: Json): (r: Option<Checked<PutCriteria>>)
    ensures r.None? <==> IsNullish(body)
    ensures r.Some? ==>
              var ws := Field(body, "weekStart");
              var ids := Field(body, "ids");
              && (Truthy(ws) ==> r.value == Accept(ByWeek(ToStr(ws))))
              && (!Truthy(ws) && ids.Arr? && |ids.items| > 0 ==> r.value == Accept(ByIds(ids.items)))
              && (!Truthy(ws) && !(ids.Arr? && |ids.items| > 0) ==> r.value == Reject(PutMissingMessage))
  {
    if IsNullish(body) then None
    else
      var ws := Field(body, "weekStart");
      var ids := Field(body, "ids");
      if !Truthy(ws) && (!ids.Arr? || |ids.items| == 0) then Some(Reject(PutMissingMessage))
      else if Truthy(ws) then Some(Accept(ByWeek(ToStr(ws))))
      else Some(Accept(ByIds(ids.items)))
  }

  /** The `updateMany` filter: the criterion, and `paid: false`. */
  predicate PutSelects(c: PutCriteria, k: string, e: Expense) {
    !e.paid &&
    match c
    case ByWeek(w) => e.weekStart == w
    case ByIds(ids) => Str(k) in ids
  }

  /** The store after `{ $set: { paid: true } }` on every selected expense. */
  function MarkSelected(db: map<string, Expense>, c: PutCriteria): (r: map<string, Expense>)
    ensures r.Keys == db.Keys
    ensures forall k :: k in db ==> r[k] == if PutSelects(c, k, db[k]) then db[k].(paid := true) else db[k]
  {
    map k | k in db :: if PutSelects(c, k, db[k]) then db[k].(paid := true) else db[k]
  }

  /** `modifiedCount`: how many expenses the update changed. */
  function Selected(db: map<string, Expense>, c: PutCriteria): set<string> {
    set k | k in db && PutSelects(c, k, db[k])
  }

  /** `PUT`: mark the selected unpaid expenses paid and report how many changed. */
  function Put(body: Json, db: map<string, Expense>): (r: Answer<nat>)
    ensures r.response.Crashed? <==> IsNullish(body)
    ensures !r.response.Success? ==> r.store == db
    ensures r.response.Failure? ==> r.response == Failure(400, PutMissingMessage)
    ensures r.response.Success? ==>
              PutCriteriaOf(body).value.Accept? &&
              var c := PutCriteriaOf(body).value.value;
              && r.response.status == 200
              && r.response.data == |Selected(db, c)|
              && r.store == MarkSelected(db, c)
  {
    var criteria := PutCriteriaOf(body);
    if criteria.None? then Answer(Crashed, db)
    else if criteria.value.Reject? then Answer(Failure(400, criteria.value.message), db)
    else
      var c := criteria.value.value;
      Answer(Success(200, |Selected(db, c)|), MarkSelected(db, c))
  }

  /**
   * After a PUT every expense the criterion names is paid, and nothing else
   * changed: the same ids, the same expenses apart from the flag.
   */
  lemma PutMarksPaid(body: Json, db: map<string, Expense>)
    requires Put(body, db).response.Success?
    ensures PutCriteriaOf(body).value.Accept?
    ensures var c := PutCriteriaOf(body).value.value;
            var after := Put(body, db).store;
            && after.Keys == db.Keys
            && (forall k :: k in db && PutSelects(c, k, db[k]) ==> after[k] == db[k].(paid := true))
            && (forall k :: k in db && !PutSelects(c, k, db[k]) ==> after[k] == db[k])
            && (forall k :: k in after ==> (after[k].paid <==> db[k].paid || PutSelects(c, k, db[k])))
  {
  }

  /** Marking paid twice changes nothing the second time, and reports 0 modified. */
  lemma {:induction false} PutIdempotent(body: Json, db: map<string, Expense>)
    requires Put(body, db).response.Success?
    ensures var once := Put(body, db).store;
            Put(body, once).store == once && Put(body, once).response == Success(200, 0)
  {
    var c := PutCriteriaOf(body).value.value;
    var once := MarkSelected(db, c);
    assert Selected(once, c) == {} by {
      forall k | k in once
        ensures !PutSelects(c, k, once[k])
      {
      }
    }
    assert MarkSelected(once, c) == once;
  }

  // ---------------------------------------------------------------------------
  // PATCH

  const PatchMissingMessage: string := "Provide id and updates object"
  const InvalidIdMessage: string := "Invalid Expense ID format"
  const NoFieldsMessage: string := "No valid fields to update"
  const NotFoundMessage: string := "Expense not found"
  const PatchManagerMessage: string := "Employee ID is required for Manager role update if not previously set."

  /**
   * The `$set` payload PATCH builds: one entry per whitelisted key that the
   * update carries. `employeeId` and `employeeName` may be set to null (the
   * inner None).
   */
  datatype Payload = Payload(
    description: Option<string>,
    amount: Option<int>,
    date: Option<string>,
    shop: Option<string>,
    paid: Option<bool>,
    weekStart: Option<string>,
    subtasks: Option<seq<Subtask>>,
    role: Option<Role>,
    employeeId: Option<Option<string>>,
    employeeName: Option<Option<string>>)

  const NoFields: Payload := Payload(None, None, None, None, None, None, None, None, None, None)

  /** `String(v || "").trim()`, used for shop, date, description and weekStart. */
  function TextField(v: Json): (r: string)
    ensures !Truthy(v) ==> r == ""
    ensures v.Str? ==> r == Trim(v.s)
  {
    // `v || ""` is "" exactly when v is falsy, and "" trims to ""
    if Truthy(v) then Trim(ToStr(v)) else ""
  }

  /** The amount, kept only when `Number(v)` is a number >= 0. */
  function PatchAmount(v: Json): (r: Option<int>)
    ensures r.Some? <==> ToNumber(v).Fin? && ToNumber(v).v >= 0
    ensures r.Some? ==> r.value == ToNumber(v).v
  {
    var am := ToNumber(v);
    if am.Fin? && am.v >= 0 then Some(am.v) else None
  }

  /** `String(v || "other").trim()` read as a role: unknown names become "other". */
  function PatchRole(v: Json): (r: Role)
    ensures v.Str? && v.s != "" ==> r == ParseRole(Trim(v.s))
    ensures !Truthy(v) ==> r == Other
  {
    // `v || "other"` is "other" exactly when v is falsy, and "other" is its own trim
    if Truthy(v) then ParseRole(Trim(ToStr(v))) else Other
  }

  /** A role sent as its stored name is read back as that role. */
  lemma PatchRoleName(r: Role)
    ensures PatchRole(Str(RoleName(r))) == r
  {
    ParseRoleSpec(RoleName(r));
    TrimNoSpaceEnds(RoleName(r));
  }

  /** `"" or null becomes null, anything else `String(v)`. */
  function PatchEmployeeId(v: Json): (r: Option<string>)
    ensures r.None? <==> v == Str("") || v.Null?
    ensures v.Str? && v.s != "" ==> r == Some(v.s)
  {
    if v == Str("") || v.Null? then None else Some(ToStr(v))
  }

  /** null stays null, anything else `String(v || "").trim()`. */
  function PatchEmployeeName(v: Json): (r: Option<string>)
    ensures r.None? <==> v.Null?
    ensures r.Some? ==> r.value == TextField(v)
  {
    if v.Null? then None else Some(TextField(v))
  }

  /** The whitelisted update keys. */
  datatype PatchKey =
    | FDescription | FAmount | FDate | FShop | FPaid | FWeekStart | FSubtasks | FRole | FEmployeeId | FEmployeeName

  const AllFields: set<PatchKey> :=
    {FDescription, FAmount, FDate, FShop, FPaid, FWeekStart, FSubtasks, FRole, FEmployeeId, FEmployeeName}

  /** The key of a whitelisted field, as it appears in the update object. */
  function FieldName(f: PatchKey): string {
    match f
    case FDescription => "description"
    case FAmount => "amount"
    case FDate => "date"
    case FShop => "shop"
    case FPaid => "paid"
    case FWeekStart => "weekStart"
    case FSubtasks => "subtasks"
    case FRole => "role"
    case FEmployeeId => "employeeId"
    case FEmployeeName => "employeeName"
  }

  /** `allowed.includes(key)`: the whitelisted field a key names, if any. */
  function Whitelisted(key: string): (r: Option<PatchKey>)
    ensures r.Some? ==> FieldName(r.value) == key
  {
    if key == "description" then Some(FDescription)
    else if key == "amount" then Some(FAmount)
    else if key == "date" then Some(FDate)
    else if key == "shop" then Some(FShop)
    else if key == "paid" then Some(FPaid)
    else if key == "weekStart" then Some(FWeekStart)
    else if key == "subtasks" then Some(FSubtasks)
    else if key == "role" then Some(FRole)
    else if key == "employeeId" then Some(FEmployeeId)
    else if key == "employeeName" then Some(FEmployeeName)
    else None
  }

  /** Every whitelisted field is recognised by its own name, so the whitelist misses none. */
  lemma WhitelistedName(f: PatchKey)
    ensures Whitelisted(FieldName(f)) == Some(f)
  {
  }

  /** The whitelisted fields among the keys `ks`. */
  function Touched(ks: seq<string>): set<PatchKey> {
    set f | f in AllFields && FieldName(f) in ks
  }

  /**
   * The payload for an update whose keys touch the fields `fs`: each such
   * field contributes its coerced value (the amount only when valid). None when
   * normalising the sub-expenses throws.
   */
  function PayloadFor(updates: seq<(string, Json)>, fs: set<PatchKey>, genId: nat -> string): Option<Payload> {
    var subs := if FSubtasks in fs then NormalizeSubExpenses(Get(updates, "subtasks"), genId) else Some([]);
    if subs.None? then None
    else
      Some(Payload(
        if FDescription in fs then Some(TextField(Get(updates, "description"))) else None,
        if FAmount in fs then PatchAmount(Get(updates, "amount")) else None,
        if FDate in fs then Some(TextField(Get(updates, "date"))) else None,
        if FShop in fs then Some(TextField(Get(updates, "shop"))) else None,
        if FPaid in fs then Some(Truthy(Get(updates, "paid"))) else None,
        if FWeekStart in fs then Some(TextField(Get(updates, "weekStart"))) else None,
        if FSubtasks in fs then subs else None,
        if FRole in fs then Some(PatchRole(Get(updates, "role"))) else None,
        if FEmployeeId in fs then Some(PatchEmployeeId(Get(updates, "employeeId"))) else None,
        if FEmployeeName in fs then Some(PatchEmployeeName(Get(updates, "employeeName"))) else None))
  }

  /** The payload of a whole update object. */
  function PayloadOf(updates: seq<(string, Json)>, genId: nat -> string): Option<Payload> {
    PayloadFor(updates, Touched(Keys(updates)), genId)
  }

  /** One more key touches the field it names, if it names one. */
  lemma TouchedSnoc(ks: seq<string>, k: string)
    ensures Touched(ks + [k]) == Touched(ks) + if Whitelisted(k).Some? then {Whitelisted(k).value} else {}
  {
    forall f ensures f in Touched(ks + [k]) <==> f in Touched(ks) || Whitelisted(k) == Some(f) {
      assert f in AllFields by {
        match f
        case FDescription =>
        case FAmount =>
        case FDate =>
        case FShop =>
        case FPaid =>
        case FWeekStart =>
        case FSubtasks =>
        case FRole =>
        case FEmployeeId =>
        case FEmployeeName =>
      }
      assert FieldName(f) in ks + [k] <==> FieldName(f) in ks || FieldName(f) == k;
      WhitelistedName(f);
    }
  }

  /** Touching one more field sets that field's entry and leaves the others as they were. */
  lemma PayloadForAdd(updates: seq<(string, Json)>, fs: set<PatchKey>, f: PatchKey, genId: nat -> string)
    requires PayloadFor(updates, fs, genId).Some?
    ensures var p := PayloadFor(updates, fs, genId).value;
            var after := PayloadFor(updates, fs + {f}, genId);
            var v := Get(updates, FieldName(f));
            match f
            case FShop => after == Some(p.(shop := Some(TextField(v))))
            case FAmount => after == Some(if PatchAmount(v).Some? then p.(amount := PatchAmount(v)) else p)
            case FSubtasks =>
              var subs := NormalizeSubExpenses(v, genId);
              after == if subs.None? then None else Some(p.(subtasks := subs))
            case FDate => after == Some(p.(date := Some(TextField(v))))
            case FDescription => after == Some(p.(description := Some(TextField(v))))
            case FWeekStart => after == Some(p.(weekStart := Some(TextField(v))))
            case FEmployeeName => after == Some(p.(employeeName := Some(PatchEmployeeName(v))))
            case FPaid => after == Some(p.(paid := Some(Truthy(v))))
            case FRole => after == Some(p.(role := Some(PatchRole(v))))
            case FEmployeeId => after == Some(p.(employeeId := Some(PatchEmployeeId(v))))
  {
    var p := PayloadFor(updates, fs, genId).value;
    var after := fs + {f};
    assert forall g :: g in after <==> g in fs || g == f;
    assert FSubtasks in after <==> FSubtasks in fs || f == FSubtasks;
  }

  /** One pass of the loop body: the `switch` on a key, or `continue` for a key off the whitelist. */
  function SetEntry(p: Payload, key: string, v: Json, genId: nat -> string): Option<Payload> {
    var field := Whitelisted(key);
    if field.None? then Some(p)
    else
      match field.value
      case FShop => Some(p.(shop := Some(TextField(v))))
      case FAmount =>
        var am := ToNumber(v);
        if am.Fin? && am.v >= 0 then Some(p.(amount := Some(am.v))) else Some(p)
      case FSubtasks =>
        var subs := NormalizeSubExpenses(v, genId);
        if subs.None? then None else Some(p.(subtasks := subs))
      case FDate => Some(p.(date := Some(TextField(v))))
      case FDescription => Some(p.(description := Some(TextField(v))))
      case FWeekStart => Some(p.(weekStart := Some(TextField(v))))
      case FEmployeeName => Some(p.(employeeName := Some(PatchEmployeeName(v))))
      case FPaid => Some(p.(paid := Some(Truthy(v))))
      case FRole => Some(p.(role := Some(PatchRole(v))))
      case FEmployeeId => Some(p.(employeeId := Some(PatchEmployeeId(v))))
  }

  /** The payload after the loop has run over the keys `ks`, in order. */
  function PayloadAfter(updates: seq<(string, Json)>, ks: seq<string>, genId: nat -> string): Option<Payload> {
    if |ks| == 0 then Some(NoFields)
    else
      var n := |ks| - 1;
      var before := PayloadAfter(updates, ks[..n], genId);
      if before.None? then None else SetEntry(before.value, ks[n], Get(updates, ks[n]), genId)
  }

  /** The payload is None exactly when the sub-expenses are touched and their normalisation throws. */
  lemma PayloadForNone(updates: seq<(string, Json)>, fs: set<PatchKey>, genId: nat -> string)
    ensures PayloadFor(updates, fs, genId).None? <==>
              FSubtasks in fs && NormalizeSubExpenses(Get(updates, "subtasks"), genId).None?
  {
  }

  /**
   * Running the loop over the keys gives the payload of the fields they touch:
   * the order of the keys, repeated keys and keys off the whitelist do not
   * matter.
   */
  lemma {:induction false} PayloadAfterSpec(updates: seq<(string, Json)>, ks: seq<string>, genId: nat -> string)
    ensures PayloadAfter(updates, ks, genId) == PayloadFor(updates, Touched(ks), genId)
  {
    if |ks| == 0 {
      assert Touched(ks) == {};
    } else {
      var n := |ks| - 1;
      var k := ks[n];
      assert ks == ks[..n] + [k];
      PayloadAfterSpec(updates, ks[..n], genId);
      TouchedSnoc(ks[..n], k);
      PayloadForNone(updates, Touched(ks[..n]), genId);
      PayloadForNone(updates, Touched(ks), genId);
      var before := PayloadAfter(updates, ks[..n], genId);
      if before.Some? && Whitelisted(k).Some? {
        PayloadForAdd(updates, Touched(ks[..n]), Whitelisted(k).value, genId);
      }
    }
  }

  /**
   * The `for (const key of Object.keys(updates))` loop with its `switch`: keys
   * outside the whitelist are skipped, and each whitelisted key sets its entry.
   */
  method BuildPayload(updates: seq<(string, Json)>, genId: nat -> string) returns (payload: Option<Payload>)
    ensures payload == PayloadOf(updates, genId)
  {
    var keys := Keys(updates);
    var p := NoFields;
    for i := 0 to |keys|
      invariant PayloadAfter(updates, keys[..i], genId) == Some(p)
    {
      var key := keys[i];
      assert keys[..i + 1][..i] == keys[..i];
      var field := Whitelisted(key);
      if field.None? {
        continue;
      }
      var v := Get(updates, key);
      match field.value {
        case FShop =>
          p := p.(shop := Some(TextField(v)));
        case FAmount =>
          var am := ToNumber(v);
          if am.Fin? && am.v >= 0 {
            p := p.(amount := Some(am.v));
          }
        case FSubtasks =>
          var subs := NormalizeSubExpenses(v, genId);
          if subs.None? {
            PayloadAfterThrows(updates, keys, i + 1, genId);
            PayloadAfterSpec(updates, keys, genId);
            return None;
          }
          p := p.(subtasks := subs);
        case FDate =>
          p := p.(date := Some(TextField(v)));
        case FDescription =>
          p := p.(description := Some(TextField(v)));
        case FWeekStart =>
          p := p.(weekStart := Some(TextField(v)));
        case FEmployeeName =>
          p := p.(employeeName := Some(PatchEmployeeName(v)));
        case FPaid =>
          p := p.(paid := Some(Truthy(v)));
        case FRole =>
          p := p.(role := Some(PatchRole(v)));
        case FEmployeeId =>
          p := p.(employeeId := Some(PatchEmployeeId(v)));
      }
    }
    assert keys[..|keys|] == keys;
    PayloadAfterSpec(updates, keys, genId);
    payload := Some(p);
  }

  /** A throw part-way through the loop ends it: the payload of all the keys is None too. */
  lemma {:induction false} PayloadAfterThrows(updates: seq<(string, Json)>, ks: seq<string>, i: nat, genId: nat -> string)
    requires i <= |ks|
    requires PayloadAfter(updates, ks[..i], genId).None?
    ensures PayloadAfter(updates, ks, genId).None?
    decreases |ks| - i
  {
    if i < |ks| {
      assert ks[..i + 1][..i] == ks[..i];
      PayloadAfterThrows(updates, ks, i + 1, genId);
    } else {
      assert ks[..i] == ks;
    }
  }

  /** `$set` of the payload on the stored expense: each entry present replaces its field. */
  function ApplyPayload(e: Expense, p: Payload): (r: Expense)
    ensures r.id == e.id
  {
    Expense(
      e.id,
      Override(p.shop, e.shop),
      Override(p.description, e.description),
      Override(p.amount, e.amount),
      Override(p.date, e.date),
      Override(p.weekStart, e.weekStart),
      Override(p.role, e.role),
      Override(p.employeeId, e.employeeId),
      Override(p.employeeName, e.employeeName),
      Override(p.paid, e.paid),
      Override(p.subtasks, e.subtasks))
  }

  function Override<T>(o: Option<T>, current: T): T {
    if o.Some? then o.value else current
  }

  /** Which manager check PATCH runs: the route's, or the one its message describes. */
  datatype ManagerCheck = AsWritten | Intended

  /**
   * The route's check, run only when the payload sets role "manager" with a
   * falsy employee id: it refuses when the raw `role` is exactly "manager", the
   * raw `employeeId` is null or absent, and the stored expense has no employee id.
   */
  predicate RefusedAsWritten(updates: seq<(string, Json)>, p: Payload, existing: Expense) {
    && p.role == Some(Manager)
    && !(p.employeeId.Some? && Present(p.employeeId.value))
    && Get(updates, "role") == Str("manager")
    && IsNullish(Get(updates, "employeeId"))
    && !Present(existing.employeeId)
  }

  /** The check as its message states it: an update to manager must leave an employee id in place. */
  predicate RefusedIntended(p: Payload, existing: Expense) {
    p.role == Some(Manager) && !Present(Override(p.employeeId, existing.employeeId))
  }

  /**
   * `PATCH` with the given manager check. `isValidId` is
   * `mongoose.Types.ObjectId.isValid`; the stored expense is found under
   * `String(id)`.
   */
  function PatchWith(check: ManagerCheck, body: Json, isValidId: Json -> bool, db: map<string, Expense>,
                     genId: nat -> string): (r: Answer<Expense>)
    ensures !r.response.Success? ==> r.store == db
    ensures r.response.Failure? ==> r.response.status == 400 || r.response == Failure(404, NotFoundMessage)
    ensures r.response.Success? ==>
              !IsNullish(body) &&
              var key := ToStr(Field(body, "id"));
              && r.response.status == 200
              && key in db
              && r.store == db[key := r.response.data]
              && r.response.data.id == db[key].id
  {
    if IsNullish(body) then Answer(Crashed, db)
    else
      var id := Field(body, "id");
      var updates := Field(body, "updates");
      if !Truthy(id) || !Truthy(updates) || !(updates.Obj? || updates.Arr?) then
        Answer(Failure(400, PatchMissingMessage), db)
      else if !isValidId(id) then Answer(Failure(400, InvalidIdMessage), db)
      else
        var fields := if updates.Obj? then updates.fields else [];
        var payload := PayloadOf(fields, genId);
        if payload.None? then Answer(Crashed, db)
        else if payload.value == NoFields then Answer(Failure(400, NoFieldsMessage), db)
        else
          var key := ToStr(id);
          if key !in db then Answer(Failure(404, NotFoundMessage), db)
          else PatchStored(check, fields, payload.value, key, db)
  }

  /** The last stage of PATCH: the manager check, then the update of the stored expense. */
  function PatchStored(check: ManagerCheck, fields: seq<(string, Json)>, p: Payload, key: string,
                       db: map<string, Expense>): (r: Answer<Expense>)
    requires key in db
    ensures var refused := if check.AsWritten? then RefusedAsWritten(fields, p, db[key]) else RefusedIntended(p, db[key]);
            && (refused ==> r == Answer(Failure(400, PatchManagerMessage), db))
            && (!refused ==> r == Answer(Success(200, ApplyPayload(db[key], p)), db[key := ApplyPayload(db[key], p)]))
  {
    var existing := db[key];
    var refused := match check
      case AsWritten => RefusedAsWritten(fields, p, existing)
      case Intended => RefusedIntended(p, existing);
    if refused then Answer(Failure(400, PatchManagerMessage), db)
    else
      var updated := ApplyPayload(existing, p);
      Answer(Success(200, updated), db[key := updated])
  }

  /** `PATCH` as the route writes it. */
  function Patch(body: Json, isValidId: Json -> bool, db: map<string, Expense>, genId: nat -> string): Answer<Expense> {
    PatchWith(AsWritten, body, isValidId, db, genId)
  }

  /**
   * The checks PATCH runs before the manager check, in order: a body with an
   * id and an updates object, a valid id, a non-empty payload, a stored
   * expense under the id.
   */
  lemma PatchRefusals(check: ManagerCheck, body: Json, isValidId: Json -> bool, db: map<string, Expense>,
                      genId: nat -> string)
    requires !IsNullish(body)
    ensures var r := PatchWith(check, body, isValidId, db, genId).response;
            var id := Field(body, "id");
            var updates := Field(body, "updates");
            && (!Truthy(id) || !Truthy(updates) || !(updates.Obj? || updates.Arr?) ==> r == Failure(400, PatchMissingMessage))
            && (Truthy(id) && updates.Arr? && isValidId(id) ==> r == Failure(400, NoFieldsMessage))
            && (Truthy(id) && updates.Obj? && isValidId(id) && PayloadOf(updates.fields, genId) == Some(NoFields) ==>
                  r == Failure(400, NoFieldsMessage))
            && (Truthy(id) && updates.Obj? && isValidId(id) && PayloadOf(updates.fields, genId).Some? &&
                PayloadOf(updates.fields, genId) != Some(NoFields) && ToStr(id) !in db ==>
                  r == Failure(404, NotFoundMessage))
  {
    PayloadAfterSpec([], [], genId);
  }

  /**
   * The last step of PATCH: once the earlier checks pass, the manager check
   * decides, and otherwise the stored expense is updated with the payload.
   */
  lemma PatchAfterChecks(check: ManagerCheck, body: Json, isValidId: Json -> bool, db: map<string, Expense>,
                         genId: nat -> string)
    requires !IsNullish(body)
    requires var id := Field(body, "id");
             var updates := Field(body, "updates");
             && Truthy(id) && updates.Obj? && isValidId(id) && ToStr(id) in db
             && PayloadOf(updates.fields, genId).Some? && PayloadOf(updates.fields, genId) != Some(NoFields)
    ensures var key := ToStr(Field(body, "id"));
            var fields := Field(body, "updates").fields;
            var p := PayloadOf(fields, genId).value;
            var refused := if check.AsWritten? then RefusedAsWritten(fields, p, db[key]) else RefusedIntended(p, db[key]);
            var r := PatchWith(check, body, isValidId, db, genId);
            && (refused ==> r == Answer(Failure(400, PatchManagerMessage), db))
            && (!refused ==> r == Answer(Success(200, ApplyPayload(db[key], p)), db[key := ApplyPayload(db[key], p)]))
  {
    var key := ToStr(Field(body, "id"));
    var fields := Field(body, "updates").fields;
    assert PatchWith(check, body, isValidId, db, genId) == PatchStored(check, fields, PayloadOf(fields, genId).value, key, db);
  }

  /** A successful PATCH had an update object whose payload is not empty. */
  lemma PatchSucceeded(check: ManagerCheck, body: Json, isValidId: Json -> bool, db: map<string, Expense>,
                       genId: nat -> string)
    requires PatchWith(check, body, isValidId, db, genId).response.Success?
    ensures !IsNullish(body) && Field(body, "updates").Obj?
    ensures var key := ToStr(Field(body, "id"));
            var p := PayloadOf(Field(body, "updates").fields, genId);
            && p.Some? && p != Some(NoFields) && key in db
            && PatchWith(check, body, isValidId, db, genId).response.data == ApplyPayload(db[key], p.value)
            && (check.AsWritten? ==> !RefusedAsWritten(Field(body, "updates").fields, p.value, db[key]))
            && (check.Intended? ==> !RefusedIntended(p.value, db[key]))
  {
    PayloadAfterSpec([], [], genId);
  }

  /**
   * Only whitelisted keys the update carries reach the stored expense: a field
   * whose key is absent keeps its stored value, and the id never changes.
   */
  lemma PayloadOnlyTouched(updates: seq<(string, Json)>, genId: nat -> string, e: Expense)
    requires PayloadOf(updates, genId).Some?
    ensures var keys := Keys(updates);
            var u := ApplyPayload(e, PayloadOf(updates, genId).value);
            && u.id == e.id
            && ("shop" !in keys ==> u.shop == e.shop)
            && ("description" !in keys ==> u.description == e.description)
            && ("amount" !in keys ==> u.amount == e.amount)
            && ("date" !in keys ==> u.date == e.date)
            && ("weekStart" !in keys ==> u.weekStart == e.weekStart)
            && ("role" !in keys ==> u.role == e.role)
            && ("employeeId" !in keys ==> u.employeeId == e.employeeId)
            && ("employeeName" !in keys ==> u.employeeName == e.employeeName)
            && ("paid" !in keys ==> u.paid == e.paid)
            && ("subtasks" !in keys ==> u.subtasks == e.subtasks)
  {
    PayloadForUntouched(updates, Touched(Keys(updates)), genId);
    UntouchedKeys(Keys(updates));
  }

  /** A field outside the touched set stays out of the payload. */
  lemma PayloadForUntouched(updates: seq<(string, Json)>, fs: set<PatchKey>, genId: nat -> string)
    requires PayloadFor(updates, fs, genId).Some?
    ensures var p := PayloadFor(updates, fs, genId).value;
            && (FShop !in fs ==> p.shop.None?)
            && (FDescription !in fs ==> p.description.None?)
            && (FAmount !in fs ==> p.amount.None?)
            && (FDate !in fs ==> p.date.None?)
            && (FWeekStart !in fs ==> p.weekStart.None?)
            && (FRole !in fs ==> p.role.None?)
            && (FEmployeeId !in fs ==> p.employeeId.None?)
            && (FEmployeeName !in fs ==> p.employeeName.None?)
            && (FPaid !in fs ==> p.paid.None?)
            && (FSubtasks !in fs ==> p.subtasks.None?)
  {
  }

  /** A key the update does not carry leaves its field untouched. */
  lemma UntouchedKeys(ks: seq<string>)
    ensures && ("shop" !in ks ==> FShop !in Touched(ks))
            && ("description" !in ks ==> FDescription !in Touched(ks))
            && ("amount" !in ks ==> FAmount !in Touched(ks))
            && ("date" !in ks ==> FDate !in Touched(ks))
            && ("weekStart" !in ks ==> FWeekStart !in Touched(ks))
            && ("role" !in ks ==> FRole !in Touched(ks))
            && ("employeeId" !in ks ==> FEmployeeId !in Touched(ks))
            && ("employeeName" !in ks ==> FEmployeeName !in Touched(ks))
            && ("paid" !in ks ==> FPaid !in Touched(ks))
            && ("subtasks" !in ks ==> FSubtasks !in Touched(ks))
  {
    assert forall f :: f in Touched(ks) ==> FieldName(f) in ks;
  }

  /**
   * An amount that is not a number >= 0 is ignored, so an update never stores a
   * negative amount over a non-negative one; a valid amount is stored as given.
   */
  lemma PayloadAmountKept(updates: seq<(string, Json)>, genId: nat -> string, e: Expense)
    requires PayloadOf(updates, genId).Some?
    ensures var u := ApplyPayload(e, PayloadOf(updates, genId).value);
            var am := ToNumber(Get(updates, "amount"));
            && (e.amount >= 0 ==> u.amount >= 0)
            && ("amount" in Keys(updates) && am.Fin? && am.v >= 0 ==> u.amount == am.v)
            && (!(am.Fin? && am.v >= 0) ==> u.amount == e.amount)
  {
    if "amount" in Keys(updates) {
      assert FAmount in Touched(Keys(updates));
    }
  }

  // ---------------------------------------------------------------------------
  // The manager check of PATCH

  /**
   * As written, the check looks at the raw `employeeId` only for null or
   * absence: an update that sets role "manager" with `employeeId: ""` turns an
   * expense without an employee into a manager expense without one.
   */
  lemma PatchManagerLoophole(id: string, isValidId: Json -> bool, db: map<string, Expense>, genId: nat -> string)
    requires id != "" && isValidId(Str(id)) && id in db && !Present(db[id].employeeId)
    ensures var updates := Obj([("role", Str("manager")), ("employeeId", Str(""))]);
            var r := Patch(Obj([("id", Str(id)), ("updates", updates)]), isValidId, db, genId);
            && r.response.Success?
            && r.response.data.role == Manager
            && !Present(r.response.data.employeeId)
  {
    var fields := [("role", Str("manager")), ("employeeId", Str(""))];
    var body := Obj([("id", Str(id)), ("updates", Obj(fields))]);
    TwoFields(("id", Str(id)), ("updates", Obj(fields)));
    LoopholeFields(genId);
    PatchAfterChecks(AsWritten, body, isValidId, db, genId);
  }

  /** An update touching role and employeeId gives a payload that sets both, as read. */
  lemma LoopholePayload(fields: seq<(string, Json)>, genId: nat -> string)
    requires Touched(Keys(fields)) == {FRole, FEmployeeId}
    ensures var p := PayloadOf(fields, genId);
            && p.Some?
            && p.value.role == Some(PatchRole(Get(fields, "role")))
            && p.value.employeeId == Some(PatchEmployeeId(Get(fields, "employeeId")))
  {
    assert PayloadOf(fields, genId) == PayloadFor(fields, {FRole, FEmployeeId}, genId);
  }

  /** How PATCH reads `{role: "manager", employeeId: ""}`: role Manager and a cleared employee id. */
  lemma LoopholeFields(genId: nat -> string)
    ensures var fields := [("role", Str("manager")), ("employeeId", Str(""))];
            var p := PayloadOf(fields, genId);
            && p.Some? && p.value.role == Some(Manager) && p.value.employeeId == Some(None)
            && Get(fields, "employeeId") == Str("")
  {
    var fields := [("role", Str("manager")), ("employeeId", Str(""))];
    LoopholeTouched();
    PatchRoleName(Manager);
    LoopholePayload(fields, genId);
  }

  lemma LoopholeTouched()
    ensures var fields := [("role", Str("manager")), ("employeeId", Str(""))];
            && Touched(Keys(fields)) == {FRole, FEmployeeId}
            && Get(fields, "role") == Str("manager") && Get(fields, "employeeId") == Str("")
  {
    TwoFields(("role", Str("manager")), ("employeeId", Str("")));
    var ks := ["role", "employeeId"];
    forall f ensures f in Touched(ks) <==> f == FRole || f == FEmployeeId {
      assert f in AllFields && (FieldName(f) in ks <==> f == FRole || f == FEmployeeId) by {
        match f
        case FDescription =>
        case FAmount =>
        case FDate =>
        case FShop =>
        case FPaid =>
        case FWeekStart =>
        case FSubtasks =>
        case FRole =>
        case FEmployeeId =>
        case FEmployeeName =>
      }
    }
  }

  /** The keys and properties of a two-entry object. */
  lemma TwoFields(a: (string, Json), b: (string, Json))
    requires a.0 != b.0
    ensures Keys([a, b]) == [a.0, b.0]
    ensures Get([a, b], a.0) == a.1 && Get([a, b], b.0) == b.1
  {
    assert [a, b][..1] == [a];
    assert [a][..0] == [];
  }

  /**
   * With the check its message describes, an update that sets role "manager"
   * always leaves the expense with an employee id.
   */
  lemma PatchIntendedNamesEmployee(body: Json, isValidId: Json -> bool, db: map<string, Expense>, genId: nat -> string)
    requires PatchWith(Intended, body, isValidId, db, genId).response.Success?
    ensures !IsNullish(body) && Field(body, "updates").Obj?
    ensures var p := PayloadOf(Field(body, "updates").fields, genId);
            var u := PatchWith(Intended, body, isValidId, db, genId).response.data;
            p.Some? && p.value.role == Some(Manager) ==> u.role == Manager && Present(u.employeeId)
  {
    PatchSucceeded(Intended, body, isValidId, db, genId);
  }

  // ---------------------------------------------------------------------------
  // DELETE

  const DeleteMissingMessage: string := "Missing id (in body or query param)"

  /**
   * The id DELETE uses: the trimmed `id` of a JSON body when it is a non-empty
   * string, otherwise the trimmed `id` query parameter when non-empty. A body
   * that is not JSON, or fails to parse, is null here.
   */
  function DeleteId(contentIsJson: bool, body: Json, queryId: Option<string>): (r: Option<string>)
    ensures var b := if contentIsJson && Truthy(body) then Field(body, "id") else Undefined;
            && (b.Str? && Trim(b.s) != "" ==> r == Some(Trim(b.s)))
            && (!(b.Str? && Trim(b.s) != "") && queryId.Some? && Trim(queryId.value) != "" ==> r == Some(Trim(queryId.value)))
            && (!(b.Str? && Trim(b.s) != "") && !(queryId.Some? && Trim(queryId.value) != "") ==> r.None?)
  {
    var fromBody := if contentIsJson && Truthy(body) && Field(body, "id").Str? && |Trim(Field(body, "id").s)| > 0
                    then Some(Trim(Field(body, "id").s)) else None;
    if fromBody.Some? then fromBody
    else if queryId.Some? && |Trim(queryId.value)| > 0 then Some(Trim(queryId.value))
    else None
  }

  /** `DELETE`: find and remove the expense under the id, answering with the removed expense. */
  function Delete(contentIsJson: bool, body: Json, queryId: Option<string>, isValidId: Json -> bool,
                  db: map<string, Expense>): (r: Answer<Expense>)
    ensures DeleteId(contentIsJson, body, queryId).None? ==> r == Answer(Failure(400, DeleteMissingMessage), db)
    ensures var id := DeleteId(contentIsJson, body, queryId);
            id.Some? ==>
              && (!isValidId(Str(id.value)) ==> r == Answer(Failure(400, InvalidIdMessage), db))
              && (isValidId(Str(id.value)) && id.value !in db ==> r == Answer(Failure(404, NotFoundMessage), db))
              && (isValidId(Str(id.value)) && id.value in db ==>
                    r == Answer(Success(200, db[id.value]), db - {id.value}))
  {
    var id := DeleteId(contentIsJson, body, queryId);
    if id.None? then Answer(Failure(400, DeleteMissingMessage), db)
    else if !isValidId(Str(id.value)) then Answer(Failure(400, InvalidIdMessage), db)
    else if id.value !in db then Answer(Failure(404, NotFoundMessage), db)
    else Answer(Success(200, db[id.value]), db - {id.value})
  }

  /** A successful DELETE removes exactly one expense and leaves every other one as it was. */
  lemma DeleteRemovesOne(contentIsJson: bool, body: Json, queryId: Option<string>, isValidId: Json -> bool,
                         db: map<string, Expense>)
    requires Delete(contentIsJson, body, queryId, isValidId, db).response.Success?
    ensures var id := DeleteId(contentIsJson, body, queryId).value;
            var after := Delete(contentIsJson, body, queryId, isValidId, db).store;
            && id in db && id !in after
            && after.Keys == db.Keys - {id}
            && forall k :: k in after ==> after[k] == db[k]
  {
  }
}
