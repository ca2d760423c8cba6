/**
 * The validation of `POST /api/initial-amount` (app/api/initial-amount/route.ts):
 * the body's amount and date are checked, amount first, and a valid request
 * records one budget entry. The database write is not modelled; the entry the
 * route would save is the response's data.
 */
module InitialAmountApi {
  import opened Js
  import opened ExpenseTypes
  import opened ExpensesApi

  const InvalidAmountMessage: string := "Invalid amount provided."
  const DateRequiredMessage: string := "Date is required."

  /** `typeof v === "number" ? v : Number(v)` */
  function BodyAmount(v: Json): Number {
    if v.Num? then v.n else ToNumber(v)
  }

  /** The `typeof` test changes nothing: `Number` already returns a number unchanged. */
  lemma BodyAmountIsNumber(v: Json)
    ensures BodyAmount(v) == ToNumber(v)
    ensures v.Str? ==> BodyAmount(v) == StringToNumber(v.s)
  {
  }

  /** `typeof v === "string" ? v : ""` */
  function BodyDate(v: Json): (r: string)
    ensures r != "" <==> v.Str? && v.s != ""
  {
    if v.Str? then v.s else ""
  }

  /** A usable amount: a number that is not NaN and not negative. */
  predicate ValidAmount(n: Number) {
    n.Fin? && n.v >= 0
  }

  /**
   * `POST`. Reading `body.amount` of a null body throws and becomes a 500,
   * modelled as Crashed.
   */
  function PostInitialAmount(body: Json): (r: Response<InitialAmountEntry>)
    ensures r.Crashed? <==> IsNullish(body)
    ensures r.Failure? ==> r.status == 400 && (r.error == InvalidAmountMessage || r.error == DateRequiredMessage)
    ensures r.Success? ==>
              && !IsNullish(body)
              && r.status == 201
              && r.data.amount >= 0 && r.data.date != ""
              && ToNumber(Field(body, "amount")) == Fin(r.data.amount)
              && Field(body, "date") == Str(r.data.date)
  {
    if IsNullish(body) then Crashed
    else
      var amount := BodyAmount(Field(body, "amount"));
      var date := BodyDate(Field(body, "date"));
      if !ValidAmount(amount) then Failure(400, InvalidAmountMessage)
      else if date == "" then Failure(400, DateRequiredMessage)
      else Success(201, InitialAmountEntry(amount.v, date))
  }

  /**
   * The checks and their order: an invalid amount is reported whatever the
   * date, a valid amount with a missing, empty or non-string date is refused
   * for the date, and otherwise the entry holds exactly the validated values.
   */
  lemma PostInitialAmountOutcomes(body: Json)
    requires !IsNullish(body)
    ensures var amount := ToNumber(Field(body, "amount"));
            var date := Field(body, "date");
            var r := PostInitialAmount(body);
            && (!ValidAmount(amount) ==> r == Failure(400, InvalidAmountMessage))
            && (ValidAmount(amount) && !(date.Str? && date.s != "") ==> r == Failure(400, DateRequiredMessage))
            && (ValidAmount(amount) && date.Str? && date.s != "" ==>
                  r == Success(201, InitialAmountEntry(amount.v, date.s)))
  {
    BodyAmountIsNumber(Field(body, "amount"));
  }

  /**
   * The entry the expenses page sends after accepting an input (a number >= 0
   * and the current time) is stored as sent whenever the time is not empty.
   */
  lemma PageEntryAccepted(amount: nat, now: string)
    ensures var body := Obj([("amount", Num(Fin(amount))), ("date", Str(now))]);
            PostInitialAmount(body) ==
              if now == "" then Failure(400, DateRequiredMessage) else Success(201, InitialAmountEntry(amount, now))
  {
    var fields := [("amount", Num(Fin(amount))), ("date", Str(now))];
    assert fields[..1] == [("amount", Num(Fin(amount)))];
    assert Get(fields, "date") == Str(now);
    assert Get(fields, "amount") == Num(Fin(amount));
  }
}
