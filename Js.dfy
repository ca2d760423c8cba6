/**
 * The JavaScript built-ins that the expense code leans on: values as they arrive
 * in a parsed JSON request body, truthiness, the `String(...)` and `Number(...)`
 * coercions, `trim`, `toLowerCase`, `includes`, `replace(/,/g, "")`, `join` and
 * `toFixed(2)`.
 *
 * Numbers are modelled as integers with NaN made explicit; see README.md for the
 * parts of JavaScript number syntax that are not modelled.
 */
module Js {

  datatype Option<+T> = None | Some(value: T)

  /** A JavaScript number: an integer value, or NaN. */
  datatype Number = NaN | Fin(v: int)

  /**
   * A JavaScript value as produced by `JSON.parse`, plus `undefined` for a
   * missing property. An object keeps its properties in insertion order.
   */
  datatype Json =
    | Undefined
    | Null
    | Bool(b: bool)
    | Num(n: Number)
    | Str(s: string)
    | Arr(items: seq<Json>)
    | Obj(fields: seq<(string, Json)>)

  /** `Boolean(v)`: the values that make `if (v)` take its branch. */
  predicate Truthy(v: Json) {
    match v
    case Undefined => false
    case Null => false
    case Bool(b) => b
    case Num(n) => n.Fin? && n.v != 0
    case Str(s) => s != ""
    case Arr(_) => true
    case Obj(_) => true
  }

  /** `a || b` */
  function Or(a: Json, b: Json): (r: Json)
    ensures Truthy(a) ==> r == a
    ensures !Truthy(a) ==> r == b
  {
    if Truthy(a) then a else b
  }

  /** `a == null` (loose equality): null or undefined. */
  predicate IsNullish(v: Json) {
    v.Null? || v.Undefined?
  }

  /** The value of property `k` in an object's property list (the last one wins, as in `JSON.parse`). */
  function Get(fields: seq<(string, Json)>, k: string): (r: Json)
    ensures r != Undefined ==> exists i :: 0 <= i < |fields| && fields[i] == (k, r)
    ensures (forall i :: 0 <= i < |fields| ==> fields[i].0 != k) ==> r == Undefined
  {
    if |fields| == 0 then Undefined
    else if fields[|fields| - 1].0 == k then fields[|fields| - 1].1
    else Get(fields[..|fields| - 1], k)
  }

  /**
   * `v.k`. Reading a property of `null` or `undefined` throws a TypeError (None);
   * every other non-object value has none of the properties the expense code reads.
   */
  function Prop(v: Json, k: string): (r: Option<Json>)
    ensures r.None? <==> IsNullish(v)
  {
    match v
    case Undefined => None
    case Null => None
    case Obj(fields) => Some(Get(fields, k))
    case _ => Some(Undefined)
  }

  /** Property names as `Object.keys` lists them for an object parsed from JSON. */
  function Keys(fields: seq<(string, Json)>): (r: seq<string>)
    ensures |r| == |fields|
    ensures forall i :: 0 <= i < |r| ==> r[i] == fields[i].0
  {
    if |fields| == 0 then [] else Keys(fields[..|fields| - 1]) + [fields[|fields| - 1].0]
  }

  // ---------------------------------------------------------------------------
  // Strings

  /** JavaScript's WhiteSpace and LineTerminator characters, which `trim` and `Number` strip. */
  predicate IsSpace(c: char) {
    || c == '\t' || c == '\n' || c == '\U{000B}' || c == '\U{000C}' || c == '\r' || c == ' '
    || c == '\U{00A0}' || c == '\U{1680}' || ('\U{2000}' <= c <= '\U{200A}')
    || c == '\U{2028}' || c == '\U{2029}' || c == '\U{202F}' || c == '\U{205F}'
    || c == '\U{3000}' || c == '\U{FEFF}'
  }

  /** `s.trimStart()`: the suffix left after dropping the leading white space. */
  function TrimStart(s: string): string {
    if |s| > 0 && IsSpace(s[0]) then TrimStart(s[1..]) else s
  }

  /** `s.trimEnd()`: the prefix left after dropping the trailing white space. */
  function TrimEnd(s: string): string {
    if |s| > 0 && IsSpace(s[|s| - 1]) then TrimEnd(s[..|s| - 1]) else s
  }

  /** trimStart drops a run of white space from the front and stops at the first other character. */
  lemma {:induction false} TrimStartSpec(s: string)
    ensures |TrimStart(s)| <= |s| && TrimStart(s) == s[|s| - |TrimStart(s)|..]
    ensures forall i :: 0 <= i < |s| - |TrimStart(s)| ==> IsSpace(s[i])
    ensures TrimStart(s) != [] ==> !IsSpace(TrimStart(s)[0])
  {
    if |s| > 0 && IsSpace(s[0]) {
      TrimStartSpec(s[1..]);
      forall i | 1 <= i < |s| - |TrimStart(s)|
        ensures IsSpace(s[i])
      {
        assert s[i] == s[1..][i - 1];
      }
    }
  }

  /** trimEnd drops a run of white space from the back and stops at the last other character. */
  lemma {:induction false} TrimEndSpec(s: string)
    ensures |TrimEnd(s)| <= |s| && TrimEnd(s) == s[..|TrimEnd(s)|]
    ensures forall i :: |TrimEnd(s)| <= i < |s| ==> IsSpace(s[i])
    ensures TrimEnd(s) != [] ==> !IsSpace(TrimEnd(s)[|TrimEnd(s)| - 1])
  {
    if |s| > 0 && IsSpace(s[|s| - 1]) {
      TrimEndSpec(s[..|s| - 1]);
      forall i | |TrimEnd(s)| <= i < |s| - 1
        ensures IsSpace(s[i])
      {
        assert s[i] == s[..|s| - 1][i];
      }
    }
  }

  /** `s.trim()` */
  function Trim(s: string): string {
    TrimEnd(TrimStart(s))
  }

  /** Where `trim` cuts: the number of leading white-space characters it drops. */
  function TrimOffset(s: string): (k: nat)
    ensures k + |Trim(s)| <= |s|
  {
    TrimStartSpec(s);
    TrimEndSpec(TrimStart(s));
    |s| - |TrimStart(s)|
  }

  /** What `trim` gives: a slice of the input, with white space only around it and none at its ends. */
  lemma TrimIsSlice(s: string)
    ensures Trim(s) == s[TrimOffset(s)..TrimOffset(s) + |Trim(s)|]
    ensures forall i :: 0 <= i < TrimOffset(s) ==> IsSpace(s[i])
    ensures forall i :: TrimOffset(s) + |Trim(s)| <= i < |s| ==> IsSpace(s[i])
    ensures Trim(s) != [] ==> !IsSpace(Trim(s)[0]) && !IsSpace(Trim(s)[|Trim(s)| - 1])
  {
    var t := TrimStart(s);
    var r := TrimEnd(t);
    var k := TrimOffset(s);
    TrimStartSpec(s);
    TrimEndSpec(t);
    assert t == s[k..];
    assert r == t[..|r|];
    forall i | k + |r| <= i < |s|
      ensures IsSpace(s[i])
    {
      assert s[i] == t[i - k];
    }
    if r != [] {
      assert r[0] == t[0];
    }
  }

  /** A string with no white space at either end is its own trim. */
  lemma TrimNoSpaceEnds(s: string)
    requires s != [] ==> !IsSpace(s[0]) && !IsSpace(s[|s| - 1])
    ensures Trim(s) == s
  {
  }

  /** Trimming twice is trimming once. */
  lemma TrimIdempotent(s: string)
    ensures Trim(Trim(s)) == Trim(s)
  {
    TrimIsSlice(s);
    TrimNoSpaceEnds(Trim(s));
  }

  /** The trim is empty exactly when the string is all white space. */
  lemma TrimEmptyIff(s: string)
    ensures Trim(s) == "" <==> forall i :: 0 <= i < |s| ==> IsSpace(s[i])
  {
    TrimIsSlice(s);
  }

  /** `c.toLowerCase()` for ASCII letters; every other character is left alone. */
  function LowerChar(c: char): (r: char)
    ensures 'A' <= c <= 'Z' ==> r != c && 'a' <= r <= 'z'
    ensures !('A' <= c <= 'Z') ==> r == c
  {
    if 'A' <= c <= 'Z' then (c as int + 32) as char else c
  }

  /** `s.toLowerCase()`, as an ASCII case fold. */
  function ToLower(s: string): (r: string)
    ensures |r| == |s|
    ensures forall i :: 0 <= i < |s| ==> r[i] == LowerChar(s[i])
  {
    if |s| == 0 then [] else [LowerChar(s[0])] + ToLower(s[1..])
  }

  lemma ToLowerIdempotent(s: string)
    ensures ToLower(ToLower(s)) == ToLower(s)
  {
  }

  /** `p` occurs in `s` at position `i`. */
  predicate OccursAt(s: string, p: string, i: int) {
    0 <= i && i + |p| <= |s| && s[i..i + |p|] == p
  }

  /** `s.includes(p)` */
  function Includes(s: string, p: string): (r: bool)
    ensures r <==> exists i :: OccursAt(s, p, i)
  {
    if |p| <= |s| && s[..|p|] == p then
      assert OccursAt(s, p, 0);
      true
    else if |s| == 0 then
      false
    else
      var r := Includes(s[1..], p);
      assert forall i :: OccursAt(s[1..], p, i) ==> OccursAt(s, p, i + 1);
      assert forall i :: 1 <= i && OccursAt(s, p, i) ==> OccursAt(s[1..], p, i - 1);
      r
  }

  /** `s.replace(/,/g, "")` */
  function RemoveCommas(s: string): (r: string)
    ensures ',' !in r
    ensures forall c :: c != ',' ==> multiset(r)[c] == multiset(s)[c]
    ensures |r| <= |s|
  {
    if |s| == 0 then []
    else
      assert s == [s[0]] + s[1..];
      if s[0] == ',' then RemoveCommas(s[1..]) else [s[0]] + RemoveCommas(s[1..])
  }

  /** Removing commas does nothing to a string without commas. */
  lemma {:induction false} RemoveCommasNoop(s: string)
    requires ',' !in s
    ensures RemoveCommas(s) == s
  {
    if |s| > 0 {
      assert ',' !in s[1..] by { assert forall c :: c in s[1..] ==> c in s; }
      RemoveCommasNoop(s[1..]);
    }
  }

  /** `parts.join(sep)` */
  function Join(parts: seq<string>, sep: string): (r: string)
    ensures |parts| == 1 ==> r == parts[0]
  {
    if |parts| == 0 then ""
    else if |parts| == 1 then parts[0]
    else Join(parts[..|parts| - 1], sep) + sep + parts[|parts| - 1]
  }

  /** A character that is in no part and not in the separator is not in the joined text. */
  lemma {:induction false} JoinExcludes(parts: seq<string>, sep: string, c: char)
    requires c !in sep
    requires forall i :: 0 <= i < |parts| ==> c !in parts[i]
    ensures c !in Join(parts, sep)
  {
    if |parts| > 1 {
      JoinExcludes(parts[..|parts| - 1], sep, c);
    }
  }

  /**
   * Splitting a text at every `sep` (the way a CSV reader cuts a file into lines
   * and a line into cells): the inverse of joining with `sep`.
   */
  function Split(s: string, sep: char): (r: seq<string>)
    ensures |r| >= 1
    ensures forall i :: 0 <= i < |r| ==> sep !in r[i]
  {
    if |s| == 0 then [""]
    else
      var rest := Split(s[..|s| - 1], sep);
      if s[|s| - 1] == sep then rest + [""]
      else rest[..|rest| - 1] + [rest[|rest| - 1] + [s[|s| - 1]]]
  }

  lemma {:induction false} SplitAppendCell(s: string, t: string, sep: char)
    requires sep !in t
    ensures Split(s + t, sep) == Split(s, sep)[..|Split(s, sep)| - 1] + [Split(s, sep)[|Split(s, sep)| - 1] + t]
    decreases |t|
  {
    if |t| == 0 {
      assert s + t == s;
      var r := Split(s, sep);
      assert r[|r| - 1] + t == r[|r| - 1];
      assert r == r[..|r| - 1] + [r[|r| - 1]];
    } else {
      var t' := t[..|t| - 1];
      assert sep !in t' by { assert forall c :: c in t' ==> c in t; }
      assert (s + t)[..|s + t| - 1] == s + t';
      assert t[|t| - 1] in t;
      SplitAppendCell(s, t', sep);
      var r := Split(s, sep);
      assert t' + [t[|t| - 1]] == t;
      assert (r[|r| - 1] + t') + [t[|t| - 1]] == r[|r| - 1] + t;
    }
  }

  lemma SplitAfterSep(s: string, sep: char)
    ensures Split(s + [sep], sep) == Split(s, sep) + [""]
  {
    assert (s + [sep])[..|s + [sep]| - 1] == s;
  }

  /** Joining cells free of `sep` with `sep` and splitting the text at `sep` gives the cells back. */
  lemma {:induction false} SplitJoin(cells: seq<string>, sep: char)
    requires |cells| >= 1
    requires forall i :: 0 <= i < |cells| ==> sep !in cells[i]
    ensures Split(Join(cells, [sep]), sep) == cells
  {
    if |cells| == 1 {
      SplitAppendCell("", cells[0], sep);
      assert "" + cells[0] == cells[0];
    } else {
      var init, last := cells[..|cells| - 1], cells[|cells| - 1];
      assert cells == init + [last];
      SplitJoin(init, sep);
      SplitJoinStep(init, last, sep);
    }
  }

  /** The step of `SplitJoin`: one more cell after a separator is read back as one more cell. */
  lemma SplitJoinStep(init: seq<string>, last: string, sep: char)
    requires |init| >= 1 && sep !in last
    requires Split(Join(init, [sep]), sep) == init
    ensures Split(Join(init + [last], [sep]), sep) == init + [last]
  {
    var j := Join(init, [sep]);
    SplitAfterSep(j, sep);
    SplitAppendCell(j + [sep], last, sep);
    assert (init + [last])[..|init|] == init;
    assert Join(init + [last], [sep]) == (j + [sep]) + last;
    var r := Split(j + [sep], sep);
    assert r == init + [""];
    assert r[..|r| - 1] == init;
    assert r[|r| - 1] + last == last;
  }

  // ---------------------------------------------------------------------------
  // Numbers and strings

  predicate IsDigit(c: char) {
    '0' <= c <= '9'
  }

  predicate AllDigits(s: string) {
    forall i :: 0 <= i < |s| ==> IsDigit(s[i])
  }

  function DigitChar(d: nat): (c: char)
    requires d < 10
    ensures IsDigit(c) && c as int - '0' as int == d
  {
    ('0' as int + d) as char
  }

  /** The value of a string of decimal digits. */
  function DigitsValue(s: string): nat
    requires AllDigits(s)
  {
    if |s| == 0 then 0 else DigitsValue(s[..|s| - 1]) * 10 + (s[|s| - 1] as int - '0' as int)
  }

  /** The decimal digits of a natural number, most significant first, without leading zeros. */
  function NatToDigits(n: nat): (r: string)
    ensures r != [] && AllDigits(r)
    ensures |r| > 1 ==> r[0] != '0'
  {
    if n < 10 then [DigitChar(n)] else NatToDigits(n / 10) + [DigitChar(n % 10)]
  }

  lemma {:induction false} NatToDigitsValue(n: nat)
    ensures DigitsValue(NatToDigits(n)) == n
  {
    if n >= 10 {
      NatToDigitsValue(n / 10);
      var d := NatToDigits(n);
      assert d[..|d| - 1] == NatToDigits(n / 10);
    }
  }

  /** `String(n)` for an integer-valued number. */
  function IntToDecimal(n: int): (r: string)
    ensures r != []
    ensures n >= 0 ==> AllDigits(r)
    ensures n < 0 ==> r[0] == '-' && AllDigits(r[1..])
  {
    if n < 0 then "-" + NatToDigits(-n) else NatToDigits(n)
  }

  /** The string form of a number (`String(n)`, `n.toString()`). */
  function NumberToString(n: Number): string {
    match n
    case NaN => "NaN"
    case Fin(v) => IntToDecimal(v)
  }

  /** `n.toFixed(2)`: exact for integer values, which carry two zero decimals. */
  function ToFixed2(n: Number): (r: string)
    ensures n.Fin? ==> r == IntToDecimal(n.v) + ".00"
    ensures ',' !in r
  {
    match n
    case NaN => "NaN"
    case Fin(v) =>
      var d := IntToDecimal(v);
      assert ',' !in d by {
        if v < 0 { assert d == "-" + d[1..]; }
      }
      d + ".00"
  }

  /**
   * `Number(s)` for a string: white space around the text is ignored, the empty
   * text is 0, an optionally signed run of decimal digits is its value, anything
   * else is NaN.
   */
  function StringToNumber(s: string): (r: Number)
    ensures Trim(s) == "" ==> r == Fin(0)
  {
    var t := Trim(s);
    if t == "" then Fin(0)
    else if AllDigits(t) then Fin(DigitsValue(t))
    else if |t| > 1 && t[0] == '+' && AllDigits(t[1..]) then Fin(DigitsValue(t[1..]))
    else if |t| > 1 && t[0] == '-' && AllDigits(t[1..]) then Fin(0 - DigitsValue(t[1..]))
    else NaN
  }

  /** Printing an integer and reading it back with `Number` gives the integer. */
  lemma NumberRoundTrip(n: int)
    ensures StringToNumber(IntToDecimal(n)) == Fin(n)
  {
    if n < 0 {
      NegativeRoundTrip(n);
    } else {
      NatRoundTrip(n);
    }
  }

  lemma NatRoundTrip(n: nat)
    ensures StringToNumber(IntToDecimal(n)) == Fin(n)
  {
    var d := NatToDigits(n);
    TrimNoSpaceEnds(d);
    NatToDigitsValue(n);
    assert Trim(d) == d && d != [] && AllDigits(d);
  }

  lemma NegativeRoundTrip(n: int)
    requires n < 0
    ensures StringToNumber(IntToDecimal(n)) == Fin(n)
  {
    var m := NatToDigits(-n);
    var d := "-" + m;
    assert d[1..] == m && d[|d| - 1] == m[|m| - 1];
    TrimNoSpaceEnds(d);
    NatToDigitsValue(-n);
    assert !AllDigits(d) by { assert !IsDigit(d[0]); }
    assert Trim(d) == d && |d| > 1 && d[0] == '-' && AllDigits(d[1..]);
  }

  /** `String(v)` */
  function ToStr(v: Json): string
    decreases v
  {
    match v
    case Undefined => "undefined"
    case Null => "null"
    case Bool(b) => if b then "true" else "false"
    case Num(n) => NumberToString(n)
    case Str(s) => s
    case Arr(items) =>
      // an array prints its elements joined with ","; null and undefined print as ""
      Join(seq(|items|, i requires 0 <= i < |items| =>
                 if IsNullish(items[i]) then "" else ToStr(items[i])), ",")
    case Obj(_) => "[object Object]"
  }

  /** `Number(v)` */
  function ToNumber(v: Json): (r: Number)
    ensures v.Num? ==> r == v.n
    ensures v.Str? ==> r == StringToNumber(v.s)
    ensures v.Undefined? ==> r == NaN
    ensures v.Null? ==> r == Fin(0)
  {
    match v
    case Undefined => NaN
    case Null => Fin(0)
    case Bool(b) => if b then Fin(1) else Fin(0)
    case Num(n) => n
    case Str(s) => StringToNumber(s)
    case Arr(_) => StringToNumber(ToStr(v))
    case Obj(_) => StringToNumber(ToStr(v))
  }

  /** An object is never a number: `Number({})` is NaN. */
  lemma ObjectIsNaN(fields: seq<(string, Json)>)
    ensures ToNumber(Obj(fields)) == NaN
  {
    var t := "[object Object]";
    TrimNoSpaceEnds(t);
    assert !AllDigits(t) by { assert !IsDigit(t[0]); }
  }
}
