/**
 * The small part of JavaScript's value semantics that the portal's business
 * logic relies on: `undefined` (an absent option), JSON request values and
 * their truthiness, `Array.prototype.slice`, `Math.ceil` of a quotient,
 * ASCII case mapping, `String.prototype.includes` and decimal digits.
 */
module Js {

  datatype Option<+T> = None | Some(value: T)

  /** A value read through optional chaining that distinguishes a missing
      property (`undefined`) from one that is present but `null`; the two
      differ under `===`. */
  datatype Nullable<+T> = Undefined | Null | Present(value: T)

  /** `x === y` for a nullable string and a string that may be `undefined`. */
  predicate StrictEquals(x: Nullable<string>, y: Option<string>) {
    match x
    case Undefined => y.None?
    case Null => false
    case Present(s) => y == Some(s)
  }

  /** `x` used in a boolean position. */
  predicate NullableTruthy(x: Nullable<string>) {
    x.Present? && x.value != ""
  }

  /** A value of a parsed JSON request body. Numbers are integers. */
  datatype Json =
    | JNull
    | JBool(b: bool)
    | JNum(n: int)
    | JStr(s: string)
    | JArr(items: seq<Json>)
    | JObj(fields: map<string, Json>)

  /** JavaScript truthiness: `null`, `false`, `0` and `""` are falsy. */
  predicate Truthy(v: Json) {
    match v
    case JNull => false
    case JBool(b) => b
    case JNum(n) => n != 0
    case JStr(s) => s != ""
    case JArr(_) => true
    case JObj(_) => true
  }

  /** `obj.key` is present and truthy. */
  predicate HasTruthy(obj: map<string, Json>, key: string) {
    key in obj && Truthy(obj[key])
  }

  /** `s` where `s` is an optional string used in a boolean position. */
  predicate StrTruthy(s: Option<string>) {
    s.Some? && s.value != ""
  }

  /** `n` where `n` is an optional number used in a boolean position. */
  predicate IntTruthy(n: Option<int>) {
    n.Some? && n.value != 0
  }

  /** `s || d` for an optional string. */
  function StrOr(s: Option<string>, d: string): (r: string)
    ensures StrTruthy(s) ==> r == s.value
    ensures !StrTruthy(s) ==> r == d
  {
    if StrTruthy(s) then s.value else d
  }

  /** `n || d` for an optional number: an explicit 0 is replaced too. */
  function IntOr(n: Option<int>, d: int): (r: int)
    ensures IntTruthy(n) ==> r == n.value
    ensures !IntTruthy(n) ==> r == d
  {
    if IntTruthy(n) then n.value else d
  }

  /** `x ?? d`: only an absent value is replaced. */
  function Default<T>(x: Option<T>, d: T): (r: T)
    ensures x.Some? ==> r == x.value
    ensures x.None? ==> r == d
  {
    if x.Some? then x.value else d
  }

  // ---------------------------------------------------------------------
  // Array.prototype.slice and Math.ceil(total / limit)
  // ---------------------------------------------------------------------

  /** How `slice` resolves one relative index against a length `n`. */
  function ResolveIndex(i: int, n: nat): (r: nat)
    ensures r <= n
    ensures 0 <= i <= n ==> r == i
    ensures i > n ==> r == n
    ensures i < 0 ==> r == if n + i < 0 then 0 else n + i
  {
    if i < 0 then (if n + i < 0 then 0 else n + i) else if i > n then n else i
  }

  /** `s.slice(start, end)`: negative indices count from the end. */
  function Slice<T>(s: seq<T>, start: int, end: int): seq<T> {
    var a, b := ResolveIndex(start, |s|), ResolveIndex(end, |s|);
    if a < b then s[a..b] else []
  }

  /** With a non-negative start, `slice(start, start + len)` is the
      contiguous run of at most `len` elements that starts at `start`. */
  lemma SliceWindow<T>(s: seq<T>, start: int, len: int)
    requires start >= 0 && len >= 0
    ensures var r := Slice(s, start, start + len);
      && |r| <= len
      && (start >= |s| ==> r == [])
      && (start < |s| ==> r == s[start..if start + len <= |s| then start + len else |s|])
      && (start + len <= |s| ==> |r| == len)
  {
  }

  /** `(page - 1) * limit`: where a page of `limit` items starts. */
  function PageStart(page: int, limit: int): (r: int)
    ensures page >= 1 && limit >= 0 ==> r >= 0
  {
    MulNonNegative(page - 1, limit);
    (page - 1) * limit
  }

  lemma MulNonNegative(a: int, b: int)
    ensures a >= 0 && b >= 0 ==> a * b >= 0
  {
  }

  /** A JavaScript number as far as `Math.ceil(n / d)` goes. */
  datatype JsNumber = Finite(n: int) | PosInfinity | NaN

  /** `Math.ceil(a / b)` for a count `a` and an integer `b`. */
  function CeilDiv(a: nat, b: int): (r: JsNumber)
    ensures b > 0 ==> r.Finite? && (r.n - 1) * b < a <= r.n * b
    ensures b == 0 ==> r == (if a == 0 then NaN else PosInfinity)
  {
    if b == 0 then (if a == 0 then NaN else PosInfinity)
    else if b > 0 then
      var q := (a + b - 1) / b;
      CeilDivBounds(a, b);
      Finite(q)
    else Finite(-(a / -b))
  }

  lemma CeilDivBounds(a: nat, b: int)
    requires b > 0
    ensures ((a + b - 1) / b - 1) * b < a <= ((a + b - 1) / b) * b
  {
    var q := (a + b - 1) / b;
    var m := (a + b - 1) % b;
    assert a + b - 1 == q * b + m && 0 <= m < b;
    assert (q - 1) * b == q * b - b;
  }

  /** `x < y` for an integer `x` and a JavaScript number `y`. */
  predicate LessThan(x: int, y: JsNumber) {
    match y
    case Finite(n) => x < n
    case PosInfinity => true
    case NaN => false
  }

  // ---------------------------------------------------------------------
  // Case mapping and substring search (ASCII letters only)
  // ---------------------------------------------------------------------

  function UpperChar(c: char): char {
    if 'a' <= c <= 'z' then (c as int - 32) as char else c
  }

  function LowerChar(c: char): char {
    if 'A' <= c <= 'Z' then (c as int + 32) as char else c
  }

  /** `s.toUpperCase()` */
  function ToUpper(s: string): (r: string)
    ensures |r| == |s|
    ensures forall i :: 0 <= i < |s| ==> r[i] == UpperChar(s[i])
  {
    if s == [] then [] else [UpperChar(s[0])] + ToUpper(s[1..])
  }

  /** `s.toLowerCase()` */
  function ToLower(s: string): (r: string)
    ensures |r| == |s|
    ensures forall i :: 0 <= i < |s| ==> r[i] == LowerChar(s[i])
  {
    if s == [] then [] else [LowerChar(s[0])] + ToLower(s[1..])
  }

  lemma ToUpperIdempotent(s: string)
    ensures ToUpper(ToUpper(s)) == ToUpper(s)
  {
  }

  lemma ToLowerIdempotent(s: string)
    ensures ToLower(ToLower(s)) == ToLower(s)
  {
  }

  /** `q` occurs in `s` at position `i`. */
  predicate OccursAt(s: string, q: string, i: int) {
    0 <= i && i + |q| <= |s| && s[i..i + |q|] == q
  }

  /** `s.includes(q)`: `q` occurs somewhere in `s`. */
  predicate Includes(s: string, q: string) {
    exists i :: 0 <= i <= |s| && OccursAt(s, q, i)
  }

  lemma IncludesEmpty(s: string)
    ensures Includes(s, "")
  {
    assert OccursAt(s, "", 0);
  }

  // ---------------------------------------------------------------------
  // Decimal digits: String(n) and parseInt(digits, 10)
  // ---------------------------------------------------------------------

  predicate IsDigit(c: char) {
    '0' <= c <= '9'
  }

  predicate AllDigits(s: string) {
    forall i :: 0 <= i < |s| ==> IsDigit(s[i])
  }

  function DigitChar(d: nat): (c: char)
    requires d < 10
    ensures IsDigit(c) && c as int - '0' as int == d
  {
    ('0' as int + d) as char
  }

  /** `String(n)` for a non-negative integer. */
  function NatToString(n: nat): (r: string)
    ensures |r| > 0 && AllDigits(r)
    decreases n
  {
    if n < 10 then [DigitChar(n)] else NatToString(n / 10) + [DigitChar(n % 10)]
  }

  /** `parseInt(s, 10)` for a string of digits. */
  function DigitsValue(s: string): nat
    requires AllDigits(s)
  {
    if s == [] then 0 else DigitsValue(s[..|s| - 1]) * 10 + (s[|s| - 1] as int - '0' as int)
  }

  /** Printing a number and reading it back gives the number. */
  lemma {:induction false} DigitsValueOfNatToString(n: nat)
    ensures DigitsValue(NatToString(n)) == n
    decreases n
  {
    if n >= 10 {
      var s := NatToString(n);
      assert s[..|s| - 1] == NatToString(n / 10);
      DigitsValueOfNatToString(n / 10);
    }
  }
}
