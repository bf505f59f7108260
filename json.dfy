/** JavaScript values as the gateway and admin handlers see them: parsed JSON
    request bodies, the objects the handlers build, and the few coercions the
    handlers rely on (truthiness, `??`, `||`, optional chaining and the
    conversion to a number that a relational comparison performs). */
module Json {

  datatype Option<T> = None | Some(value: T)

  /** A JavaScript value. Objects are maps: the order of their keys (which only
      shows in serialized output) is not modelled. */
  datatype Value =
    | Undefined
    | Null
    | Bool(b: bool)
    | Num(r: real)              // a finite number
    | NaN
    | Infinity(negative: bool)
    | Str(s: string)
    | Arr(items: seq<Value>)
    | Obj(fields: map<string, Value>)

  /** ToBoolean: the test behind `if (v)`, `!v`, `&&` and `||`. */
  predicate Truthy(v: Value) {
    match v
    case Undefined => false
    case Null => false
    case Bool(b) => b
    case Num(r) => r != 0.0
    case NaN => false
    case Infinity(_) => true
    case Str(s) => s != ""
    case Arr(_) => true
    case Obj(_) => true
  }

  /** The values `??` replaces. */
  predicate Nullish(v: Value) {
    v.Undefined? || v.Null?
  }

  /** `v ?? d` */
  function Coalesce(v: Value, d: Value): (r: Value) {
    if Nullish(v) then d else v
  }

  /** `v || d` */
  function OrElse(v: Value, d: Value): (r: Value) {
    if Truthy(v) then v else d
  }

  /** `v?.[k]` for a property name that no primitive or array carries itself:
      the own property of an object, `undefined` for anything else. */
  function Member(v: Value, k: string): (r: Value) {
    if v.Obj? && k in v.fields then v.fields[k] else Undefined
  }

  /** The canonical decimal form of an index, the property name `v[i]`
      looks up on an object. */
  function IndexKey(i: nat): (k: string)
    ensures |k| > 0 && forall j :: 0 <= j < |k| ==> '0' <= k[j] <= '9'
  {
    if i < 10 then [('0' as int + i) as char]
    else IndexKey(i / 10) + [('0' as int + i % 10) as char]
  }

  /** `v?.[i]`: the element of an array, the property named by the index on an
      object, the one-character string at the index of a string, and
      `undefined` past the end or on anything else. */
  function Element(v: Value, i: nat): (r: Value) {
    match v
    case Arr(items) => if i < |items| then items[i] else Undefined
    case Obj(fields) => if IndexKey(i) in fields then fields[IndexKey(i)] else Undefined
    case Str(s) => if i < |s| then Str([s[i]]) else Undefined
    case _ => Undefined
  }

  /** `body.k` for a parsed request body held as a map. */
  function Field(body: map<string, Value>, k: string): (r: Value) {
    if k in body then body[k] else Undefined
  }

  /** The result of ToNumber, with the non-finite outcomes kept apart. */
  datatype Numeric = Finite(r: real) | NotANumber | PosInf | NegInf

  /** `x < bound` for a number `x` and a finite bound; NaN compares false. */
  predicate Below(x: Numeric, bound: real) {
    match x
    case Finite(r) => r < bound
    case NegInf => true
    case _ => false
  }

  /** `x > bound` for a number `x` and a finite bound; NaN compares false. */
  predicate Above(x: Numeric, bound: real) {
    match x
    case Finite(r) => r > bound
    case PosInf => true
    case _ => false
  }

  predicate IsWhitespace(c: char) {
    c == '\t' || c == '\n' || c == '\U{000B}' || c == '\U{000C}' || c == '\r' ||
    c == ' ' || c == '\U{00A0}' || c == '\U{1680}' ||
    ('\U{2000}' <= c <= '\U{200A}') ||
    c == '\U{2028}' || c == '\U{2029}' || c == '\U{202F}' || c == '\U{205F}' ||
    c == '\U{3000}' || c == '\U{FEFF}'
  }

  /** `s.trimStart()` */
  function TrimStart(s: string): (r: string)
    ensures |r| <= |s| && r == s[|s| - |r|..]
    ensures forall i :: 0 <= i < |s| - |r| ==> IsWhitespace(s[i])
    ensures r == [] || !IsWhitespace(r[0])
  {
    if s != [] && IsWhitespace(s[0]) then TrimStart(s[1..]) else s
  }

  /** `s.trimEnd()` */
  function TrimEnd(s: string): (r: string)
    ensures |r| <= |s| && r == s[..|r|]
    ensures forall i :: |r| <= i < |s| ==> IsWhitespace(s[i])
    ensures r == [] || !IsWhitespace(r[|r| - 1])
  {
    if s != [] && IsWhitespace(s[|s| - 1]) then TrimEnd(s[..|s| - 1]) else s
  }

  /** `s.trim()`: ECMAScript's WhiteSpace and LineTerminator characters are
      removed from both ends. */
  function Trim(s: string): (r: string) {
    TrimEnd(TrimStart(s))
  }

  /** A prefix of a suffix is a slice. */
  lemma PrefixOfSuffix(s: string, i: nat, t: string, r: string)
    requires i <= |s| && t == s[i..] && |r| <= |t| && r == t[..|r|]
    ensures i + |r| <= |s| && r == s[i..i + |r|]
  {
  }

  /** White space at the end of a suffix is white space at the end of the
      whole. */
  lemma WhitespaceEndOfSuffix(s: string, i: nat, t: string, j: nat)
    requires i <= |s| && t == s[i..] && j <= |t|
    requires forall k :: j <= k < |t| ==> IsWhitespace(t[k])
    ensures forall k :: i + j <= k < |s| ==> IsWhitespace(s[k])
  {
    forall k | i + j <= k < |s| ensures IsWhitespace(s[k]) {
      assert t[k - i] == s[k];
    }
  }

  /** What `trim` keeps: the slice of the input that starts after the leading
      white space, everything cut off at either end being white space. */
  lemma TrimIsInnerSlice(s: string)
    ensures var i := |s| - |TrimStart(s)|;
      && i + |Trim(s)| <= |s| && Trim(s) == s[i..i + |Trim(s)|]
      && (forall k :: 0 <= k < i ==> IsWhitespace(s[k]))
      && (forall k :: i + |Trim(s)| <= k < |s| ==> IsWhitespace(s[k]))
  {
    var t := TrimStart(s);
    var r := TrimEnd(t);
    PrefixOfSuffix(s, |s| - |t|, t, r);
    WhitespaceEndOfSuffix(s, |s| - |t|, t, |r|);
  }

  /** Neither end of what `trim` keeps is white space. */
  lemma TrimEndsNotWhitespace(s: string)
    ensures Trim(s) == [] || (!IsWhitespace(Trim(s)[0]) && !IsWhitespace(Trim(s)[|Trim(s)| - 1]))
  {
    var t := TrimStart(s);
    var r := TrimEnd(t);
    if r != [] {
      assert r[0] == t[0];
    }
  }

  /** A string of white space only trims to the empty string, and only such a
      string does. */
  lemma {:induction false} TrimEmptyIffBlank(s: string)
    ensures Trim(s) == [] <==> forall k :: 0 <= k < |s| ==> IsWhitespace(s[k])
  {
    TrimIsInnerSlice(s);
  }

  /** The number of UTF-16 code units of `s`, which is what a JavaScript
      string's `length` counts: a character outside the Basic Multilingual
      Plane takes two. */
  function Utf16Length(s: string): (n: nat)
    ensures |s| <= n <= 2 * |s|
    ensures (forall i :: 0 <= i < |s| ==> s[i] as int < 0x1_0000) ==> n == |s|
  {
    if s == [] then 0
    else (if s[0] as int < 0x1_0000 then 1 else 2) + Utf16Length(s[1..])
  }

  predicate IsDigit(c: char) {
    '0' <= c <= '9'
  }

  predicate AllDigits(s: string) {
    forall i :: 0 <= i < |s| ==> IsDigit(s[i])
  }

  function DigitsValue(s: string): (r: nat)
    requires AllDigits(s)
  {
    if s == [] then 0 else DigitsValue(s[..|s| - 1]) * 10 + (s[|s| - 1] as int - '0' as int)
  }

  function Pow10(n: nat): (p: nat)
    ensures p >= 1
  {
    if n == 0 then 1 else 10 * Pow10(n - 1)
  }

  /** The index of the first '.', or |s| when there is none. */
  function DotIndex(s: string): (d: nat)
    ensures d <= |s|
    ensures forall i :: 0 <= i < d ==> s[i] != '.'
    ensures d < |s| ==> s[d] == '.'
  {
    if s == [] then 0 else if s[0] == '.' then 0 else 1 + DotIndex(s[1..])
  }

  /** The value of an unsigned decimal `digits[.digits]` with at least one digit. */
  function UnsignedDecimal(t: string): (r: Numeric) {
    var d := DotIndex(t);
    var whole := t[..d];
    var frac := if d < |t| then t[d + 1..] else "";
    if AllDigits(whole) && AllDigits(frac) && |whole| + |frac| > 0
    then Finite(DigitsValue(whole) as real + DigitsValue(frac) as real / Pow10(|frac|) as real)
    else NotANumber
  }

  /** ToNumber applied to a string. */
  function StringToNumeric(s: string): (r: Numeric) {
    var t := Trim(s);
    if t == "" then Finite(0.0)
    else
      var negative := t[0] == '-';
      var body := if t[0] == '-' || t[0] == '+' then t[1..] else t;
      if body == "Infinity" then (if negative then NegInf else PosInf)
      else match UnsignedDecimal(body)
        case Finite(r) => Finite(if negative then -r else r)
        case other => other
  }

  /** ToNumber, as a relational comparison such as `count < 1` applies it. An
      array converts through its comma-joined string form, so only an array of
      at most one element can give a number. */
  function ToNumeric(v: Value): (r: Numeric) {
    match v
    case Undefined => NotANumber
    case Null => Finite(0.0)
    case Bool(b) => Finite(if b then 1.0 else 0.0)
    case Num(r) => Finite(r)
    case NaN => NotANumber
    case Infinity(negative) => if negative then NegInf else PosInf
    case Str(s) => StringToNumeric(s)
    case Arr(items) =>
      if |items| == 0 then Finite(0.0)
      else if |items| > 1 then NotANumber
      else if Nullish(items[0]) then Finite(0.0)
      else if items[0].Bool? then NotANumber
      else ToNumeric(items[0])
    case Obj(_) => NotANumber
  }
}
