/** Primitive JavaScript values and the coercions that the screens rely on.

    Every screen reads database rows and form fields whose values are JavaScript
    primitives: a field may be missing (`undefined`), `null`, a boolean, a number
    or a string. The business rules lean on JavaScript's coercions (`Number(x)`,
    `String(x)`, `x || d`, `x * y`, `x + y`, `s.trim()`), so those are spelled out
    here once and used by every module. */
module Js {

  datatype Option<T> = None | Some(value: T)

  /** A JavaScript number. Amounts are whole FCFA (the currency has no sub-units),
      so the model keeps integers and NaN; fractions and the infinities are not
      represented. */
  datatype Numeric = Int(i: int) | NaN

  /** A primitive JavaScript value, as found in a record field. */
  datatype Value = Undefined | Null | Bool(b: bool) | Num(n: Numeric) | Str(s: string)

  /** A JavaScript object or a database row: field name to value. A field that is
      not present reads as `undefined`. */
  type Record = map<string, Value>

  /** `r.key` (and `r?.key`, `r[key]`). */
  function Get(r: Record, key: string): Value {
    if key in r then r[key] else Undefined
  }

  /** JavaScript truthiness: `undefined`, `null`, `false`, `0`, `NaN` and `''` are falsy. */
  predicate Truthy(v: Value) {
    match v
    case Undefined => false
    case Null => false
    case Bool(b) => b
    case Num(n) => n.Int? && n.i != 0
    case Str(s) => s != ""
  }

  /** `a || b`: the first operand when it is truthy, the second otherwise. */
  function Or(a: Value, b: Value): Value {
    if Truthy(a) then a else b
  }

  /** `a === b` on primitives: NaN is the one value not strictly equal to itself. */
  predicate StrictEquals(a: Value, b: Value) {
    a == b && a != Num(NaN)
  }

  /** Numeric `+`: NaN absorbs. */
  function Add(a: Numeric, b: Numeric): Numeric {
    if a.Int? && b.Int? then Int(a.i + b.i) else NaN
  }

  /** Numeric `*`: NaN absorbs. */
  function Mul(a: Numeric, b: Numeric): Numeric {
    if a.Int? && b.Int? then Int(a.i * b.i) else NaN
  }

  /** `Number(x) || 0` once `Number(x)` is known: NaN and 0 both give 0. */
  function OrZero(n: Numeric): int {
    if n.Int? then n.i else 0
  }

  /** `Number(x) > 0` once `Number(x)` is known: NaN compares false. */
  predicate Positive(n: Numeric) {
    n.Int? && n.i > 0
  }

  /** `x <= 0` for a primitive `x`: the comparison converts `x` with `Number`, and NaN compares false. */
  predicate AtMostZero(v: Value) {
    var n := ToNumber(v);
    n.Int? && n.i <= 0
  }

  // ---------------------------------------------------------------------------
  // Whitespace and trim

  /** The characters `String.prototype.trim` and `Number` strip: the white-space
      characters (tab, vertical tab, form feed, the byte-order mark and every
      space separator) and the line terminators. */
  predicate IsWhite(c: char) {
    c == '\t' || c == '\n' || c == '\U{000B}' || c == '\U{000C}' || c == '\r' ||
    c == ' ' || c == '\U{00A0}' || c == '\U{1680}' || ('\U{2000}' <= c <= '\U{200A}') ||
    c == '\U{2028}' || c == '\U{2029}' || c == '\U{202F}' || c == '\U{205F}' ||
    c == '\U{3000}' || c == '\U{FEFF}'
  }

  /** Drops the leading white space: what is dropped is all white space, and what
      is kept is a suffix of `s` that does not start with white space. */
  function TrimStart(s: string): (r: string)
    ensures |r| <= |s| && r == s[|s| - |r|..]
    ensures r != [] ==> !IsWhite(r[0])
    ensures forall k :: 0 <= k < |s| - |r| ==> IsWhite(s[k])
  {
    if s != [] && IsWhite(s[0]) then TrimStart(s[1..]) else s
  }

  /** Drops the trailing white space, symmetrically to `TrimStart`. */
  function TrimEnd(s: string): (r: string)
    ensures |r| <= |s| && r == s[..|r|]
    ensures r != [] ==> !IsWhite(r[|r| - 1])
    ensures forall k :: |r| <= k < |s| ==> IsWhite(s[k])
  {
    if s != [] && IsWhite(s[|s| - 1]) then TrimEnd(s[..|s| - 1]) else s
  }

  /** `s.trim()`. It is empty exactly when `s` is all white space; otherwise it
      starts and ends with a character that is not white space. */
  function Trim(s: string): (r: string)
    ensures |r| <= |s|
    ensures r == "" <==> forall k :: 0 <= k < |s| ==> IsWhite(s[k])
    ensures r != "" ==> !IsWhite(r[0]) && !IsWhite(r[|r| - 1])
  {
    TrimEnd(TrimStart(s))
  }

  // ---------------------------------------------------------------------------
  // Decimal digits

  predicate IsDigit(c: char) {
    '0' <= c <= '9'
  }

  predicate AllDigits(s: string) {
    forall k :: 0 <= k < |s| ==> IsDigit(s[k])
  }

  function DigitChar(d: int): (c: char)
    requires 0 <= d < 10
    ensures IsDigit(c) && c as int - '0' as int == d
  {
    ('0' as int + d) as char
  }

  /** The value of a string of decimal digits, most significant first. */
  function DigitsValue(s: string): nat
    requires AllDigits(s)
  {
    if s == [] then 0 else DigitsValue(s[..|s| - 1]) * 10 + (s[|s| - 1] as int - '0' as int)
  }

  /** The shortest decimal representation of `n`: no leading zero except for 0 itself. */
  function NatToString(n: nat): (r: string)
    ensures r != [] && AllDigits(r)
    ensures r[0] == '0' ==> n == 0
  {
    if n < 10 then [DigitChar(n)] else NatToString(n / 10) + [DigitChar(n % 10)]
  }

  /** `String(i)` for an integer. */
  function IntToString(i: int): (r: string)
    ensures r != []
  {
    if i < 0 then "-" + NatToString(-i) else NatToString(i)
  }

  /** Reading back the digits `NatToString` writes gives the number again. */
  lemma {:induction false} DigitsRoundTrip(n: nat)
    ensures DigitsValue(NatToString(n)) == n
  {
    var s := NatToString(n);
    if n >= 10 {
      DigitsRoundTrip(n / 10);
      assert s[..|s| - 1] == NatToString(n / 10);
    }
  }

  /** `String(v)` for a primitive. */
  function ToString(v: Value): string {
    match v
    case Undefined => "undefined"
    case Null => "null"
    case Bool(b) => if b then "true" else "false"
    case Num(n) => if n.Int? then IntToString(n.i) else "NaN"
    case Str(s) => s
  }

  /** `Number(s)` for a string: surrounding white space is ignored, a blank string
      is 0, an optionally signed run of decimal digits is its value, and anything
      else is NaN. (Fractions, exponents, hexadecimal and "Infinity" are outside
      the integer model and also read as NaN here.) */
  function StringToNumber(s: string): Numeric {
    DecimalValue(Trim(s))
  }

  /** The value of a text that `Number` has already trimmed. */
  function DecimalValue(t: string): Numeric {
    if t == "" then Int(0)
    else if AllDigits(t) then Int(DigitsValue(t))
    else if |t| > 1 && (t[0] == '-' || t[0] == '+') && AllDigits(t[1..]) then
      Int(if t[0] == '-' then -(DigitsValue(t[1..]) as int) else DigitsValue(t[1..]))
    else NaN
  }

  /** `Number(v)` for a primitive. */
  function ToNumber(v: Value): Numeric {
    match v
    case Undefined => NaN
    case Null => Int(0)
    case Bool(b) => Int(if b then 1 else 0)
    case Num(n) => n
    case Str(s) => StringToNumber(s)
  }

  /** `Number(String(i)) === i`: the string conversion of an integer reads back as
      that integer, also with white space around it. */
  lemma IntRoundTrip(i: int, pre: string, post: string)
    requires forall k :: 0 <= k < |pre| ==> IsWhite(pre[k])
    requires forall k :: 0 <= k < |post| ==> IsWhite(post[k])
    ensures ToNumber(Str(pre + ToString(Num(Int(i))) + post)) == Int(i)
  {
    TrimAround(pre, IntToString(i), post);
    DecimalOfInt(i);
  }

  /** The text `String(i)` reads back as `i`. */
  lemma DecimalOfInt(i: int)
    ensures DecimalValue(IntToString(i)) == Int(i)
  {
    var n: nat := if i < 0 then -i else i;
    var digits := NatToString(n);
    DigitsRoundTrip(n);
    if i < 0 {
      var s := "-" + digits;
      assert s[1..] == digits;
      assert !AllDigits(s) by { assert !IsDigit(s[0]); }
    }
  }

  /** Trimming a string that neither starts nor ends with white space, padded with
      white space on both sides, gives the string back. */
  lemma TrimAround(pre: string, s: string, post: string)
    requires forall k :: 0 <= k < |pre| ==> IsWhite(pre[k])
    requires forall k :: 0 <= k < |post| ==> IsWhite(post[k])
    requires s != [] && !IsWhite(s[0]) && !IsWhite(s[|s| - 1])
    ensures Trim(pre + s + post) == s
  {
    TrimStartSkips(pre, s + post);
    assert pre + s + post == pre + (s + post);
    TrimEndSkips(s, post);
  }

  /** Leading white space is dropped up to the first other character. */
  lemma {:induction false} TrimStartSkips(pre: string, s: string)
    requires forall k :: 0 <= k < |pre| ==> IsWhite(pre[k])
    requires s != [] && !IsWhite(s[0])
    ensures TrimStart(pre + s) == s
  {
    if pre != [] {
      assert (pre + s)[1..] == pre[1..] + s;
      TrimStartSkips(pre[1..], s);
    }
  }

  /** Trailing white space is dropped back to the last other character. */
  lemma {:induction false} TrimEndSkips(s: string, post: string)
    requires forall k :: 0 <= k < |post| ==> IsWhite(post[k])
    requires s != [] && !IsWhite(s[|s| - 1])
    ensures TrimEnd(s + post) == s
  {
    if post != [] {
      assert (s + post)[..|s + post| - 1] == s + post[..|post| - 1];
      TrimEndSkips(s, post[..|post| - 1]);
    }
  }

  /** The longest prefix of `s` made of decimal digits. */
  function DigitPrefix(s: string): (r: string)
    ensures |r| <= |s| && r == s[..|r|] && AllDigits(r)
    ensures |r| < |s| ==> !IsDigit(s[|r|])
  {
    if s != [] && IsDigit(s[0]) then [s[0]] + DigitPrefix(s[1..]) else []
  }

  /** `parseFloat(s)`: leading white space is skipped, then an optional sign and
      the longest run of digits are read; no digit at all gives NaN. Unlike
      `Number`, a blank string is NaN and trailing text is ignored. (A fraction or
      exponent after the digits is outside the integer model and is ignored.) */
  function ParseFloat(s: string): Numeric {
    LeadingNumber(TrimStart(s))
  }

  /** The optionally signed run of digits at the start of `t`, if any. */
  function LeadingNumber(t: string): Numeric {
    var signed := t != [] && (t[0] == '-' || t[0] == '+');
    var body := if signed then t[1..] else t;
    var d := DigitPrefix(body);
    if d == [] then NaN
    else Int(if signed && t[0] == '-' then -(DigitsValue(d) as int) else DigitsValue(d))
  }

  /** `parseFloat(String(i)) === i`, and a blank field parses to NaN, where `Number`
      would give 0. */
  lemma ParseFloatOfInt(i: int)
    ensures ParseFloat(IntToString(i)) == Int(i)
    ensures ParseFloat("") == NaN && StringToNumber("") == Int(0)
  {
    var s := IntToString(i);
    NoLeadingWhite(i);
    TrimStartSkips("", s);
    assert "" + s == s;
    LeadingOfInt(i);
  }

  /** `String(i)` starts with a digit or a minus sign. */
  lemma NoLeadingWhite(i: int)
    ensures !IsWhite(IntToString(i)[0])
  {
    var s := IntToString(i);
    assert s[0] == '-' || IsDigit(s[0]);
  }

  /** The leading number of `String(i)` is `i`. */
  lemma LeadingOfInt(i: int)
    ensures LeadingNumber(IntToString(i)) == Int(i)
  {
    var n: nat := if i < 0 then -i else i;
    var digits := NatToString(n);
    DigitsRoundTrip(n);
    DigitPrefixAll(digits);
    if i < 0 {
      var s := "-" + digits;
      assert s[1..] == digits;
    }
  }

  lemma {:induction false} DigitPrefixAll(s: string)
    requires AllDigits(s)
    ensures DigitPrefix(s) == s
  {
    if s != [] {
      DigitPrefixAll(s[1..]);
    }
  }

  /** The JavaScript `+` operator on primitives: if either side is a string, both
      are converted with `String` and concatenated; otherwise both are converted
      with `Number` and added. */
  function Plus(a: Value, b: Value): (r: Value)
    ensures (a.Str? || b.Str?) <==> r.Str?
    ensures a.Num? && b.Num? ==> r == Num(Add(a.n, b.n))
  {
    if a.Str? || b.Str? then Str(ToString(a) + ToString(b))
    else Num(Add(ToNumber(a), ToNumber(b)))
  }

  /** What a numeric input stores on change (`raw === '' ? '' : Number(raw)`): the
      empty string while the field is being cleared, otherwise the number. */
  function NumberInput(raw: string): (r: Value)
    ensures r == Str("") <==> raw == ""
    ensures r != Str("") ==> r.Num? && r.n == StringToNumber(raw)
    ensures forall i :: raw == IntToString(i) ==> r == Num(Int(i))
    ensures raw != "" && (forall k :: 0 <= k < |raw| ==> IsWhite(raw[k])) ==> r == Num(Int(0))
  {
    if raw == "" then Str("")
    else
      assert forall i :: raw == IntToString(i) ==> StringToNumber(raw) == Int(i) by {
        forall i | raw == IntToString(i) ensures StringToNumber(raw) == Int(i) {
          IntRoundTrip(i, "", "");
          assert "" + raw + "" == raw;
        }
      }
      Num(StringToNumber(raw))
  }

  /** A number greater than zero is truthy and is not at most zero, whatever kind
      of primitive carries it. */
  lemma PositiveIsTruthy(v: Value)
    requires Positive(ToNumber(v))
    ensures Truthy(v) && !AtMostZero(v)
  {
  }

  /** The product of two numbers greater than zero is greater than zero: a
      nonlinear step the solver does not take unaided, shared by the total of the
      sale form and the total of the invoice form. */
  lemma ProductOfPositives(q: int, p: int)
    requires q > 0 && p > 0
    ensures q * p > 0
  {
  }

  /** Numeric addition, with NaN absorbing, has 0 as its unit and is associative
      and commutative. */
  lemma AddLaws(x: Numeric, y: Numeric, z: Numeric)
    ensures Add(x, Int(0)) == x && Add(Int(0), x) == x
    ensures Add(Add(x, y), z) == Add(x, Add(y, z))
    ensures Add(x, y) == Add(y, x)
  {
  }
}
