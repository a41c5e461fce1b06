/** JSON values as a decoder that keeps number literals produces them. */
module Json {
  import opened Base

  datatype Exponent = Exponent(upper: bool, sign: string, digits: string)

  /** A number literal by its written parts; two literals have the same text when the parts agree. */
  datatype Number = Number(negative: bool, digits: string, fraction: Option<string>, exponent: Option<Exponent>)

  datatype Json =
    | Null
    | Bool(truth: bool)
    | Num(number: Number)
    | Str(text: string)
    | Arr(items: seq<Json>)
    | Obj(entries: map<string, Json>)

  // ---------- The value of a number literal ----------

  function Digit(c: char): nat {
    if '0' <= c <= '9' then (c - '0') as nat else 0
  }

  function Decimal(digits: string): nat {
    if digits == "" then 0 else 10 * Decimal(digits[..|digits| - 1]) + Digit(digits[|digits| - 1])
  }

  function Pow10(n: nat): (p: nat)
    ensures p > 0
  {
    if n == 0 then 1 else 10 * Pow10(n - 1)
  }

  /** The value is Mantissa times ten to the power Scale. */
  function Mantissa(n: Number): int {
    var magnitude: int := Decimal(n.digits + if n.fraction.Some? then n.fraction.value else "");
    if n.negative then -magnitude else magnitude
  }

  function Scale(n: Number): int {
    var shift: int := if n.exponent.None? then 0 else Decimal(n.exponent.value.digits);
    var places: int := if n.fraction.None? then 0 else |n.fraction.value|;
    (if n.exponent.Some? && n.exponent.value.sign == "-" then -shift else shift) - places
  }

  /** The mathematical value is an integer. */
  predicate Integral(n: Number) {
    Scale(n) >= 0 || Mantissa(n) % Pow10(-Scale(n)) == 0
  }

  /** Equal mathematical values, compared at the smaller scale. */
  predicate SameValue(a: Number, b: Number) {
    if Scale(a) <= Scale(b) then Mantissa(a) == Mantissa(b) * Pow10(Scale(b) - Scale(a))
    else Mantissa(b) == Mantissa(a) * Pow10(Scale(a) - Scale(b))
  }

  const INT64_LIMIT := 0x8000_0000_0000_0000

  /** The literal is a plain decimal that fits 64 signed bits. */
  predicate FitsInt64(n: Number) {
    && n.fraction.None? && n.exponent.None?
    && -INT64_LIMIT <= Mantissa(n) < INT64_LIMIT
  }

  // ---------- Equality as the standard defines it ----------

  ghost predicate Equal(a: Json, b: Json) {
    match a
    case Num(n) => b.Num? && SameValue(n, b.number)
    case Arr(xs) => b.Arr? && |xs| == |b.items| && forall i | 0 <= i < |xs| :: Equal(xs[i], b.items[i])
    case Obj(m) => b.Obj? && m.Keys == b.entries.Keys && forall k | k in m :: Equal(m[k], b.entries[k])
    case _ => a == b
  }

  lemma {:induction false} EqualReflexive(a: Json)
    ensures Equal(a, a)
  {
    match a
    case Arr(xs) =>
      forall i | 0 <= i < |xs| ensures Equal(xs[i], xs[i]) { EqualReflexive(xs[i]); }
    case Obj(m) =>
      forall k | k in m ensures Equal(m[k], m[k]) { EqualReflexive(m[k]); }
    case Num(n) =>
      assert SameValue(n, n);
    case _ =>
  }

  // ---------- Values whose numbers are written in one way only ----------

  predicate PlainNumber(n: Number) {
    n.digits != "" && FitsInt64(n) && CanonicalDigits(n.digits) && (n.negative ==> n.digits != "0")
  }

  predicate CanonicalDigits(digits: string) {
    && (forall i | 0 <= i < |digits| :: '0' <= digits[i] <= '9')
    && (|digits| > 1 ==> digits[0] != '0')
  }

  ghost predicate Plain(a: Json) {
    match a
    case Num(n) => PlainNumber(n)
    case Arr(xs) => forall i | 0 <= i < |xs| :: Plain(xs[i])
    case Obj(m) => forall k | k in m :: Plain(m[k])
    case _ => true
  }

  /** Canonical digit strings are determined by their value. */
  lemma {:induction false} DecimalInjective(a: string, b: string)
    requires a != "" && b != "" && CanonicalDigits(a) && CanonicalDigits(b)
    requires Decimal(a) == Decimal(b)
    ensures a == b
  {
    LastDigit(a, b);
    if |a| > 1 { DecimalPositive(a[..|a| - 1]); }
    if |b| > 1 { DecimalPositive(b[..|b| - 1]); }
    if |a| > 1 && |b| > 1 { DecimalInjective(a[..|a| - 1], b[..|b| - 1]); }
    assert a == a[..|a| - 1] + [a[|a| - 1]] && b == b[..|b| - 1] + [b[|b| - 1]];
  }

  lemma LastDigit(a: string, b: string)
    requires a != "" && b != "" && '0' <= a[|a| - 1] <= '9' && '0' <= b[|b| - 1] <= '9'
    requires Decimal(a) == Decimal(b)
    ensures a[|a| - 1] == b[|b| - 1] && Decimal(a[..|a| - 1]) == Decimal(b[..|b| - 1])
  {
  }

  lemma {:induction false} DecimalPositive(a: string)
    requires a != "" && a[0] != '0' && forall i | 0 <= i < |a| :: '0' <= a[i] <= '9'
    ensures Decimal(a) > 0
  {
    if |a| > 1 { DecimalPositive(a[..|a| - 1]); }
  }

  lemma PlainNumberInjective(a: Number, b: Number)
    requires PlainNumber(a) && PlainNumber(b) && SameValue(a, b)
    ensures a == b
  {
    assert a.digits + "" == a.digits && b.digits + "" == b.digits;
    assert Pow10(0) == 1;
    assert Mantissa(a) == Mantissa(b);
    if a.negative && a.digits[0] != '0' { DecimalPositive(a.digits); }
    if b.negative && b.digits[0] != '0' { DecimalPositive(b.digits); }
    assert a.negative == b.negative;
    DecimalInjective(a.digits, b.digits);
  }

  /** On plain values the standard's equality is equality of the text. */
  lemma {:induction false} PlainEqual(a: Json, b: Json)
    requires Plain(a) && Plain(b) && Equal(a, b)
    ensures a == b
  {
    match a
    case Num(n) => PlainNumberInjective(n, b.number);
    case Arr(xs) =>
      forall i | 0 <= i < |xs| ensures xs[i] == b.items[i] { PlainEqual(xs[i], b.items[i]); }
    case Obj(m) =>
      forall k | k in m ensures m[k] == b.entries[k] { PlainEqual(m[k], b.entries[k]); }
      assert m == b.entries;
    case _ =>
  }
}
