/** The few pieces of JavaScript's number and string semantics that the chat
    handler relies on, written out over unbounded integers. */
module JsSemantics {
  import opened Wrappers

  /** JavaScript truthiness of a string that may be `undefined`: the empty
      string and `undefined` are falsy, every other string is truthy. */
  predicate Truthy(s: Option<string>)
  {
    s.Some? && s.value != ""
  }

  /** `a || b` where `a` is a string or `undefined` and `b` a string. */
  function Or(a: Option<string>, b: string): (r: string)
    ensures Truthy(a) ==> r == a.value
    ensures !Truthy(a) ==> r == b
  {
    if a.Some? && a.value != "" then a.value else b
  }

  /** `Math.floor(a / b)` on integers with a positive divisor: the largest `q`
      with `q * b <= a`. (Dafny's `/` on `int` agrees with it when `b > 0`.) */
  function FloorDiv(a: int, b: int): (q: int)
    requires b > 0
    ensures q * b <= a < q * b + b
  {
    a / b
  }

  /** Only one integer satisfies the floor characterisation. */
  lemma FloorDivUnique(a: int, b: int, q: int)
    requires b > 0
    requires q * b <= a < q * b + b
    ensures FloorDiv(a, b) == q
  {
    var p := FloorDiv(a, b);
    assert (p - q) * b < b && (q - p) * b < b;
    SmallMultipleIsZero(p - q, b);
  }

  /** A multiple of a positive `b` that lies strictly between `-b` and `b` is zero. */
  lemma SmallMultipleIsZero(k: int, b: int)
    requires b > 0
    requires k * b < b && -k * b < b
    ensures k == 0
  {
    if k > 0 {
      MulAtLeast(k, b);
    } else if k < 0 {
      MulAtLeast(-k, b);
    }
  }

  lemma MulAtLeast(k: int, b: int)
    requires k >= 1 && b > 0
    ensures k * b >= b
  {
    assert k * b == (k - 1) * b + b;
  }

  /** Every multiple of `b` leaves remainder zero. */
  lemma MultipleMod(k: int, b: int)
    requires b != 0
    ensures (k * b) % b == 0
  {
    var j := k - (k * b) / b;
    assert (k * b) % b == j * b;
    if b > 0 {
      SmallMultipleIsZero(j, b);
    } else {
      assert j * b == (-j) * (-b);
      SmallMultipleIsZero(-j, -b);
    }
  }

  /** JavaScript's `a % b` on integers: the remainder of the division
      truncated toward zero, which takes the sign of the dividend. */
  function TruncRem(a: int, b: int): (r: int)
    requires b != 0
    ensures (a - r) % b == 0
    ensures a >= 0 ==> 0 <= r < Abs(b)
    ensures a <= 0 ==> -Abs(b) < r <= 0
  {
    if a >= 0 then
      assert a - a % b == (a / b) * b;
      MultipleMod(a / b, b);
      a % b
    else
      assert a + (-a) % b == -((-a) / b) * b;
      MultipleMod(-((-a) / b), b);
      -((-a) % b)
  }

  function Abs(x: int): (r: int)
    ensures r >= 0 && (r == x || r == -x)
  {
    if x < 0 then -x else x
  }

  /** The decimal digit character for `d`. */
  function DigitChar(d: int): (c: char)
    requires 0 <= d < 10
    ensures '0' <= c <= '9'
  {
    ('0' as int + d) as char
  }

  predicate IsDigit(c: char)
  {
    '0' <= c <= '9'
  }

  /** The decimal numeral of a natural number, most significant digit first,
      without leading zeros. */
  function DecimalDigits(n: nat): (s: string)
    ensures |s| > 0
    ensures forall i :: 0 <= i < |s| ==> IsDigit(s[i])
    ensures n < 10 ==> s == [DigitChar(n)]
    ensures |s| > 1 ==> s[0] != '0'
  {
    if n < 10 then [DigitChar(n)] else DecimalDigits(n / 10) + [DigitChar(n % 10)]
  }

  /** `${n}` for an integer-valued JavaScript number of magnitude below 10^21
      (beyond that JavaScript switches to exponent notation such as "1e+21"):
      an optional minus sign followed by the decimal digits of its magnitude.
      The handler only formats the suffixes -2 to 4. */
  function NumberToString(n: int): (s: string)
    ensures |s| > 0
    ensures n >= 0 <==> IsDigit(s[0])
    ensures n < 0 <==> s[0] == '-'
  {
    if n < 0 then "-" + DecimalDigits(-n) else DecimalDigits(n)
  }

  /** The number a string of decimal digits denotes. */
  function DigitsValue(s: string): (v: int)
    requires forall i :: 0 <= i < |s| ==> IsDigit(s[i])
    ensures v >= 0
  {
    if s == [] then 0
    else
      assert IsDigit(s[|s| - 1]);
      DigitsValue(s[..|s| - 1]) * 10 + (s[|s| - 1] as int - '0' as int)
  }

  /** Reads back a numeral produced by `NumberToString`; `None` for anything
      that is not an optional minus sign followed by digits. */
  function ParseInteger(s: string): Option<int>
  {
    if |s| > 0 && s[0] == '-' then
      if |s| > 1 && forall i :: 1 <= i < |s| ==> IsDigit(s[i]) then Some(-DigitsValue(s[1..])) else None
    else if |s| > 0 && forall i :: 0 <= i < |s| ==> IsDigit(s[i]) then Some(DigitsValue(s))
    else None
  }

  lemma {:induction false} DecimalDigitsRoundTrip(n: nat)
    ensures DigitsValue(DecimalDigits(n)) == n
  {
    var s := DecimalDigits(n);
    if n >= 10 {
      DecimalDigitsRoundTrip(n / 10);
      assert s[..|s| - 1] == DecimalDigits(n / 10);
    }
  }

  /** Reading back the numeral `NumberToString` gives for any integer yields that integer. */
  lemma NumberToStringRoundTrip(n: int)
    ensures ParseInteger(NumberToString(n)) == Some(n)
  {
    if n < 0 {
      var d := DecimalDigits(-n);
      assert NumberToString(n)[1..] == d;
      DecimalDigitsRoundTrip(-n);
    } else {
      DecimalDigitsRoundTrip(n);
    }
  }

  /** Different integers have different string forms. */
  lemma NumberToStringInjective(m: int, n: int)
    requires m != n
    ensures NumberToString(m) != NumberToString(n)
  {
    NumberToStringRoundTrip(m);
    NumberToStringRoundTrip(n);
  }

  /** The message of the `TypeError` the V8 engine throws when a property is
      read from `undefined` (or `null`), e.g. `x.candidates[0]` on a missing array. */
  function PropertyReadError(base: string, property: string): (m: string)
    ensures m != ""
  {
    "Cannot read properties of " + base + " (reading '" + property + "')"
  }
}
