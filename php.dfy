/**
 * The few PHP language rules the service's code leans on: the values that
 * reach its setters, truthiness (`if (!$x)`), the `(int)` cast used by
 * `setId` and `setNumberOfCopies`, and `strcmp`.
 */
module Php {
  import opened Wrappers

  /** PHP_INT_MAX and PHP_INT_MIN on a 64-bit build. */
  const INT_MAX: int := 0x7FFF_FFFF_FFFF_FFFF
  const INT_MIN: int := -0x8000_0000_0000_0000

  /** A PHP `int`: a signed 64-bit integer. */
  type PhpInt = i: int | INT_MIN <= i <= INT_MAX

  /** The scalar values a decoded JSON body can hand to a setter (floats are not modelled). */
  datatype Value = Null | Bool(b: bool) | Int(n: PhpInt) | Str(s: string)

  /** PHP's conversion to `bool`: `null`, `false`, `0`, `""` and `"0"` are false. */
  predicate Truthy(v: Value)
  {
    match v
    case Null => false
    case Bool(b) => b
    case Int(n) => n != 0
    case Str(s) => s != "" && s != "0"
  }

  /** Truthiness of a nullable string, as `if ($this->getPickupLocation())` reads it. */
  predicate TruthyString(o: Option<string>)
  {
    o.Some? && Truthy(Str(o.value))
  }

  predicate IsDigit(c: char)
  {
    '0' <= c <= '9'
  }

  /** The characters PHP skips in front of a numeric string: space, \t, \n, \r, \v, \f. */
  predicate IsSpace(c: char)
  {
    c == ' ' || c == '\t' || c == '\n' || c == '\r' || c == 11 as char || c == 12 as char
  }

  predicate AllDigits(s: string)
  {
    forall i :: 0 <= i < |s| ==> IsDigit(s[i])
  }

  function TrimLeadingSpace(s: string): (t: string)
    ensures |t| <= |s| && t == s[|s| - |t|..]
    ensures t == [] || !IsSpace(t[0])
  {
    if s != [] && IsSpace(s[0]) then TrimLeadingSpace(s[1..]) else s
  }

  /** The longest run of decimal digits at the front of `s`. */
  function DigitPrefix(s: string): (d: string)
    ensures d <= s && AllDigits(d)
    ensures |d| == |s| || !IsDigit(s[|d|])
  {
    if s != [] && IsDigit(s[0]) then [s[0]] + DigitPrefix(s[1..]) else []
  }

  function DigitValue(c: char): nat
    requires IsDigit(c)
  {
    c as int - '0' as int
  }

  function DigitChar(d: nat): (c: char)
    requires d < 10
    ensures IsDigit(c) && DigitValue(c) == d
  {
    ('0' as int + d) as char
  }

  /** The number a run of decimal digits denotes. */
  function DigitsValue(d: string): nat
    requires AllDigits(d)
  {
    if d == [] then 0 else DigitsValue(d[..|d| - 1]) * 10 + DigitValue(d[|d| - 1])
  }

  /**
   * The smallest magnitude a correctly rounded decimal-to-double conversion
   * turns into infinity: the largest double plus half of its last unit,
   * 2^1024 - 2^970 (a tie rounds to the even neighbour, which is infinity).
   */
  const DOUBLE_OVERFLOW: int := 179769313486231580793728971405303415079934132710037826936173778980444968292764750946649017977587207096330286416692887910946555547851940402630657488671505820681908902000708383676273854845817711531764475730270069855571366959622842914819860834936475292719074168444365510704342711559699508093042880177904174497792

  /**
   * The PHP int a decimal number becomes under `(int)` in PHP 7.1 and later: a
   * number that fits is kept; a longer one is read as a double and capped at
   * the 64-bit bounds, unless it is beyond the double range, where it becomes
   * infinity and casts to 0.
   */
  function NumberToLong(n: int): (r: PhpInt)
    ensures INT_MIN <= n <= INT_MAX ==> r == n
    ensures INT_MAX < n < DOUBLE_OVERFLOW ==> r == INT_MAX
    ensures -DOUBLE_OVERFLOW < n < INT_MIN ==> r == INT_MIN
    ensures n >= DOUBLE_OVERFLOW || n <= -DOUBLE_OVERFLOW ==> r == 0
  {
    if n >= DOUBLE_OVERFLOW || n <= -DOUBLE_OVERFLOW then 0
    else if n < INT_MIN then INT_MIN
    else if n > INT_MAX then INT_MAX
    else n
  }

  /**
   * `(int) $s` for a string: leading white space is skipped, an optional sign
   * is read, then the leading decimal digits; whatever follows is ignored, and a
   * string with no leading digits gives 0. A decimal point (leading or after
   * the digits) or an exponent, which PHP 7.1 and later read as part of a
   * double, is not modelled.
   */
  function StringToInt(s: string): PhpInt
  {
    SignedPrefixValue(TrimLeadingSpace(s))
  }

  /** The value of an optional sign and the decimal digits after it, at the front of `t`. */
  function SignedPrefixValue(t: string): PhpInt
  {
    if t != [] && t[0] == '-' then NumberToLong(-(DigitsValue(DigitPrefix(t[1..])) as int))
    else if t != [] && t[0] == '+' then NumberToLong(DigitsValue(DigitPrefix(t[1..])))
    else NumberToLong(DigitsValue(DigitPrefix(t)))
  }

  /** PHP's `(int)` cast. */
  function IntCast(v: Value): (r: PhpInt)
    ensures v.Int? ==> r == v.n
    ensures v.Bool? ==> r == if v.b then 1 else 0
    ensures !Truthy(v) ==> r == 0
  {
    match v
    case Null => 0
    case Bool(b) => if b then 1 else 0
    case Int(n) => n
    case Str(s) => StringToInt(s)
  }

  /** Decimal rendering of a natural number, most significant digit first. */
  function DecimalString(n: nat): (s: string)
    ensures s != [] && AllDigits(s)
  {
    if n < 10 then [DigitChar(n)] else DecimalString(n / 10) + [DigitChar(n % 10)]
  }

  /** PHP's `(string)` cast of an `int`. */
  function IntToString(i: PhpInt): string
  {
    if i < 0 then "-" + DecimalString(-(i as int)) else DecimalString(i)
  }

  lemma {:induction false} DigitPrefixOfDigits(d: string, rest: string)
    requires AllDigits(d)
    requires rest == [] || !IsDigit(rest[0])
    ensures DigitPrefix(d + rest) == d
  {
    if d != [] {
      assert (d + rest)[1..] == d[1..] + rest;
      DigitPrefixOfDigits(d[1..], rest);
    } else {
      assert d + rest == rest;
    }
  }

  lemma {:induction false} DigitsValueOfDecimal(n: nat)
    ensures DigitsValue(DecimalString(n)) == n
  {
    if n >= 10 {
      var s := DecimalString(n);
      assert s[..|s| - 1] == DecimalString(n / 10);
      DigitsValueOfDecimal(n / 10);
    }
  }

  lemma NoLeadingSpace(s: string)
    requires s != [] && !IsSpace(s[0])
    ensures StringToInt(s) == SignedPrefixValue(s)
  {
  }

  lemma DigitsThenRest(d: string, rest: string)
    requires d != [] && AllDigits(d)
    requires rest == [] || !IsDigit(rest[0])
    ensures StringToInt(d + rest) == NumberToLong(DigitsValue(d))
  {
    var s := d + rest;
    assert s[0] == d[0] && IsDigit(s[0]);
    NoLeadingSpace(s);
    DigitPrefixOfDigits(d, rest);
  }

  lemma NegativeValue(s: string, d: string)
    requires s != [] && s[0] == '-' && DigitPrefix(s[1..]) == d
    ensures StringToInt(s) == NumberToLong(-(DigitsValue(d) as int))
  {
    NoLeadingSpace(s);
  }

  lemma SignedDigitsThenRest(d: string, rest: string)
    requires AllDigits(d)
    requires rest == [] || !IsDigit(rest[0])
    ensures StringToInt("-" + (d + rest)) == NumberToLong(-(DigitsValue(d) as int))
  {
    var s := "-" + (d + rest);
    assert s[0] == '-' && s[1..] == d + rest;
    DigitPrefixOfDigits(d, rest);
    NegativeValue(s, d);
  }

  /**
   * Casting a numeric string with trailing text reads only the number:
   * `(int) "12abc"` is 12, and `(int)` undoes `(string)` on every PHP int.
   */
  lemma IntCastOfRendered(i: PhpInt, rest: string)
    requires rest == [] || (!IsDigit(rest[0]) && rest[0] != '.' && rest[0] != 'e' && rest[0] != 'E')
    ensures IntCast(Str(IntToString(i) + rest)) == i
  {
    var m: nat := if i < 0 then -(i as int) else i;
    var d := DecimalString(m);
    DigitsValueOfDecimal(m);
    if i < 0 {
      assert IntToString(i) + rest == "-" + (d + rest);
      SignedDigitsThenRest(d, rest);
    } else {
      assert IntToString(i) + rest == d + rest;
      DigitsThenRest(d, rest);
    }
  }

  /**
   * A digit string too long for an int casts to the nearest 64-bit bound, and
   * one beyond the double range casts to 0, whatever text follows the digits.
   */
  lemma LongDigitsCast(d: string, rest: string)
    requires d != [] && AllDigits(d) && DigitsValue(d) > INT_MAX
    requires rest == [] || (!IsDigit(rest[0]) && rest[0] != '.' && rest[0] != 'e' && rest[0] != 'E')
    ensures DigitsValue(d) < DOUBLE_OVERFLOW ==> IntCast(Str(d + rest)) == INT_MAX
    ensures DigitsValue(d) >= DOUBLE_OVERFLOW ==> IntCast(Str(d + rest)) == 0
  {
    DigitsThenRest(d, rest);
  }

  /**
   * `strcmp`: lexicographic comparison by character, giving -1, 0 or 1
   * (PHP 8.2 and later return exactly these; older versions return some
   * number of the same sign).
   */
  function Strcmp(a: string, b: string): (r: int)
    ensures -1 <= r <= 1
    ensures r == 0 <==> a == b
  {
    if a == [] && b == [] then 0
    else if a == [] then -1
    else if b == [] then 1
    else if a[0] < b[0] then -1
    else if a[0] > b[0] then 1
    else
      var r := Strcmp(a[1..], b[1..]);
      assert a == [a[0]] + a[1..] && b == [b[0]] + b[1..];
      r
  }
}
