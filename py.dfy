/** The few pieces of Python 2 semantics the instrument code relies on:
    `None`, exceptions, string slicing, `int()` and `str()` on integers,
    and IEEE double comparison. */
module Py {

  datatype Option<+T> = None | Some(value: T)

  /** The exceptions the modelled code can raise. */
  datatype Exception = ValueError | KeyError | TypeError | AttributeError | IndexError

  /** The value a Python call returns, or the exception it raises. */
  datatype Returned<+T> = Returns(v: T) | Raises(e: Exception)

  /** Python's `s[i:j]` for non-negative bounds: both bounds are clamped
      to the length and an empty range gives the empty string. */
  function Slice<T>(s: seq<T>, i: nat, j: nat): (r: seq<T>)
    ensures j <= |s| && i <= j ==> r == s[i..j]
    ensures |s| <= i || j <= i ==> r == []
    ensures i < j && i < |s| < j ==> r == s[i..]
  {
    var hi := if j < |s| then j else |s|;
    if i < hi then s[i..hi] else []
  }

  /** Position of the first `c` in `s`, or `|s|` when there is none. */
  function IndexOf<T(==)>(s: seq<T>, c: T): (k: nat)
    ensures k <= |s|
    ensures k < |s| ==> s[k] == c
    ensures forall j :: 0 <= j < k ==> s[j] != c
  {
    if s == [] then 0
    else if s[0] == c then 0
    else 1 + IndexOf(s[1..], c)
  }

  lemma {:induction false} IndexOfAppend<T>(a: seq<T>, b: seq<T>, c: T)
    requires c !in a
    ensures IndexOf(a + b, c) == |a| + IndexOf(b, c)
  {
    if a == [] {
      assert a + b == b;
    } else {
      assert (a + b)[0] == a[0];
      assert (a + b)[1..] == a[1..] + b;
      IndexOfAppend(a[1..], b, c);
    }
  }

  /** The characters C's `isspace` accepts, which Python 2's `int()`
      strips from both ends of its argument. */
  predicate IsSpace(c: char) {
    c == ' ' || c == '\t' || c == '\n' || c == '\r' || c == '\U{0B}' || c == '\U{0C}'
  }

  predicate IsDigit(c: char) {
    '0' <= c <= '9'
  }

  function StripLeft(s: string): (r: string)
  {
    if s != [] && IsSpace(s[0]) then StripLeft(s[1..]) else s
  }

  function StripRight(s: string): (r: string)
  {
    if s != [] && IsSpace(s[|s| - 1]) then StripRight(s[..|s| - 1]) else s
  }

  /** Python's `s.strip()` for the whitespace of `IsSpace`. */
  function Strip(s: string): string {
    StripRight(StripLeft(s))
  }

  predicate AllDigits(s: string) {
    forall i :: 0 <= i < |s| ==> IsDigit(s[i])
  }

  /** The value of a string of decimal digits, most significant first. */
  function DigitsValue(s: string): nat
    requires AllDigits(s)
  {
    if s == [] then 0 else 10 * DigitsValue(s[..|s| - 1]) + (s[|s| - 1] as int - '0' as int)
  }

  /** Python 2's `int(s)` on a string: surrounding whitespace, an optional
      sign, then one or more decimal digits; anything else is `ValueError`,
      modelled as `None`. */
  function ParseInt(s: string): (r: Option<int>)
  {
    ParseSigned(Strip(s))
  }

  /** `int()` on already stripped text. */
  function ParseSigned(t: string): (r: Option<int>)
  {
    var negative := t != [] && t[0] == '-';
    var digits := if t != [] && (t[0] == '-' || t[0] == '+') then t[1..] else t;
    if digits != [] && AllDigits(digits) then
      var v: int := DigitsValue(digits);
      Some(if negative then -v else v)
    else None
  }

  function DigitChar(d: nat): char
    requires d < 10
  {
    ('0' as int + d) as char
  }

  /** Python's `str(n)` for a non-negative integer. */
  function NatDecimal(n: nat): (r: string)
    ensures r != [] && AllDigits(r)
  {
    if n < 10 then [DigitChar(n)] else NatDecimal(n / 10) + [DigitChar(n % 10)]
  }

  /** Python's `str(n)` for an integer. */
  function Decimal(n: int): string {
    if n < 0 then "-" + NatDecimal(-n) else NatDecimal(n)
  }

  lemma {:induction false} NatDecimalValue(n: nat)
    ensures DigitsValue(NatDecimal(n)) == n
  {
    if n >= 10 {
      var s := NatDecimal(n);
      NatDecimalValue(n / 10);
      assert s[..|s| - 1] == NatDecimal(n / 10);
    }
  }

  lemma NoSpaceStrip(s: string)
    requires s == [] || (!IsSpace(s[0]) && !IsSpace(s[|s| - 1]))
    ensures Strip(s) == s
  {
    assert StripLeft(s) == s;
  }

  /** A plain digit string reads back as its value. */
  lemma UnsignedDigits(d: string)
    requires d != [] && AllDigits(d)
    ensures ParseInt(d) == Some(DigitsValue(d) as int)
  {
    assert IsDigit(d[0]) && IsDigit(d[|d| - 1]);
    NoSpaceStrip(d);
  }

  /** A digit string after a minus sign reads back as its negated value. */
  lemma NegativeDigits(d: string)
    requires d != [] && AllDigits(d)
    ensures ParseInt("-" + d) == Some(-(DigitsValue(d) as int))
  {
    var s := "-" + d;
    assert s[0] == '-' && s[1..] == d;
    assert ParseSigned(s) == Some(-(DigitsValue(d) as int));
    assert IsDigit(d[|d| - 1]) && s[|s| - 1] == d[|d| - 1];
    NoSpaceStrip(s);
  }

  /** `int(str(n)) == n`: the decimal text of an integer reads back as it. */
  lemma ParseDecimal(n: int)
    ensures ParseInt(Decimal(n)) == Some(n)
  {
    var m := if n < 0 then -n else n;
    NatDecimalValue(m);
    if n < 0 {
      NegativeDigits(NatDecimal(m));
    } else {
      UnsignedDigits(NatDecimal(m));
    }
  }

  /** A Python float: an IEEE double, its value taken exactly. */
  datatype Double = Finite(r: real) | Infinite(negative: bool) | NaN

  /** IEEE `a > b`: false whenever either side is NaN. */
  predicate Greater(a: Double, b: Double) {
    match (a, b)
    case (NaN, _) => false
    case (_, NaN) => false
    case (Finite(x), Finite(y)) => x > y
    case (Infinite(na), Finite(_)) => !na
    case (Finite(_), Infinite(nb)) => nb
    case (Infinite(na), Infinite(nb)) => !na && nb
  }

  lemma GreaterIsStrictOrder(a: Double, b: Double, c: Double)
    ensures !Greater(a, a)
    ensures Greater(a, b) ==> !Greater(b, a)
    ensures Greater(a, b) && Greater(b, c) ==> Greater(a, c)
    ensures Greater(a, b) ==> a != NaN && b != NaN
  {
  }
}
