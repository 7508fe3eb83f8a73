/** Small shared vocabulary: an Option type, clamps, and the .NET numeric
    conversions the services rely on ((int) casts, Math.Round, Convert.ToInt32),
    plus invariant-culture upper-casing restricted to ASCII letters. */
module Common {

  datatype Option<T> = None | Some(value: T)

  /** Math.PI, to the digits the double prints. */
  const Pi: real := 3.141592653589793

  function MaxInt(a: int, b: int): int { if a >= b then a else b }

  function MinInt(a: int, b: int): int { if a <= b then a else b }

  function MaxReal(a: real, b: real): real { if a >= b then a else b }

  function MinReal(a: real, b: real): real { if a <= b then a else b }

  function AbsInt(a: int): nat { if a < 0 then -a else a }

  function AbsReal(a: real): real { if a < 0.0 then -a else a }

  /** Math.Max(lo, Math.Min(hi, v)) on integers. */
  function ClampInt(v: int, lo: int, hi: int): (r: int)
    requires lo <= hi
    ensures lo <= r <= hi
    ensures lo <= v <= hi ==> r == v
    ensures v <= lo ==> r == lo
    ensures hi <= v ==> r == hi
  {
    MaxInt(lo, MinInt(hi, v))
  }

  /** Math.Min(hi, Math.Max(lo, v)) (and Math.Clamp) on doubles, taken as reals. */
  function ClampReal(v: real, lo: real, hi: real): (r: real)
    requires lo <= hi
    ensures lo <= r <= hi
    ensures lo <= v <= hi ==> r == v
    ensures v <= lo ==> r == lo
    ensures hi <= v ==> r == hi
  {
    MinReal(hi, MaxReal(lo, v))
  }

  /** v * k for a scale factor k in [0, 1]: between 0 and v. */
  function Scaled(v: real, k: real): (r: real)
    requires 0.0 <= v && 0.0 <= k <= 1.0
    ensures 0.0 <= r <= v
  {
    v * k
  }

  /** A larger scale factor never gives a smaller product. */
  lemma ScaledMonotone(v: real, k1: real, k2: real)
    requires 0.0 <= v && 0.0 <= k1 <= k2 <= 1.0
    ensures Scaled(v, k1) <= Scaled(v, k2)
  {
  }

  /** The C# cast (int)x of a double: truncation toward zero. */
  function Trunc(x: real): (r: int)
    ensures 0.0 <= x ==> r as real <= x < r as real + 1.0
    ensures x < 0.0 ==> r as real - 1.0 < x <= r as real
    ensures AbsInt(r) as real <= AbsReal(x)
  {
    if x >= 0.0 then x.Floor else -((-x).Floor)
  }

  /** Math.Round(x) and Convert.ToInt32(x): round to the nearest integer,
      ties to the even neighbour. */
  function RoundHalfEven(x: real): (r: int)
    ensures AbsReal(r as real - x) <= 0.5
    ensures AbsReal(r as real - x) == 0.5 ==> r % 2 == 0
  {
    var f := x.Floor;
    var frac := x - f as real;
    if frac < 0.5 then f
    else if frac > 0.5 then f + 1
    else if f % 2 == 0 then f
    else f + 1
  }

  /** Rounding to the nearest integer never leaves an interval whose ends are integers. */
  lemma RoundHalfEvenWithin(x: real, lo: int, hi: int)
    requires lo as real <= x <= hi as real
    ensures lo <= RoundHalfEven(x) <= hi
  {
  }

  /** Rounding is monotone: a larger argument never rounds to a smaller integer. */
  lemma RoundHalfEvenMonotone(x: real, y: real)
    requires x <= y
    ensures RoundHalfEven(x) <= RoundHalfEven(y)
  {
  }

  /** Math.Round(x, 1): to one decimal, ties to even. */
  function Round1(x: real): (r: real)
    ensures AbsReal(r - x) <= 0.05
    ensures 0.0 <= x ==> 0.0 <= r
  {
    RoundHalfEven(x * 10.0) as real / 10.0
  }

  /** ToUpperInvariant on the ASCII letters; every other character is kept. */
  function UpperChar(c: char): (u: char)
    ensures 'a' <= c <= 'z' ==> 'A' <= u <= 'Z'
    ensures !('a' <= c <= 'z') ==> u == c
  {
    if 'a' <= c <= 'z' then (c as int - 'a' as int + 'A' as int) as char else c
  }

  function Upper(s: string): (u: string)
    ensures |u| == |s|
    ensures forall i :: 0 <= i < |s| ==> u[i] == UpperChar(s[i])
  {
    if s == [] then [] else [UpperChar(s[0])] + Upper(s[1..])
  }

  /** StringComparison.OrdinalIgnoreCase, restricted to ASCII case folding. */
  predicate EqualsIgnoreCase(a: string, b: string)
  {
    Upper(a) == Upper(b)
  }

  /** `needle` occurs in `hay` as a contiguous substring (String.Contains). */
  predicate Contains(hay: string, needle: string)
  {
    needle <= hay || (hay != [] && Contains(hay[1..], needle))
  }

  /** A non-empty needle whose first character does not occur in `hay` is not contained in it. */
  lemma {:induction false} NotContainsFirstChar(hay: string, needle: string)
    requires needle != [] && needle[0] !in hay
    ensures !Contains(hay, needle)
  {
    if hay != [] {
      assert needle[0] != hay[0];
      NotContainsFirstChar(hay[1..], needle);
    }
  }
}
