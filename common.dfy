/** Shared building blocks: optional values, results of operations that can
    raise, three-dimensional points and the ASCII string tests the Python code
    uses (`str.lower`, `str.startswith`, `str.endswith`, `in`). */
module Common {

  datatype Option<T> = None | Some(value: T)

  /** The outcome of a Python call that either returns a value or raises. */
  datatype Result<T, E> = Success(value: T) | Failure(error: E)

  /** The outcome of a Python call that returns nothing or raises. */
  datatype Outcome<E> = Pass | Fail(error: E)

  /** Proof helper, modelling nothing: concatenation regroups freely. */
  lemma ConcatAssoc<T>(a: seq<T>, b: seq<T>, c: seq<T>)
    ensures (a + b) + c == a + (b + c)
  {
  }

  /** `opentrons.types.Point`, a named tuple of three coordinates. */
  datatype Point = Point(x: real, y: real, z: real)
  {
    function Plus(o: Point): (r: Point)
    {
      Point(x + o.x, y + o.y, z + o.z)
    }

    function Minus(o: Point): (r: Point)
    {
      Point(x - o.x, y - o.y, z - o.z)
    }
  }

  const Origin := Point(0.0, 0.0, 0.0)

  /** `Point(y=v)`: a point with only its y coordinate set. */
  function YOnly(v: real): Point { Point(0.0, v, 0.0) }

  /** `Point(z=v)`: a point with only its z coordinate set. */
  function ZOnly(v: real): Point { Point(0.0, 0.0, v) }

  /** Lower-cases one ASCII letter and leaves every other character alone. */
  function LowerChar(c: char): (r: char)
  {
    if 'A' <= c <= 'Z' then (c as int - 'A' as int + 'a' as int) as char else c
  }

  /** `s.lower()` over the ASCII letters. */
  function Lower(s: string): (r: string)
    ensures |r| == |s|
    ensures forall i :: 0 <= i < |s| ==> r[i] == LowerChar(s[i])
  {
    seq(|s|, i requires 0 <= i < |s| => LowerChar(s[i]))
  }

  predicate StartsWith(s: string, prefix: string)
  {
    |prefix| <= |s| && s[..|prefix|] == prefix
  }

  predicate EndsWith(s: string, suffix: string)
  {
    |suffix| <= |s| && s[|s| - |suffix|..] == suffix
  }

  /** `needle in s` for strings: `needle` occurs as a contiguous substring. */
  predicate Contains(s: string, needle: string)
  {
    exists i :: 0 <= i <= |s| - |needle| && OccursAt(s, needle, i)
  }

  predicate OccursAt(s: string, needle: string, i: int)
  {
    0 <= i <= |s| - |needle| && s[i..i + |needle|] == needle
  }

  function AbsReal(x: real): (r: real)
    ensures r >= 0.0
    ensures r == x || r == -x
  {
    if x < 0.0 then -x else x
  }

  function MaxReal(a: real, b: real): (r: real)
    ensures r >= a && r >= b
    ensures r == a || r == b
  {
    if a >= b then a else b
  }

  /** Python's `int(x)` on a float: truncation toward zero. */
  function Trunc(x: real): (r: int)
    ensures x >= 0.0 ==> r as real <= x < r as real + 1.0
    ensures x < 0.0 ==> r as real - 1.0 < x <= r as real
  {
    if x >= 0.0 then x.Floor else -((-x).Floor)
  }

  /** Decimal rendering of a natural number, as Python's `str(n)`. */
  function NatToString(n: nat): (r: string)
    ensures |r| >= 1
    ensures forall i :: 0 <= i < |r| ==> '0' <= r[i] <= '9'
    ensures n < 10 <==> |r| == 1
    ensures r[0] == DigitChar(NatLeadingDigit(n))
  {
    if n < 10 then [DigitChar(n)] else NatToString(n / 10) + [DigitChar(n % 10)]
  }

  /** The most significant decimal digit of `n`. */
  function NatLeadingDigit(n: nat): (d: nat)
    ensures d < 10
    ensures n >= 10 ==> d >= 1
    ensures n < 10 ==> d == n
  {
    if n < 10 then n else NatLeadingDigit(n / 10)
  }

  function DigitChar(d: nat): (c: char)
    requires d < 10
    ensures '0' <= c <= '9'
    ensures c as int - '0' as int == d
  {
    ('0' as int + d) as char
  }
}
