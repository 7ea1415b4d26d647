/** The integer arithmetic and String operations of the Arduino core that the
    bender's firmware relies on: C++ float-to-integer conversion, C++ integer
    division, `map()` and `String::indexOf`/`String::substring`. */
module Arduino {

  function Abs(x: int): (r: nat)
  {
    if x < 0 then -x else x
  }

  /** C++ conversion of a floating-point value to an integral type: the
      fractional part is discarded, rounding toward zero. */
  function Trunc(x: real): (t: int)
    ensures 0.0 <= x ==> 0 <= t && t as real <= x < t as real + 1.0
    ensures x < 0.0 ==> t <= 0 && t as real - 1.0 < x <= t as real
  {
    if x >= 0.0 then x.Floor else -((-x).Floor)
  }

  lemma {:induction false} TruncMonotone(x: real, y: real)
    requires x <= y
    ensures Trunc(x) <= Trunc(y)
  {
    if 0.0 <= x {
      assert x.Floor <= y.Floor;
    } else if y < 0.0 {
      assert (-y).Floor <= (-x).Floor;
    }
  }

  /** C++ integer division `a / b` by a positive divisor: the quotient is
      truncated toward zero, so for a non-negative `a` it is the largest `q`
      with `q * b <= a`, and for a negative `a` the smallest `q` with
      `a <= q * b`. */
  function TruncDiv(a: int, b: int): (q: int)
    requires 0 < b
    ensures 0 <= a ==> 0 <= q && q * b <= a < q * b + b
    ensures a < 0 ==> q <= 0 && q * b - b < a <= q * b
  {
    if a >= 0 then
      DivBounds(a, b);
      a / b
    else
      DivBounds(-a, b);
      assert -((-a) / b) * b == -(((-a) / b) * b);
      -((-a) / b)
  }

  lemma DivBounds(a: int, b: int)
    requires 0 <= a && 0 < b
    ensures 0 <= a / b && (a / b) * b <= a < (a / b) * b + b
  {
  }

  /** A whole number of steps `d` scaled by a positive `b` stays on the same
      side of zero and at least `b` away from it. */
  lemma {:induction false} MulAwayFromZero(d: int, b: int)
    requires 0 < b
    ensures 1 <= d ==> b <= d * b
    ensures d <= -1 ==> d * b <= -b
  {
    if 1 <= d {
      assert d * b == b + (d - 1) * b;
    } else if d <= -1 {
      assert d * b == -b + (d + 1) * b;
    }
  }

  /** Truncating division by a positive divisor preserves order. */
  lemma {:induction false} TruncDivMonotone(a: int, a': int, b: int)
    requires a <= a' && 0 < b
    ensures TruncDiv(a, b) <= TruncDiv(a', b)
  {
    var q, q' := TruncDiv(a, b), TruncDiv(a', b);
    MulAwayFromZero(q - q', b);
    assert q * b - q' * b == (q - q') * b;
    if 0 <= a {
      assert q * b <= a' < q' * b + b;
    } else if a' < 0 {
      assert q * b - b < a' <= q' * b;
    } else {
      assert q <= 0 <= q';
    }
  }

  /** Exact division: a multiple of `b` divided by `b` gives back the factor. */
  lemma {:induction false} TruncDivExact(k: int, b: int)
    requires 0 < b
    ensures TruncDiv(k * b, b) == k
  {
    var q := TruncDiv(k * b, b);
    MulAwayFromZero(k - q, b);
    assert k * b - q * b == (k - q) * b;
  }

  /** Arduino's `long map(long x, long in_min, long in_max, long out_min, long out_max)`:
      `(x - in_min) * (out_max - out_min) / (in_max - in_min) + out_min`,
      in integer arithmetic. The ends of the input range go exactly to the
      ends of the output range. */
  function Map(x: int, inMin: int, inMax: int, outMin: int, outMax: int): (r: int)
    requires inMin < inMax
    ensures x == inMin ==> r == outMin
    ensures x == inMax ==> r == outMax
  {
    if x == inMax then
      TruncDivExact(outMax - outMin, inMax - inMin);
      assert (x - inMin) * (outMax - outMin) == (outMax - outMin) * (inMax - inMin);
      TruncDiv((x - inMin) * (outMax - outMin), inMax - inMin) + outMin
    else
      TruncDiv((x - inMin) * (outMax - outMin), inMax - inMin) + outMin
  }

  /** `String::indexOf` (and the same search over any sequence): the index of
      the first occurrence of `x` in `s`, or -1 when there is none. */
  function IndexOf<T(==)>(s: seq<T>, x: T): (k: int)
    ensures -1 <= k < |s|
    ensures k == -1 <==> x !in s
    ensures 0 <= k ==> s[k] == x && forall j :: 0 <= j < k ==> s[j] != x
  {
    if |s| == 0 then -1
    else if s[0] == x then 0
    else
      var k := IndexOf(s[1..], x);
      if k < 0 then -1 else k + 1
  }

  /** `String::substring(unsigned int left, unsigned int right)`: the
      characters from `left` up to, not including, `right`; the two bounds are
      swapped when `left > right`, `right` is cut back to the length, and a
      `left` at or past the end gives the empty string. Both bounds are
      unsigned: a negative argument such as `indexOf` returning -1 becomes the
      largest unsigned value, which is past the end of any string the board
      can hold, so it is modelled here as "past the end". */
  function Substring(s: string, left: int, right: int): (r: string)
    ensures 0 <= left <= right <= |s| ==> r == s[left..right]
    ensures 0 <= right <= left <= |s| ==> r == s[right..left]
    ensures |s| <= left && |s| <= right ==> r == ""
    ensures 0 <= left <= |s| && (right < 0 || |s| < right) ==> r == s[left..]
  {
    var l := if left < 0 then |s| + 1 else left;
    var h := if right < 0 then |s| + 1 else right;
    var (lo, hi) := if l > h then (h, l) else (l, h);
    if lo >= |s| then "" else s[lo..if hi > |s| then |s| else hi]
  }

  /** `String::substring(unsigned int left)`: from `left` to the end. */
  function SubstringFrom(s: string, left: int): (r: string)
    ensures 0 <= left <= |s| ==> r == s[left..]
  {
    Substring(s, left, |s|)
  }
}
