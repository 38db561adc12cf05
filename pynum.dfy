/** Python numbers as the scoring code sees them: exact reals plus an explicit
    NaN, the float-to-int truncation of int(), and the arithmetic the box
    conversions use (NaN propagates through every operation). */
module PyNum {

  /** A Python float (or int) element of a box list. */
  datatype Num = NaN | Val(r: real)

  /** int(x) on a float: truncation toward zero (not floor). */
  function Trunc(x: real): (n: int)
    ensures 0.0 <= x ==> 0 <= n && n as real <= x < n as real + 1.0
    ensures x < 0.0 ==> n <= 0 && n as real - 1.0 < x <= n as real
  {
    if x >= 0.0 then x.Floor else -((-x).Floor)
  }

  /** a - b */
  function Minus(a: Num, b: Num): Num {
    if a.NaN? || b.NaN? then NaN else Val(a.r - b.r)
  }

  /** a / 2 (true division) */
  function Half(a: Num): Num {
    if a.NaN? then NaN else Val(a.r / 2.0)
  }

  /** a * k for a finite factor k */
  function Scale(a: Num, k: real): Num {
    if a.NaN? then NaN else Val(a.r * k)
  }

  /** The Num list holding exactly the given integers. */
  function FromInts(s: seq<int>): seq<Num> {
    seq(|s|, i requires 0 <= i < |s| => Val(s[i] as real))
  }

  lemma TruncOfInt(n: int)
    ensures Trunc(n as real) == n
  {
  }

  /** Scaling by k and then by 1/k gives back the original number. */
  lemma ScaleInverse(a: Num, k: real)
    requires k != 0.0
    ensures Scale(Scale(a, k), 1.0 / k) == a
  {
    if a.Val? {
      calc {
        a.r * k * (1.0 / k);
        a.r * (k * (1.0 / k));
        a.r;
      }
    }
  }
}
