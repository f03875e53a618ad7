/** Small facts of integer arithmetic that the solver does not find on its own. */
module Arith {

  lemma MulNonneg(x: int, y: int)
    requires x >= 0 && y >= 0
    ensures x * y >= 0
  {
  }

  lemma MulSucc(a: int, b: int)
    ensures (a + 1) * b == a * b + b
  {
  }

  lemma MulAtLeast(k: int, s: int)
    requires k >= 1 && s >= 1
    ensures k * s >= s
  {
    MulNonneg(k - 1, s);
    assert (k - 1) * s == k * s - s;
  }

  /** Euclidean division is determined by quotient and remainder. */
  lemma DivModUnique(x: int, s: int, q: int, r: int)
    requires s >= 1 && x == q * s + r && 0 <= r < s
    ensures x / s == q && x % s == r
  {
    var q' := x / s;
    var r' := x % s;
    assert x == q' * s + r';
    assert (q - q') * s == q * s - q' * s;
    assert (q' - q) * s == q' * s - q * s;
    if q > q' {
      MulAtLeast(q - q', s);
    } else if q < q' {
      MulAtLeast(q' - q, s);
    }
  }

  /** Taking one stride off a positive amount keeps its remainder. */
  lemma ModStep(m: int, s: int)
    requires s >= 1 && m > 0
    ensures m % s == 0 <==> (m >= s && (m - s) % s == 0)
  {
    if m < s {
      DivModUnique(m, s, 0, m);
    } else {
      DivModUnique(m - s, s, m / s - 1, m % s);
    }
  }

  /** A digit b below B placed after a digit a below A gives a number below A * B. */
  lemma MixedRadix(a: int, A: int, b: int, B: int)
    requires 0 <= a < A && 0 <= b < B
    ensures 0 <= a * B + b < A * B
  {
    MulNonneg(A - a - 1, B);
    MulNonneg(a, B);
    assert (A - a - 1) * B == A * B - a * B - B;
  }

  /** Horner form of the five-digit mixed-radix number t c z i j. */
  lemma Horner(t: int, c: int, z: int, i: int, j: int, C: int, Z: int, NY: int, NX: int)
    ensures (((t * C + c) * Z + z) * NY + i) * NX + j
         == t * (C * (Z * (NY * NX))) + (c * (Z * (NY * NX)) + (z * (NY * NX) + (i * NX + j)))
  {
  }

  /** Multiplication by a positive number is injective. */
  lemma MulCancel(a: int, b: int, s: int)
    requires s >= 1 && a * s == b * s
    ensures a == b
  {
    DivModUnique(a * s, s, a, 0);
    DivModUnique(b * s, s, b, 0);
  }

  /** Product of a list of sizes (1 for the empty list). */
  function Product(s: seq<int>): int
  {
    if |s| == 0 then 1 else s[0] * Product(s[1..])
  }

  /** The product of a concatenation is the product of the products. */
  lemma {:induction false} ProductAppend(a: seq<int>, b: seq<int>)
    ensures Product(a + b) == Product(a) * Product(b)
  {
    if |a| > 0 {
      assert (a + b)[1..] == a[1..] + b;
      ProductAppend(a[1..], b);
    } else {
      assert a + b == b;
    }
  }

  lemma Reassociate(a: int, b: int, c: int, d: int, e: int)
    ensures a * b * c * d * e == a * (b * (c * (d * e)))
  {
  }

  /** The product of a shape of rank 2 to 5, written out. */
  lemma ProductOfShape(s: seq<int>)
    requires 2 <= |s| <= 5
    ensures |s| == 5 ==> Product(s) == s[0] * (s[1] * (s[2] * (s[3] * s[4])))
    ensures |s| == 4 ==> Product(s) == s[0] * (s[1] * (s[2] * s[3]))
    ensures |s| == 3 ==> Product(s) == s[0] * (s[1] * s[2])
    ensures |s| == 2 ==> Product(s) == s[0] * s[1]
  {
    var n := |s|;
    assert Product(s[n..]) == 1;
    assert Product(s[n - 1..]) == s[n - 1] * Product(s[n - 1..][1..]) && s[n - 1..][1..] == s[n..];
    assert Product(s[n - 2..]) == s[n - 2] * Product(s[n - 2..][1..]) && s[n - 2..][1..] == s[n - 1..];
    if n >= 3 {
      assert Product(s[n - 3..]) == s[n - 3] * Product(s[n - 3..][1..]) && s[n - 3..][1..] == s[n - 2..];
    }
    if n >= 4 {
      assert Product(s[n - 4..]) == s[n - 4] * Product(s[n - 4..][1..]) && s[n - 4..][1..] == s[n - 3..];
    }
    if n == 5 {
      assert Product(s[0..]) == s[0] * Product(s[0..][1..]) && s[0..][1..] == s[1..];
    }
    assert s[0..] == s;
  }
}
