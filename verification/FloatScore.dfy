/** Integers in IEEE 754 binary64: round to nearest, ties to even, 53 significant bits. */
module FloatScore {
  const P53: int := 0x20_0000_0000_0000
  const P52: int := 0x10_0000_0000_0000

  /** The distance between neighbouring floats around x. */
  function Ulp(x: nat): (u: nat)
    ensures u >= 1
  {
    if x < P53 then 1 else 2 * Ulp(x / 2)
  }

  /** The multiple of q nearest to x; of two equally near ones the even multiple. */
  function Nearest(x: nat, q: nat): nat
    requires q >= 1
  {
    var k, r := x / q, x % q;
    if 2 * r < q || (2 * r == q && k % 2 == 0) then k * q else (k + 1) * q
  }

  function Float64(x: int): int {
    if x >= 0 then Nearest(x, Ulp(x)) else 0 - Nearest(-x, Ulp(-x))
  }

  lemma Division(x: nat, q: nat)
    requires q >= 1
    ensures x == x / q * q + x % q && 0 <= x % q < q
  {
  }

  lemma NearestError(x: nat, q: nat)
    requires q >= 1
    ensures 2 * x <= 2 * Nearest(x, q) + q && 2 * Nearest(x, q) <= 2 * x + q
  {
    Division(x, q);
  }

  lemma Products(a: int, b: int, q: nat)
    requires a <= b
    ensures a * q <= b * q
  {
  }

  lemma {:induction false} ProductsReflect(a: int, b: int, q: nat)
    requires a * q <= b * q + q - 1
    ensures a <= b
  {
    if a > b {
      Products(b + 1, a, q);
    }
  }

  /** Rounding does not cross a multiple of q. */
  lemma NearestKeepsSide(x: nat, q: nat, j: nat)
    requires q >= 1
    ensures x <= j * q ==> Nearest(x, q) <= j * q
    ensures x >= j * q ==> Nearest(x, q) >= j * q
  {
    var k := x / q;
    Division(x, q);
    if x <= j * q {
      ProductsReflect(k, j, q);
      if k < j {
        Products(k + 1, j, q);
      }
    }
    if x >= j * q {
      ProductsReflect(j, k, q);
      Products(j, k, q);
      Products(k, k + 1, q);
    }
  }

  lemma NearestMonotone(x: nat, y: nat, q: nat)
    requires q >= 1 && x <= y
    ensures Nearest(x, q) <= Nearest(y, q)
  {
    var k, l := x / q, y / q;
    Division(x, q);
    Division(y, q);
    ProductsReflect(k, l, q);
    if k < l {
      Products(k + 1, l, q);
      NearestKeepsSide(x, q, k + 1);
      NearestKeepsSide(y, q, l);
    }
  }

  lemma {:induction false} UlpRange(x: nat)
    ensures x < P53 * Ulp(x)
    ensures Ulp(x) > 1 ==> P52 * Ulp(x) <= x
  {
    if x >= P53 {
      UlpRange(x / 2);
    }
  }

  lemma {:induction false} UlpSteps(x: nat, y: nat)
    requires x <= y
    ensures Ulp(x) == Ulp(y) || 2 * Ulp(x) <= Ulp(y)
  {
    if x >= P53 {
      UlpSteps(x / 2, y / 2);
    }
  }

  lemma NaturalMonotone(x: nat, y: nat)
    requires x <= y
    ensures Float64(x) <= Float64(y)
  {
    var u, v := Ulp(x), Ulp(y);
    UlpSteps(x, y);
    if u == v {
      NearestMonotone(x, y, u);
    } else {
      UlpRange(x);
      UlpRange(y);
      NearestKeepsSide(x, u, P53);
      NearestKeepsSide(y, v, P52);
    }
  }

  /** Rounding never inverts the order of two integers. */
  lemma Float64Monotone(x: int, y: int)
    requires x <= y
    ensures Float64(x) <= Float64(y)
  {
    if x >= 0 {
      NaturalMonotone(x, y);
    } else if y < 0 {
      NaturalMonotone(-y, -x);
    }
  }

  /** Twice the most that rounding x moves it: nothing where the floats are dense. */
  function TwiceError(x: int): nat {
    var u := Ulp(if x >= 0 then x else -x);
    if u == 1 then 0 else u
  }

  lemma Float64Within(x: int)
    ensures 2 * x - TwiceError(x) <= 2 * Float64(x) <= 2 * x + TwiceError(x)
  {
    var n: nat := if x >= 0 then x else -x;
    NearestError(n, Ulp(n));
  }

  /** The distance between neighbours is at most 2^k below 2^(53 + k). */
  lemma {:induction false} UlpBound(x: nat, q: nat)
    requires x < P53 * q && IsPower(q)
    ensures Ulp(x) <= q
  {
    if q > 1 && x >= P53 {
      UlpBound(x / 2, q / 2);
    }
  }

  predicate IsPower(q: nat) {
    q == 1 || (q > 1 && q % 2 == 0 && IsPower(q / 2))
  }

  /** Below 2^(53 + k) rounding moves an integer by at most 2^(k - 1). */
  lemma Float64Error(x: int, q: nat)
    requires -(P53 * q) < x < P53 * q && IsPower(q)
    ensures 2 * x - q <= 2 * Float64(x) <= 2 * x + q
  {
    var n: nat := if x >= 0 then x else -x;
    UlpBound(n, q);
    NearestError(n, Ulp(n));
  }

  lemma ErrorBound(x: int, q: nat)
    requires -(P53 * q) < x < P53 * q && IsPower(q)
    ensures TwiceError(x) <= if q == 1 then 0 else q
  {
    UlpBound(if x >= 0 then x else -x, q);
  }

  /** Up to 2^53 nothing is lost. */
  lemma Float64Exact(x: int)
    requires -P53 < x < P53
    ensures Float64(x) == x
  {
  }

  // ---- nearest among the floats ----

  /** An integer that binary64 holds: at most 53 bits times a power of two. */
  ghost predicate IsFloat(y: int) {
    exists m: int, q: nat :: FloatAs(y, m, q)
  }

  predicate FloatAs(y: int, m: int, q: nat) {
    IsPower(q) && -9_007_199_254_740_992 <= m <= 9_007_199_254_740_992 && y == m * q
  }

  function Distance(x: int, y: int): nat {
    if x <= y then y - x else x - y
  }

  lemma {:induction false} UlpIsPower(x: nat)
    ensures IsPower(Ulp(x))
  {
    if x >= P53 {
      UlpIsPower(x / 2);
    }
  }

  /** The quotient chosen by rounding. */
  lemma NearestQuotient(x: nat, q: nat) returns (k: nat)
    requires q >= 1
    ensures Nearest(x, q) == k * q && (k == x / q || k == x / q + 1)
    ensures k % 2 == 1 ==> 2 * Distance(x, k * q) < q
  {
    k := if 2 * (x % q) < q || (2 * (x % q) == q && (x / q) % 2 == 0) then x / q else x / q + 1;
    Division(x, q);
    assert (x / q + 1) * q == x / q * q + q;
  }

  /** No multiple of q is nearer. */
  lemma NearestIsBest(x: nat, q: nat, j: int)
    requires q >= 1
    ensures Distance(x, Nearest(x, q)) <= Distance(x, j * q)
  {
    var k := x / q;
    Division(x, q);
    assert (k + 1) * q == k * q + q;
    if j <= k {
      Products(j, k, q);
    } else {
      Products(k + 1, j, q);
    }
  }

  lemma {:induction false} PowerDivides(p: nat, q: nat) returns (c: nat)
    requires IsPower(p) && IsPower(q) && p <= q
    ensures q == c * p
  {
    if p == 1 {
      c := q;
    } else {
      c := PowerDivides(p / 2, q / 2);
      assert q == 2 * (q / 2) == 2 * (c * (p / 2)) == c * (2 * (p / 2));
    }
  }

  lemma {:induction false} SmallerPower(p: nat, q: nat)
    requires IsPower(p) && IsPower(q) && q < p
    ensures 2 * q <= p
  {
    if q > 1 {
      SmallerPower(p / 2, q / 2);
    }
  }

  /** A float finer than the spacing at x does not reach beyond 2^52 of those spacings. */
  lemma FineFloatBelow(x: nat, m: int, q: nat)
    requires IsPower(q) && m <= P53 && q < Ulp(x)
    ensures m * q <= P52 * Ulp(x) <= x
  {
    UlpIsPower(x);
    UlpRange(x);
    SmallerPower(Ulp(x), q);
    Products(m, P53, q);
    assert P53 * q == P52 * (2 * q);
    Products(2 * q, Ulp(x), P52);
  }

  lemma CoarseFloat(x: nat, m: int, q: nat, u: nat, c: nat)
    requires u >= 1 && q == c * u
    ensures Distance(x, Nearest(x, u)) <= Distance(x, m * q)
  {
    assert m * q == (m * c) * u;
    NearestIsBest(x, u, m * c);
  }

  lemma FineFloat(x: nat, m: int, q: nat)
    requires IsPower(q) && m <= P53 && q < Ulp(x)
    ensures Distance(x, Nearest(x, Ulp(x))) <= Distance(x, m * q)
  {
    FineFloatBelow(x, m, q);
    NearestIsBest(x, Ulp(x), P52);
  }

  lemma NaturalNearest(x: nat, m: int, q: nat)
    requires IsPower(q) && m <= P53
    ensures Distance(x, Nearest(x, Ulp(x))) <= Distance(x, m * q)
  {
    var u := Ulp(x);
    UlpIsPower(x);
    if u <= q {
      var c := PowerDivides(u, q);
      CoarseFloat(x, m, q, u, c);
    } else {
      FineFloat(x, m, q);
    }
  }

  /** Rounding gives a float. */
  lemma Float64IsFloat(x: int)
    ensures IsFloat(Float64(x))
  {
    var n: nat := if x >= 0 then x else -x;
    var k := NearestQuotient(n, Ulp(n));
    UlpIsPower(n);
    UlpRange(n);
    NearestKeepsSide(n, Ulp(n), P53);
    ProductsReflect(k, P53, Ulp(n));
    if x >= 0 {
      assert FloatAs(Float64(x), k, Ulp(n));
    } else {
      assert (-k) * Ulp(n) == -(k * Ulp(n));
      assert FloatAs(Float64(x), -k, Ulp(n));
    }
  }

  /** Of all floats none is nearer to x than the one it is rounded to. */
  lemma Float64IsNearest(x: int, y: int)
    requires IsFloat(y)
    ensures Distance(x, Float64(x)) <= Distance(x, y)
  {
    var m: int, q: nat :| FloatAs(y, m, q);
    if x >= 0 {
      NaturalNearest(x, m, q);
    } else {
      NaturalNearest(-x, -m, q);
      assert (-m) * q == -(m * q);
    }
  }

  /** And a tie goes to the even one: the float is an odd number of spacings only if it is nearer than
      half a spacing. */
  lemma Float64TiesToEven(x: nat) returns (k: nat)
    ensures Float64(x) == k * Ulp(x) && (k % 2 == 1 ==> 2 * Distance(x, Float64(x)) < Ulp(x))
  {
    k := NearestQuotient(x, Ulp(x));
  }

  // ---- rounding a given number ----

  lemma QuotientIs(x: nat, q: nat, k: nat, r: nat)
    requires x == k * q + r && r < q
    ensures x / q == k && x % q == r
  {
    Division(x, q);
    ProductsReflect(k, x / q, q);
    ProductsReflect(x / q, k, q);
  }

  function Doubled(x: nat, n: nat): (y: nat)
    ensures y >= x
  {
    if n == 0 then x else 2 * Doubled(x, n - 1)
  }

  /** The spacing at a float of full precision. */
  lemma {:induction false} UlpIs(x: nat, k: nat, n: nat)
    requires P52 <= k < P53 && x == k * Doubled(1, n)
    ensures Ulp(x) == Doubled(1, n)
  {
    if n > 0 {
      var d := Doubled(1, n - 1);
      assert x == 2 * (k * d);
      Products(P52, k, d);
      UlpIs(x / 2, k, n - 1);
    }
  }

  /** A number that is `r` past `k` spacings is rounded to them, */
  lemma RoundsDown(x: int, q: nat, k: nat, r: nat)
    requires x >= 0 && Ulp(x) == q && x == k * q + r
    requires 2 * r < q || (2 * r == q && k % 2 == 0)
    ensures Float64(x) == x - r && Float64(-x) == r - x
  {
    QuotientIs(x, q, k, r);
  }

  /** or to one more. */
  lemma RoundsUp(x: int, q: nat, k: nat, r: nat)
    requires x >= 0 && Ulp(x) == q && x == k * q + r && r < q
    requires q < 2 * r || (2 * r == q && k % 2 == 1)
    ensures Float64(x) == x - r + q && Float64(-x) == r - x - q
  {
    QuotientIs(x, q, k, r);
    assert (k + 1) * q == k * q + q;
  }
}
