/** Util.cs: the soft-sign squashing function, integer powers by repeated
    squaring, and the decimal-place feature encoding used for positions in
    the observation vector. */
module Util {
  import opened Geometry

  // ---------------------------------------------------------------------
  // Sigmoid

  /** The soft-sign x / (1 + |x|). */
  function Sigmoid(x: real): (r: real)
    ensures -1.0 < r < 1.0
    ensures (r < 0.0 <==> x < 0.0) && (r == 0.0 <==> x == 0.0)
  {
    var d := 1.0 + Abs(x);
    assert x < d && -x < d;
    x / d
  }

  /** Sigmoid is odd. */
  lemma SigmoidOdd(x: real)
    ensures Sigmoid(-x) == -Sigmoid(x)
  {
  }

  /** Sigmoid is strictly increasing. */
  lemma SigmoidMonotone(x: real, y: real)
    requires x < y
    ensures Sigmoid(x) < Sigmoid(y)
  {
    var dx, dy := 1.0 + Abs(x), 1.0 + Abs(y);
    // x/dx < y/dy  <==>  x*dy < y*dx, and x*dy - y*dx is x - y plus a non-positive term.
    if x < 0.0 && 0.0 <= y {
      assert x * dy < 0.0 <= y * dx;
    } else {
      assert x * dy - y * dx == x - y;
    }
    CrossMultiply(x, dx, y, dy);
  }

  lemma CrossMultiply(x: real, dx: real, y: real, dy: real)
    requires dx > 0.0 && dy > 0.0 && x * dy < y * dx
    ensures x / dx < y / dy
  {
    assert x / dx == (x * dy) / (dx * dy);
    assert y / dy == (y * dx) / (dx * dy);
  }

  /** The inverse of Sigmoid on (-1, 1): y / (1 - |y|). */
  function SigmoidInverse(y: real): real
    requires -1.0 < y < 1.0
  {
    y / (1.0 - Abs(y))
  }

  /** Sigmoid loses no information: the inverse recovers its argument. */
  lemma SigmoidRoundTrip(x: real)
    ensures SigmoidInverse(Sigmoid(x)) == x
  {
    var d := 1.0 + Abs(x);
    var s := x / d;
    assert Abs(s) == Abs(x) / d;
    assert 1.0 - Abs(s) == 1.0 / d;
  }

  /** The Vector3 overload: Sigmoid applied to each component. */
  function SigmoidVec(v: Vec3): (r: Vec3)
    ensures -1.0 < r.x < 1.0 && -1.0 < r.y < 1.0 && -1.0 < r.z < 1.0
  {
    Vec3(Sigmoid(v.x), Sigmoid(v.y), Sigmoid(v.z))
  }

  /** Each output component depends only on the same input component. */
  lemma SigmoidVecComponentwise(v: Vec3, w: Vec3)
    ensures v.x == w.x ==> SigmoidVec(v).x == SigmoidVec(w).x
    ensures v.y == w.y ==> SigmoidVec(v).y == SigmoidVec(w).y
    ensures v.z == w.z ==> SigmoidVec(v).z == SigmoidVec(w).z
    ensures SigmoidVec(Neg(v)) == Neg(SigmoidVec(v))
  {
    SigmoidOdd(v.x);
    SigmoidOdd(v.y);
    SigmoidOdd(v.z);
  }

  // ---------------------------------------------------------------------
  // PowInt

  /** value^exp for a non-negative exponent. */
  function Pow(value: real, exp: nat): real
  {
    if exp == 0 then 1.0 else value * Pow(value, exp - 1)
  }

  lemma {:induction false} PowAdd(v: real, a: nat, b: nat)
    ensures Pow(v, a + b) == Pow(v, a) * Pow(v, b)
  {
    if a > 0 {
      PowAdd(v, a - 1, b);
    }
  }

  lemma {:induction false} PowOfSquare(v: real, k: nat)
    ensures Pow(v * v, k) == Pow(v, 2 * k)
  {
    if k > 0 {
      PowOfSquare(v, k - 1);
      PowAdd(v, 2, 2 * (k - 1));
    }
  }

  /** One step of exponentiation by squaring. */
  lemma SquaringStep(v: real, e: nat)
    requires e > 0
    ensures Pow(v, e) == (if e % 2 == 1 then v else 1.0) * Pow(v * v, e / 2)
  {
    PowOfSquare(v, e / 2);
    if e % 2 == 1 {
      PowAdd(v, 1, 2 * (e / 2));
    }
  }

  lemma {:induction false} PowPositive(v: real, e: nat)
    requires v > 0.0
    ensures Pow(v, e) > 0.0
  {
    if e > 0 {
      PowPositive(v, e - 1);
    }
  }

  /** PowInt: returns value^exp for a positive exponent, 1 otherwise. */
  method PowInt(value: real, exp: int) returns (result: real)
    ensures exp >= 0 ==> result == Pow(value, exp)
    ensures exp <= 0 ==> result == 1.0
  {
    result := 1.0;
    var e := exp;
    var v := value;
    while e > 0
      invariant exp <= 0 ==> e == exp && result == 1.0
      invariant exp > 0 ==> 0 <= e && result * Pow(v, e) == Pow(value, exp)
      decreases e
    {
      SquaringStep(v, e);
      if e % 2 == 1 {
        result := result * v;
      }
      e := e / 2;
      v := v * v;
    }
  }

  // ---------------------------------------------------------------------
  // SplitDecimalPlaces

  /** 10^i. */
  function TenPow(i: nat): (r: real)
    ensures r > 0.0
  {
    if i == 0 then 1.0 else 10.0 * TenPow(i - 1)
  }

  lemma {:induction false} TenPowIsPow(i: nat)
    ensures Pow(10.0, i) == TenPow(i)
  {
    if i > 0 {
      TenPowIsPow(i - 1);
    }
  }

  /** Mathf.Floor. */
  function Floor(x: real): (r: real)
    ensures r <= x < r + 1.0
    ensures r == x.Floor as real
  {
    x.Floor as real
  }

  /** C#'s float remainder `x % 10` for a non-negative x. */
  function Mod10(x: real): (r: real)
    requires x >= 0.0
    ensures 0.0 <= r < 10.0
  {
    x - 10.0 * Floor(x / 10.0)
  }

  /** a * 10^i. */
  function Scaled(a: real, i: nat): (r: real)
    ensures a >= 0.0 ==> r >= 0.0
  {
    a * TenPow(i)
  }

  /** The i-th (1-based) decimal place of a >= 0 as SplitDecimalPlaces
      computes it: floored for i < n, the whole remainder for i == n. */
  function Place(a: real, i: nat, n: nat): (d: real)
    requires a >= 0.0
    ensures 0.0 <= d < 10.0
  {
    if i == n then Mod10(Scaled(a, i)) else Floor(Mod10(Scaled(a, i)))
  }

  /** The n entries SplitDecimalPlaces(value, n) returns. */
  function DecimalPlaces(value: real, n: nat): (r: seq<real>)
    ensures |r| == n
  {
    seq(n, (j: int) requires 0 <= j => Place(Abs(value), j + 1, n) * Sign(value) / 10.0)
  }

  /** SplitDecimalPlaces: fills an n-entry array one decimal place at a time. */
  method SplitDecimalPlaces(value: real, n: nat) returns (result: seq<real>)
    ensures result == DecimalPlaces(value, n)
  {
    var a := new real[n];
    var sign := Sign(value);
    var v := Abs(value);
    for i := 1 to n + 1
      invariant forall j :: 0 <= j < i - 1 ==> a[j] == DecimalPlaces(value, n)[j]
    {
      var p := PowInt(10.0, i);
      ghost var k: nat := i;
      TenPowIsPow(k);
      assert p == TenPow(k);
      var d := Mod10(v * p);
      assert Scaled(v, k) == v * p;
      assert d == Mod10(Scaled(v, k));
      PlaceUnfold(v, k, n);
      if i == n {
        assert d == Place(v, k, n);
      } else {
        d := Floor(d);
        assert d == Place(v, k, n);
      }
      a[i - 1] := d * sign / 10.0;
    }
    result := a[..];
  }

  /** The documented example 0.12345 -> [0.1, 0.2, 0.345]. */
  lemma DecimalPlacesExample()
    ensures DecimalPlaces(0.12345, 3) == [0.1, 0.2, 0.345]
  {
    var r := DecimalPlaces(0.12345, 3);
    assert TenPow(3) == 1000.0;
    assert (0.12345 * 10.0 / 10.0).Floor == 0;
    assert (1.2345).Floor == 1;
    assert r[0] == 0.1;
    assert (0.12345 * 100.0 / 10.0).Floor == 1;
    assert (2.345).Floor == 2;
    assert r[1] == 0.2;
    assert (0.12345 * 1000.0 / 10.0).Floor == 12;
    assert r[2] == 0.345;
  }

  /** All entries but the last are sign(value) * k / 10 for a digit k in 0..9;
      the last has magnitude below 1; every entry carries sign(value). */
  lemma DecimalPlacesShape(value: real, n: nat, j: nat)
    requires j < n
    ensures var r := DecimalPlaces(value, n);
            r[j] * Sign(value) >= 0.0 && -1.0 < r[j] < 1.0 &&
            (j < n - 1 ==> var k := r[j] * 10.0 * Sign(value); k == k.Floor as real && 0.0 <= k <= 9.0)
  {
    var r := DecimalPlaces(value, n);
    var s := Sign(value);
    var d := Place(Abs(value), j + 1, n);
    assert r[j] == d * s / 10.0;
    assert s * s == 1.0;
    assert r[j] * s == d / 10.0;
    if j < n - 1 {
      assert r[j] * 10.0 * s == d;
    }
  }

  /** Negating the input negates every entry (sign is preserved). */
  lemma DecimalPlacesOdd(value: real, n: nat, j: nat)
    requires j < n
    ensures DecimalPlaces(-value, n)[j] == -DecimalPlaces(value, n)[j]
  {
    if value == 0.0 {
      var d := Place(0.0, j + 1, n);
      assert TenPow(j + 1) * 0.0 == 0.0;
      assert Mod10(0.0) == 0.0;
      assert d == 0.0;
    }
  }

  /** The value the entries stand for, s[0] + s[1] / 10 + s[2] / 100 + ...,
      in Horner form. */
  function Recombine(s: seq<real>): real
  {
    if s == [] then 0.0 else s[0] + Recombine(s[1..]) / 10.0
  }

  /** The first of n places of a: Place(a, 1, n) without the power. */
  function Lead(a: real, n: nat): real
    requires a >= 0.0
  {
    if n == 1 then Mod10(10.0 * a) else Floor(Mod10(10.0 * a))
  }

  /** The n places of a, first place first: the first place of a followed
      by the places of 10 * a. */
  function PlaceSeq(a: real, n: nat): (r: seq<real>)
    requires a >= 0.0
    ensures |r| == n
    decreases n
  {
    if n == 0 then [] else [Lead(a, n)] + PlaceSeq(10.0 * a, n - 1)
  }

  /** Every entry of ds times c. */
  function ScaleAll(ds: seq<real>, c: real): (r: seq<real>)
    ensures |r| == |ds|
  {
    seq(|ds|, (j: int) requires 0 <= j < |ds| => ds[j] * c)
  }

  lemma PlaceUnfold(a: real, i: nat, n: nat)
    requires a >= 0.0
    ensures Place(a, i, n) == if i == n then Mod10(Scaled(a, i)) else Floor(Mod10(Scaled(a, i)))
  {
  }

  /** Subtracting an integer commutes with Floor. */
  lemma FloorShift(y: real, m: int)
    ensures (y - m as real).Floor == y.Floor - m
  {
  }

  /** The remainder of x = 10 * y by 10, and the floor of that remainder. */
  lemma ModOfTenfold(x: real, y: real)
    requires y >= 0.0 && x == 10.0 * y
    ensures Mod10(x) == x - 10.0 * Floor(y)
    ensures Floor(Mod10(x)) == Floor(x) - 10.0 * Floor(y)
  {
    assert x / 10.0 == y;
    FloorShift(x, 10 * y.Floor);
  }

  /** a * 10^(j+1) == (10 * a) * 10^j. */
  lemma ScaledShift(a: real, j: nat)
    ensures Scaled(a, j + 1) == Scaled(10.0 * a, j)
  {
    assert TenPow(j + 1) == 10.0 * TenPow(j);
  }

  lemma LeadIsPlace(a: real, n: nat)
    requires a >= 0.0 && n >= 1
    ensures Lead(a, n) == Place(a, 1, n)
  {
    assert Scaled(a, 1) == 10.0 * a;
  }

  /** Place j + 1 of a is place j of 10 * a, one place fewer. */
  lemma PlaceShift(a: real, j: nat, n: nat)
    requires a >= 0.0 && 1 <= j < n
    ensures Place(a, j + 1, n) == Place(10.0 * a, j, n - 1)
  {
    ScaledShift(a, j);
  }

  /** Entry j of PlaceSeq is place j + 1. */
  lemma {:induction false} PlaceSeqAt(a: real, n: nat, j: nat)
    requires a >= 0.0 && j < n
    ensures PlaceSeq(a, n)[j] == Place(a, j + 1, n)
    decreases j
  {
    if j == 0 {
      LeadIsPlace(a, n);
    } else {
      assert PlaceSeq(a, n)[j] == PlaceSeq(10.0 * a, n - 1)[j - 1];
      PlaceSeqAt(10.0 * a, n - 1, j - 1);
      PlaceShift(a, j, n);
    }
  }

  /** The first place: the whole remainder when it is the only one, its
      floor otherwise. */
  lemma FirstPlace(a: real, n: nat)
    requires a >= 0.0 && n >= 1
    ensures n == 1 ==> Lead(a, n) == 10.0 * a - 10.0 * Floor(a)
    ensures n >= 2 ==> Lead(a, n) == Floor(10.0 * a) - 10.0 * Floor(a)
  {
    ModOfTenfold(10.0 * a, a);
  }

  /** Recombining the n >= 1 places of a yields ten times the fractional
      part of a. */
  lemma {:induction false} PlaceSeqRecombine(a: real, n: nat)
    requires a >= 0.0 && n >= 1
    ensures Recombine(PlaceSeq(a, n)) == 10.0 * (a - Floor(a))
    decreases n
  {
    var r := PlaceSeq(a, n);
    FirstPlace(a, n);
    if n == 1 {
      assert r[1..] == [];
    } else {
      assert r[1..] == PlaceSeq(10.0 * a, n - 1);
      PlaceSeqRecombine(10.0 * a, n - 1);
    }
  }

  lemma {:induction false} RecombineScale(ds: seq<real>, c: real)
    ensures Recombine(ScaleAll(ds, c)) == c * Recombine(ds)
    decreases |ds|
  {
    if ds != [] {
      assert ScaleAll(ds, c)[1..] == ScaleAll(ds[1..], c) by {
        forall j | 0 <= j < |ds| - 1
          ensures ScaleAll(ds, c)[1..][j] == ScaleAll(ds[1..], c)[j]
        {
          assert ds[1..][j] == ds[j + 1];
        }
      }
      RecombineScale(ds[1..], c);
      var x, y := ds[0], Recombine(ds[1..]);
      assert x * c + (c * y) / 10.0 == c * (x + y / 10.0);
    }
  }

  lemma DecimalPlacesAsPlaceSeq(value: real, n: nat)
    ensures DecimalPlaces(value, n) == ScaleAll(PlaceSeq(Abs(value), n), Sign(value) / 10.0)
  {
    forall j | 0 <= j < n
      ensures DecimalPlaces(value, n)[j] == ScaleAll(PlaceSeq(Abs(value), n), Sign(value) / 10.0)[j]
    {
      PlaceSeqAt(Abs(value), n, j);
    }
  }

  /** Entries that are the digits ds over 10 with sign s recombine to s
      times a fractional part f when the digits recombine to 10 * f. */
  lemma ScaledFraction(r: seq<real>, ds: seq<real>, s: real, f: real)
    requires r == ScaleAll(ds, s / 10.0) && Recombine(ds) == 10.0 * f
    ensures Recombine(r) == s * f
  {
    RecombineScale(ds, s / 10.0);
    TenthOfTenfold(Recombine(r), s / 10.0, Recombine(ds), s, f);
  }

  lemma TenthOfTenfold(x: real, c: real, d: real, s: real, f: real)
    requires x == c * d && d == 10.0 * f && c == s / 10.0
    ensures x == s * f
  {
  }

  /** Recombining the n >= 1 entries yields the fractional part of |value|
      with value's sign; for |value| < 1 that is value itself. */
  lemma DecimalPlacesRecombine(value: real, n: nat)
    requires n >= 1
    ensures Recombine(DecimalPlaces(value, n)) == Sign(value) * (Abs(value) - Floor(Abs(value)))
    ensures Abs(value) < 1.0 ==> Recombine(DecimalPlaces(value, n)) == value
  {
    var a := Abs(value);
    DecimalPlacesAsPlaceSeq(value, n);
    PlaceSeqRecombine(a, n);
    ScaledFraction(DecimalPlaces(value, n), PlaceSeq(a, n), Sign(value), a - Floor(a));
    if a < 1.0 {
      UnitFraction(value);
    }
  }

  /** Below 1 in magnitude, the signed fractional part is the value itself. */
  lemma UnitFraction(value: real)
    requires Abs(value) < 1.0
    ensures Sign(value) * (Abs(value) - Floor(Abs(value))) == value
  {
    assert Floor(Abs(value)) == 0.0;
  }
}
