/**
 * The correlation loops behind the quality score (media/quality.go), in exact arithmetic. sqrt stands for the square
 * root: any function with sqrt(x) >= 0 and sqrt(x)^2 == x.
 */
module Correlation {

  ghost predicate Root(sqrt: real -> real) {
    forall x: real :: x >= 0.0 ==> sqrt(x) >= 0.0 && sqrt(x) * sqrt(x) == x
  }

  /* ---- Sums of products ---- */

  function Sum(a: seq<real>): real {
    if a == [] then 0.0 else Sum(a[..|a| - 1]) + a[|a| - 1]
  }

  function Product(x: real, y: real): real { x * y }

  function Dot(a: seq<real>, b: seq<real>): real
    requires |a| == |b|
  {
    if a == [] then 0.0 else Dot(a[..|a| - 1], b[..|b| - 1]) + Product(a[|a| - 1], b[|b| - 1])
  }

  lemma DotStep(a: seq<real>, b: seq<real>, i: nat)
    requires i < |a| == |b|
    ensures Dot(a[..i + 1], b[..i + 1]) == Dot(a[..i], b[..i]) + Product(a[i], b[i])
  {
    assert a[..i + 1][..i] == a[..i] && b[..i + 1][..i] == b[..i];
  }

  lemma DotWhole(a: seq<real>, b: seq<real>)
    requires |a| == |b|
    ensures Dot(a[..|a|], b[..|a|]) == Dot(a, b)
  {
    assert a[..|a|] == a && b[..|a|] == b;
  }

  /* ---- Arithmetic ---- */

  function Square(x: real): real { x * x }

  lemma NonZeroSquare(x: real)
    requires x != 0.0
    ensures Square(x) > 0.0
  {
    var y := if x > 0.0 then x else -x;
    assert Square(x) == y * y;
    SameSign(y, y);
  }

  lemma SquareSign(x: real)
    ensures Square(x) >= 0.0 && (Square(x) == 0.0 <==> x == 0.0)
  {
    assert Square(0.0) == 0.0;
    hide Square;
    if x != 0.0 {
      NonZeroSquare(x);
    }
  }

  lemma SameSign(x: real, s: real)
    requires s > 0.0
    ensures (x * s >= 0.0 <==> x >= 0.0) && (x * s == 0.0 <==> x == 0.0)
  {
    if x > 0.0 {
      assert x * s > 0.0;
    } else if x < 0.0 {
      assert x * s < 0.0;
    }
  }

  lemma LargerSquare(x: real, y: real)
    requires 0.0 <= y < x
    ensures y * y < x * x
  {
    assert x * x - y * y == (x - y) * (x + y);
    SameSign(x - y, x + y);
  }

  lemma SmallerSquare(x: real, y: real)
    requires y >= 0.0 && x * x <= y * y
    ensures -y <= x <= y
  {
    if x > y {
      LargerSquare(x, y);
    } else if -x > y {
      LargerSquare(-x, y);
    }
  }

  lemma SameSquare(x: real, y: real)
    requires x >= 0.0 && y >= 0.0 && x * x == y * y
    ensures x == y
  {
    SmallerSquare(x, y);
    SmallerSquare(y, x);
  }

  lemma DivideBounds(d: real, s: real)
    requires s > 0.0 && -s <= d <= s
    ensures -1.0 <= d / s <= 1.0 && (d / s == 1.0 <==> d == s)
  {
    var q := d / s;
    assert (1.0 - q) * s == s - d && (1.0 + q) * s == s + d;
    SameSign(1.0 - q, s);
    SameSign(1.0 + q, s);
  }

  /** The least energy that a multiple of one signal leaves of another. */
  lemma LeastSquares(d: real, e1: real, e2: real, r: real)
    requires e1 > 0.0 && r == e2 - 2.0 * (d / e1) * d + (d / e1) * (d / e1) * e1
    ensures e1 * r == e1 * e2 - d * d
  {
    var t := d / e1;
    assert t * e1 == d;
    assert t * t * e1 == t * d;
    assert r == e2 - t * d;
    assert e1 * (t * d) == d * d;
  }

  lemma LeastIsPositive(d: real, e1: real, e2: real, r: real)
    requires e1 > 0.0 && r >= 0.0 && e1 * r == e1 * e2 - d * d
    ensures d * d <= e1 * e2 && (d * d == e1 * e2 <==> r == 0.0)
  {
    SameSign(r, e1);
  }

  /* ---- Energy ---- */

  /** b without t times a. */
  function Residual(a: seq<real>, b: seq<real>, t: real): (r: seq<real>)
    requires |a| == |b|
    ensures |r| == |a| && forall i :: 0 <= i < |r| ==> r[i] == b[i] - t * a[i]
  {
    seq(|a|, i requires 0 <= i < |a| => b[i] - t * a[i])
  }

  lemma SquareStep(d: real, e1: real, e2: real, x: real, y: real, t: real, r: real)
    requires r == y - t * x
    ensures (e2 - 2.0 * t * d + t * t * e1) + r * r
            == (e2 + y * y) - 2.0 * t * (d + x * y) + t * t * (e1 + x * x)
  {
    assert r * r == y * y - 2.0 * t * (x * y) + t * t * (x * x);
  }

  lemma {:induction false} ResidualEnergyTo(a: seq<real>, b: seq<real>, t: real, n: nat)
    requires n <= |a| == |b|
    ensures var r := Residual(a, b, t);
            Dot(r[..n], r[..n]) == Dot(b[..n], b[..n]) - 2.0 * t * Dot(a[..n], b[..n]) + t * t * Dot(a[..n], a[..n])
  {
    hide Dot, Residual;
    if n == 0 {
      EmptySums();
    } else {
      var i: nat, r := n - 1, Residual(a, b, t);
      ResidualEnergyTo(a, b, t, i);
      DotStep(r, r, i);
      DotStep(a, a, i);
      DotStep(b, b, i);
      DotStep(a, b, i);
      SquareStep(Dot(a[..i], b[..i]), Dot(a[..i], a[..i]), Dot(b[..i], b[..i]), a[i], b[i], t, r[i]);
    }
  }

  lemma ResidualEnergy(a: seq<real>, b: seq<real>, t: real)
    requires |a| == |b|
    ensures var r := Residual(a, b, t); Dot(r, r) == Dot(b, b) - 2.0 * t * Dot(a, b) + t * t * Dot(a, a)
  {
    hide Dot;
    ResidualEnergyTo(a, b, t, |a|);
    var r := Residual(a, b, t);
    DotWhole(r, r);
    DotWhole(a, a);
    DotWhole(b, b);
    DotWhole(a, b);
  }

  /** Energy is never negative, and is zero for silence only. */
  lemma {:induction false} EnergyIsZeroIff(a: seq<real>)
    ensures Dot(a, a) >= 0.0
    ensures Dot(a, a) == 0.0 <==> forall i :: 0 <= i < |a| ==> a[i] == 0.0
  {
    if a != [] {
      var n := |a| - 1;
      EnergyIsZeroIff(a[..n]);
      SquareSign(a[n]);
      var e, sq := Dot(a[..n], a[..n]), Square(a[n]);
      assert Dot(a, a) == e + sq;
      hide Dot, Square;
      if Dot(a, a) == 0.0 {
        forall i | 0 <= i < |a|
          ensures a[i] == 0.0
        {
          assert i < n ==> a[i] == a[..n][i];
        }
      }
      if forall i :: 0 <= i < |a| ==> a[i] == 0.0 {
        assert sq == 0.0;
      }
    }
  }

  lemma {:induction false} SilenceHasNoProduct(a: seq<real>, b: seq<real>)
    requires |a| == |b| && forall i :: 0 <= i < |a| ==> a[i] == 0.0
    ensures Dot(a, b) == 0.0
  {
    if a != [] {
      SilenceHasNoProduct(a[..|a| - 1], b[..|b| - 1]);
    }
  }

  /** The bound on which every score rests; equality means that the best multiple of a leaves nothing of b. */
  lemma CauchySchwarz(a: seq<real>, b: seq<real>)
    requires |a| == |b|
    ensures Dot(a, b) * Dot(a, b) <= Dot(a, a) * Dot(b, b)
    ensures Dot(a, a) > 0.0 && Dot(a, b) * Dot(a, b) == Dot(a, a) * Dot(b, b) ==> Multiple(a, b, Dot(a, b) / Dot(a, a))
  {
    hide Dot;
    EnergyIsZeroIff(a);
    var d, e1, e2 := Dot(a, b), Dot(a, a), Dot(b, b);
    if e1 == 0.0 {
      SilenceHasNoProduct(a, b);
      assert e1 * e2 == 0.0;
    } else {
      var t := d / e1;
      var r := Residual(a, b, t);
      ResidualEnergy(a, b, t);
      EnergyIsZeroIff(r);
      LeastSquares(d, e1, e2, Dot(r, r));
      LeastIsPositive(d, e1, e2, Dot(r, r));
    }
  }

  /** Every value of b is t times the one of a. */
  ghost predicate Multiple(a: seq<real>, b: seq<real>, t: real)
    requires |a| == |b|
  {
    forall i :: 0 <= i < |a| ==> b[i] == t * a[i]
  }

  lemma {:induction false} MultipleDot(c: seq<real>, a: seq<real>, b: seq<real>, t: real, n: nat)
    requires n <= |a| == |b| == |c| && Multiple(a, b, t)
    ensures Dot(c[..n], b[..n]) == t * Dot(c[..n], a[..n])
  {
    hide Dot;
    if n == 0 {
      EmptySums();
    } else {
      var i: nat := n - 1;
      MultipleDot(c, a, b, t, i);
      DotStep(c, b, i);
      DotStep(c, a, i);
      Distribute(t, Dot(c[..i], a[..i]), c[i], a[i], b[i]);
    }
  }

  lemma {:induction false} DotSymmetric(a: seq<real>, b: seq<real>)
    requires |a| == |b|
    ensures Dot(a, b) == Dot(b, a)
  {
    if a != [] {
      DotSymmetric(a[..|a| - 1], b[..|b| - 1]);
    }
  }

  lemma Distribute(t: real, e: real, z: real, x: real, y: real)
    requires y == t * x
    ensures t * e + z * y == t * (e + z * x)
  {
    assert z * y == t * (z * x);
  }

  /* ---- Correlation ---- */

  lemma ProductPositive(x: real, y: real)
    requires x > 0.0 && y > 0.0
    ensures x * y > 0.0
  {}

  lemma RootPositive(x: real, sqrt: real -> real)
    requires Root(sqrt) && x > 0.0
    ensures sqrt(x) > 0.0 && sqrt(x) * sqrt(x) == x
  {
    assert sqrt(x) >= 0.0 && Square(sqrt(x)) == x;
    hide Square;
    SquareSign(sqrt(x));
  }

  function Ratio(dot: real, e1: real, e2: real, sqrt: real -> real): real
    requires Root(sqrt) && e1 > 0.0 && e2 > 0.0
  {
    ProductPositive(e1, e2);
    RootPositive(e1 * e2, sqrt);
    dot / sqrt(e1 * e2)
  }

  lemma RatioOfBounded(d: real, e1: real, e2: real, sqrt: real -> real)
    requires Root(sqrt) && e1 > 0.0 && e2 > 0.0 && d * d <= e1 * e2
    ensures -1.0 <= Ratio(d, e1, e2, sqrt) <= 1.0
    ensures Ratio(d, e1, e2, sqrt) == 1.0 <==> d > 0.0 && d * d == e1 * e2
  {
    ProductPositive(e1, e2);
    var x := e1 * e2;
    RootPositive(x, sqrt);
    var s := sqrt(x);
    SmallerSquare(d, s);
    DivideBounds(d, s);
    if d > 0.0 && d * d == x {
      SameSquare(d, s);
    }
  }

  /** The correlation of any two signals lies between -1 and 1. */
  lemma RatioBounds(a: seq<real>, b: seq<real>, sqrt: real -> real)
    requires |a| == |b| && Root(sqrt) && Dot(a, a) > 0.0 && Dot(b, b) > 0.0
    ensures -1.0 <= Ratio(Dot(a, b), Dot(a, a), Dot(b, b), sqrt) <= 1.0
  {
    hide Dot, Ratio;
    CauchySchwarz(a, b);
    RatioOfBounded(Dot(a, b), Dot(a, a), Dot(b, b), sqrt);
  }

  /** The same sound at some level. */
  ghost predicate SameSound(a: seq<real>, b: seq<real>)
    requires |a| == |b|
  {
    exists t :: t > 0.0 && Multiple(a, b, t)
  }

  /** It is 1 exactly when one signal is the other one at another level. */
  lemma RatioIsOneIff(a: seq<real>, b: seq<real>, sqrt: real -> real)
    requires |a| == |b| && Root(sqrt) && Dot(a, a) > 0.0 && Dot(b, b) > 0.0
    ensures Ratio(Dot(a, b), Dot(a, a), Dot(b, b), sqrt) == 1.0 <==> SameSound(a, b)
  {
    hide Dot, Ratio, Multiple;
    var d, e1, e2 := Dot(a, b), Dot(a, a), Dot(b, b);
    CauchySchwarz(a, b);
    RatioOfBounded(d, e1, e2, sqrt);
    if d > 0.0 && d * d == e1 * e2 {
      PositiveQuotient(d, e1);
      assert Multiple(a, b, d / e1);
    }
    if t :| t > 0.0 && Multiple(a, b, t) {
      MultipleEnergies(a, b, t);
      ProductPositive(t, e1);
      assert d * d == t * e1 * (t * e1) == e1 * (t * t * e1);
    }
  }

  lemma PositiveQuotient(d: real, e: real)
    requires d > 0.0 && e > 0.0
    ensures d / e > 0.0
  {
    assert d / e * e == d;
    SameSign(d / e, e);
  }

  lemma MultipleEnergies(a: seq<real>, b: seq<real>, t: real)
    requires |a| == |b| && Multiple(a, b, t)
    ensures Dot(a, b) == t * Dot(a, a) && Dot(b, b) == t * t * Dot(a, a)
  {
    hide Dot, Multiple;
    MultipleDot(a, a, b, t, |a|);
    MultipleDot(b, a, b, t, |a|);
    DotSymmetric(a, b);
    DotWhole(a, b);
    DotWhole(a, a);
    DotWhole(b, a);
    DotWhole(b, b);
    assert t * (t * Dot(a, a)) == t * t * Dot(a, a);
  }

  /* ---- pearson ---- */

  function Mean(a: seq<real>): real
    requires a != []
  {
    Sum(a) / (|a| as real)
  }

  function Centred(a: seq<real>): (r: seq<real>)
    requires a != []
    ensures |r| == |a|
  {
    seq(|a|, i requires 0 <= i < |a| => a[i] - Mean(a))
  }

  function Shorter(a: seq<real>, b: seq<real>): nat { if |a| <= |b| then |a| else |b| }

  /**
   * How alike a and the start of b are, apart from their means; 0 when there is too little of them or one is flat.
   */
  function PearsonOf(a: seq<real>, b: seq<real>, sqrt: real -> real): real
    requires Root(sqrt)
  {
    var n := Shorter(a, b);
    if n < 2 then 0.0
    else
      var x, y := Centred(a[..n]), Centred(b[..n]);
      EnergyIsZeroIff(x);
      EnergyIsZeroIff(y);
      if Dot(x, x) == 0.0 || Dot(y, y) == 0.0 then 0.0
      else Ratio(Dot(x, y), Dot(x, x), Dot(y, y), sqrt)
  }

  lemma SumStep(a: seq<real>, i: nat)
    requires i < |a|
    ensures Sum(a[..i + 1]) == Sum(a[..i]) + a[i]
  {
    assert a[..i + 1][..i] == a[..i];
  }

  method Pearson(a: seq<real>, b: seq<real>, sqrt: real -> real) returns (c: real)
    requires Root(sqrt)
    ensures c == PearsonOf(a, b, sqrt)
  {
    hide Dot, Ratio, Sum, Root, Product;
    var n := Shorter(a, b);
    if n < 2 {
      return 0.0;
    }
    var ma, mb := 0.0, 0.0;
    assert Sum(a[..0]) == 0.0 == Sum(b[..0]) by { EmptySums(); }
    for i := 0 to n
      invariant ma == Sum(a[..i]) && mb == Sum(b[..i])
    {
      SumStep(a, i);
      SumStep(b, i);
      ma, mb := ma + a[i], mb + b[i];
    }
    ma, mb := ma / (n as real), mb / (n as real);
    assert ma == Mean(a[..n]) && mb == Mean(b[..n]);
    hide Mean;
    ghost var x, y := Centred(a[..n]), Centred(b[..n]);
    var dot, ea, eb := 0.0, 0.0, 0.0;
    assert Dot(x[..0], y[..0]) == 0.0 == Dot(x[..0], x[..0]) == Dot(y[..0], y[..0]) by { EmptySums(); }
    for i := 0 to n
      invariant dot == Dot(x[..i], y[..i]) && ea == Dot(x[..i], x[..i]) && eb == Dot(y[..i], y[..i])
    {
      DotStep(x, y, i);
      DotStep(x, x, i);
      DotStep(y, y, i);
      var u, v := a[i] - ma, b[i] - mb;
      assert u == x[i] && v == y[i];
      dot, ea, eb := dot + Product(u, v), ea + Product(u, u), eb + Product(v, v);
    }
    DotWhole(x, y);
    DotWhole(x, x);
    DotWhole(y, y);
    EnergyIsZeroIff(x);
    EnergyIsZeroIff(y);
    if ea == 0.0 || eb == 0.0 {
      return 0.0;
    }
    return Ratio(dot, ea, eb, sqrt);
  }

  lemma EmptySums()
    ensures Sum([]) == 0.0 && Dot([], []) == 0.0
  {}

  lemma PearsonBounds(a: seq<real>, b: seq<real>, sqrt: real -> real)
    requires Root(sqrt)
    ensures -1.0 <= PearsonOf(a, b, sqrt) <= 1.0
  {
    var n := Shorter(a, b);
    if n >= 2 {
      var x, y := Centred(a[..n]), Centred(b[..n]);
      EnergyIsZeroIff(x);
      EnergyIsZeroIff(y);
      if Dot(x, x) != 0.0 && Dot(y, y) != 0.0 {
        RatioBounds(x, y, sqrt);
      }
    }
  }

  /** Every value is higher by the same amount: the same sound at another level, in dB. */
  function Louder(a: seq<real>, g: real): (r: seq<real>)
    ensures |r| == |a|
  {
    seq(|a|, i requires 0 <= i < |a| => a[i] + g)
  }

  lemma {:induction false} SumOfLouder(a: seq<real>, g: real)
    ensures Sum(Louder(a, g)) == Sum(a) + (|a| as real) * g
  {
    if a != [] {
      var n := |a| - 1;
      SumOfLouder(a[..n], g);
      assert Louder(a, g)[..n] == Louder(a[..n], g);
      assert (|a| as real) * g == (n as real) * g + g;
    }
  }

  lemma CentredIgnoresLevel(a: seq<real>, g: real)
    requires a != []
    ensures Centred(Louder(a, g)) == Centred(a)
  {
    SumOfLouder(a, g);
    var n := |a| as real;
    assert Mean(Louder(a, g)) == Mean(a) + g by {
      var m := Mean(Louder(a, g));
      assert m * n == Mean(a) * n + n * g;
      assert (m - Mean(a) - g) * n == 0.0;
    }
  }

  lemma PearsonIgnoresLevel(a: seq<real>, b: seq<real>, g: real, sqrt: real -> real)
    requires Root(sqrt)
    ensures PearsonOf(a, Louder(b, g), sqrt) == PearsonOf(a, b, sqrt)
  {
    var n := Shorter(a, b);
    if n >= 2 {
      assert Louder(b, g)[..n] == Louder(b[..n], g);
      CentredIgnoresLevel(b[..n], g);
    }
  }

  /* ---- spectralScore ---- */

  function Max(x: real, y: real): real { if x >= y then x else y }

  /** To the nearest integer, halves away from zero. */
  function Round(x: real): int {
    if x >= 0.0 then (x + 0.5).Floor else -((-x + 0.5).Floor)
  }

  function Round3(x: real): real { (Round(x * 1000.0) as real) / 1000.0 }

  lemma RoundedShare(x: real)
    requires 0.0 <= x <= 1.0
    ensures 0.0 <= Round3(x) <= 1.0
  {
    var r := Round(x * 1000.0);
    assert 0 <= r <= 1000;
  }

  /** A value in thousandths. */
  predicate InThousandths(x: real) { (x * 1000.0).Floor as real == x * 1000.0 }

  lemma Round3IsNearest(x: real)
    ensures InThousandths(Round3(x)) && -0.0005 <= Round3(x) - x <= 0.0005
  {
    var n := Round(x * 1000.0);
    assert Round3(x) * 1000.0 == n as real;
    assert -0.5 <= n as real - x * 1000.0 <= 0.5;
  }

  /** The rows that `active` names have one value for each band. */
  ghost predicate Spectra(s: seq<seq<real>>, active: seq<nat>, bins: nat) {
    forall j :: 0 <= j < |active| ==> active[j] < |s| && |s[active[j]]| == bins
  }

  /** The average of band k over n frames, as it is accumulated. */
  function BandMean(s: seq<seq<real>>, active: seq<nat>, bins: nat, n: nat, k: nat): real
    requires Spectra(s, active, bins) && n > 0 && k < bins
  {
    if active == [] then 0.0
    else
      var m := |active| - 1;
      assert Spectra(s, active[..m], bins) by { PrefixSpectra(s, active, bins, m); }
      BandMean(s, active[..m], bins, n, k) + s[active[m]][k] / (n as real)
  }

  lemma PrefixSpectra(s: seq<seq<real>>, active: seq<nat>, bins: nat, m: nat)
    requires Spectra(s, active, bins) && m <= |active|
    ensures Spectra(s, active[..m], bins)
  {}

  /** The active rows with the average of each band over time removed. */
  function Centre(s: seq<seq<real>>, active: seq<nat>, bins: nat): (r: seq<seq<real>>)
    requires Spectra(s, active, bins) && active != []
    ensures |r| == |active| && forall j :: 0 <= j < |r| ==> |r[j]| == bins
  {
    seq(|active|, j requires 0 <= j < |active| =>
      seq(bins, k requires 0 <= k < bins => s[active[j]][k] - BandMean(s, active, bins, |active|, k)))
  }

  function Flat(rows: seq<seq<real>>): seq<real> {
    if rows == [] then [] else Flat(rows[..|rows| - 1]) + rows[|rows| - 1]
  }

  lemma {:induction false} FlatLength(rows: seq<seq<real>>, bins: nat)
    requires forall j :: 0 <= j < |rows| ==> |rows[j]| == bins
    ensures |Flat(rows)| == |rows| * bins
  {
    if rows != [] {
      var m: nat := |rows| - 1;
      FlatLength(rows[..m], bins);
      assert (m + 1) * bins == m * bins + bins;
    }
  }

  /** The sum of the correlations of the frames, negative ones counting as none. */
  function FrameScores(ref: seq<seq<real>>, heard: seq<seq<real>>, active: seq<nat>, sqrt: real -> real): real
    requires Root(sqrt) && forall j :: 0 <= j < |active| ==> active[j] < |ref| && active[j] < |heard|
  {
    if active == [] then 0.0
    else
      var m := |active| - 1;
      FrameScores(ref, heard, active[..m], sqrt) + Max(PearsonOf(ref[active[m]], heard[active[m]], sqrt), 0.0)
  }

  /** The spectrum hardly moves, as that of a tone: the mean square of its changes is under 4. */
  predicate Stationary(ref: seq<seq<real>>, active: seq<nat>, bins: nat)
    requires Spectra(ref, active, bins) && active != [] && bins > 0
  {
    var flat := Flat(Centre(ref, active, bins));
    Dot(flat, flat) / (|active| * bins) as real < 4.0
  }

  function ScoreOf(ref: seq<seq<real>>, heard: seq<seq<real>>, active: seq<nat>, bins: nat, sqrt: real -> real): real
    requires Root(sqrt) && active != [] && bins > 0
    requires Spectra(ref, active, bins) && Spectra(heard, active, bins)
  {
    if Stationary(ref, active, bins) then Round3(FrameScores(ref, heard, active, sqrt) / (|active| as real))
    else
      var a, b := Flat(Centre(ref, active, bins)), Flat(Centre(heard, active, bins));
      FlatLength(Centre(ref, active, bins), bins);
      FlatLength(Centre(heard, active, bins), bins);
      EnergyIsZeroIff(a);
      EnergyIsZeroIff(b);
      if Dot(a, a) == 0.0 || Dot(b, b) == 0.0 then 0.0
      else Round3(Max(Ratio(Dot(a, b), Dot(a, a), Dot(b, b), sqrt), 0.0))
  }

  /* ---- The loops of spectralScore ---- */

  /** Removes from each band of the active rows its average over time. */
  method CentreBands(s: seq<seq<real>>, active: seq<nat>, bins: nat) returns (out: seq<seq<real>>)
    requires Spectra(s, active, bins) && active != []
    ensures out == Centre(s, active, bins)
  {
    hide Spectra, BandMean;
    var n := |active|;
    var mean := new real[bins](_ => 0.0);
    NoBandMeans(s, bins, n);
    assert active[..0] == [];
    for j := 0 to n
      invariant Spectra(s, active[..j], bins)
      invariant forall k :: 0 <= k < bins ==> mean[k] == BandMean(s, active[..j], bins, n, k)
    {
      PrefixSpectra(s, active, bins, j + 1);
      var row := SpectraRow(s, active, bins, j);
      for k := 0 to bins
        invariant forall i :: 0 <= i < k ==> mean[i] == BandMean(s, active[..j + 1], bins, n, i)
        invariant forall i :: k <= i < bins ==> mean[i] == BandMean(s, active[..j], bins, n, i)
      {
        BandMeanStep(s, active, bins, n, k, j);
        mean[k] := mean[k] + row[k] / (n as real);
      }
    }
    assert active[..n] == active;
    out := [];
    for j := 0 to n
      invariant out == Centre(s, active, bins)[..j]
      invariant forall k :: 0 <= k < bins ==> mean[k] == BandMean(s, active, bins, n, k)
    {
      var centred := new real[bins](_ => 0.0);
      var row := SpectraRow(s, active, bins, j);
      for k := 0 to bins
        modifies centred
        invariant forall i :: 0 <= i < k ==> centred[i] == Centre(s, active, bins)[j][i]
      {
        centred[k] := row[k] - mean[k];
      }
      assert centred[..] == Centre(s, active, bins)[j];
      out := out + [centred[..]];
    }
  }

  function SpectraRow(s: seq<seq<real>>, active: seq<nat>, bins: nat, j: nat): (r: seq<real>)
    requires Spectra(s, active, bins) && j < |active|
    ensures active[j] < |s| && r == s[active[j]] && |r| == bins
  {
    s[active[j]]
  }

  lemma NoBandMeans(s: seq<seq<real>>, bins: nat, n: nat)
    requires n > 0
    ensures Spectra(s, [], bins) && forall k :: 0 <= k < bins ==> BandMean(s, [], bins, n, k) == 0.0
  {}

  lemma BandMeanStep(s: seq<seq<real>>, active: seq<nat>, bins: nat, n: nat, k: nat, j: nat)
    requires Spectra(s, active, bins) && n > 0 && k < bins && j < |active|
    requires Spectra(s, active[..j], bins) && Spectra(s, active[..j + 1], bins)
    ensures active[j] < |s| && k < |s[active[j]]|
    ensures BandMean(s, active[..j + 1], bins, n, k)
            == BandMean(s, active[..j], bins, n, k) + s[active[j]][k] / (n as real)
  {
    assert active[..j + 1][..j] == active[..j];
  }

  lemma DotMore(a: seq<real>, b: seq<real>, x: real, y: real)
    requires |a| == |b|
    ensures Dot(a + [x], b + [y]) == Dot(a, b) + Product(x, y)
  {
    hide Dot, Product;
    var c, d := a + [x], b + [y];
    assert c[..|a|] == a && d[..|a|] == b && c[..|a| + 1] == c && d[..|a| + 1] == d;
    DotStep(c, d, |a|);
  }

  function FlatTo(rows: seq<seq<real>>, j: nat, k: nat): seq<real>
    requires j < |rows| && k <= |rows[j]|
  {
    Flat(rows[..j]) + rows[j][..k]
  }

  lemma FlatRow(rows: seq<seq<real>>, j: nat)
    requires j < |rows|
    ensures Flat(rows[..j + 1]) == FlatTo(rows, j, |rows[j]|)
    ensures FlatTo(rows, j, 0) == Flat(rows[..j])
    ensures forall k :: 0 <= k < |rows[j]| ==> FlatTo(rows, j, k + 1) == FlatTo(rows, j, k) + [rows[j][k]]
  {
    assert rows[..j + 1][..j] == rows[..j];
    assert rows[j][..|rows[j]|] == rows[j];
    forall k | 0 <= k < |rows[j]|
      ensures FlatTo(rows, j, k + 1) == FlatTo(rows, j, k) + [rows[j][k]]
    {
      assert rows[j][..k + 1] == rows[j][..k] + [rows[j][k]];
    }
  }

  /** The products of two tables, row by row. */
  method TableProducts(a: seq<seq<real>>, b: seq<seq<real>>, ghost bins: nat) returns (dot: real, e1: real, e2: real)
    requires |a| == |b| && forall j :: 0 <= j < |a| ==> |a[j]| == |b[j]| == bins
    ensures |Flat(a)| == |Flat(b)|
    ensures dot == Dot(Flat(a), Flat(b)) && e1 == Dot(Flat(a), Flat(a)) && e2 == Dot(Flat(b), Flat(b))
  {
    hide Dot, Flat, FlatTo, Product;
    FlatLength(a, bins);
    FlatLength(b, bins);
    dot, e1, e2 := 0.0, 0.0, 0.0;
    EmptyFlat();
    assert a[..0] == [] && b[..0] == [];
    for j := 0 to |a|
      invariant |Flat(a[..j])| == |Flat(b[..j])|
      invariant dot == Dot(Flat(a[..j]), Flat(b[..j]))
      invariant e1 == Dot(Flat(a[..j]), Flat(a[..j])) && e2 == Dot(Flat(b[..j]), Flat(b[..j]))
    {
      FlatRow(a, j);
      FlatRow(b, j);
      for k := 0 to |a[j]|
        invariant |FlatTo(a, j, k)| == |FlatTo(b, j, k)|
        invariant dot == Dot(FlatTo(a, j, k), FlatTo(b, j, k))
        invariant e1 == Dot(FlatTo(a, j, k), FlatTo(a, j, k)) && e2 == Dot(FlatTo(b, j, k), FlatTo(b, j, k))
      {
        var x, y := a[j][k], b[j][k];
        DotMore(FlatTo(a, j, k), FlatTo(b, j, k), x, y);
        DotMore(FlatTo(a, j, k), FlatTo(a, j, k), x, x);
        DotMore(FlatTo(b, j, k), FlatTo(b, j, k), y, y);
        dot, e1, e2 := dot + Product(x, y), e1 + Product(x, x), e2 + Product(y, y);
      }
    }
    assert a[..|a|] == a && b[..|a|] == b;
  }

  lemma EmptyFlat()
    ensures Flat([]) == [] && Dot([], []) == 0.0
  {}

  method SpectralScore(ref: seq<seq<real>>, heard: seq<seq<real>>, active: seq<nat>, bins: nat,
                       sqrt: real -> real) returns (score: real)
    requires Root(sqrt) && active != [] && bins > 0
    requires Spectra(ref, active, bins) && Spectra(heard, active, bins)
    ensures score == ScoreOf(ref, heard, active, bins, sqrt)
  {
    hide Flat, Ratio, Dot, Round3, PearsonOf, Centre, BandMean;
    var rc := CentreBands(ref, active, bins);
    var hc := CentreBands(heard, active, bins);
    var dot, e1, e2 := TableProducts(rc, hc, bins);
    if e1 / (|active| * bins) as real < 4.0 {
      var sum := 0.0;
      for j := 0 to |active|
        invariant sum == FrameScores(ref, heard, active[..j], sqrt)
      {
        assert active[..j + 1][..j] == active[..j];
        var c := Pearson(ref[active[j]], heard[active[j]], sqrt);
        sum := sum + Max(c, 0.0);
      }
      assert active[..|active|] == active;
      return Round3(sum / (|active| as real));
    }
    EnergyIsZeroIff(Flat(rc));
    EnergyIsZeroIff(Flat(hc));
    if e1 == 0.0 || e2 == 0.0 {
      return 0.0;
    }
    return Round3(Max(Ratio(dot, e1, e2, sqrt), 0.0));
  }

  lemma {:induction false} FrameScoresBound(ref: seq<seq<real>>, heard: seq<seq<real>>, active: seq<nat>,
                                            sqrt: real -> real)
    requires Root(sqrt) && forall j :: 0 <= j < |active| ==> active[j] < |ref| && active[j] < |heard|
    ensures 0.0 <= FrameScores(ref, heard, active, sqrt) <= |active| as real
  {
    hide PearsonOf;
    if active != [] {
      var m := |active| - 1;
      FrameScoresBound(ref, heard, active[..m], sqrt);
      PearsonBounds(ref[active[m]], heard[active[m]], sqrt);
    }
  }

  lemma ShareBounds(x: real, n: nat)
    requires n > 0 && 0.0 <= x <= n as real
    ensures 0.0 <= x / (n as real) <= 1.0
  {
    var y := n as real;
    assert x / y * y == x && (1.0 - x / y) * y == y - x;
    SameSign(x / y, y);
    SameSign(1.0 - x / y, y);
  }

  /** Every score is a share: between 0 and 1, for tones and for speech. */
  lemma ScoreBounds(ref: seq<seq<real>>, heard: seq<seq<real>>, active: seq<nat>, bins: nat, sqrt: real -> real)
    requires Root(sqrt) && active != [] && bins > 0
    requires Spectra(ref, active, bins) && Spectra(heard, active, bins)
    ensures 0.0 <= ScoreOf(ref, heard, active, bins, sqrt) <= 1.0
  {
    hide Round3, Ratio, FrameScores, PearsonOf, Flat, Centre;
    if Stationary(ref, active, bins) {
      FrameScoresBound(ref, heard, active, sqrt);
      ShareBounds(FrameScores(ref, heard, active, sqrt), |active|);
      RoundedShare(FrameScores(ref, heard, active, sqrt) / (|active| as real));
    } else {
      var a, b := Flat(Centre(ref, active, bins)), Flat(Centre(heard, active, bins));
      FlatLength(Centre(ref, active, bins), bins);
      FlatLength(Centre(heard, active, bins), bins);
      EnergyIsZeroIff(a);
      EnergyIsZeroIff(b);
      if Dot(a, a) != 0.0 && Dot(b, b) != 0.0 {
        RatioBounds(a, b, sqrt);
        RoundedShare(Max(Ratio(Dot(a, b), Dot(a, a), Dot(b, b), sqrt), 0.0));
      }
    }
  }

  /** Two frames of one band are a tone exactly if they differ by less than 4 dB. */
  lemma TwoFramesAreTone(x: real, y: real)
    ensures Stationary([[x], [y]], [0, 1], 1) <==> -4.0 < y - x < 4.0
  {
    var s, active, d := [[x], [y]], [0, 1], (y - x) / 2.0;
    TwoFrameMean(x, y);
    hide BandMean;
    var rows := Centre(s, active, 1);
    assert rows[0] == [-d] && rows[1] == [d];
    assert rows == [[-d], [d]];
    TwoRows(d);
    SquareBelowFour(d);
  }

  lemma TwoRows(d: real)
    ensures Flat([[-d], [d]]) == [-d, d] && Dot([-d, d], [-d, d]) == 2.0 * (d * d)
  {
    var a := [-d, d];
    assert [[-d], [d]][..1] == [[-d]] && Flat([[-d]]) == Flat([]) + [-d];
    assert a[..1] == [-d] && [-d][..0] == [];
    assert Dot([-d], [-d]) == Dot([], []) + Product(-d, -d);
    assert Dot(a, a) == Dot([-d], [-d]) + Product(d, d);
  }

  lemma SquareBelowFour(d: real)
    ensures d * d < 4.0 <==> -2.0 < d < 2.0
  {
    if d >= 2.0 {
      assert d * d >= 2.0 * d;
    } else if d <= -2.0 {
      assert -d * -d >= 2.0 * -d;
    } else if d >= 0.0 {
      assert d * d <= 2.0 * d;
    } else {
      assert -d * -d <= 2.0 * -d;
    }
  }

  lemma TwoFrameMean(x: real, y: real)
    ensures BandMean([[x], [y]], [0, 1], 1, 2, 0) == (x + y) / 2.0
  {
    var s, active := [[x], [y]], [0, 1];
    assert active[..1] == [0] && active[..1][..0] == [];
    assert BandMean(s, [], 1, 2, 0) == 0.0;
    assert BandMean(s, [0], 1, 2, 0) == x / 2.0;
  }

  /** Every score is in thousandths. */
  lemma ScoreInThousandths(ref: seq<seq<real>>, heard: seq<seq<real>>, active: seq<nat>, bins: nat,
                           sqrt: real -> real)
    requires Root(sqrt) && active != [] && bins > 0
    requires Spectra(ref, active, bins) && Spectra(heard, active, bins)
    ensures InThousandths(ScoreOf(ref, heard, active, bins, sqrt))
  {
    hide Round3, Ratio, FrameScores, Flat, Centre, Dot;
    if Stationary(ref, active, bins) {
      Round3IsNearest(FrameScores(ref, heard, active, sqrt) / (|active| as real));
    } else {
      var a, b := Flat(Centre(ref, active, bins)), Flat(Centre(heard, active, bins));
      FlatLength(Centre(ref, active, bins), bins);
      FlatLength(Centre(heard, active, bins), bins);
      EnergyIsZeroIff(a);
      EnergyIsZeroIff(b);
      if Dot(a, a) != 0.0 && Dot(b, b) != 0.0 {
        Round3IsNearest(Max(Ratio(Dot(a, b), Dot(a, a), Dot(b, b), sqrt), 0.0));
      }
    }
  }

  /* ---- The score ignores the level ---- */

  /** The same spectrogram, g dB louder. */
  ghost predicate AtLevel(s: seq<seq<real>>, t: seq<seq<real>>, active: seq<nat>, bins: nat, g: real) {
    && Spectra(s, active, bins) && Spectra(t, active, bins)
    && forall j :: 0 <= j < |active| ==> t[active[j]] == Louder(s[active[j]], g)
  }

  lemma {:induction false} BandMeanOfLouder(s: seq<seq<real>>, t: seq<seq<real>>, active: seq<nat>, bins: nat,
                                            g: real, n: nat, k: nat)
    requires AtLevel(s, t, active, bins, g) && n > 0 && k < bins
    ensures BandMean(t, active, bins, n, k) == BandMean(s, active, bins, n, k) + (|active| as real) * (g / (n as real))
  {
    if active != [] {
      var m := |active| - 1;
      BandMeanOfLouder(s, t, active[..m], bins, g, n, k);
      hide BandMean, Louder, AtLevel;
      LouderStep(BandMean(s, active[..m], bins, n, k), s[active[m]][k], g, n as real, m as real);
    }
  }

  lemma LouderStep(mean: real, v: real, g: real, n: real, m: real)
    requires n != 0.0
    ensures mean + m * (g / n) + (v + g) / n == mean + v / n + (m + 1.0) * (g / n)
  {
    assert (v + g) / n == v / n + g / n;
    assert (m + 1.0) * (g / n) == m * (g / n) + g / n;
  }

  lemma CentreIgnoresLevel(s: seq<seq<real>>, t: seq<seq<real>>, active: seq<nat>, bins: nat, g: real)
    requires AtLevel(s, t, active, bins, g) && active != []
    ensures Centre(t, active, bins) == Centre(s, active, bins)
  {
    hide BandMean;
    var n := |active|;
    assert (n as real) * (g / (n as real)) == g;
    forall j, k | 0 <= j < n && 0 <= k < bins
      ensures Centre(t, active, bins)[j][k] == Centre(s, active, bins)[j][k]
    {
      BandMeanOfLouder(s, t, active, bins, g, n, k);
    }
    forall j | 0 <= j < n
      ensures Centre(t, active, bins)[j] == Centre(s, active, bins)[j]
    {
    }
  }

  lemma {:induction false} FrameScoresIgnoreLevel(ref: seq<seq<real>>, s: seq<seq<real>>, t: seq<seq<real>>,
                                                  active: seq<nat>, bins: nat, g: real, sqrt: real -> real)
    requires Root(sqrt) && AtLevel(s, t, active, bins, g) && Spectra(ref, active, bins)
    ensures FrameScores(ref, t, active, sqrt) == FrameScores(ref, s, active, sqrt)
  {
    hide PearsonOf;
    if active != [] {
      var m := |active| - 1;
      FrameScoresIgnoreLevel(ref, s, t, active[..m], bins, g, sqrt);
      PearsonIgnoresLevel(ref[active[m]], s[active[m]], g, sqrt);
    }
  }

  /** A recording that is g dB louder or quieter throughout has the same score. */
  lemma ScoreIgnoresLevel(ref: seq<seq<real>>, s: seq<seq<real>>, t: seq<seq<real>>, active: seq<nat>, bins: nat,
                          g: real, sqrt: real -> real)
    requires Root(sqrt) && active != [] && bins > 0
    requires AtLevel(s, t, active, bins, g) && Spectra(ref, active, bins)
    ensures ScoreOf(ref, t, active, bins, sqrt) == ScoreOf(ref, s, active, bins, sqrt)
  {
    hide Round3, Ratio, FrameScores, Flat, Centre;
    CentreIgnoresLevel(s, t, active, bins, g);
    FrameScoresIgnoreLevel(ref, s, t, active, bins, g, sqrt);
  }

  /** Speech that is heard as it was sent, at any level, scores 1. */
  lemma PerfectCopyScoresOne(ref: seq<seq<real>>, heard: seq<seq<real>>, active: seq<nat>, bins: nat, g: real,
                             sqrt: real -> real)
    requires Root(sqrt) && active != [] && bins > 0
    requires AtLevel(ref, heard, active, bins, g) && !Stationary(ref, active, bins)
    ensures ScoreOf(ref, heard, active, bins, sqrt) == 1.0
  {
    hide Flat, Centre, BandMean, FrameScores;
    CentreIgnoresLevel(ref, heard, active, bins, g);
    var a := Flat(Centre(ref, active, bins));
    EnergyIsZeroIff(a);
    ZeroShare(|active| * bins);
    assert Multiple(a, a, 1.0);
    RatioIsOneIff(a, a, sqrt);
    assert Round3(1.0) == 1.0;
  }

  /** Two of the values differ. */
  predicate HasShape(a: seq<real>) {
    exists i, k :: 0 <= i < k < |a| && a[i] != a[k]
  }

  lemma ShapeHasEnergy(a: seq<real>)
    requires HasShape(a)
    ensures |a| >= 2 && Dot(Centred(a), Centred(a)) > 0.0
  {
    hide Dot;
    EnergyIsZeroIff(Centred(a));
    var i, k :| 0 <= i < k < |a| && a[i] != a[k];
    assert Centred(a)[i] != Centred(a)[k];
  }

  /** A signal with a shape correlates perfectly with itself at any level. */
  lemma PearsonOfCopy(a: seq<real>, b: seq<real>, g: real, sqrt: real -> real)
    requires Root(sqrt) && |b| >= |a| >= 2 && Dot(Centred(a), Centred(a)) != 0.0 && b[..|a|] == Louder(a, g)
    ensures PearsonOf(a, b, sqrt) == 1.0
  {
    hide Dot, Ratio, Root;
    var n, x := |a|, Centred(a);
    assert a[..n] == a;
    CentredIgnoresLevel(a, g);
    EnergyIsZeroIff(x);
    assert Multiple(x, x, 1.0);
    RatioIsOneIff(x, x, sqrt);
  }

  lemma {:induction false} CopiedFramesScore(ref: seq<seq<real>>, heard: seq<seq<real>>, active: seq<nat>, bins: nat,
                                             g: real, sqrt: real -> real)
    requires Root(sqrt) && AtLevel(ref, heard, active, bins, g)
    requires forall j :: 0 <= j < |active| ==> HasShape(ref[active[j]])
    ensures FrameScores(ref, heard, active, sqrt) == |active| as real
  {
    hide PearsonOf, HasShape, Root;
    if active != [] {
      var m := |active| - 1;
      CopiedFramesScore(ref, heard, active[..m], bins, g, sqrt);
      var row := ref[active[m]];
      ShapeHasEnergy(row);
      assert heard[active[m]][..|row|] == Louder(row, g);
      PearsonOfCopy(row, heard[active[m]], g, sqrt);
    }
  }

  /** A tone that is heard as it was sent, at any level, scores 1, if the spectrum of no speech frame is flat. */
  lemma PerfectToneScoresOne(ref: seq<seq<real>>, heard: seq<seq<real>>, active: seq<nat>, bins: nat, g: real,
                             sqrt: real -> real)
    requires Root(sqrt) && active != [] && bins > 0
    requires AtLevel(ref, heard, active, bins, g) && Stationary(ref, active, bins)
    requires forall j :: 0 <= j < |active| ==> HasShape(ref[active[j]])
    ensures ScoreOf(ref, heard, active, bins, sqrt) == 1.0
  {
    hide FrameScores, HasShape, Root, Round3;
    CopiedFramesScore(ref, heard, active, bins, g, sqrt);
    WholeShare(|active|);
  }

  lemma WholeShare(n: nat)
    requires n > 0
    ensures Round3(n as real / n as real) == 1.0
  {
    var y := n as real;
    assert y / y == 1.0;
    assert Round3(1.0) == 1.0;
  }

  lemma ZeroShare(n: nat)
    requires n > 0
    ensures 0.0 / n as real == 0.0
  {}
}
