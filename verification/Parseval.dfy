/** The transform of media/quality.go neither adds nor loses energy (Parseval's theorem). */
module Parseval {
  import opened ComplexNumbers
  import opened BitReversal
  import opened Fft
  import Spectrum
  import opened Quality
  import Correlation

  /** The energy of a signal. */
  function Energy(x: seq<Complex>): real {
    if x == [] then 0.0 else Energy(x[..|x| - 1]) + Power(x[|x| - 1])
  }

  /** The energy of n samples of x taken s apart from o. */
  function Strided(x: seq<Complex>, o: nat, s: nat, n: nat): real {
    if n == 0 then 0.0 else Strided(x, o, s, n - 1) + Power(At(x, o + s * (n - 1)))
  }

  /** The energy of `count` values of their transform, from k on. */
  function Bins(x: seq<Complex>, o: nat, s: nat, w: Complex, n: nat, k: nat, count: nat): real {
    if count == 0 then 0.0
    else Bins(x, o, s, w, n, k, count - 1) + Power(Sum(x, o, s, w, k + count - 1, n))
  }

  lemma {:induction false} StridedSplit(x: seq<Complex>, o: nat, s: nat, h: nat)
    ensures Strided(x, o, s, 2 * h) == Strided(x, o, 2 * s, h) + Strided(x, o + s, 2 * s, h)
  {
    hide At, Power;
    if h > 0 {
      var j := h - 1;
      StridedSplit(x, o, s, j);
      assert s * (2 * j) == 2 * s * j && s * (2 * j + 1) == s + 2 * s * j;
      assert Strided(x, o, s, 2 * h) == Strided(x, o, s, 2 * j + 1) + Power(At(x, o + s * (2 * j + 1)));
      assert Strided(x, o, s, 2 * j + 1) == Strided(x, o, s, 2 * j) + Power(At(x, o + s * (2 * j)));
    }
  }

  lemma {:induction false} BinsSplit(x: seq<Complex>, o: nat, s: nat, w: Complex, n: nat, a: nat, b: nat)
    ensures Bins(x, o, s, w, n, 0, a + b) == Bins(x, o, s, w, n, 0, a) + Bins(x, o, s, w, n, a, b)
  {
    hide Sum, Power;
    if b > 0 {
      BinsSplit(x, o, s, w, n, a, b - 1);
      assert a + b - 1 == a + (b - 1);
    }
  }

  lemma PowerMul(a: Complex, b: Complex)
    ensures Power(Mul(a, b)) == Power(a) * Power(b) && Power(a) >= 0.0
  {}

  lemma PowerOfButterfly(a: Complex, t: Complex)
    ensures Power(Add(a, t)) + Power(Sub(a, t)) == 2.0 * (Power(a) + Power(t))
  {}

  lemma {:induction false} UnitPower(w: Complex, k: nat)
    requires Power(w) == 1.0
    ensures Power(Pow(w, k)) == 1.0
  {
    if k > 0 {
      UnitPower(w, k - 1);
      PowerMul(Pow(w, k - 1), w);
    }
  }

  lemma UnitRoot(z: Complex)
    requires Power(Mul(z, z)) == 1.0
    ensures Power(z) == 1.0
  {
    PowerMul(z, z);
    OneIsItsRoot(Power(z));
  }

  lemma OneIsItsRoot(p: real)
    requires p >= 0.0 && p * p == 1.0
    ensures p == 1.0
  {
    if p < 1.0 {
      SquareBelow(p);
    } else if p > 1.0 {
      SquareAbove(p);
    }
  }

  lemma SquareBelow(p: real)
    requires 0.0 <= p < 1.0
    ensures p * p < 1.0
  {
    assert p * p <= 1.0 * p;
  }

  lemma SquareAbove(p: real)
    requires p > 1.0
    ensures p * p > 1.0
  {
    assert p * p >= 1.0 * p;
  }

  /** Every twiddle lies on the unit circle. */
  lemma {:induction false} TwiddleIsUnit(w: nat -> Complex, n: nat, l: nat)
    requires Twiddles(w, n) && 2 * Pow2(l) <= n
    ensures Power(w(2 * Pow2(l))) == 1.0
    decreases l
  {
    if l == 0 {
      assert Power(MINUS_ONE) == 1.0;
    } else {
      var h := Pow2(l - 1);
      TwiddleIsUnit(w, n, l - 1);
      hide Mul, Power;
      assert Pow2(l) == 2 * h;
      assert Mul(w(2 * Pow2(l)), w(2 * Pow2(l))) == w(Pow2(l));
      UnitRoot(w(2 * Pow2(l)));
    }
  }

  lemma {:induction false} HalfBins(x: seq<Complex>, o: nat, s: nat, w: Complex, h: nat, count: nat)
    requires Pow(w, h) == MINUS_ONE && Pow(Mul(w, w), h) == ONE && Power(w) == 1.0
    ensures Bins(x, o, s, w, 2 * h, 0, count) + Bins(x, o, s, w, 2 * h, h, count)
            == 2.0 * (Bins(x, o, 2 * s, Mul(w, w), h, 0, count) + Bins(x, o + s, 2 * s, Mul(w, w), h, 0, count))
  {
    hide Mul, Add, Sub, Pow, Sum, Power;
    if count > 0 {
      var k := count - 1;
      HalfBins(x, o, s, w, h, k);
      var even, odd := Sum(x, o, 2 * s, Mul(w, w), k, h), Sum(x, o + s, 2 * s, Mul(w, w), k, h);
      HalfSums(x, o, s, w, k, h);
      PowerOfButterfly(even, Mul(odd, Pow(w, k)));
      PowerMul(odd, Pow(w, k));
      UnitPower(w, k);
      assert h + count - 1 == k + h && 0 + count - 1 == k;
    }
  }

  lemma {:induction false} StridedEnergy(x: seq<Complex>, o: nat, s: nat, w: nat -> Complex, n: nat, l: nat)
    requires Twiddles(w, n) && Pow2(l) <= n
    ensures Bins(x, o, s, w(Pow2(l)), Pow2(l), 0, Pow2(l)) == Pow2(l) as real * Strided(x, o, s, Pow2(l))
    decreases l
  {
    hide *;
    if l == 0 {
      OneTerm(x, o, s, w(1));
      PowZero();
    } else {
      var h := Pow2(l - 1);
      LevelBelow(w, n, l);
      StridedEnergy(x, o, 2 * s, w, n, l - 1);
      StridedEnergy(x, o + s, 2 * s, w, n, l - 1);
      JoinedEnergy(x, o, s, w(2 * h), h);
    }
  }

  lemma PowZero()
    ensures Pow2(0) == 1
  {}

  lemma LevelBelow(w: nat -> Complex, n: nat, l: nat)
    requires l > 0 && Twiddles(w, n) && Pow2(l) <= n
    ensures var h := Pow2(l - 1); var v := w(2 * h);
            && Pow2(l) == 2 * h && h <= n && Mul(v, v) == w(h) && Power(v) == 1.0
            && Pow(v, h) == MINUS_ONE && Pow(w(h), h) == ONE
  {
    hide Mul, Pow, Power;
    HalfTurn(w, n, l - 1);
    TwiddleIsUnit(w, n, l - 1);
  }

  lemma JoinedEnergy(x: seq<Complex>, o: nat, s: nat, v: Complex, h: nat)
    requires Pow(v, h) == MINUS_ONE && Pow(Mul(v, v), h) == ONE && Power(v) == 1.0
    requires Bins(x, o, 2 * s, Mul(v, v), h, 0, h) == h as real * Strided(x, o, 2 * s, h)
    requires Bins(x, o + s, 2 * s, Mul(v, v), h, 0, h) == h as real * Strided(x, o + s, 2 * s, h)
    ensures Bins(x, o, s, v, 2 * h, 0, 2 * h) == (2 * h) as real * Strided(x, o, s, 2 * h)
  {
    hide Mul, Pow, Power, Bins, Strided;
    HalfBins(x, o, s, v, h, h);
    BinsSplit(x, o, s, v, 2 * h, h, h);
    StridedSplit(x, o, s, h);
    Doubled(h, Strided(x, o, 2 * s, h), Strided(x, o + s, 2 * s, h));
  }

  lemma OneTerm(x: seq<Complex>, o: nat, s: nat, w: Complex)
    ensures Bins(x, o, s, w, 1, 0, 1) == 1 as real * Strided(x, o, s, 1)
  {
    var a := At(x, o);
    assert s * 0 == 0 && Pow(w, 0 * 0) == ONE;
    assert Sum(x, o, s, w, 0, 1) == Add(Sum(x, o, s, w, 0, 0), Mul(a, ONE)) == a;
    assert Bins(x, o, s, w, 1, 0, 1) == Bins(x, o, s, w, 1, 0, 0) + Power(a);
    assert Strided(x, o, s, 1) == Strided(x, o, s, 0) + Power(a);
  }

  lemma Doubled(h: nat, a: real, b: real)
    ensures 2.0 * (h as real * a + h as real * b) == (2 * h) as real * (a + b)
  {}

  lemma {:induction false} WholeSignal(x: seq<Complex>, n: nat)
    requires n <= |x|
    ensures Energy(x[..n]) == Strided(x, 0, 1, n)
  {
    if n > 0 {
      WholeSignal(x, n - 1);
      assert x[..n][..n - 1] == x[..n - 1];
    }
  }

  lemma {:induction false} WholeTransform(x: seq<Complex>, w: Complex, n: nat)
    requires n <= |x|
    ensures Energy(Dft(x, w)[..n]) == Bins(x, 0, 1, w, |x|, 0, n)
  {
    hide Sum;
    if n > 0 {
      WholeTransform(x, w, n - 1);
      assert Dft(x, w)[..n][..n - 1] == Dft(x, w)[..n - 1];
    }
  }

  lemma Log(n: nat) returns (l: nat)
    requires IsPow2(n)
    ensures Pow2(l) == n
  {
    l :| Pow2(l) == n;
  }

  /** The transform of n samples has n times their energy. */
  lemma TransformKeepsEnergy(x: seq<Complex>, w: nat -> Complex)
    requires IsPow2(|x|) && Twiddles(w, |x|)
    ensures Energy(Dft(x, w(|x|))) == |x| as real * Energy(x)
  {
    hide *;
    var l := Log(|x|);
    var y := Dft(x, w(|x|));
    assert y[..|x|] == y && x[..|x|] == x;
    WholeSignal(x, |x|);
    WholeTransform(x, w(|x|), |x|);
    StridedEnergy(x, 0, 1, w, |x|, l);
  }

  /** The sum of the first n bins of a frame. */
  function PowerOfBins(frame: seq<int>, m: Spectrum.Maths, n: nat): real
    requires m.Valid() && |frame| == SPEC_FRAME && n <= SPEC_FRAME
  {
    if n == 0 then 0.0 else PowerOfBins(frame, m, n - 1) + Spectrum.BinPower(frame, m, n - 1)
  }

  lemma {:induction false} BinsOfFrame(frame: seq<int>, m: Spectrum.Maths, n: nat)
    requires m.Valid() && |frame| == SPEC_FRAME && n <= SPEC_FRAME
    ensures var x := Spectrum.Windowed(frame, m.window);
            PowerOfBins(frame, m, n) == Energy(Dft(x, m.twiddle(SPEC_FRAME))[..n]) / (SPEC_FRAME as real)
  {
    hide Spectrum.Windowed, Dft, Power, Correlation.Root, Twiddles;
    if n > 0 {
      BinsOfFrame(frame, m, n - 1);
      var y := Dft(Spectrum.Windowed(frame, m.window), m.twiddle(SPEC_FRAME));
      assert y[..n][..n - 1] == y[..n - 1];
    }
  }

  /** The sum of the squares of the first n windowed samples. */
  function WindowedEnergy(frame: seq<int>, window: seq<real>, n: nat): real
    requires n <= |frame| == |window|
  {
    if n == 0 then 0.0
    else
      var v := frame[n - 1] as real / MAX_INT16 * window[n - 1];
      WindowedEnergy(frame, window, n - 1) + v * v
  }

  lemma {:induction false} EnergyOfWindowed(frame: seq<int>, window: seq<real>, n: nat)
    requires n <= |frame| == |window|
    ensures Energy(Spectrum.Windowed(frame, window)[..n]) == WindowedEnergy(frame, window, n)
  {
    if n > 0 {
      EnergyOfWindowed(frame, window, n - 1);
      var x := Spectrum.Windowed(frame, window);
      assert x[..n][..n - 1] == x[..n - 1];
      hide Power;
      assert Power(x[n - 1]) == x[n - 1].re * x[n - 1].re by { RealPower(x[n - 1].re); }
    }
  }

  lemma RealPower(v: real)
    ensures Power(Complex(v, 0.0)) == v * v
  {}

  /** The bins of a frame share out the energy of its windowed samples. */
  lemma BinsShareEnergy(frame: seq<int>, m: Spectrum.Maths)
    requires m.Valid() && |frame| == SPEC_FRAME
    ensures PowerOfBins(frame, m, SPEC_FRAME) == WindowedEnergy(frame, m.window, SPEC_FRAME)
  {
    var x := Spectrum.Windowed(frame, m.window);
    ValidTwiddles(m);
    hide *;
    var y := Dft(x, m.twiddle(SPEC_FRAME));
    assert y[..SPEC_FRAME] == y && x[..SPEC_FRAME] == x;
    BinsOfFrame(frame, m, SPEC_FRAME);
    EnergyOfWindowed(frame, m.window, SPEC_FRAME);
    TransformKeepsEnergy(x, m.twiddle);
  }

  lemma ValidTwiddles(m: Spectrum.Maths)
    requires m.Valid()
    ensures Twiddles(m.twiddle, SPEC_FRAME) && IsPow2(SPEC_FRAME) && |m.window| == SPEC_FRAME == 256
  {
    Spectrum.FrameIsPow2();
  }
}
