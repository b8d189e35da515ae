/**
 * The spectrogram of media/quality.go: windowed frames, their transform, and the power of the telephone band in
 * dB.
 */
module Spectrum {
  import opened ComplexNumbers
  import opened BitReversal
  import Fft
  import opened Correlation
  import opened Quality

  const BAND_LO := 10

  /** What the source takes from its numeric library: square root, logarithm, window and the twiddle of each stage. */
  datatype Maths = Maths(sqrt: real -> real, log10: real -> real, window: seq<real>, twiddle: nat -> Complex) {
    ghost predicate Valid() {
      Root(sqrt) && |window| == SPEC_FRAME && Fft.Twiddles(twiddle, SPEC_FRAME)
    }
  }

  function Frames(x: seq<int>): nat
    requires |x| >= SPEC_FRAME
  {
    (|x| - SPEC_FRAME) / SPEC_HOP + 1
  }

  function Frame(x: seq<int>, f: nat): (r: seq<int>)
    requires |x| >= SPEC_FRAME && f < Frames(x)
    ensures |r| == SPEC_FRAME
  {
    x[f * SPEC_HOP..f * SPEC_HOP + SPEC_FRAME]
  }

  function Windowed(frame: seq<int>, window: seq<real>): (r: seq<Complex>)
    requires |frame| == |window|
    ensures |r| == |frame|
  {
    seq(|frame|, i requires 0 <= i < |frame| => Complex(frame[i] as real / MAX_INT16 * window[i], 0.0))
  }

  function BinPower(frame: seq<int>, m: Maths, k: nat): real
    requires m.Valid() && |frame| == SPEC_FRAME && k < SPEC_FRAME
  {
    Power(Fft.Dft(Windowed(frame, m.window), m.twiddle(SPEC_FRAME))[k]) / (SPEC_FRAME as real)
  }

  /** The band of one frame, from the discrete Fourier transform of its windowed samples. */
  function Row(frame: seq<int>, m: Maths): (r: seq<real>)
    requires m.Valid() && |frame| == SPEC_FRAME
    ensures |r| == BINS
  {
    seq(BINS, k requires 0 <= k < BINS => ToDb(BinPower(frame, m, BAND_LO + k), m.log10))
  }

  function Spectrogram(x: seq<int>, m: Maths): (r: seq<seq<real>>)
    requires |x| >= SPEC_FRAME && m.Valid()
    ensures |r| == Frames(x) && forall f :: 0 <= f < |r| ==> |r[f]| == BINS
  {
    seq(Frames(x), f requires 0 <= f < Frames(x) => Row(Frame(x, f), m))
  }

  function FrameLevels(x: seq<int>, m: Maths): (r: seq<real>)
    requires |x| >= SPEC_FRAME
    ensures |r| == Frames(x)
  {
    seq(Frames(x), f requires 0 <= f < Frames(x) => Level(Frame(x, f), m.log10))
  }

  lemma FrameIsPow2()
    ensures Pow2(8) == SPEC_FRAME && IsPow2(SPEC_FRAME)
  {
    assert Pow2(4) == 16;
  }

  /** One frame: its energy, its transform in the shared buffer, and the band of it. */
  method FrameRow(frame: seq<int>, m: Maths, buf: array<Complex>) returns (row: seq<real>, level: real)
    requires m.Valid() && |frame| == SPEC_FRAME == buf.Length
    modifies buf
    ensures row == Row(frame, m) && level == Level(frame, m.log10)
  {
    hide Dot, Product, ToDb, Root, Fft.Twiddles, Fft.Dft;
    var energy := 0.0;
    ghost var scaled := Scaled(frame);
    assert Dot(scaled[..0], scaled[..0]) == 0.0 by { EmptySums(); }
    for i := 0 to SPEC_FRAME
      invariant energy == Dot(scaled[..i], scaled[..i])
      invariant forall j :: 0 <= j < i ==> buf[j] == Windowed(frame, m.window)[j]
    {
      var v := frame[i] as real / MAX_INT16;
      DotStep(scaled, scaled, i);
      assert v == scaled[i];
      energy := energy + Product(v, v);
      buf[i] := Complex(v * m.window[i], 0.0);
    }
    DotWhole(scaled, scaled);
    assert buf[..] == Windowed(frame, m.window);
    FrameIsPow2();
    Fft.Transform(buf, m.twiddle);
    ghost var spectrum := buf[..];
    row := [];
    for k := 0 to BINS
      modifies {}
      invariant row == Row(frame, m)[..k]
    {
      var z := buf[BAND_LO + k];
      assert z == spectrum[BAND_LO + k];
      assert Power(z) / (SPEC_FRAME as real) == BinPower(frame, m, BAND_LO + k);
      row := row + [ToDb(Power(z) / (SPEC_FRAME as real), m.log10)];
    }
    level := ToDb(energy / (SPEC_FRAME as real), m.log10);
  }

  method MakeSpectrogram(x: seq<int>, m: Maths) returns (spec: seq<seq<real>>, levels: seq<real>)
    requires |x| >= SPEC_FRAME && m.Valid()
    ensures spec == Spectrogram(x, m) && levels == FrameLevels(x, m)
  {
    hide Row, Level, Root, Fft.Twiddles;
    spec, levels := [], [];
    var buf := new Complex[SPEC_FRAME](_ => ZERO);
    for f := 0 to Frames(x)
      invariant spec == Spectrogram(x, m)[..f] && levels == FrameLevels(x, m)[..f]
    {
      var row, level := FrameRow(Frame(x, f), m, buf);
      spec, levels := spec + [row], levels + [level];
    }
  }

  /* ---- Louder sound ---- */

  function Times(g: real, z: Complex): Complex { Complex(g * z.re, g * z.im) }

  lemma TimesAdd(g: real, a: Complex, b: Complex)
    ensures Add(Times(g, a), Times(g, b)) == Times(g, Add(a, b))
  {}

  lemma TimesMul(g: real, a: Complex, b: Complex)
    ensures Mul(Times(g, a), b) == Times(g, Mul(a, b))
  {}

  lemma TimesPower(g: real, z: Complex)
    ensures Power(Times(g, z)) == g * g * Power(z)
  {
    assert g * z.re * (g * z.re) == g * g * (z.re * z.re);
    assert g * z.im * (g * z.im) == g * g * (z.im * z.im);
  }

  /** Every sample of y is g times the one of x. */
  predicate TimesAll(x: seq<Complex>, y: seq<Complex>, g: real) {
    |x| == |y| && forall i :: 0 <= i < |x| ==> y[i] == Times(g, x[i])
  }

  lemma {:induction false} SumIsLinear(x: seq<Complex>, y: seq<Complex>, g: real, w: Complex, k: nat, n: nat)
    requires TimesAll(x, y, g)
    ensures Fft.Sum(y, 0, 1, w, k, n) == Times(g, Fft.Sum(x, 0, 1, w, k, n))
  {
    hide Mul, Add, Pow;
    if n > 0 {
      SumIsLinear(x, y, g, w, k, n - 1);
      var i: nat := n - 1;
      assert Fft.At(y, i) == Times(g, Fft.At(x, i));
      var p := Pow(w, i * k);
      hide Times, Fft.At;
      TimesMul(g, Fft.At(x, i), p);
      TimesAdd(g, Fft.Sum(x, 0, 1, w, k, i), Mul(Fft.At(x, i), p));
    } else {
      assert Times(g, ZERO) == ZERO;
    }
  }

  /** The same frame at g times the amplitude. */
  predicate Amplified(x: seq<int>, y: seq<int>, g: real) {
    |x| == |y| && forall i :: 0 <= i < |x| ==> y[i] as real == g * (x[i] as real)
  }

  lemma AmplifySample(x: real, g: real, u: real)
    ensures g * x / MAX_INT16 * u == g * (x / MAX_INT16 * u)
  {
    assert g * x / MAX_INT16 == g * (x / MAX_INT16);
  }

  lemma AmplifiedWindow(x: seq<int>, y: seq<int>, g: real, window: seq<real>)
    requires Amplified(x, y, g) && |x| == |window|
    ensures TimesAll(Windowed(x, window), Windowed(y, window), g)
  {
    forall i | 0 <= i < |x|
      ensures Windowed(y, window)[i] == Times(g, Windowed(x, window)[i])
    {
      AmplifySample(x[i] as real, g, window[i]);
    }
  }

  lemma AmplifiedPower(x: seq<int>, y: seq<int>, g: real, m: Maths, k: nat)
    requires m.Valid() && Amplified(x, y, g) && |x| == |y| == SPEC_FRAME && k < SPEC_FRAME
    ensures BinPower(y, m, k) == g * g * BinPower(x, m, k)
  {
    hide Power, Times, Fft.Twiddles, Root;
    var a, b, w := Windowed(x, m.window), Windowed(y, m.window), m.twiddle(SPEC_FRAME);
    AmplifiedWindow(x, y, g, m.window);
    SumIsLinear(a, b, g, w, k, SPEC_FRAME);
    hide Fft.Sum, Windowed;
    var z := Fft.Sum(a, 0, 1, w, k, SPEC_FRAME);
    assert Fft.Dft(a, w)[k] == z && Fft.Dft(b, w)[k] == Times(g, z);
    TimesPower(g, z);
    ShareOf(g * g, Power(z));
  }

  lemma ShareOf(g: real, p: real)
    ensures g * p / (SPEC_FRAME as real) == g * (p / (SPEC_FRAME as real))
  {}

  ghost predicate Logarithm(log10: real -> real) {
    forall x: real, y: real :: x > 0.0 && y > 0.0 ==> log10(Product(x, y)) == log10(x) + log10(y)
  }

  /** Not cut off at the floor. */
  predicate Measurable(power: real, log10: real -> real) {
    power > 0.0 && 10.0 * log10(power) >= FLOOR_DB
  }

  /** The gain of g times the amplitude, in dB. */
  function Decibels(g: real, log10: real -> real): real { 10.0 * log10(Product(g, g)) }

  lemma LouderDb(p: real, q: real, g: real, log10: real -> real)
    requires Logarithm(log10) && g > 0.0 && q == g * g * p
    requires Measurable(p, log10) && Measurable(q, log10)
    ensures ToDb(q, log10) == ToDb(p, log10) + Decibels(g, log10)
  {
    ProductPositive(g, g);
    var gain := Product(g, g);
    assert q == Product(gain, p);
    hide Product;
    assert log10(Product(gain, p)) == log10(gain) + log10(p);
  }

  /** Every bin of the band that is compared is above the floor. */
  ghost predicate AboveFloor(frame: seq<int>, m: Maths)
    requires m.Valid() && |frame| == SPEC_FRAME
  {
    forall k :: BAND_LO <= k < BAND_LO + BINS ==> Measurable(BinPower(frame, m, k), m.log10)
  }

  ghost predicate SpeechAboveFloor(x: seq<int>, active: seq<nat>, m: Maths)
    requires m.Valid() && |x| >= SPEC_FRAME
  {
    forall j :: 0 <= j < |active| ==> active[j] < Frames(x) && AboveFloor(Frame(x, active[j]), m)
  }

  /** An amplified frame has the same row, higher by the gain in every bin. */
  lemma AmplifiedRow(x: seq<int>, y: seq<int>, g: real, m: Maths)
    requires m.Valid() && Logarithm(m.log10) && g > 0.0 && Amplified(x, y, g) && |x| == |y| == SPEC_FRAME
    requires AboveFloor(x, m) && AboveFloor(y, m)
    ensures Row(y, m) == Louder(Row(x, m), Decibels(g, m.log10))
  {
    hide BinPower, ToDb, Amplified, Measurable, Decibels, Logarithm;
    forall k | 0 <= k < BINS
      ensures Row(y, m)[k] == Row(x, m)[k] + Decibels(g, m.log10)
    {
      AmplifiedPower(x, y, g, m, BAND_LO + k);
      LouderDb(BinPower(x, m, BAND_LO + k), BinPower(y, m, BAND_LO + k), g, m.log10);
    }
  }

  /**
   * The score does not depend on the volume of the recording: samples that are all g times as large give the same
   * score, as long as no bin of a speech frame is cut off at the floor.
   */
  lemma ScoreIgnoresVolume(ref: seq<int>, x: seq<int>, y: seq<int>, g: real, m: Maths, active: seq<nat>)
    requires m.Valid() && Logarithm(m.log10) && g > 0.0 && Amplified(x, y, g)
    requires |ref| == |x| == |y| >= SPEC_FRAME && active != [] && SpeechAboveFloor(x, active, m)
            && SpeechAboveFloor(y, active, m)
    ensures ScoreOf(Spectrogram(ref, m), Spectrogram(y, m), active, BINS, m.sqrt)
            == ScoreOf(Spectrogram(ref, m), Spectrogram(x, m), active, BINS, m.sqrt)
  {
    hide Row, AboveFloor, ScoreOf, Logarithm, Root;
    var s, t := Spectrogram(x, m), Spectrogram(y, m);
    forall j | 0 <= j < |active|
      ensures t[active[j]] == Louder(s[active[j]], Decibels(g, m.log10))
    {
      AmplifiedRow(Frame(x, active[j]), Frame(y, active[j]), g, m);
    }
    ScoreIgnoresLevel(Spectrogram(ref, m), s, t, active, BINS, Decibels(g, m.log10), m.sqrt);
  }
}
