/**
 * The volume of a recording does not matter to the comparison of media/quality.go: offset, score, gaps and clipped
 * start are the same for a recording that is g times as loud, as long as its levels stay above the floor of the
 * scale.
 */
module Volume {
  import opened Options
  import opened Correlation
  import opened Quality
  import opened Spectrum
  import opened Comparison

  /* ---- The waveform ---- */

  /** The root of e1 times g^2 e2. */
  lemma ScaledRoot(e1: real, e2: real, g: real, sqrt: real -> real, e3: real)
    requires Root(sqrt) && e1 > 0.0 && e2 > 0.0 && g > 0.0 && e3 == Square(g) * e2
    ensures e3 > 0.0 && e1 * e2 > 0.0 && e1 * e3 > 0.0
    ensures sqrt(e1 * e2) > 0.0 && sqrt(e1 * e3) == g * sqrt(e1 * e2)
  {
    NonZeroSquare(g);
    ProductPositive(Square(g), e2);
    ProductPositive(e1, e2);
    ProductPositive(e1, e3);
    var s, s3 := sqrt(e1 * e2), sqrt(e1 * e3);
    RootPositive(e1 * e2, sqrt);
    RootPositive(e1 * e3, sqrt);
    ProductPositive(g, s);
    assert e1 * e3 == Square(g) * (e1 * e2);
    SquareOfProduct(g, s);
    SameSquare(s3, g * s);
  }

  lemma SquareOfProduct(g: real, s: real)
    ensures g * s * (g * s) == Square(g) * (s * s)
  {}

  lemma ScaledQuotient(d: real, s: real, g: real, d2: real, s2: real)
    requires s > 0.0 && g > 0.0 && d2 == g * d && s2 == g * s
    ensures s2 > 0.0 && d2 / s2 == d / s
  {
    ProductPositive(g, s);
    var q := d / s;
    assert q * s == d;
    assert q * s2 == g * (q * s);
  }

  lemma RatioIs(d: real, e1: real, e2: real, sqrt: real -> real)
    requires Root(sqrt) && e1 > 0.0 && e2 > 0.0 && sqrt(e1 * e2) > 0.0
    ensures Ratio(d, e1, e2, sqrt) == d / sqrt(e1 * e2)
  {}

  lemma ScaledRatio(d: real, e1: real, e2: real, g: real, sqrt: real -> real, d2: real, e3: real)
    requires Root(sqrt) && e1 > 0.0 && e2 > 0.0 && g > 0.0 && d2 == g * d && e3 == Square(g) * e2
    ensures e3 > 0.0 && Ratio(d2, e1, e3, sqrt) == Ratio(d, e1, e2, sqrt)
  {
    hide Ratio, Root, Square;
    ScaledRoot(e1, e2, g, sqrt, e3);
    ProductPositive(g, sqrt(e1 * e2));
    RatioIs(d, e1, e2, sqrt);
    RatioIs(d2, e1, e3, sqrt);
    ScaledQuotient(d, sqrt(e1 * e2), g, d2, sqrt(e1 * e3));
  }

  lemma LouderDot(a: seq<real>, b: seq<real>, c: seq<real>, g: real)
    requires |a| == |b| == |c| && Multiple(b, c, g)
    ensures Dot(a, c) == g * Dot(a, b)
  {
    hide Dot, Multiple;
    MultipleDot(a, b, c, g, |a|);
    assert a[..|a|] == a && b[..|a|] == b && c[..|a|] == c;
  }

  lemma LouderEnergy(b: seq<real>, c: seq<real>, g: real)
    requires |b| == |c| && Multiple(b, c, g)
    ensures Dot(c, c) == Square(g) * Dot(b, b)
  {
    hide Dot, Multiple;
    MultipleEnergies(b, c, g);
  }

  /** The correlation of a signal with another one at g times the amplitude. */
  lemma RatioIgnoresVolume(a: seq<real>, b: seq<real>, c: seq<real>, g: real, sqrt: real -> real)
    requires Root(sqrt) && g > 0.0 && |a| == |b| == |c| && Multiple(b, c, g)
    ensures Dot(a, a) >= 0.0 && Dot(b, b) >= 0.0 && Dot(c, c) >= 0.0
    ensures Dot(c, c) == 0.0 <==> Dot(b, b) == 0.0
    ensures Dot(a, a) != 0.0 && Dot(b, b) != 0.0 ==>
              Ratio(Dot(a, c), Dot(a, a), Dot(c, c), sqrt) == Ratio(Dot(a, b), Dot(a, a), Dot(b, b), sqrt)
  {
    hide Dot, Ratio, Multiple, Square, Root;
    LouderDot(a, b, c, g);
    LouderEnergy(b, c, g);
    EnergyIsZeroIff(a);
    EnergyIsZeroIff(b);
    EnergyIsZeroIff(c);
    NonZeroSquare(g);
    SameSign(Dot(b, b), Square(g));
    if Dot(a, a) != 0.0 && Dot(b, b) != 0.0 {
      ScaledRatio(Dot(a, b), Dot(a, a), Dot(b, b), g, sqrt, Dot(a, c), Dot(c, c));
    }
  }

  lemma AmplifiedFloats(x: seq<int>, y: seq<int>, g: real, l: nat, n: nat)
    requires Amplified(x, y, g) && l + n <= |x| == |y|
    ensures Multiple(Floats(x[l..l + n]), Floats(y[l..l + n]), g)
  {}

  /** The correlation at one lag. */
  lemma FineScoreIgnoresVolume(ref: seq<int>, x: seq<int>, y: seq<int>, g: real, l: int, sqrt: real -> real)
    requires Root(sqrt) && g > 0.0 && Amplified(x, y, g)
    ensures FineScore(ref, y, l, sqrt) == FineScore(ref, x, l, sqrt)
  {
    hide Dot, Ratio, Root, Multiple;
    var n := FineLength(ref);
    if 0 <= l && l + n <= |x| {
      AmplifiedFloats(x, y, g, l, n);
      RatioIgnoresVolume(Floats(ref[..n]), Floats(x[l..l + n]), Floats(y[l..l + n]), g, sqrt);
    }
  }

  /* ---- The envelope ---- */

  /** The mean power of n samples that are all of x. */
  function MeanPower(x: seq<int>): real
    requires |x| > 0
  {
    Dot(Scaled(x), Scaled(x)) / (|x| as real)
  }

  lemma AmplifiedMeanPower(x: seq<int>, y: seq<int>, g: real)
    requires Amplified(x, y, g) && |x| == |y| > 0
    ensures MeanPower(y) == g * g * MeanPower(x)
  {
    hide Dot;
    assert Multiple(Scaled(x), Scaled(y), g) by {
      forall i | 0 <= i < |x|
        ensures Scaled(y)[i] == g * Scaled(x)[i]
      {
        AmplifySample(x[i] as real, g, 1.0);
      }
    }
    MultipleEnergies(Scaled(x), Scaled(y), g);
    MeanOfMultiple(g * g, Dot(Scaled(x), Scaled(x)), |x| as real);
  }

  lemma MeanOfMultiple(k: real, e: real, n: real)
    requires n != 0.0
    ensures k * e / n == k * (e / n)
  {}

  function Block(x: seq<int>, i: nat): (r: seq<int>)
    requires i < |x| / ENV_BLOCK
    ensures |r| == ENV_BLOCK
  {
    x[i * ENV_BLOCK..(i + 1) * ENV_BLOCK]
  }

  predicate BlockMeasurable(x: seq<int>, i: nat, log10: real -> real)
    requires i < |x| / ENV_BLOCK
  {
    Measurable(MeanPower(Block(x, i)), log10)
  }

  predicate AllMeasurable(x: seq<int>, log10: real -> real) {
    forall i :: 0 <= i < |x| / ENV_BLOCK ==> BlockMeasurable(x, i, log10)
  }

  lemma AmplifiedLevel(x: seq<int>, y: seq<int>, g: real, log10: real -> real, i: nat)
    requires Logarithm(log10) && g > 0.0 && Amplified(x, y, g) && i < |x| / ENV_BLOCK == |y| / ENV_BLOCK
    requires BlockMeasurable(x, i, log10) && BlockMeasurable(y, i, log10)
    ensures Envelope(y, log10)[i] == Envelope(x, log10)[i] + Decibels(g, log10)
  {
    hide Logarithm, Decibels, Dot, ToDb, Measurable;
    AmplifiedMeanPower(Block(x, i), Block(y, i), g);
    LouderDb(MeanPower(Block(x, i)), MeanPower(Block(y, i)), g, log10);
  }

  lemma AmplifiedEnvelope(x: seq<int>, y: seq<int>, g: real, log10: real -> real)
    requires Logarithm(log10) && g > 0.0 && Amplified(x, y, g)
    requires AllMeasurable(x, log10) && AllMeasurable(y, log10)
    ensures Envelope(y, log10) == Louder(Envelope(x, log10), Decibels(g, log10))
  {
    hide Logarithm, Decibels, Amplified, Level, BlockMeasurable;
    assert |x| == |y| by { SameLength(x, y, g); }
    forall i | 0 <= i < |x| / ENV_BLOCK
      ensures Envelope(y, log10)[i] == Envelope(x, log10)[i] + Decibels(g, log10)
    {
      AmplifiedLevel(x, y, g, log10, i);
    }
  }

  lemma SameLength(x: seq<int>, y: seq<int>, g: real)
    requires Amplified(x, y, g)
    ensures |x| == |y|
  {}

  /* ---- The lag ---- */

  /** A reference whose envelope has a shape is found at the same block. */
  lemma BestBlockIgnoresLevel(re: seq<real>, he: seq<real>, gain: real, sqrt: real -> real)
    requires Root(sqrt) && Variance(re) >= 1.0
    ensures BestBlock(re, Louder(he, gain), sqrt) == BestBlock(re, he, sqrt)
  {
    hide PearsonOf, Variance, Root, Best;
    var louder := Louder(he, gain);
    forall l | 0 <= l <= LastBlock(re, he)
      ensures CoarseScore(re, louder, l, sqrt) == CoarseScore(re, he, l, sqrt)
    {
      assert louder[l..] == Louder(he[l..], gain);
      PearsonIgnoresLevel(re, he[l..], gain, sqrt);
    }
    assert CoarseScores(re, louder, sqrt) == CoarseScores(re, he, sqrt);
  }

  lemma LagIgnoresVolume(ref: seq<int>, x: seq<int>, y: seq<int>, g: real, log10: real -> real, sqrt: real -> real)
    requires Root(sqrt) && Logarithm(log10) && g > 0.0 && Amplified(x, y, g)
    requires Variance(Envelope(ref, log10)) >= 1.0 && AllMeasurable(x, log10) && AllMeasurable(y, log10)
    ensures LagOf(ref, y, log10, sqrt) == LagOf(ref, x, log10, sqrt)
  {
    hide Logarithm, Amplified, AllMeasurable, Variance, BestBlock, FineScore, Level, Best, Decibels, Envelope;
    AmplifiedEnvelope(x, y, g, log10);
    BestBlockIgnoresLevel(Envelope(ref, log10), Envelope(x, log10), Decibels(g, log10), sqrt);
    var from := BestBlock(Envelope(ref, log10), Envelope(x, log10), sqrt) * ENV_BLOCK - ENV_BLOCK;
    forall l: int
      ensures FineScore(ref, y, l, sqrt) == FineScore(ref, x, l, sqrt)
    {
      FineScoreIgnoresVolume(ref, x, y, g, l, sqrt);
    }
    assert FineScores(ref, y, from, sqrt) == FineScores(ref, x, from, sqrt);
  }

  /* ---- Gaps ---- */

  lemma {:induction false} InsertLouder(x: real, s: seq<real>, gain: real)
    ensures Insert(x + gain, Louder(s, gain)) == Louder(Insert(x, s), gain)
  {
    if s != [] && s[|s| - 1] > x {
      InsertLouder(x, s[..|s| - 1], gain);
      assert Louder(s, gain)[..|s| - 1] == Louder(s[..|s| - 1], gain);
    }
  }

  lemma {:induction false} SortedLouder(s: seq<real>, gain: real)
    ensures Sorted(Louder(s, gain)) == Louder(Sorted(s), gain)
  {
    if s != [] {
      var before := s[..|s| - 1];
      SortedLouder(before, gain);
      assert Louder(s, gain)[..|s| - 1] == Louder(before, gain);
      InsertLouder(s[|s| - 1], Sorted(before), gain);
    }
  }

  /** The levels of these blocks differ by the gain, and the same ones are audible. */
  ghost predicate Shifted(hx: seq<real>, hy: seq<real>, blocks: seq<nat>, gain: real) {
    |hx| == |hy| &&
    forall j :: 0 <= j < |blocks| ==>
      blocks[j] < |hx| && hy[blocks[j]] == hx[blocks[j]] + gain && (Audible(hy[blocks[j]]) <==> Audible(hx[blocks[j]]))
  }

  lemma LouderMore(s: seq<real>, x: real, gain: real)
    ensures Louder(s + [x], gain) == Louder(s, gain) + [x + gain] && Louder([], gain) == []
  {}

  lemma DiffsMore(re: seq<real>, he: seq<real>, blocks: seq<nat>)
    requires Blocks(re, he, blocks) && blocks != []
    ensures var before, i := blocks[..|blocks| - 1], blocks[|blocks| - 1];
            && Blocks(re, he, before)
            && Diffs(re, he, blocks)
               == if Audible(he[i]) then Diffs(re, he, before) + [he[i] - re[i]] else Diffs(re, he, before)
  {}

  lemma {:induction false} DiffsLouder(re: seq<real>, hx: seq<real>, hy: seq<real>, blocks: seq<nat>, gain: real)
    requires Blocks(re, hx, blocks) && Blocks(re, hy, blocks) && Shifted(hx, hy, blocks, gain)
    ensures Diffs(re, hy, blocks) == Louder(Diffs(re, hx, blocks), gain)
  {
    if blocks == [] {
      LouderMore([], 0.0, gain);
    } else {
      hide Diffs, Louder, Audible;
      DiffsMore(re, hx, blocks);
      DiffsMore(re, hy, blocks);
      var m := |blocks| - 1;
      DiffsLouder(re, hx, hy, blocks[..m], gain);
      LouderMore(Diffs(re, hx, blocks[..m]), hx[blocks[m]] - re[blocks[m]], gain);
      assert hy[blocks[m]] - re[blocks[m]] == hx[blocks[m]] - re[blocks[m]] + gain;
    }
  }

  /** A block is a gap in both recordings or in neither. */
  lemma GapIgnoresVolume(re: seq<real>, hx: seq<real>, hy: seq<real>, blocks: seq<nat>, gain: real, j: nat)
    requires Blocks(re, hx, blocks) && Blocks(re, hy, blocks) && Shifted(hx, hy, blocks, gain)
    requires j < |blocks| && re[blocks[j]] >= ACTIVE_MIN
    ensures IsGap(re, hy, blocks[j], Gain(Diffs(re, hy, blocks))) <==>
              IsGap(re, hx, blocks[j], Gain(Diffs(re, hx, blocks)))
    ensures var d := Diffs(re, hx, blocks); d != [] ==> Gain(Diffs(re, hy, blocks)) == Gain(d) + gain
  {
    hide Sorted;
    var d := Diffs(re, hx, blocks);
    DiffsLouder(re, hx, hy, blocks, gain);
    SortedLouder(d, gain);
    hide Diffs;
    if d == [] {
      assert !Audible(hx[blocks[j]]) && !Audible(hy[blocks[j]]);
    }
  }

  lemma {:induction false} SameGaps(re: seq<real>, hx: seq<real>, hy: seq<real>, blocks: seq<nat>, gx: real, gy: real)
    requires Blocks(re, hx, blocks) && Blocks(re, hy, blocks)
    requires forall j :: 0 <= j < |blocks| ==> (IsGap(re, hy, blocks[j], gy) <==> IsGap(re, hx, blocks[j], gx))
    ensures GapCount(re, hy, blocks, gy) == GapCount(re, hx, blocks, gx)
    ensures forall n :: LeadingGaps(re, hy, blocks, gy, n) <==> LeadingGaps(re, hx, blocks, gx, n)
  {
    if blocks != [] {
      SameGaps(re, hx, hy, blocks[..|blocks| - 1], gx, gy);
    }
  }

  lemma LeadingGapsUnique(re: seq<real>, he: seq<real>, blocks: seq<nat>, gain: real, a: nat, b: nat)
    requires Blocks(re, he, blocks) && LeadingGaps(re, he, blocks, gain, a) && LeadingGaps(re, he, blocks, gain, b)
    ensures a == b
  {}

  /* ---- The speech frames are determined ---- */

  ghost predicate Increasing(s: seq<nat>) {
    forall j, k :: 0 <= j < k < |s| ==> s[j] < s[k]
  }

  lemma LastIsGreatest(s: seq<nat>, i: nat)
    requires Increasing(s) && s != []
    ensures i in s ==> i <= s[|s| - 1]
    ensures i in s[..|s| - 1] <==> i in s && i != s[|s| - 1]
  {
    assert s == s[..|s| - 1] + [s[|s| - 1]];
  }

  lemma {:induction false} IncreasingUnique(a: seq<nat>, b: seq<nat>)
    requires Increasing(a) && Increasing(b) && forall i :: i in a <==> i in b
    ensures a == b
  {
    assert |a| > 0 ==> a[|a| - 1] in a;
    assert |b| > 0 ==> b[|b| - 1] in b;
    if a != [] {
      var x, y, c, d := a[|a| - 1], b[|b| - 1], a[..|a| - 1], b[..|b| - 1];
      LastIsGreatest(a, y);
      LastIsGreatest(b, x);
      assert x == y;
      forall i
        ensures i in c <==> i in d
      {
        LastIsGreatest(a, i);
        LastIsGreatest(b, i);
      }
      IncreasingUnique(c, d);
      assert a == c + [x] && b == d + [y];
    }
  }

  lemma SpeechUnique(levels: seq<real>, a: seq<nat>, b: seq<nat>)
    requires SpeechBlocks(levels, a) && SpeechBlocks(levels, b)
    ensures a == b
  {
    hide IsSpeech;
    forall i
      ensures i in a <==> i in b
    {
    }
    IncreasingUnique(a, b);
  }

  /* ---- The whole comparison ---- */

  /** What must not be cut off in a recording for its volume not to matter. */
  ghost predicate Clear(ref: seq<int>, heard: seq<int>, m: Maths)
    requires m.Valid() && |ref| >= SPEC_FRAME
  {
    var part := Segment(heard, LagOf(ref, heard, m.log10, m.sqrt), |ref|);
    && AllMeasurable(heard, m.log10)
    && ClearFrames(ref, part, m) && ClearSpeech(ref, part, m)
  }

  ghost predicate ClearFrames(ref: seq<int>, part: seq<int>, m: Maths)
    requires m.Valid() && |ref| == |part| >= SPEC_FRAME
  {
    forall active :: SpeechBlocks(FrameLevels(ref, m), active) ==> SpeechAboveFloor(part, active, m)
  }

  lemma AmplifiedSegment(x: seq<int>, y: seq<int>, g: real, lag: nat, n: nat)
    requires Amplified(x, y, g)
    ensures Amplified(Segment(x, lag, n), Segment(y, lag, n), g)
  {}

  lemma SameScore(ref: seq<int>, px: seq<int>, py: seq<int>, g: real, m: Maths, a: real, b: real)
    requires m.Valid() && Logarithm(m.log10) && g > 0.0 && Amplified(px, py, g) && |ref| == |px| == |py| >= SPEC_FRAME
    requires ClearFrames(ref, px, m) && ClearFrames(ref, py, m)
    requires Scored(ref, px, m, a) && Scored(ref, py, m, b)
    ensures a == b
  {
    hide Logarithm, Amplified, SpeechAboveFloor, ScoreOf, FrameLevels, SpeechBlocks, Spectra, Root;
    var levels := FrameLevels(ref, m);
    var s :| SpeechBlocks(levels, s) && ScoredOver(ref, px, m, s, a);
    var t :| SpeechBlocks(levels, t) && ScoredOver(ref, py, m, t, b);
    SpeechUnique(levels, s, t);
    ScoreIgnoresVolume(ref, px, py, g, m, s);
  }

  lemma MedianLouder(re: seq<real>, hx: seq<real>, hy: seq<real>, blocks: seq<nat>, gain: real)
    requires Blocks(re, hx, blocks) && Blocks(re, hy, blocks) && Shifted(hx, hy, blocks, gain)
    ensures var dx, dy := Diffs(re, hx, blocks), Diffs(re, hy, blocks);
            (dx == [] <==> dy == []) && (dx != [] ==> Median(dy) == Median(dx) + gain)
  {
    hide Diffs, Sorted, Shifted;
    DiffsLouder(re, hx, hy, blocks, gain);
    SortedLouder(Diffs(re, hx, blocks), gain);
  }

  lemma SameOver(re: seq<real>, hx: seq<real>, hy: seq<real>, gain: real, blocks: seq<nat>,
                 gaps: nat, clipped: nat, gx: real, gaps2: nat, clipped2: nat, gy: real)
    requires SpeechBlocks(re, blocks) && Shifted(hx, hy, blocks, gain)
    requires MeasuredOver(re, hx, blocks, gaps, clipped, gx) && MeasuredOver(re, hy, blocks, gaps2, clipped2, gy)
    ensures gaps == gaps2 && clipped == clipped2
    ensures Diffs(re, hx, blocks) != [] ==> gy == gx + gain
  {
    hide GapCount, LeadingGaps, Sorted, Peak, IsGap, Shifted, Audible;
    forall j | 0 <= j < |blocks|
      ensures IsGap(re, hy, blocks[j], Gain(Diffs(re, hy, blocks))) <==>
                IsGap(re, hx, blocks[j], Gain(Diffs(re, hx, blocks)))
    {
      GapIgnoresVolume(re, hx, hy, blocks, gain, j);
    }
    MedianLouder(re, hx, hy, blocks, gain);
    hide Diffs, Gain;
    var dx, dy := Gain(Diffs(re, hx, blocks)), Gain(Diffs(re, hy, blocks));
    SameGaps(re, hx, hy, blocks, dx, dy);
    LeadingGapsUnique(re, hy, blocks, dy, clipped, clipped2);
  }

  /** The gain differs by that of the amplification, unless the reference has no speech block at all. */
  lemma SameMeasure(re: seq<real>, hx: seq<real>, hy: seq<real>, gain: real,
                    gaps: nat, clipped: nat, gx: real, gaps2: nat, clipped2: nat, gy: real)
    requires |re| == |hx| == |hy| && Measured(re, hx, gaps, clipped, gx) && Measured(re, hy, gaps2, clipped2, gy)
    requires forall i :: 0 <= i < |re| && IsSpeech(re, i) ==>
               hy[i] == hx[i] + gain && Audible(hx[i]) && Audible(hy[i])
    ensures gaps == gaps2 && clipped == clipped2
    ensures (exists i :: 0 <= i < |re| && IsSpeech(re, i)) ==> gy == gx + gain
  {
    hide MeasuredOver, IsSpeech, Audible, SpeechBlocks, Shifted;
    var blocks :| SpeechBlocks(re, blocks) && MeasuredOver(re, hx, blocks, gaps, clipped, gx);
    var blocks2 :| SpeechBlocks(re, blocks2) && MeasuredOver(re, hy, blocks2, gaps2, clipped2, gy);
    SpeechUnique(re, blocks, blocks2);
    SpeechShifted(re, hx, hy, blocks, gain);
    SameOver(re, hx, hy, gain, blocks, gaps, clipped, gx, gaps2, clipped2, gy);
    if i :| 0 <= i < |re| && IsSpeech(re, i) {
      SpeechHasDiff(re, hx, blocks, i);
    }
  }

  lemma SpeechShifted(re: seq<real>, hx: seq<real>, hy: seq<real>, blocks: seq<nat>, gain: real)
    requires |re| == |hx| == |hy| && SpeechBlocks(re, blocks)
    requires forall i :: 0 <= i < |re| && IsSpeech(re, i) ==>
               hy[i] == hx[i] + gain && Audible(hx[i]) && Audible(hy[i])
    ensures Shifted(hx, hy, blocks, gain)
  {
    hide IsSpeech, Audible;
  }

  lemma SpeechHasDiff(re: seq<real>, he: seq<real>, blocks: seq<nat>, i: nat)
    requires |re| == |he| && SpeechBlocks(re, blocks) && i < |re| && IsSpeech(re, i) && Audible(he[i])
    ensures Blocks(re, he, blocks) && Diffs(re, he, blocks) != []
  {
    hide IsSpeech;
    var j :| 0 <= j < |blocks| && blocks[j] == i;
    assert Audible(he[blocks[j]]);
  }

  ghost predicate ClearSpeech(ref: seq<int>, part: seq<int>, m: Maths)
    requires |ref| == |part|
  {
    forall i :: 0 <= i < |ref| / ENV_BLOCK && IsSpeech(Envelope(ref, m.log10), i) ==>
      BlockMeasurable(part, i, m.log10) && Audible(Envelope(part, m.log10)[i])
  }

  lemma SameSpeech(ref: seq<int>, px: seq<int>, py: seq<int>, g: real, m: Maths, p: Result, q: Result)
    requires Logarithm(m.log10) && g > 0.0 && Amplified(px, py, g) && |ref| == |px| == |py|
    requires ClearSpeech(ref, px, m) && ClearSpeech(ref, py, m) && GapsOf(ref, px, m, p) && GapsOf(ref, py, m, q)
    ensures q.gaps == p.gaps && q.clippedStart == p.clippedStart
  {
    hide Logarithm, Amplified, Measured, Level, BlockMeasurable, Peak, IsSpeech, Decibels;
    var re, hx, hy := Envelope(ref, m.log10), Envelope(px, m.log10), Envelope(py, m.log10);
    forall i | 0 <= i < |re| && IsSpeech(re, i)
      ensures hy[i] == hx[i] + Decibels(g, m.log10) && Audible(hx[i]) && Audible(hy[i])
    {
      AmplifiedLevel(px, py, g, m.log10, i);
    }
    var gx :| Measured(re, hx, p.gaps, p.clippedStart, gx);
    var gy :| Measured(re, hy, q.gaps, q.clippedStart, gy);
    SameMeasure(re, hx, hy, Decibels(g, m.log10), p.gaps, p.clippedStart, gx, q.gaps, q.clippedStart, gy);
  }

  /**
   * Two recordings of which one is g times as loud as the other are compared with the same result, but for the
   * gain: the same refusal, offset, score, compared length, gaps and clipped start. The reference is not a tone,
   * and neither recording is cut off at the floor of the scale.
   */
  lemma CompareIgnoresVolume(ref: seq<int>, x: seq<int>, y: seq<int>, g: real, m: Maths,
                             p: Option<Result>, q: Option<Result>)
    requires m.Valid() && Logarithm(m.log10) && g > 0.0 && Amplified(x, y, g)
    requires |ref| >= SPEC_FRAME ==> Variance(Envelope(ref, m.log10)) >= 1.0 && Clear(ref, x, m) && Clear(ref, y, m)
    requires Compared(ref, x, m, p) && Compared(ref, y, m, q)
    ensures p.None? <==> q.None?
    ensures p.Some? ==>
              && q.value.offset == p.value.offset && q.value.compared == p.value.compared
              && q.value.score == p.value.score
              && q.value.gaps == p.value.gaps && q.value.clippedStart == p.value.clippedStart
  {
    SameLength(x, y, g);
    hide Logarithm, Amplified, Variance, AllMeasurable, SpeechAboveFloor, LagOf, GapsOf, Scored, Level, ClearFrames,
         ClearSpeech, FrameLevels, Frames, Root;
    if p.Some? {
      LagIgnoresVolume(ref, x, y, g, m.log10, m.sqrt);
      var lag, n := p.value.offset, |ref|;
      var px, py := Segment(x, lag, n), Segment(y, lag, n);
      AmplifiedSegment(x, y, g, lag, n);
      SameScore(ref, px, py, g, m, p.value.score, q.value.score);
      SameSpeech(ref, px, py, g, m, p.value, q.value);
    }
  }
}
