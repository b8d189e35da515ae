/**
 * Comparing a recording with the reference audio (media/quality.go): alignment, speech, gaps. Samples are the
 * source's 16-bit integers; levels are real numbers, log10 an arbitrary function.
 */
module Quality {
  import opened Options
  import opened Correlation

  const ENV_BLOCK := 80
  const SPEC_FRAME := 256
  const SPEC_HOP := 128
  const BINS := 99
  const SAMPLE_RATE := 8000
  const FLOOR_DB := -100.0
  const ACTIVE_RANGE := 40.0
  const ACTIVE_MIN := -55.0
  const GAP_DROP := 20.0
  const MAX_INT16 := 32767.0

  function Min(a: nat, b: nat): nat { if a <= b then a else b }

  /* ---- Levels ---- */

  function ToDb(power: real, log10: real -> real): (r: real)
    ensures r >= FLOOR_DB
  {
    if power <= 0.0 then FLOOR_DB else Max(10.0 * log10(power), FLOOR_DB)
  }

  function Floats(x: seq<int>): (r: seq<real>)
    ensures |r| == |x| && forall i :: 0 <= i < |r| ==> r[i] == x[i] as real
  {
    seq(|x|, i requires 0 <= i < |x| => x[i] as real)
  }

  function Scaled(x: seq<int>): (r: seq<real>)
    ensures |r| == |x|
  {
    seq(|x|, i requires 0 <= i < |x| => x[i] as real / MAX_INT16)
  }

  /** The level of n samples that are all of x. */
  function Level(x: seq<int>, log10: real -> real): real
    requires |x| > 0
  {
    ToDb(Dot(Scaled(x), Scaled(x)) / (|x| as real), log10)
  }

  /** One level for every whole block of 80 samples. */
  function Envelope(x: seq<int>, log10: real -> real): (r: seq<real>)
    ensures |r| == |x| / ENV_BLOCK && forall i :: 0 <= i < |r| ==> r[i] >= FLOOR_DB
  {
    seq(|x| / ENV_BLOCK, i requires 0 <= i < |x| / ENV_BLOCK => Level(x[i * ENV_BLOCK..(i + 1) * ENV_BLOCK], log10))
  }

  /* ---- speech ---- */

  function Peak(levels: seq<real>): real
    requires levels != []
  {
    if |levels| == 1 then levels[0] else Max(Peak(levels[..|levels| - 1]), levels[|levels| - 1])
  }

  predicate IsSpeech(levels: seq<real>, i: nat)
    requires i < |levels|
  {
    levels[i] >= ACTIVE_MIN && levels[i] >= Peak(levels) - ACTIVE_RANGE
  }

  method Speech(levels: seq<real>) returns (out: seq<nat>)
    ensures forall j :: 0 <= j < |out| ==> out[j] < |levels| && IsSpeech(levels, out[j])
    ensures forall i: nat :: i < |levels| && IsSpeech(levels, i) ==> i in out
    ensures forall j, k :: 0 <= j < k < |out| ==> out[j] < out[k]
    ensures out == [] <==> forall i :: 0 <= i < |levels| ==> levels[i] < ACTIVE_MIN
  {
    out := [];
    for i := 0 to |levels|
      invariant forall j :: 0 <= j < |out| ==> out[j] < i && IsSpeech(levels, out[j])
      invariant forall k: nat :: k < i && IsSpeech(levels, k) ==> k in out
      invariant forall j, k :: 0 <= j < k < |out| ==> out[j] < out[k]
    {
      if IsSpeech(levels, i) {
        out := out + [i];
      }
    }
    SpeechOrNone(levels, out);
  }

  /** The loudest level is speech if any is. */
  lemma SpeechOrNone(levels: seq<real>, out: seq<nat>)
    requires forall j :: 0 <= j < |out| ==> out[j] < |levels| && IsSpeech(levels, out[j])
    requires forall i: nat :: i < |levels| && IsSpeech(levels, i) ==> i in out
    ensures out == [] <==> forall i :: 0 <= i < |levels| ==> levels[i] < ACTIVE_MIN
  {
    if out != [] {
      assert levels[out[0]] >= ACTIVE_MIN;
    } else if levels != [] {
      var p := PeakIsLevel(levels);
      assert !IsSpeech(levels, p);
      forall i | 0 <= i < |levels|
        ensures levels[i] < ACTIVE_MIN
      {
        assert levels[i] <= levels[p];
      }
    }
  }

  /** Speech is what is at most 40 dB below the loudest frame and not below -55 dB. */
  lemma SpeechIsNearPeak(levels: seq<real>, i: nat)
    requires i < |levels|
    ensures IsSpeech(levels, i)
            <==> levels[i] >= -55.0 && forall j :: 0 <= j < |levels| ==> levels[i] >= levels[j] - 40.0
  {
    hide Peak;
    var p := PeakIsLevel(levels);
  }

  lemma {:induction false} PeakIsLevel(levels: seq<real>) returns (p: nat)
    requires levels != []
    ensures p < |levels| && levels[p] == Peak(levels)
    ensures forall i :: 0 <= i < |levels| ==> levels[i] <= Peak(levels)
  {
    var m := |levels| - 1;
    if m == 0 {
      p := 0;
    } else {
      p := PeakIsLevel(levels[..m]);
      forall i | 0 <= i < |levels|
        ensures levels[i] <= Peak(levels)
      {
        assert i < m ==> levels[i] == levels[..m][i];
      }
      if levels[m] > levels[p] {
        p := m;
      }
    }
  }

  /* ---- The earliest best score ---- */

  /**
   * The loop "if score > best": the index of the greatest score, the first of equals; None when there are no
   * scores.
   */
  function Best(scores: seq<Option<real>>): (r: Option<nat>)
    ensures r.Some? ==> r.value < |scores| && scores[r.value].Some?
  {
    if scores == [] then None
    else
      var m := |scores| - 1;
      var b := Best(scores[..m]);
      if scores[m].Some? && (b.None? || scores[m].value > scores[b.value].value) then Some(m) else b
  }

  lemma {:induction false} BestIsEarliestGreatest(scores: seq<Option<real>>)
    ensures Best(scores).None? <==> forall i :: 0 <= i < |scores| ==> scores[i].None?
    ensures Best(scores).Some? ==>
              var b := Best(scores).value;
              && (forall i :: 0 <= i < |scores| && scores[i].Some? ==> scores[i].value <= scores[b].value)
              && (forall i :: 0 <= i < b && scores[i].Some? ==> scores[i].value < scores[b].value)
  {
    if scores != [] {
      var m := |scores| - 1;
      BestIsEarliestGreatest(scores[..m]);
      forall i | 0 <= i < m
        ensures scores[..m][i] == scores[i]
      {
      }
    }
  }

  /* ---- align ---- */

  function Variance(a: seq<real>): real {
    if a == [] then 0.0 else Dot(Centred(a), Centred(a)) / (|a| as real)
  }

  function Abs(x: real): real { if x >= 0.0 then x else -x }

  function Distance(a: seq<real>, b: seq<real>, n: nat): real
    requires n <= |a| && n <= |b|
  {
    if n == 0 then 0.0 else Distance(a, b, n - 1) + Abs(a[n - 1] - b[n - 1])
  }

  /**
   * The score of one block offset; a tone is compared by level, as its envelope has no shape. None is minus
   * infinity.
   */
  function CoarseScore(re: seq<real>, he: seq<real>, l: nat, sqrt: real -> real): Option<real>
    requires Root(sqrt) && l <= |he|
  {
    var n := Shorter(re, he[l..]);
    if Variance(re) >= 1.0 then Some(PearsonOf(re, he[l..], sqrt))
    else if n == 0 then None
    else Some(-(Distance(re, he[l..], n) / (n as real)))
  }

  function LastBlock(re: seq<real>, he: seq<real>): nat {
    if |he| >= |re| then |he| - |re| else 0
  }

  function CoarseScores(re: seq<real>, he: seq<real>, sqrt: real -> real): (r: seq<Option<real>>)
    requires Root(sqrt)
    ensures |r| == LastBlock(re, he) + 1
  {
    seq(LastBlock(re, he) + 1, l requires 0 <= l <= LastBlock(re, he) => CoarseScore(re, he, l, sqrt))
  }

  function BestBlock(re: seq<real>, he: seq<real>, sqrt: real -> real): (r: nat)
    requires Root(sqrt)
    ensures r <= LastBlock(re, he)
  {
    var b := Best(CoarseScores(re, he, sqrt));
    if b.Some? then b.value else 0
  }

  /** How much of the reference the waveforms are compared over. */
  function FineLength(ref: seq<int>): nat { Min(|ref|, SAMPLE_RATE) }

  /** The correlation of the waveforms with the reference at sample l. */
  function FineScore(ref: seq<int>, heard: seq<int>, l: int, sqrt: real -> real): Option<real>
    requires Root(sqrt)
  {
    var n := FineLength(ref);
    if l < 0 || l + n > |heard| then None
    else
      var a, b := Floats(ref[..n]), Floats(heard[l..l + n]);
      EnergyIsZeroIff(a);
      EnergyIsZeroIff(b);
      if Dot(a, a) == 0.0 || Dot(b, b) == 0.0 then None
      else Some(Ratio(Dot(a, b), Dot(a, a), Dot(b, b), sqrt))
  }

  function FineScores(ref: seq<int>, heard: seq<int>, from: int, sqrt: real -> real): (r: seq<Option<real>>)
    requires Root(sqrt)
    ensures |r| == 2 * ENV_BLOCK + 1
  {
    seq(2 * ENV_BLOCK + 1, d requires 0 <= d < 2 * ENV_BLOCK + 1 => FineScore(ref, heard, from + d, sqrt))
  }

  /** The lag chosen around block `best`. */
  function LagNear(ref: seq<int>, heard: seq<int>, best: nat, sqrt: real -> real): (r: nat)
    requires Root(sqrt)
  {
    var at := best * ENV_BLOCK;
    var b := Best(FineScores(ref, heard, at - ENV_BLOCK, sqrt));
    if b.None? then at
    else
      ScoredIsInside(ref, heard, at - ENV_BLOCK + b.value, sqrt);
      at - ENV_BLOCK + b.value
  }

  function LagOf(ref: seq<int>, heard: seq<int>, log10: real -> real, sqrt: real -> real): nat
    requires Root(sqrt)
  {
    LagNear(ref, heard, BestBlock(Envelope(ref, log10), Envelope(heard, log10), sqrt), sqrt)
  }

  method MeanAbsDiff(a: seq<real>, b: seq<real>) returns (d: Option<real>)
    ensures var n := Shorter(a, b); d == if n == 0 then None else Some(Distance(a, b, n) / (n as real))
  {
    var n := Shorter(a, b);
    if n == 0 {
      return None;
    }
    var s := 0.0;
    for i := 0 to n
      invariant s == Distance(a, b, i)
    {
      s := s + Abs(a[i] - b[i]);
    }
    return Some(s / (n as real));
  }

  method FineCorrelation(ref: seq<int>, heard: seq<int>, l: nat, sqrt: real -> real) returns (c: Option<real>)
    requires Root(sqrt) && l + FineLength(ref) <= |heard|
    ensures c == FineScore(ref, heard, l, sqrt)
  {
    hide Dot, Ratio, Root, Product;
    var n := FineLength(ref);
    ghost var a, b := Floats(ref[..n]), Floats(heard[l..l + n]);
    var dot, e1, e2 := 0.0, 0.0, 0.0;
    assert Dot(a[..0], b[..0]) == 0.0 == Dot(a[..0], a[..0]) == Dot(b[..0], b[..0]) by { EmptySums(); }
    for i := 0 to n
      invariant dot == Dot(a[..i], b[..i]) && e1 == Dot(a[..i], a[..i]) && e2 == Dot(b[..i], b[..i])
    {
      DotStep(a, b, i);
      DotStep(a, a, i);
      DotStep(b, b, i);
      var x, y := ref[i] as real, heard[l + i] as real;
      assert x == a[i] && y == b[i];
      dot, e1, e2 := dot + Product(x, y), e1 + Product(x, x), e2 + Product(y, y);
    }
    DotWhole(a, b);
    DotWhole(a, a);
    DotWhole(b, b);
    EnergyIsZeroIff(a);
    EnergyIsZeroIff(b);
    if e1 == 0.0 || e2 == 0.0 {
      return None;
    }
    return Some(Ratio(dot, e1, e2, sqrt));
  }

  /** The first pass, over the envelopes. */
  method AlignBlocks(re: seq<real>, he: seq<real>, sqrt: real -> real) returns (best: nat)
    requires Root(sqrt)
    ensures best == BestBlock(re, he, sqrt)
  {
    hide Dot, Ratio, Root, PearsonOf, Variance, Best, Distance;
    var last := LastBlock(re, he);
    var stationary := Variance(re) < 1.0;
    var bestScore := None;
    best := 0;
    ghost var scores := CoarseScores(re, he, sqrt);
    NoScores(scores);
    for l := 0 to last + 1
      invariant bestScore == ScoreAt(scores, Best(scores[..l]))
      invariant best == if bestScore.Some? then Best(scores[..l]).value else 0
    {
      var s;
      if stationary {
        var d := MeanAbsDiff(re, he[l..]);
        s := if d.None? then None else Some(-d.value);
      } else {
        var c := Pearson(re, he[l..], sqrt);
        s := Some(c);
      }
      assert s == scores[l];
      BestStep(scores, l);
      if s.Some? && (bestScore.None? || s.value > bestScore.value) {
        best, bestScore := l, s;
      }
    }
    assert scores[..last + 1] == scores;
  }

  lemma NoScores(scores: seq<Option<real>>)
    ensures Best(scores[..0]) == None
  {}

  /** The second pass, over the waveforms around the block found. */
  method AlignSamples(ref: seq<int>, heard: seq<int>, best: nat, sqrt: real -> real) returns (lag: nat)
    requires Root(sqrt)
    ensures lag == LagNear(ref, heard, best, sqrt)
  {
    hide FineScore, Best, Root;
    var n, at := FineLength(ref), best * ENV_BLOCK;
    lag := at;
    var lagScore := None;
    ghost var scores := FineScores(ref, heard, at - ENV_BLOCK, sqrt);
    NoScores(scores);
    for d := 0 to 2 * ENV_BLOCK + 1
      invariant lagScore == ScoreAt(scores, Best(scores[..d]))
      invariant lag == if lagScore.Some? then at - ENV_BLOCK + Best(scores[..d]).value else at
    {
      var l := at - ENV_BLOCK + d;
      BestStep(scores, d);
      assert scores[d] == FineScore(ref, heard, l, sqrt);
      if l < 0 || l + n > |heard| {
        OutsideHasNoScore(ref, heard, l, sqrt);
      } else {
        var c := FineCorrelation(ref, heard, l, sqrt);
        if c.Some? && (lagScore.None? || c.value > lagScore.value) {
          lag, lagScore := l, c;
        }
      }
    }
    assert scores[..2 * ENV_BLOCK + 1] == scores;
  }

  method Align(ref: seq<int>, heard: seq<int>, log10: real -> real, sqrt: real -> real) returns (lag: nat)
    requires Root(sqrt)
    ensures lag == LagOf(ref, heard, log10, sqrt)
  {
    var best := AlignBlocks(Envelope(ref, log10), Envelope(heard, log10), sqrt);
    lag := AlignSamples(ref, heard, best, sqrt);
  }

  function ScoreAt(scores: seq<Option<real>>, b: Option<nat>): Option<real>
    requires b.Some? ==> b.value < |scores|
  {
    if b.None? then None else scores[b.value]
  }

  lemma BestStep(scores: seq<Option<real>>, l: nat)
    requires l < |scores|
    ensures var b := Best(scores[..l]);
            Best(scores[..l + 1])
            == if scores[l].Some? && (b.None? || scores[l].value > scores[b.value].value) then Some(l) else b
  {
    assert scores[..l + 1][..l] == scores[..l];
  }

  lemma OutsideHasNoScore(ref: seq<int>, heard: seq<int>, l: int, sqrt: real -> real)
    requires Root(sqrt) && (l < 0 || l + FineLength(ref) > |heard|)
    ensures FineScore(ref, heard, l, sqrt) == None
  {}

  /**
   * The chosen lag is inside the recording, and no lag within 10 ms of the coarse one that the waveforms can be
   * compared at correlates better, or as well and earlier.
   */
  lemma LagIsBest(ref: seq<int>, heard: seq<int>, log10: real -> real, sqrt: real -> real)
    requires Root(sqrt)
    ensures var lag, at := LagOf(ref, heard, log10, sqrt),
                            BestBlock(Envelope(ref, log10), Envelope(heard, log10), sqrt) * ENV_BLOCK;
            && lag <= |heard| && at - ENV_BLOCK <= lag <= at + ENV_BLOCK
            && forall l: int :: at - ENV_BLOCK <= l <= at + ENV_BLOCK ==> NoBetter(ref, heard, l, lag, sqrt)
  {
    hide FineScore, LagNear, Level, Variance, NoBetter, CoarseScores, Best;
    var re, he := Envelope(ref, log10), Envelope(heard, log10);
    BlockIsInside(re, he, |heard|, sqrt);
    LagIsBestNear(ref, heard, BestBlock(re, he, sqrt), sqrt);
  }

  lemma BlockIsInside(re: seq<real>, he: seq<real>, n: nat, sqrt: real -> real)
    requires Root(sqrt) && |he| == n / ENV_BLOCK
    ensures BestBlock(re, he, sqrt) * ENV_BLOCK <= n
  {
    hide CoarseScores, Best;
    assert BestBlock(re, he, sqrt) <= |he|;
  }

  /** The recording does not match better at l than at lag, nor as well and earlier. */
  predicate NoBetter(ref: seq<int>, heard: seq<int>, l: int, lag: int, sqrt: real -> real)
    requires Root(sqrt)
  {
    var s, best := FineScore(ref, heard, l, sqrt), FineScore(ref, heard, lag, sqrt);
    s.Some? ==> best.Some? && s.value <= best.value && (l < lag ==> s.value < best.value)
  }

  lemma LagIsBestNear(ref: seq<int>, heard: seq<int>, best: nat, sqrt: real -> real)
    requires Root(sqrt) && best * ENV_BLOCK <= |heard|
    ensures var lag, at := LagNear(ref, heard, best, sqrt), best * ENV_BLOCK;
            && lag <= |heard| && at - ENV_BLOCK <= lag <= at + ENV_BLOCK
            && forall l: int :: at - ENV_BLOCK <= l <= at + ENV_BLOCK ==> NoBetter(ref, heard, l, lag, sqrt)
  {
    hide FineScore, Best, Root;
    var at, lag := best * ENV_BLOCK, LagNear(ref, heard, best, sqrt);
    var fine := FineScores(ref, heard, at - ENV_BLOCK, sqrt);
    BestIsEarliestGreatest(fine);
    if Best(fine).Some? {
      assert fine[lag - (at - ENV_BLOCK)] == FineScore(ref, heard, lag, sqrt);
      ScoredIsInside(ref, heard, lag, sqrt);
    }
    forall l: int | at - ENV_BLOCK <= l <= at + ENV_BLOCK
      ensures NoBetter(ref, heard, l, lag, sqrt)
    {
      assert fine[l - (at - ENV_BLOCK)] == FineScore(ref, heard, l, sqrt);
    }
  }

  lemma ScoredIsInside(ref: seq<int>, heard: seq<int>, l: int, sqrt: real -> real)
    requires Root(sqrt) && FineScore(ref, heard, l, sqrt).Some?
    ensures 0 <= l && l + FineLength(ref) <= |heard|
  {}

  /** From sample l on the recording is the beginning of the reference, at some level. */
  ghost predicate CopyAt(ref: seq<int>, heard: seq<int>, l: int) {
    var n := FineLength(ref);
    && 0 <= l && l + n <= |heard|
    && SameSound(Floats(ref[..n]), Floats(heard[l..l + n]))
  }

  lemma CopyScoresOne(ref: seq<int>, heard: seq<int>, l: int, sqrt: real -> real)
    requires Root(sqrt)
    ensures FineScore(ref, heard, l, sqrt).Some? ==>
              FineScore(ref, heard, l, sqrt).value <= 1.0
              && (FineScore(ref, heard, l, sqrt).value == 1.0 <==> CopyAt(ref, heard, l))
  {
    if FineScore(ref, heard, l, sqrt).Some? {
      var n := FineLength(ref);
      var a, b := Floats(ref[..n]), Floats(heard[l..l + n]);
      hide Dot, Ratio, SameSound;
      EnergyIsZeroIff(a);
      EnergyIsZeroIff(b);
      RatioBounds(a, b, sqrt);
      RatioIsOneIff(a, b, sqrt);
    }
  }

  lemma CopyHasScore(ref: seq<int>, heard: seq<int>, l: int, i: nat, sqrt: real -> real)
    requires Root(sqrt) && CopyAt(ref, heard, l) && i < FineLength(ref) && ref[i] != 0
    ensures FineScore(ref, heard, l, sqrt).Some?
  {
    hide Dot, Ratio, SameSound, Root;
    var n := FineLength(ref);
    var a, b := Floats(ref[..n]), Floats(heard[l..l + n]);
    assert a[i] != 0.0;
    SameSoundIsHeard(a, b, i);
  }

  lemma SameSoundIsHeard(a: seq<real>, b: seq<real>, i: nat)
    requires |a| == |b| && SameSound(a, b) && i < |a| && a[i] != 0.0
    ensures Dot(a, a) != 0.0 && Dot(b, b) != 0.0
  {
    hide Dot;
    EnergyIsZeroIff(a);
    EnergyIsZeroIff(b);
    var t :| t > 0.0 && Multiple(a, b, t);
    assert b[i] == t * a[i];
    SameSign(a[i], t);
  }

  /**
   * If the reference was played within 10 ms of the coarse offset and nothing else changed but the level, a copy
   * is what is found.
   */
  lemma AlignFindsCopy(ref: seq<int>, heard: seq<int>, log10: real -> real, sqrt: real -> real, l: int, i: nat)
    requires Root(sqrt) && i < FineLength(ref) && ref[i] != 0 && CopyAt(ref, heard, l)
    requires var at := BestBlock(Envelope(ref, log10), Envelope(heard, log10), sqrt) * ENV_BLOCK;
             at - ENV_BLOCK <= l <= at + ENV_BLOCK
    ensures CopyAt(ref, heard, LagOf(ref, heard, log10, sqrt)) && LagOf(ref, heard, log10, sqrt) <= l
  {
    hide FineScore, CopyAt, LagOf, BestBlock;
    CopyHasScore(ref, heard, l, i, sqrt);
    LagIsBest(ref, heard, log10, sqrt);
    assert NoBetter(ref, heard, l, LagOf(ref, heard, log10, sqrt), sqrt);
    CopyScoresOne(ref, heard, l, sqrt);
    CopyScoresOne(ref, heard, LagOf(ref, heard, log10, sqrt), sqrt);
  }
}
