/**
 * A recording that contains the reference unchanged (media/quality.go): where it is found, and that nothing is
 * wrong with it.
 */
module PerfectCopy {
  import opened Options
  import opened Correlation
  import opened Quality
  import opened Spectrum
  import opened Comparison
  import opened Volume

  /* ---- The coarse search ---- */

  lemma VarianceHasEnergy(a: seq<real>)
    requires Variance(a) >= 1.0
    ensures |a| >= 2 && Dot(Centred(a), Centred(a)) != 0.0
  {
    hide Dot;
    if |a| == 1 {
      assert a[..0] == [];
      assert Sum(a) == a[0];
      ShareOfOne(Sum(a));
      assert Mean(a) == a[0] && Centred(a) == [0.0];
      EnergyIsZeroIff(Centred(a));
    }
  }

  lemma ShareOfOne(x: real)
    ensures x / (1 as real) == x
  {}

  /**
   * An envelope that contains that of the reference at block l, at some level, is matched perfectly by the block
   * found, which is l or an earlier one.
   */
  lemma MatchIsFound(re: seq<real>, he: seq<real>, l: nat, gain: real, sqrt: real -> real)
    requires Root(sqrt) && Variance(re) >= 1.0 && l + |re| <= |he| && he[l..l + |re|] == Louder(re, gain)
    ensures var b := BestBlock(re, he, sqrt); b <= l && PearsonOf(re, he[b..], sqrt) == 1.0
  {
    VarianceHasEnergy(re);
    hide PearsonOf, Variance, Root, Best;
    assert he[l..][..|re|] == he[l..l + |re|];
    PearsonOfCopy(re, he[l..], gain, sqrt);
    var scores, b := CoarseScores(re, he, sqrt), BestBlock(re, he, sqrt);
    BestIsEarliestGreatest(scores);
    assert scores[l] == Some(1.0);
    assert scores[b] == Some(PearsonOf(re, he[b..], sqrt));
    PearsonBounds(re, he[b..], sqrt);
  }

  lemma {:induction false} DistanceIsZeroIff(a: seq<real>, b: seq<real>, n: nat)
    requires n <= |a| && n <= |b|
    ensures Distance(a, b, n) >= 0.0
    ensures Distance(a, b, n) == 0.0 <==> forall i :: 0 <= i < n ==> a[i] == b[i]
  {
    if n > 0 {
      DistanceIsZeroIff(a, b, n - 1);
    }
  }

  lemma NoDistance(d: real, n: real)
    requires n > 0.0 && d >= 0.0
    ensures -(d / n) <= 0.0 && (-(d / n) == 0.0 <==> d == 0.0)
  {
    assert d / n * n == d;
    SameSign(d / n, n);
  }

  /** The envelope of a tone has no shape; it is found at the first block where the levels are the same. */
  lemma ToneIsFound(re: seq<real>, he: seq<real>, l: nat, sqrt: real -> real)
    requires Root(sqrt) && Variance(re) < 1.0 && re != [] && l + |re| <= |he| && he[l..l + |re|] == re
    ensures var b := BestBlock(re, he, sqrt); b <= l && he[b..b + |re|] == re
  {
    hide Variance, Root, Best, Distance, PearsonOf;
    var scores, b, n := CoarseScores(re, he, sqrt), BestBlock(re, he, sqrt), |re| as real;
    BestIsEarliestGreatest(scores);
    forall i | 0 <= i < |re|
      ensures he[l..][i] == re[i]
    {
      assert he[l..l + |re|][i] == he[l + i];
    }
    DistanceIsZeroIff(re, he[l..], |re|);
    DistanceIsZeroIff(re, he[b..], |re|);
    NoDistance(Distance(re, he[l..], |re|), n);
    NoDistance(Distance(re, he[b..], |re|), n);
    assert scores[l] == Some(-(Distance(re, he[l..], |re|) / n));
    assert scores[b] == Some(-(Distance(re, he[b..], |re|) / n));
  }

  /* ---- From samples to envelopes ---- */

  /** The reference at g times its amplitude, from block l of the recording on. */
  ghost predicate PlayedAt(ref: seq<int>, heard: seq<int>, l: nat, g: real) {
    l * ENV_BLOCK + |ref| <= |heard| && Amplified(ref, heard[l * ENV_BLOCK..l * ENV_BLOCK + |ref|], g)
  }

  lemma BlocksOfPart(l: nat, n: nat, length: nat)
    requires l * ENV_BLOCK + n <= length
    ensures l + n / ENV_BLOCK <= length / ENV_BLOCK
  {
    assert (l * ENV_BLOCK + n) / ENV_BLOCK == l + n / ENV_BLOCK;
  }

  lemma SliceOfSlice(x: seq<int>, a: nat, n: nat, c: nat, d: nat)
    requires a + n <= |x| && c <= d <= n
    ensures x[a..a + n][c..d] == x[a + c..a + d]
  {
    var y := x[a..a + n];
    forall i | c <= i < d
      ensures y[i] == x[a + i]
    {
    }
  }

  lemma PartOfBlock(heard: seq<int>, l: nat, n: nat, i: nat)
    requires l * ENV_BLOCK + n <= |heard| && i < n / ENV_BLOCK && l + i < |heard| / ENV_BLOCK
    ensures Block(heard[l * ENV_BLOCK..l * ENV_BLOCK + n], i) == Block(heard, l + i)
  {
    SliceOfSlice(heard, l * ENV_BLOCK, n, i * ENV_BLOCK, (i + 1) * ENV_BLOCK);
  }

  lemma EnvelopeAt(x: seq<int>, log10: real -> real, i: nat)
    requires i < |x| / ENV_BLOCK
    ensures Envelope(x, log10)[i] == Level(Block(x, i), log10)
  {
    hide Level;
  }

  lemma PartOfLevel(heard: seq<int>, l: nat, n: nat, log10: real -> real, i: nat)
    requires l * ENV_BLOCK + n <= |heard| && i < n / ENV_BLOCK && l + i < |heard| / ENV_BLOCK
    ensures Envelope(heard[l * ENV_BLOCK..l * ENV_BLOCK + n], log10)[i] == Envelope(heard, log10)[l + i]
  {
    hide Level, Envelope, Block;
    PartOfBlock(heard, l, n, i);
    EnvelopeAt(heard[l * ENV_BLOCK..l * ENV_BLOCK + n], log10, i);
    EnvelopeAt(heard, log10, l + i);
  }

  lemma PartOfEnvelope(heard: seq<int>, l: nat, n: nat, log10: real -> real)
    requires l * ENV_BLOCK + n <= |heard|
    ensures l + n / ENV_BLOCK <= |heard| / ENV_BLOCK
    ensures Envelope(heard[l * ENV_BLOCK..l * ENV_BLOCK + n], log10) == Envelope(heard, log10)[l..l + n / ENV_BLOCK]
  {
    hide Level, Envelope;
    BlocksOfPart(l, n, |heard|);
    var part := heard[l * ENV_BLOCK..l * ENV_BLOCK + n];
    forall i | 0 <= i < n / ENV_BLOCK
      ensures Envelope(part, log10)[i] == Envelope(heard, log10)[l + i]
    {
      PartOfLevel(heard, l, n, log10, i);
    }
  }

  lemma UnchangedIsEqual(x: seq<int>, y: seq<int>)
    requires Amplified(x, y, 1.0)
    ensures x == y
  {}

  /** What the envelope needs for the level of the copy not to matter: nothing, if it is as loud as the reference. */
  ghost predicate LevelOk(ref: seq<int>, heard: seq<int>, l: nat, g: real, log10: real -> real)
    requires PlayedAt(ref, heard, l, g)
  {
    || g == 1.0
    || (Logarithm(log10) && AllMeasurable(ref, log10)
        && AllMeasurable(heard[l * ENV_BLOCK..l * ENV_BLOCK + |ref|], log10))
  }

  lemma PlayedEnvelope(ref: seq<int>, heard: seq<int>, l: nat, g: real, log10: real -> real) returns (gain: real)
    requires g > 0.0 && PlayedAt(ref, heard, l, g) && LevelOk(ref, heard, l, g, log10)
    ensures var re, he := Envelope(ref, log10), Envelope(heard, log10);
            l + |re| <= |he| && he[l..l + |re|] == Louder(re, gain)
  {
    hide Level, AllMeasurable, Logarithm, Amplified;
    var part := heard[l * ENV_BLOCK..l * ENV_BLOCK + |ref|];
    PartOfEnvelope(heard, l, |ref|, log10);
    if g == 1.0 {
      UnchangedIsEqual(ref, part);
      gain := 0.0;
      assert Louder(Envelope(ref, log10), 0.0) == Envelope(ref, log10);
    } else {
      gain := Decibels(g, log10);
      AmplifiedEnvelope(ref, part, g, log10);
    }
  }

  lemma PlayedIsCopy(ref: seq<int>, heard: seq<int>, l: nat, g: real)
    requires g > 0.0 && PlayedAt(ref, heard, l, g)
    ensures CopyAt(ref, heard, l * ENV_BLOCK)
  {
    var n, at, part := FineLength(ref), l * ENV_BLOCK, heard[l * ENV_BLOCK..l * ENV_BLOCK + |ref|];
    AmplifiedFloats(ref, part, g, 0, n);
    assert ref[0..0 + n] == ref[..n] && part[0..0 + n] == heard[at..at + n];
  }

  /**
   * A reference with a shape that is played from a block boundary on is found wherever that is: the coarse search
   * stops at that block or an earlier one whose envelope matches as perfectly, and if there is no such earlier
   * block, the lag is that of a copy, at most 10 ms before the boundary.
   */
  lemma PlayedIsFound(ref: seq<int>, heard: seq<int>, l: nat, g: real, log10: real -> real, sqrt: real -> real, i: nat)
    requires Root(sqrt) && g > 0.0 && PlayedAt(ref, heard, l, g) && LevelOk(ref, heard, l, g, log10)
    requires Variance(Envelope(ref, log10)) >= 1.0 && i < FineLength(ref) && ref[i] != 0
    ensures var re, he := Envelope(ref, log10), Envelope(heard, log10);
            var b, lag := BestBlock(re, he, sqrt), LagOf(ref, heard, log10, sqrt);
            && b <= l && PearsonOf(re, he[b..], sqrt) == 1.0
            && ((forall k :: 0 <= k < l ==> PearsonOf(re, he[k..], sqrt) != 1.0) ==>
                  b == l && CopyAt(ref, heard, lag) && l * ENV_BLOCK - ENV_BLOCK <= lag <= l * ENV_BLOCK)
  {
    hide PearsonOf, Variance, Root, LagOf, BestBlock, CopyAt, Envelope, PlayedAt, LevelOk;
    var gain := PlayedEnvelope(ref, heard, l, g, log10);
    MatchIsFound(Envelope(ref, log10), Envelope(heard, log10), l, gain, sqrt);
    PlayedIsCopy(ref, heard, l, g);
    if BestBlock(Envelope(ref, log10), Envelope(heard, log10), sqrt) == l {
      LagIsBest(ref, heard, log10, sqrt);
      AlignFindsCopy(ref, heard, log10, sqrt, l * ENV_BLOCK, i);
    }
  }

  /* ---- Nothing wrong ---- */

  lemma {:induction false} NoDifference(re: seq<real>, blocks: seq<nat>)
    requires Blocks(re, re, blocks)
    ensures forall d :: d in Diffs(re, re, blocks) ==> d == 0.0
  {
    if blocks != [] {
      NoDifference(re, blocks[..|blocks| - 1]);
    }
  }

  lemma {:induction false} NoGaps(re: seq<real>, he: seq<real>, blocks: seq<nat>, gain: real)
    requires Blocks(re, he, blocks) && forall j :: 0 <= j < |blocks| ==> !IsGap(re, he, blocks[j], gain)
    ensures GapCount(re, he, blocks, gain) == 0
  {
    if blocks != [] {
      NoGaps(re, he, blocks[..|blocks| - 1], gain);
    }
  }

  lemma NothingMissing(re: seq<real>, gaps: nat, clipped: nat, gain: real)
    requires Measured(re, re, gaps, clipped, gain)
    ensures gaps == clipped == 0
    ensures (exists i :: 0 <= i < |re| && IsSpeech(re, i)) ==> gain == 0.0
  {
    hide Diffs, GapCount, Median, Peak;
    var blocks :| SpeechBlocks(re, blocks) && MeasuredOver(re, re, blocks, gaps, clipped, gain);
    var diffs := Diffs(re, re, blocks);
    NoDifference(re, blocks);
    if diffs != [] {
      MedianInTheMiddle(diffs, 0.0);
    }
    assert Gain(diffs) == 0.0;
    NoGaps(re, re, blocks, 0.0);
    if i :| 0 <= i < |re| && IsSpeech(re, i) {
      SpeechHasDiff(re, re, blocks, i);
    }
  }

  /** The spectrogram changes over time, or it is that of a tone and no speech frame of it is flat. */
  ghost predicate Telling(ref: seq<int>, m: Maths)
    requires m.Valid() && |ref| >= SPEC_FRAME
  {
    forall active: seq<nat> :: active != [] && SpeechBlocks(FrameLevels(ref, m), active) ==>
      var rows := Spectrogram(ref, m);
      && Spectra(rows, active, BINS)
      && (Stationary(rows, active, BINS) ==> forall j :: 0 <= j < |active| ==> HasShape(rows[active[j]]))
  }

  lemma UnchangedScoresOne(ref: seq<int>, m: Maths, score: real)
    requires m.Valid() && |ref| >= SPEC_FRAME && Telling(ref, m) && Scored(ref, ref, m, score)
    ensures score == 1.0
  {
    hide ScoreOf, Stationary, FrameLevels, Root, SpeechBlocks;
    var active :| SpeechBlocks(FrameLevels(ref, m), active) && ScoredOver(ref, ref, m, active, score);
    var rows := Spectrogram(ref, m);
    SameLevel(rows, active);
    if Stationary(rows, active, BINS) {
      PerfectToneScoresOne(rows, rows, active, BINS, 0.0, m.sqrt);
    } else {
      PerfectCopyScoresOne(rows, rows, active, BINS, 0.0, m.sqrt);
    }
  }

  lemma SameLevel(rows: seq<seq<real>>, active: seq<nat>)
    requires Spectra(rows, active, BINS)
    ensures AtLevel(rows, rows, active, BINS, 0.0)
  {
    forall j | 0 <= j < |active|
      ensures rows[active[j]] == Louder(rows[active[j]], 0.0)
    {
    }
  }

  /**
   * When the reference is heard unchanged from the offset found on, Compare has nothing to say against it: score
   * 1, all of it compared, no gaps, nothing clipped, and gain 0 if there is a speech block at all.
   */
  lemma UnchangedIsPerfect(ref: seq<int>, heard: seq<int>, m: Maths, q: Result)
    requires m.Valid() && |ref| >= SPEC_FRAME && Telling(ref, m) && Compared(ref, heard, m, Some(q))
    requires q.offset + |ref| <= |heard| && heard[q.offset..q.offset + |ref|] == ref
    ensures q.score == 1.0 && q.compared == |ref| && q.gaps == q.clippedStart == 0
    ensures (exists i :: 0 <= i < |ref| / ENV_BLOCK && IsSpeech(Envelope(ref, m.log10), i)) ==> q.gain == 0.0
  {
    UnchangedSegment(ref, heard, q.offset);
    hide Telling, Scored, GapsOf, LagOf, Segment, FrameLevels, Frames, Root, IsSpeech, Envelope;
    UnchangedScoresOne(ref, m, q.score);
    UnchangedGaps(ref, m, q);
  }

  lemma UnchangedSegment(ref: seq<int>, heard: seq<int>, lag: nat)
    requires lag + |ref| <= |heard| && heard[lag..lag + |ref|] == ref
    ensures Segment(heard, lag, |ref|) == ref && Overlap(ref, heard, lag) == |ref|
  {
    forall i | 0 <= i < |ref|
      ensures Segment(heard, lag, |ref|)[i] == ref[i]
    {
      assert heard[lag..lag + |ref|][i] == heard[lag + i];
    }
  }

  lemma UnchangedGaps(ref: seq<int>, m: Maths, q: Result)
    requires GapsOf(ref, ref, m, q)
    ensures q.gaps == q.clippedStart == 0
    ensures (exists i :: 0 <= i < |ref| / ENV_BLOCK && IsSpeech(Envelope(ref, m.log10), i)) ==> q.gain == 0.0
  {
    hide Measured, IsSpeech, Level;
    var re := Envelope(ref, m.log10);
    var gain :| Measured(re, re, q.gaps, q.clippedStart, gain) && q.gain == (Round(gain * 10.0) as real) / 10.0;
    NothingMissing(re, q.gaps, q.clippedStart, gain);
    assert Round(0.0) == 0;
  }
}
