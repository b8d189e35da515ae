/** Compare (media/quality.go): the score, the gaps and the clipped start of a recording. */
module Comparison {
  import opened Options
  import opened Correlation
  import opened Quality
  import opened Spectrum

  /* ---- The median ---- */

  /** What the library sort returns. */
  function Sorted(s: seq<real>): (r: seq<real>)
    ensures |r| == |s|
  {
    if s == [] then [] else Insert(s[|s| - 1], Sorted(s[..|s| - 1]))
  }

  function Insert(x: real, s: seq<real>): (r: seq<real>)
    ensures |r| == |s| + 1
  {
    if s == [] || s[|s| - 1] <= x then s + [x] else Insert(x, s[..|s| - 1]) + [s[|s| - 1]]
  }

  predicate Ordered(s: seq<real>) {
    forall i, j :: 0 <= i < j < |s| ==> s[i] <= s[j]
  }

  /** How many values are at least t. */
  function AtLeast(s: seq<real>, t: real): (n: nat)
    ensures n <= |s|
  {
    if s == [] then 0 else AtLeast(s[..|s| - 1], t) + if s[|s| - 1] >= t then 1 else 0
  }

  lemma {:induction false} InsertCounts(x: real, s: seq<real>, t: real)
    ensures AtLeast(Insert(x, s), t) == AtLeast(s, t) + if x >= t then 1 else 0
  {
    var r := Insert(x, s);
    if s == [] || s[|s| - 1] <= x {
      assert r[..|s|] == s;
    } else {
      InsertCounts(x, s[..|s| - 1], t);
      assert r[..|s|] == Insert(x, s[..|s| - 1]);
    }
  }

  lemma {:induction false} InsertHasOnly(x: real, s: seq<real>, y: real)
    requires y in Insert(x, s)
    ensures y == x || y in s
  {
    if s != [] && s[|s| - 1] > x && y != s[|s| - 1] {
      InsertHasOnly(x, s[..|s| - 1], y);
    }
  }

  lemma {:induction false} InsertOrders(x: real, s: seq<real>)
    requires Ordered(s)
    ensures Ordered(Insert(x, s))
  {
    if s != [] && s[|s| - 1] > x {
      var r, before := Insert(x, s), s[..|s| - 1];
      InsertOrders(x, before);
      forall i | 0 <= i < |s|
        ensures r[i] <= r[|s|]
      {
        assert r[i] == Insert(x, before)[i];
        InsertHasOnly(x, before, r[i]);
      }
    }
  }

  /** Sorting orders, and keeps as many values above every bound as there were. */
  lemma {:induction false} SortedHolds(s: seq<real>, t: real)
    ensures Ordered(Sorted(s)) && AtLeast(Sorted(s), t) == AtLeast(s, t)
  {
    if s != [] {
      SortedHolds(s[..|s| - 1], t);
      InsertOrders(s[|s| - 1], Sorted(s[..|s| - 1]));
      InsertCounts(s[|s| - 1], Sorted(s[..|s| - 1]), t);
    }
  }

  lemma {:induction false} RestIsAtLeast(s: seq<real>, k: nat, t: real)
    requires k <= |s| && forall i :: k <= i < |s| ==> s[i] >= t
    ensures AtLeast(s, t) >= |s| - k
  {
    if k < |s| {
      RestIsAtLeast(s[..|s| - 1], k, t);
    }
  }

  function Median(s: seq<real>): real
    requires s != []
  {
    Sorted(s)[|s| / 2]
  }

  /** At least half of the values reach the median. */
  lemma HalfReachesMedian(s: seq<real>)
    requires s != []
    ensures AtLeast(s, Median(s)) >= |s| - |s| / 2
  {
    hide AtLeast, Sorted;
    var r, k := Sorted(s), |s| / 2;
    SortedHolds(s, r[k]);
    assert forall i :: k < i < |r| ==> r[k] <= r[i];
    RestIsAtLeast(r, k, r[k]);
  }

  lemma {:induction false} InsertHasAll(x: real, s: seq<real>, y: real)
    requires y == x || y in s
    ensures y in Insert(x, s)
  {
    if s != [] && s[|s| - 1] > x && y != s[|s| - 1] {
      assert s == s[..|s| - 1] + [s[|s| - 1]];
      InsertHasAll(x, s[..|s| - 1], y);
    }
  }

  /** Sorting neither adds nor loses a value. */
  lemma {:induction false} SortedHas(s: seq<real>, y: real)
    ensures y in Sorted(s) <==> y in s
  {
    if s != [] {
      var before, x := s[..|s| - 1], s[|s| - 1];
      assert s == before + [x];
      SortedHas(before, y);
      if y in Sorted(s) {
        InsertHasOnly(x, Sorted(before), y);
      }
      if y in s {
        InsertHasAll(x, Sorted(before), y);
      }
    }
  }

  lemma {:induction false} FewAreAtLeast(s: seq<real>, k: nat, t: real)
    requires k < |s| && forall i :: 0 <= i <= k ==> s[i] < t
    ensures AtLeast(s, t) <= |s| - 1 - k
  {
    if k < |s| - 1 {
      FewAreAtLeast(s[..|s| - 1], k, t);
    } else {
      NoneIsAtLeast(s, t);
    }
  }

  lemma {:induction false} NoneIsAtLeast(s: seq<real>, t: real)
    requires forall i :: 0 <= i < |s| ==> s[i] < t
    ensures AtLeast(s, t) == 0
  {
    if s != [] {
      NoneIsAtLeast(s[..|s| - 1], t);
    }
  }

  /** The median is one of the values, at least half of them reach it, and fewer than half exceed it. */
  lemma MedianInTheMiddle(s: seq<real>, t: real)
    requires s != []
    ensures Median(s) in s && AtLeast(s, Median(s)) >= |s| - |s| / 2
    ensures t > Median(s) ==> AtLeast(s, t) <= |s| - 1 - |s| / 2
  {
    hide AtLeast, Sorted;
    var r, k := Sorted(s), |s| / 2;
    HalfReachesMedian(s);
    SortedHas(s, r[k]);
    if t > r[k] {
      SortedHolds(s, t);
      FewAreAtLeast(r, k, t);
    }
  }

  function Count(s: seq<real>, d: real): nat {
    if s == [] then 0 else Count(s[..|s| - 1], d) + if s[|s| - 1] == d then 1 else 0
  }

  lemma {:induction false} CountBounds(s: seq<real>, d: real, t: real)
    ensures t <= d ==> AtLeast(s, t) >= Count(s, d)
    ensures t > d ==> AtLeast(s, t) + Count(s, d) <= |s|
  {
    if s != [] {
      CountBounds(s[..|s| - 1], d, t);
    }
  }

  /** A value that more than half of the entries have is the median. */
  lemma MajorityIsMedian(s: seq<real>, d: real)
    requires 2 * Count(s, d) > |s|
    ensures s != [] && Median(s) == d
  {
    assert Count([], d) == 0;
    hide AtLeast, Count, Median;
    MedianInTheMiddle(s, d);
    CountBounds(s, d, Median(s));
    CountBounds(s, d, d);
  }

  /* ---- Gaps ---- */

  ghost predicate Blocks(re: seq<real>, he: seq<real>, blocks: seq<nat>) {
    |re| == |he| && forall j :: 0 <= j < |blocks| ==> blocks[j] < |re|
  }

  /** Heard above -90 dB. */
  predicate Audible(level: real) { level > FLOOR_DB + 10.0 }

  /** The level differences of the speech blocks that are heard at all. */
  function Diffs(re: seq<real>, he: seq<real>, blocks: seq<nat>): (r: seq<real>)
    requires Blocks(re, he, blocks)
    ensures |r| <= |blocks|
    ensures r == [] <==> forall j :: 0 <= j < |blocks| ==> !Audible(he[blocks[j]])
  {
    if blocks == [] then []
    else
      var m := |blocks| - 1;
      var i := blocks[m];
      var rest := Diffs(re, he, blocks[..m]);
      assert forall j :: 0 <= j < m ==> blocks[..m][j] == blocks[j];
      if Audible(he[i]) then rest + [he[i] - re[i]] else rest
  }

  /** Half of the speech blocks are louder than this, relative to the reference; 0 when nothing is heard. */
  function Gain(diffs: seq<real>): real {
    if diffs == [] then 0.0 else Median(diffs)
  }

  /** The recording is much quieter than the reference at its level. */
  predicate IsGap(re: seq<real>, he: seq<real>, i: nat, gain: real)
    requires i < |re| == |he|
  {
    he[i] < re[i] + gain - GAP_DROP
  }

  function GapCount(re: seq<real>, he: seq<real>, blocks: seq<nat>, gain: real): (n: nat)
    requires Blocks(re, he, blocks)
    ensures n <= |blocks|
  {
    if blocks == [] then 0
    else
      var m := |blocks| - 1;
      GapCount(re, he, blocks[..m], gain) + if IsGap(re, he, blocks[m], gain) then 1 else 0
  }

  /** The first n blocks are gaps and the next one, if there is one, is not. */
  ghost predicate LeadingGaps(re: seq<real>, he: seq<real>, blocks: seq<nat>, gain: real, n: nat)
    requires Blocks(re, he, blocks)
  {
    && n <= |blocks|
    && (forall j :: 0 <= j < n ==> IsGap(re, he, blocks[j], gain))
    && (n < |blocks| ==> !IsGap(re, he, blocks[n], gain))
  }

  /** The loop over the speech blocks: all gaps, and those before anything is heard. */
  method CountGaps(re: seq<real>, he: seq<real>, blocks: seq<nat>, gain: real) returns (gaps: nat, clipped: nat)
    requires Blocks(re, he, blocks)
    ensures gaps == GapCount(re, he, blocks, gain) && LeadingGaps(re, he, blocks, gain, clipped)
    ensures clipped <= gaps <= |blocks|
  {
    gaps, clipped := 0, 0;
    var leading := true;
    for m := 0 to |blocks|
      invariant gaps == GapCount(re, he, blocks[..m], gain) && clipped <= gaps
      invariant clipped <= m && forall j :: 0 <= j < clipped ==> IsGap(re, he, blocks[j], gain)
      invariant if leading then clipped == m else clipped < m && !IsGap(re, he, blocks[clipped], gain)
    {
      assert blocks[..m + 1][..m] == blocks[..m];
      var i := blocks[m];
      if he[i] < re[i] + gain - GAP_DROP {
        gaps := gaps + 1;
        if leading {
          clipped := clipped + 1;
        }
      } else {
        leading := false;
      }
    }
    assert blocks[..|blocks|] == blocks;
  }

  method CollectDiffs(re: seq<real>, he: seq<real>, blocks: seq<nat>) returns (diffs: seq<real>)
    requires Blocks(re, he, blocks)
    ensures diffs == Diffs(re, he, blocks)
  {
    diffs := [];
    for m := 0 to |blocks|
      invariant diffs == Diffs(re, he, blocks[..m])
    {
      assert blocks[..m + 1][..m] == blocks[..m];
      var i := blocks[m];
      if he[i] > FLOOR_DB + 10.0 {
        diffs := diffs + [he[i] - re[i]];
      }
    }
    assert blocks[..|blocks|] == blocks;
  }

  /** A block whose difference reaches t is no gap at gain t. */
  lemma {:induction false} ReachedIsNoGap(re: seq<real>, he: seq<real>, blocks: seq<nat>, t: real)
    requires Blocks(re, he, blocks)
    ensures GapCount(re, he, blocks, t) + AtLeast(Diffs(re, he, blocks), t) <= |blocks|
  {
    if blocks != [] {
      var m := |blocks| - 1;
      ReachedIsNoGap(re, he, blocks[..m], t);
      var rest, i := Diffs(re, he, blocks[..m]), blocks[m];
      assert (rest + [he[i] - re[i]])[..|rest|] == rest;
    }
  }

  lemma {:induction false} AllAreGaps(re: seq<real>, he: seq<real>, blocks: seq<nat>, gain: real)
    requires Blocks(re, he, blocks) && forall j :: 0 <= j < |blocks| ==> IsGap(re, he, blocks[j], gain)
    ensures GapCount(re, he, blocks, gain) == |blocks|
  {
    if blocks != [] {
      AllAreGaps(re, he, blocks[..|blocks| - 1], gain);
    }
  }

  /**
   * At most half of the audible speech blocks count as gaps, whatever the levels. So every speech block is a gap
   * exactly when none is heard above -90 dB; then the whole of the speech is clipped, too.
   */
  lemma GapsBound(re: seq<real>, he: seq<real>, blocks: seq<nat>)
    requires Blocks(re, he, blocks) && forall j :: 0 <= j < |blocks| ==> re[blocks[j]] >= ACTIVE_MIN
    ensures var diffs := Diffs(re, he, blocks);
            var gaps := GapCount(re, he, blocks, Gain(diffs));
            && gaps <= |blocks| - (|diffs| - |diffs| / 2)
            && (gaps == |blocks| <==> forall j :: 0 <= j < |blocks| ==> he[blocks[j]] <= -90.0)
            && (diffs == [] ==> LeadingGaps(re, he, blocks, Gain(diffs), |blocks|))
  {
    hide GapCount, AtLeast, Median;
    var diffs := Diffs(re, he, blocks);
    if diffs == [] {
      AllAreGaps(re, he, blocks, 0.0);
    } else {
      HalfReachesMedian(diffs);
      ReachedIsNoGap(re, he, blocks, Median(diffs));
    }
  }

  /** The level differences of all speech blocks, heard or not. */
  function AllDiffs(re: seq<real>, he: seq<real>, blocks: seq<nat>): (r: seq<real>)
    requires Blocks(re, he, blocks)
    ensures |r| == |blocks| && forall j :: 0 <= j < |r| ==> r[j] == he[blocks[j]] - re[blocks[j]]
  {
    seq(|blocks|, j requires 0 <= j < |blocks| => he[blocks[j]] - re[blocks[j]])
  }

  /** The gaps are exactly the blocks more than 20 dB below the gain: none is missed and none is added. */
  lemma {:induction false} GapsAreBelow(re: seq<real>, he: seq<real>, blocks: seq<nat>, gain: real)
    requires Blocks(re, he, blocks)
    ensures GapCount(re, he, blocks, gain) == |blocks| - AtLeast(AllDiffs(re, he, blocks), gain - 20.0)
  {
    if blocks != [] {
      var m := |blocks| - 1;
      GapsAreBelow(re, he, blocks[..m], gain);
      assert AllDiffs(re, he, blocks)[..m] == AllDiffs(re, he, blocks[..m]);
    }
  }

  /**
   * When more than half of the audible speech blocks are heard at one difference to the reference, the gain is that
   * difference, and the gaps are exactly the blocks more than 20 dB below it, however many and wherever they are.
   */
  lemma LostBlocksAreGaps(re: seq<real>, he: seq<real>, blocks: seq<nat>, d: real)
    requires Blocks(re, he, blocks) && 2 * Count(Diffs(re, he, blocks), d) > |Diffs(re, he, blocks)|
    ensures Gain(Diffs(re, he, blocks)) == d
    ensures GapCount(re, he, blocks, d) == |blocks| - AtLeast(AllDiffs(re, he, blocks), d - 20.0)
    ensures forall j :: 0 <= j < |blocks| ==>
              (IsGap(re, he, blocks[j], d) <==> he[blocks[j]] - re[blocks[j]] < d - 20.0)
  {
    MajorityIsMedian(Diffs(re, he, blocks), d);
    GapsAreBelow(re, he, blocks, d);
  }

  /** The first of three equally loud blocks lost: one gap, at the start. */
  lemma LostStart()
    ensures var re, he, blocks := [-20.0, -20.0, -20.0], [-50.0, -20.0, -20.0], [0, 1, 2];
            && Blocks(re, he, blocks) && Gain(Diffs(re, he, blocks)) == 0.0
            && GapCount(re, he, blocks, 0.0) == 1 && LeadingGaps(re, he, blocks, 0.0, 1)
  {
    var re, he, blocks := [-20.0, -20.0, -20.0], [-50.0, -20.0, -20.0], [0, 1, 2];
    assert blocks[..2] == [0, 1] && [0, 1][..1] == [0] && [0][..0] == [];
    assert Diffs(re, he, [0]) == [-30.0] && GapCount(re, he, [0], 0.0) == 1;
    assert Diffs(re, he, [0, 1]) == [-30.0, 0.0] && GapCount(re, he, [0, 1], 0.0) == 1;
    var d := Diffs(re, he, blocks);
    assert d == [-30.0, 0.0, 0.0];
    hide Diffs;
    ThreeDifferences();
    MajorityIsMedian(d, 0.0);
  }

  lemma ThreeDifferences()
    ensures Count([-30.0, 0.0, 0.0], 0.0) == 2
  {
    var d := [-30.0, 0.0, 0.0];
    assert d[..2] == [-30.0, 0.0] && [-30.0, 0.0][..1] == [-30.0] && [-30.0][..0] == [];
    assert Count([-30.0], 0.0) == 0 && Count([-30.0, 0.0], 0.0) == 1;
  }

  /* ---- Compare ---- */

  /** The recording under the reference, padded with silence past its end. */
  function Segment(heard: seq<int>, lag: nat, n: nat): (r: seq<int>)
    ensures |r| == n
  {
    seq(n, i requires 0 <= i < n => if lag + i < |heard| then heard[lag + i] else 0)
  }

  /** Offset and compared are in samples, gaps and clippedStart in blocks of 10 ms. */
  datatype Result = Result(score: real, offset: nat, compared: nat, gaps: nat, clippedStart: nat, gain: real)

  /** How much of the reference lies inside the recording. */
  function Overlap(ref: seq<int>, heard: seq<int>, lag: nat): nat {
    Min(|ref|, if |heard| >= lag then |heard| - lag else 0)
  }

  ghost predicate SpeechBlocks(re: seq<real>, blocks: seq<nat>) {
    && (forall j :: 0 <= j < |blocks| ==> blocks[j] < |re| && IsSpeech(re, blocks[j]))
    && (forall i: nat :: i < |re| && IsSpeech(re, i) ==> i in blocks)
    && (forall j, k :: 0 <= j < k < |blocks| ==> blocks[j] < blocks[k])
  }

  /** What the gap figures mean, for the speech blocks of the reference. */
  ghost predicate Measured(re: seq<real>, he: seq<real>, gaps: nat, clipped: nat, gain: real) {
    exists blocks :: SpeechBlocks(re, blocks) && MeasuredOver(re, he, blocks, gaps, clipped, gain)
  }

  ghost predicate MeasuredOver(re: seq<real>, he: seq<real>, blocks: seq<nat>, gaps: nat, clipped: nat, gain: real) {
    Blocks(re, he, blocks) &&
    var diffs := Diffs(re, he, blocks);
    && gaps == GapCount(re, he, blocks, Gain(diffs)) && LeadingGaps(re, he, blocks, Gain(diffs), clipped)
    && clipped <= gaps <= |blocks| - (|diffs| - |diffs| / 2)
    && (gaps == |blocks| <==> forall j :: 0 <= j < |blocks| ==> !Audible(he[blocks[j]]))
    && gain == if diffs == [] then FLOOR_DB else Median(diffs)
  }

  /** The part of Compare that works on the envelopes. */
  method MeasureGaps(re: seq<real>, he: seq<real>) returns (gaps: nat, clipped: nat, gain: real)
    requires |re| == |he|
    ensures Measured(re, he, gaps, clipped, gain)
  {
    hide Diffs, GapCount, Peak, LeadingGaps, Sorted;
    var blocks := Speech(re);
    var diffs := CollectDiffs(re, he, blocks);
    gain := if diffs == [] then 0.0 else Sorted(diffs)[|diffs| / 2];
    gaps, clipped := CountGaps(re, he, blocks, gain);
    GapsBound(re, he, blocks);
    if diffs == [] {
      gain := FLOOR_DB;
    }
    assert MeasuredOver(re, he, blocks, gaps, clipped, gain);
  }

  /** The score over the speech frames of the reference. */
  ghost predicate Scored(ref: seq<int>, part: seq<int>, m: Maths, score: real)
    requires m.Valid() && |ref| == |part| >= SPEC_FRAME
  {
    exists active: seq<nat> :: SpeechBlocks(FrameLevels(ref, m), active) && ScoredOver(ref, part, m, active, score)
  }

  ghost predicate ScoredOver(ref: seq<int>, part: seq<int>, m: Maths, active: seq<nat>, score: real)
    requires m.Valid() && |ref| == |part| >= SPEC_FRAME
  {
    var rs, hs := Spectrogram(ref, m), Spectrogram(part, m);
    && active != [] && Spectra(rs, active, BINS) && Spectra(hs, active, BINS)
    && score == ScoreOf(rs, hs, active, BINS, m.sqrt)
  }

  /** The part of Compare that works on the spectrograms; None when no frame of the reference is speech. */
  method ScoreSpeech(ref: seq<int>, part: seq<int>, m: Maths) returns (score: Option<real>)
    requires m.Valid() && |ref| == |part| >= SPEC_FRAME
    ensures score.None? <==> forall f :: 0 <= f < Frames(ref) ==> FrameLevels(ref, m)[f] < ACTIVE_MIN
    ensures score.Some? ==> 0.0 <= score.value <= 1.0 && Scored(ref, part, m, score.value)
  {
    hide ScoreOf, Level, Peak, Root, Row;
    var rs, levels := MakeSpectrogram(ref, m);
    var hs, _ := MakeSpectrogram(part, m);
    var active := Speech(levels);
    if active == [] {
      return None;
    }
    ScoreBounds(rs, hs, active, BINS, m.sqrt);
    var s := SpectralScore(rs, hs, active, BINS, m.sqrt);
    assert ScoredOver(ref, part, m, active, s);
    return Some(s);
  }

  /**
   * What Compare promises of its result. None exactly when a signal is shorter than a frame or no frame of the
   * reference reaches -55 dB. The score is between 0 and 1, the reference is inside the recording as far as it is
   * compared, and the clipped start is the leading part of the gaps, which are all of the speech exactly when nothing
   * of it is heard.
   */
  ghost predicate Compared(ref: seq<int>, heard: seq<int>, m: Maths, q: Option<Result>)
    requires m.Valid()
  {
    && (q.None? <==> |ref| < SPEC_FRAME || |heard| < SPEC_FRAME
                     || forall f :: 0 <= f < Frames(ref) ==> FrameLevels(ref, m)[f] < ACTIVE_MIN)
    && (q.Some? ==>
          && |ref| >= SPEC_FRAME
          && 0.0 <= q.value.score <= 1.0 && Scored(ref, Segment(heard, q.value.offset, |ref|), m, q.value.score)
          && q.value.offset == LagOf(ref, heard, m.log10, m.sqrt)
          && q.value.compared == Overlap(ref, heard, q.value.offset)
          && q.value.compared <= |ref| && q.value.offset + q.value.compared <= |heard|
          && (q.value.compared == |ref| || q.value.offset + q.value.compared == |heard|)
          && GapsOf(ref, Segment(heard, q.value.offset, |ref|), m, q.value))
  }

  /** The gap figures of a result; its gain is rounded to a tenth. */
  ghost predicate GapsOf(ref: seq<int>, part: seq<int>, m: Maths, q: Result) {
    exists gain :: Measured(Envelope(ref, m.log10), Envelope(part, m.log10), q.gaps, q.clippedStart, gain)
                   && q.gain == (Round(gain * 10.0) as real) / 10.0
  }

  method Compare(ref: seq<int>, heard: seq<int>, m: Maths) returns (q: Option<Result>)
    requires m.Valid()
    ensures Compared(ref, heard, m, q)
  {
    hide LagOf, Level, Measured, Scored, Root, FrameLevels, Frames;
    if |ref| < SPEC_FRAME || |heard| < SPEC_FRAME {
      return None;
    }
    LagIsBest(ref, heard, m.log10, m.sqrt);
    var lag := Align(ref, heard, m.log10, m.sqrt);
    var part := Segment(heard, lag, |ref|);
    var score := ScoreSpeech(ref, part, m);
    if score == None {
      return None;
    }
    var gaps, clipped, gain := MeasureGaps(Envelope(ref, m.log10), Envelope(part, m.log10));
    return Some(Result(score.value, lag, Overlap(ref, heard, lag), gaps, clipped, (Round(gain * 10.0) as real) / 10.0));
  }
}
