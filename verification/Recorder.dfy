/** Recording by RTP timestamp (media/record.go): a frame lands where its timestamp says, whenever it arrives. */
module Recorder {

  const MAX_RECORD_SAMPLES := 15 * 60 * 8000
  const WORD := 0x1_0000_0000
  const HALF_WORD := 0x8000_0000

  /** The difference of two 32-bit timestamps read as a signed number. */
  function SignedDiff(ts: nat, ts0: nat): int {
    var d := (ts - ts0) % WORD;
    if d < HALF_WORD then d else d - WORD
  }

  /** A decoded frame: the decode table of the codec is applied to the payload before placing it. */
  datatype Frame = Frame(ssrc: nat, ts: nat, samples: seq<int>)

  datatype Track = Track(init: bool, ssrc: nat, ts0: nat, off0: int, samples: seq<int>)

  /** s padded with silence to at least n samples. */
  function Padded(s: seq<int>, n: nat): (r: seq<int>)
    ensures |r| == if n > |s| then n else |s|
  {
    if n > |s| then s + seq(n - |s|, _ => 0) else s
  }

  function Overwrite(s: seq<int>, at: nat, x: seq<int>): (r: seq<int>)
    requires at + |x| <= |s|
    ensures |r| == |s|
  {
    s[..at] + x + s[at + |x|..]
  }

  /** The first frame, and the first one of another SSRC, anchors the track at its time of arrival. */
  function Anchored(t: Track, now: int, f: Frame): Track {
    if !t.init || f.ssrc != t.ssrc then Track(true, f.ssrc, f.ts, now, t.samples) else t
  }

  function Position(t: Track, f: Frame): int {
    t.off0 + SignedDiff(f.ts, t.ts0)
  }

  /** Frames before the start of the recording or past its cap are dropped as a whole. */
  predicate Fits(t: Track, f: Frame) {
    0 <= Position(t, f) && Position(t, f) + |f.samples| <= MAX_RECORD_SAMPLES
  }

  function Placed(t: Track, f: Frame): Track {
    if !Fits(t, f) then t
    else t.(samples := Overwrite(Padded(t.samples, Position(t, f) + |f.samples|), Position(t, f), f.samples))
  }

  function Put(t: Track, now: int, f: Frame): Track {
    Placed(Anchored(t, now, f), f)
  }

  /** The track object of the source. */
  class Recording {
    var init: bool
    var ssrc: nat
    var ts0: nat
    var off0: int
    var samples: seq<int>

    ghost function View(): Track
      reads this
    {
      Track(init, ssrc, ts0, off0, samples)
    }

    constructor ()
      ensures View() == Track(false, 0, 0, 0, [])
    {
      init, ssrc, ts0, off0, samples := false, 0, 0, 0, [];
    }

    method PutFrame(now: int, f: Frame)
      modifies this
      ensures View() == Put(old(View()), now, f)
    {
      if !init || f.ssrc != ssrc {
        init, ssrc, ts0, off0 := true, f.ssrc, f.ts, now;
      }
      var at := off0 + SignedDiff(f.ts, ts0);
      if at < 0 || at + |f.samples| > MAX_RECORD_SAMPLES {
        return;
      }
      var need := at + |f.samples|;
      if need > |samples| {
        samples := samples + seq(need - |samples|, _ => 0);
      }
      CopyInto(at, f.samples);
    }

    method CopyInto(at: nat, x: seq<int>)
      requires at + |x| <= |samples|
      modifies this`samples
      ensures samples == Overwrite(old(samples), at, x)
    {
      for i := 0 to |x|
        invariant |samples| == |old(samples)|
        invariant samples == Overwrite(old(samples), at, x[..i])
      {
        samples := samples[at + i := x[i]];
      }
      assert x[..|x|] == x;
    }
  }

  /* ---- Frames of one run of packets ---- */

  /** The frame that a sender whose timestamp counter is unbounded sends at a given time. */
  datatype Sent = Sent(time: int, samples: seq<int>) {
    function Wire(ssrc: nat): Frame { Frame(ssrc, time % WORD, samples) }
  }

  /** A frame and the position on the recording's timeline at which it happens to arrive. */
  datatype Arrival = Arrival(now: int, sent: Sent)

  function PutAll(t: Track, arrivals: seq<Arrival>): Track {
    if arrivals == [] then t
    else
      var last := arrivals[|arrivals| - 1];
      Put(PutAll(t, arrivals[..|arrivals| - 1]), last.now, last.sent.Wire(t.ssrc))
  }

  function Frames(arrivals: seq<Arrival>): (r: seq<Sent>)
    ensures |r| == |arrivals| && forall i :: 0 <= i < |r| ==> r[i] == arrivals[i].sent
  {
    if arrivals == [] then [] else Frames(arrivals[..|arrivals| - 1]) + [arrivals[|arrivals| - 1].sent]
  }

  /** The track was anchored by a frame sent at time0 and every time is within half a timestamp cycle of it. */
  ghost predicate Near(t: Track, time0: int, sent: seq<Sent>) {
    && t.init && t.ts0 == time0 % WORD
    && forall i :: 0 <= i < |sent| ==> -HALF_WORD <= sent[i].time - time0 < HALF_WORD
  }

  /** Two frames are the same one or do not overlap. */
  ghost predicate Apart(a: Sent, b: Sent) {
    a == b || a.time + |a.samples| <= b.time || b.time + |b.samples| <= a.time
  }

  ghost predicate AllApart(sent: seq<Sent>) {
    forall i, j :: 0 <= i < |sent| && 0 <= j < |sent| ==> Apart(sent[i], sent[j])
  }

  /** Where the frame lies on the timeline of a track anchored at time0. */
  predicate Covers(t: Track, time0: int, f: Sent, p: int) {
    t.off0 + f.time - time0 <= p < t.off0 + f.time - time0 + |f.samples|
  }

  predicate Kept(t: Track, time0: int, f: Sent) {
    0 <= t.off0 + f.time - time0 && t.off0 + f.time - time0 + |f.samples| <= MAX_RECORD_SAMPLES
  }

  lemma PositionIsTime(t: Track, time0: int, f: Sent)
    requires t.ts0 == time0 % WORD && -HALF_WORD <= f.time - time0 < HALF_WORD
    ensures Position(t, f.Wire(t.ssrc)) == t.off0 + f.time - time0
  {
    var d := f.time - time0;
    assert (f.time % WORD - time0 % WORD) % WORD == d % WORD;
    assert d % WORD == if d < 0 then d + WORD else d;
  }

  /** What a track holds, in terms of the set of frames put on it and not of their order. */
  ghost predicate Holds(t: Track, time0: int, sent: seq<Sent>, s: seq<int>) {
    && |s| >= |t.samples|
    && (forall f :: f in sent && Kept(t, time0, f) ==> t.off0 + f.time - time0 + |f.samples| <= |s|)
    && (|s| == |t.samples|
        || exists f :: f in sent && Kept(t, time0, f) && |s| == t.off0 + f.time - time0 + |f.samples|)
    && (forall f, p :: f in sent && Kept(t, time0, f) && Covers(t, time0, f, p) ==>
          s[p] == f.samples[p - (t.off0 + f.time - time0)])
    && (forall p :: 0 <= p < |s| && (forall f :: f in sent && Kept(t, time0, f) ==> !Covers(t, time0, f, p)) ==>
          s[p] == if p < |t.samples| then t.samples[p] else 0)
  }

  lemma OverwriteAt(s: seq<int>, at: nat, x: seq<int>, p: nat)
    requires at + |x| <= |s| && p < |s|
    ensures Overwrite(s, at, x)[p] == if at <= p < at + |x| then x[p - at] else s[p]
  {}

  /** Where every sample comes from once a frame that is kept has been placed. */
  lemma PlacedAt(t: Track, f: Frame)
    requires Fits(t, f)
    ensures var at, s := Position(t, f), Placed(t, f).samples;
            && |s| == (if at + |f.samples| > |t.samples| then at + |f.samples| else |t.samples|)
            && forall p :: 0 <= p < |s| ==>
                 s[p] == if at <= p < at + |f.samples| then f.samples[p - at]
                         else if p < |t.samples| then t.samples[p] else 0
  {
    var at := Position(t, f);
    var grown := Padded(t.samples, at + |f.samples|);
    forall p | 0 <= p < |grown|
      ensures Overwrite(grown, at, f.samples)[p] == if at <= p < at + |f.samples| then f.samples[p - at] else grown[p]
    {
      OverwriteAt(grown, at, f.samples, p);
    }
  }

  /** One more frame that does not overlap the others is placed without disturbing them. */
  lemma OneMore(t: Track, time0: int, sent: seq<Sent>, f: Sent, u: Track)
    requires Near(t, time0, sent + [f]) && AllApart(sent + [f])
    requires u == t.(samples := u.samples) && Holds(t, time0, sent, u.samples)
    ensures var v := Placed(u, f.Wire(t.ssrc));
            v == t.(samples := v.samples) && Holds(t, time0, sent + [f], v.samples)
  {
    var all := sent + [f];
    assert all[|sent|] == f;
    PositionIsTime(u, time0, f);
    if Kept(t, time0, f) {
      PlacedAt(u, f.Wire(t.ssrc));
      forall g | g in sent
        ensures Apart(g, f)
      {
        var i :| 0 <= i < |sent| && sent[i] == g;
        assert Apart(all[i], all[|sent|]);
      }
      hide Near, AllApart, Placed, Position;
      LandedHolds(t, time0, sent, f, u.samples, Placed(u, f.Wire(t.ssrc)).samples);
    }
  }

  lemma LandedHolds(t: Track, time0: int, sent: seq<Sent>, f: Sent, s: seq<int>, r: seq<int>)
    requires Holds(t, time0, sent, s) && Kept(t, time0, f) && forall g :: g in sent ==> Apart(g, f)
    requires var at := t.off0 + f.time - time0;
             && |r| == (if at + |f.samples| > |s| then at + |f.samples| else |s|)
             && forall p :: 0 <= p < |r| ==>
                  r[p] == if at <= p < at + |f.samples| then f.samples[p - at] else if p < |s| then s[p] else 0
    ensures Holds(t, time0, sent + [f], r)
  {
    var all := sent + [f];
    assert forall g :: g in all <==> g in sent || g == f;
    assert || |r| == |t.samples|
           || exists g :: g in all && Kept(t, time0, g) && |r| == t.off0 + g.time - time0 + |g.samples|;
    forall g, p | g in all && Kept(t, time0, g) && Covers(t, time0, g, p)
      ensures r[p] == g.samples[p - (t.off0 + g.time - time0)]
    {
      if g != f {
        assert Apart(g, f) && !Covers(t, time0, f, p);
      }
    }
    forall p | 0 <= p < |r| && forall g :: g in all && Kept(t, time0, g) ==> !Covers(t, time0, g, p)
      ensures r[p] == if p < |t.samples| then t.samples[p] else 0
    {
      assert f in all && !Covers(t, time0, f, p);
    }
  }

  lemma {:induction false} PutAllHolds(t: Track, time0: int, arrivals: seq<Arrival>)
    requires Near(t, time0, Frames(arrivals)) && AllApart(Frames(arrivals))
    ensures var v := PutAll(t, arrivals);
            v == t.(samples := v.samples) && Holds(t, time0, Frames(arrivals), v.samples)
  {
    if arrivals != [] {
      var before, last := arrivals[..|arrivals| - 1], arrivals[|arrivals| - 1].sent;
      assert Frames(arrivals) == Frames(before) + [last];
      forall i, j | 0 <= i < |before| && 0 <= j < |before|
        ensures Apart(Frames(before)[i], Frames(before)[j])
      {
        assert Frames(before)[i] == Frames(arrivals)[i] && Frames(before)[j] == Frames(arrivals)[j];
      }
      assert Near(t, time0, Frames(before)) by {
        forall i | 0 <= i < |before|
          ensures -HALF_WORD <= Frames(before)[i].time - time0 < HALF_WORD
        {
          assert Frames(before)[i] == Frames(arrivals)[i];
        }
      }
      PutAllHolds(t, time0, before);
      OneMore(t, time0, Frames(before), last, PutAll(t, before));
    }
  }

  /** The contents depend on the set of frames only. */
  lemma HoldsOne(t: Track, time0: int, a: seq<Sent>, b: seq<Sent>, x: seq<int>, y: seq<int>)
    requires forall f :: f in a <==> f in b
    requires Holds(t, time0, a, x) && Holds(t, time0, b, y)
    ensures x == y
  {
    assert |x| == |y|;
    forall p | 0 <= p < |x|
      ensures x[p] == y[p]
    {
      if f :| f in a && Kept(t, time0, f) && Covers(t, time0, f, p) {
        assert x[p] == f.samples[p - (t.off0 + f.time - time0)];
      }
    }
  }

  /**
   * On an anchored track, the order and the times of arrival do not matter, nor do repeated frames: the samples
   * are the same, silence exactly where no frame landed on the part that was grown.
   */
  lemma ArrivalOrderDoesNotMatter(t: Track, time0: int, a: seq<Arrival>, b: seq<Arrival>)
    requires Near(t, time0, Frames(a)) && AllApart(Frames(a)) && Near(t, time0, Frames(b)) && AllApart(Frames(b))
    requires forall f :: f in Frames(a) <==> f in Frames(b)
    ensures PutAll(t, a) == PutAll(t, b)
    ensures Holds(t, time0, Frames(a), PutAll(t, a).samples)
  {
    PutAllHolds(t, time0, a);
    PutAllHolds(t, time0, b);
    HoldsOne(t, time0, Frames(a), Frames(b), PutAll(t, a).samples, PutAll(t, b).samples);
  }

  /** A track that the first frame has just anchored is one to which this applies, with that frame's time. */
  lemma FirstFrameAnchors(now: int, first: Sent, ssrc: nat, sent: seq<Sent>)
    requires forall i :: 0 <= i < |sent| ==> -HALF_WORD <= sent[i].time - first.time < HALF_WORD
    ensures var t := Put(Track(false, 0, 0, 0, []), now, first.Wire(ssrc));
            Near(t, first.time, sent) && t.ssrc == ssrc && t.off0 == now
            && t.samples == (if 0 <= now && now + |first.samples| <= MAX_RECORD_SAMPLES
                             then seq(now, _ => 0) + first.samples else [])
  {}

  /**
   * The first frame of another source, whatever the track holds: it lies at the moment of its arrival, if it fits
   * there, and no other sample changes; from then on frames are placed by their distance to it.
   */
  lemma NewSourceAnchors(t: Track, now: int, first: Sent, ssrc: nat, sent: seq<Sent>)
    requires !t.init || ssrc != t.ssrc
    requires forall i :: 0 <= i < |sent| ==> -HALF_WORD <= sent[i].time - first.time < HALF_WORD
    ensures var u := Put(t, now, first.Wire(ssrc));
            && Near(u, first.time, sent) && u.ssrc == ssrc && u.off0 == now
            && if 0 <= now && now + |first.samples| <= MAX_RECORD_SAMPLES
               then |u.samples| == (if now + |first.samples| > |t.samples| then now + |first.samples| else |t.samples|)
                    && forall p :: 0 <= p < |u.samples| ==>
                         u.samples[p] == if now <= p < now + |first.samples| then first.samples[p - now]
                                         else if p < |t.samples| then t.samples[p] else 0
               else u.samples == t.samples
  {
    var a := Anchored(t, now, first.Wire(ssrc));
    PositionIsTime(a, first.time, first);
    if Fits(a, first.Wire(ssrc)) {
      PlacedAt(a, first.Wire(ssrc));
    }
  }

  /** A frame of the same source leaves the anchor where it is. */
  lemma SameSourceKeepsAnchor(t: Track, now: int, f: Sent)
    requires t.init
    ensures Put(t, now, f.Wire(t.ssrc)) == t.(samples := Put(t, now, f.Wire(t.ssrc)).samples)
  {}

  /* ---- Several sources one after the other ---- */

  /** The frames of one source: the first one, when it came, and the others as they came. */
  datatype Burst = Burst(ssrc: nat, now: int, first: Sent, others: seq<Arrival>)

  function PutBursts(t: Track, bursts: seq<Burst>): Track {
    if bursts == [] then t
    else
      var b := bursts[|bursts| - 1];
      PutAll(Put(PutBursts(t, bursts[..|bursts| - 1]), b.now, b.first.Wire(b.ssrc)), b.others)
  }

  /** The frames of a burst are close enough in time and do not overlap each other. */
  ghost predicate BurstOk(b: Burst) {
    && (forall i :: 0 <= i < |Frames(b.others)| ==>
          -HALF_WORD <= Frames(b.others)[i].time - b.first.time < HALF_WORD)
    && AllApart(Frames(b.others))
  }

  /** The same first frame at the same time, and the same others in whatever order and at whatever times. */
  ghost predicate SameBurst(a: Burst, b: Burst) {
    && a.ssrc == b.ssrc && a.now == b.now && a.first == b.first
    && forall f :: f in Frames(a.others) <==> f in Frames(b.others)
  }

  ghost predicate SameBursts(a: seq<Burst>, b: seq<Burst>) {
    && |a| == |b|
    && (forall i :: 0 <= i < |a| ==> BurstOk(a[i]) && BurstOk(b[i]) && SameBurst(a[i], b[i]))
    && (forall i :: 0 < i < |a| ==> a[i].ssrc != a[i - 1].ssrc)
  }

  lemma {:induction false} PutAllKeepsSource(t: Track, arrivals: seq<Arrival>)
    requires t.init
    ensures PutAll(t, arrivals).init && PutAll(t, arrivals).ssrc == t.ssrc
  {
    if arrivals != [] {
      PutAllKeepsSource(t, arrivals[..|arrivals| - 1]);
    }
  }

  /**
   * Over any number of sources, one after the other: the recording depends on when the first frame of each one
   * arrived and on which others there were, not on their order, their times of arrival or their repetition. After
   * each burst the track belongs to its source.
   */
  lemma {:induction false} BurstOrderDoesNotMatter(t: Track, a: seq<Burst>, b: seq<Burst>)
    requires SameBursts(a, b) && (a != [] ==> !t.init || a[0].ssrc != t.ssrc)
    ensures PutBursts(t, a) == PutBursts(t, b)
    ensures a != [] ==> PutBursts(t, a).init && PutBursts(t, a).ssrc == a[|a| - 1].ssrc
  {
    if a != [] {
      var n := |a| - 1;
      BurstOrderDoesNotMatter(t, a[..n], b[..n]);
      var u, x, y := PutBursts(t, a[..n]), a[n], b[n];
      assert n > 0 ==> a[..n][n - 1] == a[n - 1];
      hide Put, PutAll, BurstOk, SameBurst;
      OneBurst(u, x, y);
    }
  }

  lemma OneBurst(u: Track, x: Burst, y: Burst)
    requires BurstOk(x) && BurstOk(y) && SameBurst(x, y) && (!u.init || x.ssrc != u.ssrc)
    ensures var v := Put(u, x.now, x.first.Wire(x.ssrc));
            PutAll(v, x.others) == PutAll(v, y.others) && PutAll(v, x.others).init && PutAll(v, x.others).ssrc == x.ssrc
  {
    NewSourceAnchors(u, x.now, x.first, x.ssrc, Frames(x.others));
    NewSourceAnchors(u, x.now, x.first, x.ssrc, Frames(y.others));
    hide Near, Put, AllApart, PutAll;
    var v := Put(u, x.now, x.first.Wire(x.ssrc));
    NearIsInit(v, x.first.time, Frames(x.others));
    PutAllKeepsSource(v, x.others);
    ArrivalOrderDoesNotMatter(v, x.first.time, x.others, y.others);
  }

  lemma NearIsInit(t: Track, time0: int, sent: seq<Sent>)
    requires Near(t, time0, sent)
    ensures t.init
  {}

  /** Whatever arrives, of whatever source and in whatever order, the recording never grows past its cap. */
  lemma {:induction false} NeverPastCap(t: Track, frames: seq<Frame>, nows: seq<int>)
    requires |frames| == |nows| && |t.samples| <= MAX_RECORD_SAMPLES
    ensures |PutSeq(t, frames, nows).samples| <= MAX_RECORD_SAMPLES
    decreases |frames|
  {
    if frames != [] {
      NeverPastCap(Put(t, nows[0], frames[0]), frames[1..], nows[1..]);
    }
  }

  function PutSeq(t: Track, frames: seq<Frame>, nows: seq<int>): Track
    requires |frames| == |nows|
    decreases |frames|
  {
    if frames == [] then t else PutSeq(Put(t, nows[0], frames[0]), frames[1..], nows[1..])
  }
}
