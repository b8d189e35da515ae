/** Sequence numbers and loss of a received stream (media/stream.go; RFC 3550, Appendix A.1 and A.3). */
module Rtp {

  const SEQ_MOD := 0x1_0000
  const HALF := 0x8000

  datatype Rx = Rx(init: bool, ssrc: nat, baseSeq: nat, maxSeq: nat, cycles: nat, received: nat,
                   prevExp: nat, prevRecv: nat)

  const FRESH := Rx(false, 0, 0, 0, 0, 0, 0, 0)

  /** The bounds of the fields; the extended highest number never falls below the first one. */
  predicate RxOk(r: Rx) {
    r.baseSeq < SEQ_MOD && r.maxSeq < SEQ_MOD && r.cycles % SEQ_MOD == 0 && r.cycles + r.maxSeq >= r.baseSeq
  }

  /** How many packets the current run spans: the unsigned subtraction of the source does not wrap. */
  function Span(r: Rx): nat
    requires RxOk(r)
  {
    r.cycles + r.maxSeq - r.baseSeq + 1
  }

  /** countSeq: RFC 3550 A.1 without probation; another SSRC closes the run. */
  function CountSeq(r: Rx, ssrc: nat, seqNo: nat): (t: Rx)
    requires RxOk(r) && seqNo < SEQ_MOD
    ensures RxOk(t)
  {
    var closed := if r.init && ssrc != r.ssrc
                  then r.(prevExp := r.prevExp + Span(r), prevRecv := r.prevRecv + r.received, init := false) else r;
    if !closed.init then Rx(true, ssrc, seqNo, seqNo, 0, 1, closed.prevExp, closed.prevRecv)
    else
      var delta := (seqNo - r.maxSeq) % SEQ_MOD;
      if delta == 0 || delta >= HALF then r.(received := r.received + 1)
      else r.(received := r.received + 1, maxSeq := seqNo,
              cycles := if seqNo < r.maxSeq then r.cycles + SEQ_MOD else r.cycles)
  }

  datatype Stats = Stats(expected: nat, received: nat, lost: nat)

  function StatsOf(r: Rx): Stats
    requires RxOk(r)
  {
    var expected := r.prevExp + if r.init then Span(r) else 0;
    var received := r.prevRecv + if r.init then r.received else 0;
    Stats(expected, received, if expected > received then expected - received else 0)
  }

  /** The receive statistics of a stream, updated in place. */
  class Receiver {
    var init: bool
    var ssrc: nat
    var baseSeq: nat
    var maxSeq: nat
    var cycles: nat
    var received: nat
    var prevExp: nat
    var prevRecv: nat

    ghost function View(): Rx
      reads this
    {
      Rx(init, ssrc, baseSeq, maxSeq, cycles, received, prevExp, prevRecv)
    }

    constructor ()
      ensures View() == FRESH
    {
      init, ssrc, baseSeq, maxSeq, cycles, received, prevExp, prevRecv := false, 0, 0, 0, 0, 0, 0, 0;
    }

    method Count(newSsrc: nat, seqNo: nat)
      requires RxOk(View()) && seqNo < SEQ_MOD
      modifies this
      ensures View() == CountSeq(old(View()), newSsrc, seqNo) && RxOk(View())
    {
      if init && newSsrc != ssrc {
        prevExp := prevExp + (cycles + maxSeq - baseSeq + 1);
        prevRecv := prevRecv + received;
        init := false;
      }
      if !init {
        init, ssrc, baseSeq, maxSeq, cycles, received := true, newSsrc, seqNo, seqNo, 0, 1;
        return;
      }
      received := received + 1;
      var delta := (seqNo - maxSeq) % SEQ_MOD;
      if delta != 0 && delta < HALF {
        if seqNo < maxSeq {
          cycles := cycles + SEQ_MOD;
        }
        maxSeq := seqNo;
      }
    }
  }

  /* ---- What really happened ---- */

  /** A packet with the number the sender would have given it had its counter been unbounded. */
  datatype Packet = Packet(ssrc: nat, number: int)

  /** One run of packets of one SSRC: the first and the highest number, the numbers seen and how many packets. */
  datatype Run = Run(base: int, max: int, seen: set<int>, count: nat)

  /** All packets so far: the current run and the totals of the earlier ones. */
  datatype History = History(ssrc: nat, run: Run, pastReceived: nat, pastMissing: nat, pastExtra: int)

  function Range(lo: int, hi: int): (r: set<int>)
    ensures forall n :: n in r <==> lo <= n < hi
    ensures |r| == if lo < hi then hi - lo else 0
    decreases if lo < hi then hi - lo else 0
  {
    if lo >= hi then {} else Range(lo, hi - 1) + {hi - 1}
  }

  /** Numbers between the first and the highest one that never arrived. */
  function Missing(r: Run): nat {
    |Range(r.base, r.max + 1) - r.seen|
  }

  /** Packets that are duplicates or precede the first one. */
  function Extra(r: Run): int {
    r.count - |Range(r.base, r.max + 1) * r.seen|
  }

  function Observe(r: Run, n: int): Run {
    Run(r.base, if n > r.max then n else r.max, r.seen + {n}, r.count + 1)
  }

  function Received(packets: seq<Packet>): (h: History)
    requires packets != []
  {
    var last := packets[|packets| - 1];
    var first := Run(last.number, last.number, {last.number}, 1);
    if |packets| == 1 then History(last.ssrc, first, 0, 0, 0)
    else
      var h := Received(packets[..|packets| - 1]);
      if last.ssrc == h.ssrc then h.(run := Observe(h.run, last.number))
      else History(last.ssrc, first, h.pastReceived + h.run.count, h.pastMissing + Missing(h.run),
                   h.pastExtra + Extra(h.run))
  }

  function Counted(packets: seq<Packet>): (r: Rx)
    ensures RxOk(r)
  {
    if packets == [] then FRESH
    else
      var last := packets[|packets| - 1];
      CountSeq(Counted(packets[..|packets| - 1]), last.ssrc, last.number % SEQ_MOD)
  }

  /* ---- Unwrapping ---- */

  /** The counter stands for this run: same first number, and the extended highest number is as far from it. */
  ghost predicate Synced(r: Rx, t: Run) {
    RxOk(r) && r.init && r.baseSeq == t.base % SEQ_MOD && r.cycles + r.maxSeq - r.baseSeq == t.max - t.base
  }

  /** The distances at which 16 bits are enough. */
  predicate Tracked(max: int, n: int) {
    if n > max then n - max < HALF else (max - n) % SEQ_MOD == 0 || (max - n) % SEQ_MOD <= HALF
  }

  lemma ModShift(a: int, b: int)
    ensures (a % SEQ_MOD - b % SEQ_MOD) % SEQ_MOD == (a - b) % SEQ_MOD
  {}

  lemma SyncedMax(r: Rx, t: Run)
    requires Synced(r, t)
    ensures r.maxSeq == t.max % SEQ_MOD
  {
    assert (t.max - r.maxSeq) % SEQ_MOD == 0;
  }

  /** How far a packet takes the counter. */
  function Advance(from: int, n: int): nat {
    var delta := (n - from) % SEQ_MOD;
    if delta < HALF then delta else 0
  }

  lemma WrapDistance(a: nat, b: nat)
    requires a < SEQ_MOD && b < SEQ_MOD
    ensures (b - a) % SEQ_MOD == if b >= a then b - a else b - a + SEQ_MOD
  {
    if b < a {
      assert (b - a + SEQ_MOD) % SEQ_MOD == b - a + SEQ_MOD;
    }
  }

  lemma CountAdvances(r: Rx, seqNo: nat)
    requires RxOk(r) && r.init && seqNo < SEQ_MOD
    ensures var t := CountSeq(r, r.ssrc, seqNo);
            t.init && t.baseSeq == r.baseSeq && t.cycles + t.maxSeq == r.cycles + r.maxSeq + Advance(r.maxSeq, seqNo)
  {
    WrapDistance(r.maxSeq, seqNo);
  }

  /** The counter moves as far as the number does, or neither moves, exactly at the distances that can be told. */
  lemma AdvanceIsExact(max: int, n: int)
    ensures Advance(max, n) == (if n > max then n - max else 0) <==> Tracked(max, n)
  {
    if n > max {
      Remainder(n - max);
    } else {
      Opposite(max - n);
    }
  }

  lemma Remainder(d: nat)
    ensures d % SEQ_MOD <= d && (d < SEQ_MOD ==> d % SEQ_MOD == d)
  {}

  lemma Opposite(d: int)
    requires d >= 0
    ensures (-d) % SEQ_MOD == if d % SEQ_MOD == 0 then 0 else SEQ_MOD - d % SEQ_MOD
  {
    var q, e := d / SEQ_MOD, d % SEQ_MOD;
    assert -d == SEQ_MOD * (-q) - e;
    if e > 0 {
      assert -d == SEQ_MOD * (-q - 1) + (SEQ_MOD - e);
    }
  }

  /** One packet keeps the counter in step exactly when its distance from the highest number can be told. */
  lemma CountTracks(r: Rx, t: Run, n: int)
    requires Synced(r, t)
    ensures Synced(CountSeq(r, r.ssrc, n % SEQ_MOD), Observe(t, n)) <==> Tracked(t.max, n)
  {
    SyncedMax(r, t);
    ModShift(n, t.max);
    assert Advance(r.maxSeq, n % SEQ_MOD) == Advance(t.max, n);
    hide CountSeq, Advance, Tracked;
    CountAdvances(r, n % SEQ_MOD);
    AdvanceIsExact(t.max, n);
  }

  /** Every packet lies within the 16-bit window around the highest number of its run so far. */
  ghost predicate InWindow(packets: seq<Packet>) {
    |packets| >= 2 ==>
      var last, h := packets[|packets| - 1], Received(packets[..|packets| - 1]);
      InWindow(packets[..|packets| - 1]) && (last.ssrc == h.ssrc ==> -HALF <= last.number - h.run.max < HALF)
  }

  /** What is expected beyond what arrived is what is missing less what arrived in excess. */
  lemma RunBalance(t: Run)
    requires t.base <= t.max
    ensures t.max - t.base + 1 - t.count == Missing(t) - Extra(t)
  {
    var all := Range(t.base, t.max + 1);
    assert all == (all - t.seen) + (all * t.seen);
  }

  /** What the counter and the history agree on. */
  ghost predicate InStep(r: Rx, h: History, n: nat) {
    && Synced(r, h.run) && r.ssrc == h.ssrc && r.received == h.run.count && h.run.base <= h.run.max
    && r.prevRecv == h.pastReceived && r.prevRecv + r.received == n
    && r.prevExp - r.prevRecv == h.pastMissing - h.pastExtra
  }

  /** Another packet of the same SSRC. */
  lemma SameSourceInStep(r: Rx, h: History, n: nat, number: int)
    requires InStep(r, h, n) && -HALF <= number - h.run.max < HALF
    ensures InStep(CountSeq(r, h.ssrc, number % SEQ_MOD), h.(run := Observe(h.run, number)), n + 1)
  {
    CountTracks(r, h.run, number);
    CountKeepsPast(r, number % SEQ_MOD);
    hide CountSeq;
  }

  lemma CountKeepsPast(r: Rx, seqNo: nat)
    requires RxOk(r) && r.init && seqNo < SEQ_MOD
    ensures var t := CountSeq(r, r.ssrc, seqNo);
            t.ssrc == r.ssrc && t.received == r.received + 1 && t.prevExp == r.prevExp && t.prevRecv == r.prevRecv
  {}

  /** The first packet of another SSRC closes the run. */
  lemma NewSourceInStep(r: Rx, h: History, n: nat, ssrc: nat, number: int)
    requires InStep(r, h, n) && ssrc != h.ssrc
    ensures var past := History(ssrc, Run(number, number, {number}, 1), h.pastReceived + h.run.count,
                                h.pastMissing + Missing(h.run), h.pastExtra + Extra(h.run));
            InStep(CountSeq(r, ssrc, number % SEQ_MOD), past, n + 1)
  {
    RunBalance(h.run);
    hide Missing, Extra;
  }

  lemma {:induction false} UnwrapsAnyRun(packets: seq<Packet>)
    requires packets != [] && InWindow(packets)
    ensures var r, h := Counted(packets), Received(packets);
            && Synced(r, h.run) && r.ssrc == h.ssrc && r.received == h.run.count && h.run.base <= h.run.max
            && r.prevRecv == h.pastReceived && r.prevRecv + r.received == |packets|
            && r.prevExp - r.prevRecv == h.pastMissing - h.pastExtra
  {
    var n := |packets| - 1;
    var before, last := packets[..n], packets[n];
    if n > 0 {
      UnwrapsAnyRun(before);
      var r, h := Counted(before), Received(before);
      assert InStep(r, h, n);
      hide CountSeq, Synced, Missing, Extra;
      if last.ssrc == h.ssrc {
        SameSourceInStep(r, h, n, last.number);
      } else {
        NewSourceInStep(r, h, n, last.ssrc, last.number);
      }
    } else {
      assert before == [];
    }
  }

  /* ---- Excess ---- */

  /** A packet that repeats an earlier one of its run or precedes the run's first one. */
  predicate IsExtra(r: Run, n: int) { n in r.seen || n < r.base }

  ghost predicate RunOk(r: Run) {
    r.base <= r.max && r.base in r.seen && forall n :: n in r.seen ==> n <= r.max
  }

  lemma ExtraPacket(r: Run, n: int)
    requires RunOk(r) && IsExtra(r, n)
    ensures Range(r.base, Observe(r, n).max + 1) * Observe(r, n).seen == Range(r.base, r.max + 1) * r.seen
  {}

  lemma NewPacket(r: Run, n: int)
    requires RunOk(r) && !IsExtra(r, n)
    ensures var held := Range(r.base, r.max + 1) * r.seen;
            Range(r.base, Observe(r, n).max + 1) * Observe(r, n).seen == held + {n} && n !in held
  {}

  /** Each such packet adds one to the excess, and no other does. */
  lemma ExtraStep(r: Run, n: int)
    requires RunOk(r)
    ensures RunOk(Observe(r, n)) && Extra(Observe(r, n)) == Extra(r) + if IsExtra(r, n) then 1 else 0
  {
    if IsExtra(r, n) {
      ExtraPacket(r, n);
    } else {
      NewPacket(r, n);
    }
  }

  lemma FirstHasNoExtra(n: int)
    ensures RunOk(Run(n, n, {n}, 1)) && Extra(Run(n, n, {n}, 1)) == 0
  {
    assert Range(n, n + 1) * {n} == {n};
  }

  /** No packet repeats an earlier one of its run, and none precedes the first one. */
  ghost predicate Clean(packets: seq<Packet>) {
    |packets| >= 2 ==>
      var last, h := packets[|packets| - 1], Received(packets[..|packets| - 1]);
      Clean(packets[..|packets| - 1]) && (last.ssrc == h.ssrc ==> !IsExtra(h.run, last.number))
  }

  /** There is no excess, over all changes of SSRC, exactly when no packet is repeated or early. */
  lemma {:induction false} NoExtraIffClean(packets: seq<Packet>)
    requires packets != []
    ensures var h := Received(packets);
            && RunOk(h.run) && h.pastExtra >= 0 && Extra(h.run) >= 0
            && (h.pastExtra + Extra(h.run) == 0 <==> Clean(packets))
  {
    var n := |packets| - 1;
    FirstHasNoExtra(packets[n].number);
    if n > 0 {
      NoExtraIffClean(packets[..n]);
      ExtraStep(Received(packets[..n]).run, packets[n].number);
    }
  }

  /**
   * After any number of wraps and changes of SSRC: the span of the current run is the true one, every packet is
   * counted, and expected less received is what never arrived less the duplicates and early packets. So the
   * reported loss is exactly what never arrived if no packet was repeated or early (or nothing is missing), and
   * too low otherwise.
   */
  lemma LossAccounting(packets: seq<Packet>)
    requires packets != [] && InWindow(packets)
    ensures var st, h := StatsOf(Counted(packets)), Received(packets);
            var missing, extra := h.pastMissing + Missing(h.run), h.pastExtra + Extra(h.run);
            && Span(Counted(packets)) == h.run.max - h.run.base + 1
            && st.received == |packets|
            && st.expected - st.received == missing - extra
            && extra >= 0
            && st.lost == (if missing > extra then missing - extra else 0)
            && (st.lost == missing <==> extra == 0 || missing == 0)
            && (st.lost == missing <==> Clean(packets) || missing == 0)
  {
    UnwrapsAnyRun(packets);
    RunBalance(Received(packets).run);
    NoExtraIffClean(packets);
    hide Counted, Received, Missing, Extra, Clean, InWindow;
  }

  /** One more packet of the same SSRC. */
  lemma ReceivedMore(packets: seq<Packet>, number: int)
    requires packets != [] && InWindow(packets)
    requires -HALF <= number - Received(packets).run.max < HALF
    ensures var h := Received(packets);
            var more := packets + [Packet(h.ssrc, number)];
            Received(more) == h.(run := Observe(h.run, number)) && InWindow(more)
  {
    var more := packets + [Packet(Received(packets).ssrc, number)];
    assert more[..|more| - 1] == packets;
  }

  /** One packet lost and one repeated: no loss is reported. */
  lemma DuplicateHidesLoss(ssrc: nat)
    ensures var packets := [Packet(ssrc, 0), Packet(ssrc, 2), Packet(ssrc, 2)];
            && InWindow(packets) && Missing(Received(packets).run) == 1 && StatsOf(Counted(packets)).lost == 0
  {
    var a, b := [Packet(ssrc, 0)], [Packet(ssrc, 0), Packet(ssrc, 2)];
    var packets := [Packet(ssrc, 0), Packet(ssrc, 2), Packet(ssrc, 2)];
    ReceivedMore(a, 2);
    assert a + [Packet(ssrc, 2)] == b;
    ReceivedMore(b, 2);
    assert b + [Packet(ssrc, 2)] == packets;
    hide Received, InWindow, Counted, StatsOf;
    MissingOne();
    LossAccounting(packets);
  }

  lemma MissingOne()
    ensures var r := Observe(Observe(Run(0, 0, {0}, 1), 2), 2); Missing(r) == 1 && Extra(r) == 1
  {
    var r := Observe(Observe(Run(0, 0, {0}, 1), 2), 2);
    assert r == Run(0, 2, {0, 2}, 3);
    assert Range(0, 3) - {0, 2} == {1};
    assert Range(0, 3) * {0, 2} == {0, 2};
  }
}
