/**
 * What is in the packets of a sender of digits, field by field: durations, end bits and markers of the events (RFC
 * 4733, section 2.3), and which frame of the looped audio each audio packet carries (media/stream.go).
 */
module DtmfDetail {
  import opened Options
  import opened RtpPacket
  import opened Dtmf
  import opened DtmfPlan

  /* ---- Events ---- */

  predicate Marked(b: seq<byte>)
    requires |b| >= 2
  {
    b[1] / 128 == 1
  }

  predicate EndBit(b: seq<byte>)
    requires |b| == 16
  {
    b[13] / 128 == 1
  }

  function Duration(b: seq<byte>): nat
    requires |b| == 16
  {
    ReadU16(b, 14)
  }

  lemma HeaderFields(pt: nat, marker: bool, seqNo: nat, ts: nat, ssrc: nat, payload: seq<byte>)
    requires pt < 128 && seqNo < 0x1_0000 && ts < WORD && ssrc < WORD
    ensures var b := Header(pt, marker, seqNo, ts, ssrc) + payload;
            && |b| == 12 + |payload| && b[12..] == payload && b[1] % 128 == pt && (Marked(b) <==> marker)
            && ReadU16(b, 2) == seqNo && ReadU32(b, 4) == ts
  {
    var b := Header(pt, marker, seqNo, ts, ssrc) + payload;
    assert b[2..4] == U16(seqNo) && b[4..6] == U16(ts / 0x1_0000) && b[6..8] == U16(ts % 0x1_0000);
    hide U16;
    ReadBack(b, 2, seqNo);
    ReadBack(b, 4, ts / 0x1_0000);
    ReadBack(b, 6, ts % 0x1_0000);
    assert b[1] == pt + if marker then 0x80 else 0;
  }

  /**
   * Packet `index` of an event: the duration rises by 160 with every update up to the length of the event and
   * stays there, the end bit is on the packets after the updates, the marker on the first one.
   */
  lemma EventFields(c: Config, event: nat, packets: nat, index: nat, seqNo: nat, ts: nat)
    requires ConfigOk(c) && event < 16 && 1 <= packets <= 409 && seqNo < 0x1_0000 && ts < WORD
    ensures var b := EventPacket(c, event, packets, index, seqNo, ts);
            && |b| == 16 && b[1] % 128 == c.dtmfPt && (Marked(b) <==> index == 0)
            && ReadU16(b, 2) == seqNo && ReadU32(b, 4) == ts
            && b[12] == event && b[13] % 128 == 10 && (EndBit(b) <==> index >= packets)
            && Duration(b) == 160 * if index < packets then index + 1 else packets
  {
    var units := if index < packets then index + 1 else packets;
    var payload := EventPayload(event, index >= packets, units);
    PayloadBytesOf(event, index >= packets, units);
    hide Header, U16, ReadU16, ReadU32, EventPayload;
    HeaderFields(c.dtmfPt, index == 0 < packets, seqNo, ts, c.ssrc, payload);
    var h := Header(c.dtmfPt, index == 0 < packets, seqNo, ts, c.ssrc);
    assert EventPacket(c, event, packets, index, seqNo, ts) == h + payload;
    PayloadFields(h, payload, units * FRAME_SAMPLES);
  }

  lemma PayloadBytesOf(event: nat, end: bool, units: nat)
    requires event < 16 && units <= 409
    ensures var payload := EventPayload(event, end, units);
            && |payload| == 4 && payload[0] == event && payload[1] % 128 == 10 && (payload[1] >= 128 <==> end)
            && payload[2..] == U16(units * FRAME_SAMPLES)
  {
    hide U16;
  }

  lemma PayloadFields(h: seq<byte>, payload: seq<byte>, units: nat)
    requires |h| == 12 && |payload| == 4 && units < 0x1_0000 && payload[2..] == U16(units)
    ensures var b := h + payload; b[12] == payload[0] && b[13] == payload[1] && ReadU16(b, 14) == units
  {
    var b := h + payload;
    assert b[14..16] == payload[2..];
    ReadBack(b, 14, units);
  }

  /** The packets of an event in their order: indexes 0 to packets + 2, so the last three carry the end bit. */
  lemma {:induction false} EventPlanAt(tag: int, packets: nat, i: nat, k: nat)
    requires i + k < packets + ENDS
    ensures |EventPlan(tag, packets, i)| == packets + 3 - i && EventPlan(tag, packets, i)[k] == Kind(tag, i + k)
    decreases packets + ENDS - i
  {
    EventPlanLength(tag, packets, i);
    if k > 0 {
      EventPlanAt(tag, packets, i + 1, k - 1);
    }
  }

  /** Every event packet of any run has the fields of its place in its digit, on the timestamp at which that began. */
  lemma SentEventFields(c: Config, x: Tx, actions: seq<Action>, i: nat)
    requires ConfigOk(c) && TxOk(c, x) && x.queue == []
    requires var l := Transmit(c, x, actions);
             i < |l.out| && var tag := l.out[i].kind.tag;
             0 <= tag < |l.digits| && l.digits[tag].event < 16 && 1 <= l.digits[tag].packets <= 409
    ensures var l := Transmit(c, x, actions);
            var b, k := l.out[i].bytes, l.out[i].kind;
            var packets := l.digits[k.tag].packets;
            && k.tag < |l.starts| && |b| == 16 && b[12] == l.digits[k.tag].event
            && (Marked(b) <==> k.index == 0) && (EndBit(b) <==> k.index >= packets)
            && Duration(b) == 160 * (if k.index < packets then k.index + 1 else packets)
            && ReadU16(b, 2) == (x.seqNo + i) % 0x1_0000 && ReadU32(b, 4) == Stamp(x.ts, l.starts[k.tag])
  {
    hide Transmit, Scheduled, EventPacket, Stamp, TxOk, ConfigOk;
    SenderFollowsPlan(c, x, actions);
    var l := Transmit(c, x, actions);
    var o := l.out[i];
    assert PacketOk(c, o, i, l.starts, l.digits, x.ts, x.seqNo);
    var d := l.digits[o.kind.tag];
    EventFields(c, d.event, d.packets, o.kind.index, (x.seqNo + i) % 0x1_0000, Stamp(x.ts, l.starts[o.kind.tag]));
  }

  /** Updates are 20 ms long: as many as fit into the duration asked for, 100 ms if none is, but at least one. */
  lemma PacketsForDuration(nanos: int)
    ensures var asked := if nanos <= 0 then 100_000_000 else nanos;
            var sent := PacketsFor(nanos) * 20_000_000;
            if asked >= 20_000_000 then sent <= asked < sent + 20_000_000 else sent == 20_000_000
  {}

  /* ---- Audio ---- */

  /** How many audio packets were sent. */
  function AudioCount(out: seq<Out>): nat {
    if out == [] then 0 else AudioCount(out[..|out| - 1]) + if out[|out| - 1].kind == AUDIO then 1 else 0
  }

  /** Ticks without a packet before the packet o at position i: every other tick sent one. */
  function SilentBefore(o: Out, i: nat): int { o.tick - i }

  /** Whether audio is to be marked after `silent` silent ticks: there was one since the last audio packet. */
  predicate MarkerDue(out: seq<Out>, silent: int, initially: bool) {
    if out == [] then initially || silent > 0
    else
      var n := |out| - 1;
      if out[n].kind == AUDIO then SilentBefore(out[n], n) < silent else MarkerDue(out[..n], silent, initially)
  }

  function FrameCount(c: Config): nat
    requires ConfigOk(c)
    ensures FrameCount(c) > 0 && |c.src| == FRAME_SAMPLES * FrameCount(c)
  {
    |c.src| / FRAME_SAMPLES
  }

  /** Which frame of the loop is number k from the one at position `start` on. */
  function LoopIndex(c: Config, start: nat, k: nat): (n: nat)
    requires ConfigOk(c)
    ensures n < FrameCount(c)
  {
    (start / FRAME_SAMPLES + k) % FrameCount(c)
  }

  function LoopFrame(c: Config, start: nat, k: nat): seq<byte>
    requires ConfigOk(c)
  {
    var p := FRAME_SAMPLES * LoopIndex(c, start, k);
    c.src[p..p + FRAME_SAMPLES]
  }

  lemma RemainderUnique(a: nat, f: nat, q: nat, r: nat)
    requires r < f && a == f * q + r
    ensures a % f == r
  {
    assert a == f * (a / f) + a % f;
    var d: int := a / f - q;
    assert f * d == r - a % f;
    assert d == 0;
  }

  lemma NextRemainder(a: nat, f: nat)
    requires f > 0
    ensures (a + 1) % f == if a % f + 1 == f then 0 else a % f + 1
  {
    var q := a / f;
    assert a == f * q + a % f;
    if a % f + 1 == f {
      assert f * (q + 1) == f * q + f;
      RemainderUnique(a + 1, f, q + 1, 0);
    } else {
      RemainderUnique(a + 1, f, q, a % f + 1);
    }
  }

  lemma SmallRemainder(x: nat, length: nat)
    requires length > 0 && x <= length
    ensures x % length == if x == length then 0 else x
  {}

  lemma NextIndex(c: Config, start: nat, k: nat)
    requires ConfigOk(c)
    ensures var n := LoopIndex(c, start, k);
            LoopIndex(c, start, k + 1) == if n + 1 == FrameCount(c) then 0 else n + 1
  {
    NextRemainder(start / FRAME_SAMPLES + k, FrameCount(c));
  }

  /** The sender's position goes from one frame of the loop to the next. */
  lemma NextPosition(c: Config, start: nat, k: nat)
    requires ConfigOk(c)
    ensures (FRAME_SAMPLES * LoopIndex(c, start, k) + FRAME_SAMPLES) % |c.src|
            == FRAME_SAMPLES * LoopIndex(c, start, k + 1)
  {
    hide LoopIndex, FrameCount;
    NextIndex(c, start, k);
    SmallRemainder(FRAME_SAMPLES * LoopIndex(c, start, k) + FRAME_SAMPLES, |c.src|);
  }

  lemma FirstPosition(c: Config, start: nat)
    requires ConfigOk(c) && start % FRAME_SAMPLES == 0 && start < |c.src|
    ensures FRAME_SAMPLES * LoopIndex(c, start, 0) == start
  {
    var n := start / FRAME_SAMPLES;
    assert n < FrameCount(c);
    assert n % FrameCount(c) == n;
  }

  /** The bytes of an audio packet sent in a tick after these packets. */
  function AudioBytes(c: Config, x: Tx, before: seq<Out>, tick: nat): seq<byte>
    requires ConfigOk(c) && TxOk(c, x)
  {
    Header(c.audioPt, MarkerDue(before, tick - |before|, x.marker), (x.seqNo + |before|) % 0x1_0000, Stamp(x.ts, tick),
           c.ssrc)
    + LoopFrame(c, x.pos, AudioCount(before))
  }

  ghost predicate AudioOk(c: Config, x: Tx, l: Log)
    requires ConfigOk(c) && TxOk(c, x)
  {
    AudioState(c, x, l) && AudioSoFar(c, x, l)
  }

  /** Where the sender is in the loop, and what the header of the next audio packet will be. */
  ghost predicate AudioState(c: Config, x: Tx, l: Log)
    requires ConfigOk(c) && TxOk(c, x)
  {
    && l.x.pos == FRAME_SAMPLES * LoopIndex(c, x.pos, AudioCount(l.out))
    && l.x.marker == MarkerDue(l.out, l.tick - |l.out|, x.marker)
    && l.x.ts == Stamp(x.ts, l.tick) && l.x.seqNo == (x.seqNo + |l.out|) % 0x1_0000
  }

  ghost predicate AudioSoFar(c: Config, x: Tx, l: Log)
    requires ConfigOk(c) && TxOk(c, x)
  {
    && (forall i :: 0 <= i < |l.out| ==> SilentBefore(l.out[i], i) <= l.tick - |l.out|)
    && (forall i :: 0 <= i < |l.out| && l.out[i].kind == AUDIO ==>
          l.out[i].bytes == AudioBytes(c, x, l.out[..i], l.out[i].tick))
  }

  lemma CountMore(out: seq<Out>, o: Out, silent: int, initially: bool)
    ensures AudioCount(out + [o]) == AudioCount(out) + if o.kind == AUDIO then 1 else 0
    ensures MarkerDue(out + [o], silent, initially)
            <==> if o.kind == AUDIO then SilentBefore(o, |out|) < silent else MarkerDue(out, silent, initially)
  {
    assert (out + [o])[..|out|] == out;
  }

  /** A tick without a packet makes the next audio packet a marked one. */
  lemma {:induction false} SilenceMarks(out: seq<Out>, silent: int, initially: bool)
    requires silent >= 0 && forall i :: 0 <= i < |out| ==> SilentBefore(out[i], i) <= silent
    ensures MarkerDue(out, silent + 1, initially)
  {
    if out != [] {
      SilenceMarks(out[..|out| - 1], silent, initially);
    }
  }

  lemma TickOfAudio(c: Config, x: Tx)
    requires ConfigOk(c) && TxOk(c, x)
    ensures var (y, sent) := Tick(c, x);
            if sent.Event? then y.pos == x.pos && y.marker == x.marker
            else y.pos == (x.pos + FRAME_SAMPLES) % |c.src| && !y.marker && sent.bytes == AudioPacket(c, x)
  {
    hide EventPacket, AudioPacket, NextDtmf, Advance;
  }

  /** What one more packet leaves as it was. */
  lemma EarlierAudio(c: Config, x: Tx, l: Log, m: Log, o: Out)
    requires ConfigOk(c) && TxOk(c, x) && AudioSoFar(c, x, l)
    requires m.out == l.out + [o] && m.tick == l.tick + 1 && o.tick == l.tick
    requires o.kind == AUDIO ==> o.bytes == AudioBytes(c, x, l.out, l.tick)
    ensures AudioSoFar(c, x, m)
  {
    hide AudioBytes, MarkerDue, AudioCount;
    forall i | 0 <= i < |m.out|
      ensures m.out[..i] == if i < |l.out| then l.out[..i] else l.out
    {
    }
  }

  lemma AudioSent(c: Config, x: Tx, l: Log)
    requires ConfigOk(c) && TxOk(c, x) && TxOk(c, l.x) && AudioOk(c, x, l)
    ensures AudioPacket(c, l.x) == AudioBytes(c, x, l.out, l.tick)
  {
    hide Header, MarkerDue, AudioCount, Stamp, LoopIndex;
  }

  /** What a tick appends, and where it leaves position, marker, timestamp and sequence number. */
  lemma OnePacket(c: Config, l: Log) returns (o: Out)
    requires ConfigOk(c) && TxOk(c, l.x)
    ensures var m := OneTick(c, l, true);
            && m.out == l.out + [o] && o.tick == l.tick && m.tick == l.tick + 1
            && m.x.ts == (l.x.ts + FRAME_SAMPLES) % WORD && m.x.seqNo == (l.x.seqNo + 1) % 0x1_0000
            && if o.kind == AUDIO && |m.x.queue| <= |l.digits|
               then m.x.pos == (l.x.pos + FRAME_SAMPLES) % |c.src| && !m.x.marker && o.bytes == AudioPacket(c, l.x)
               else |m.x.queue| <= |l.digits| ==> m.x.pos == l.x.pos && m.x.marker == l.x.marker
  {
    hide EventPacket, AudioPacket, NextDtmf, Advance;
    o := OneTick(c, l, true).out[|l.out|];
    TickIsQueueTick(c, l.x);
    TickOfAudio(c, l.x);
  }

  lemma TickKeepsAudioOk(c: Config, x: Tx, l: Log)
    requires ConfigOk(c) && TxOk(c, x) && TxOk(c, l.x) && AudioOk(c, x, l) && |l.out| <= l.tick
    requires |OneTick(c, l, true).x.queue| <= |l.digits|
    ensures AudioOk(c, x, OneTick(c, l, true))
  {
    hide AudioPacket, AudioBytes, AudioState, AudioSoFar, OneTick;
    var o := OnePacket(c, l);
    AudioSent(c, x, l);
    EarlierAudio(c, x, l, OneTick(c, l, true), o);
    TickKeepsAudioState(c, x, l);
  }

  lemma TickKeepsAudioState(c: Config, x: Tx, l: Log)
    requires ConfigOk(c) && TxOk(c, x) && TxOk(c, l.x) && AudioState(c, x, l) && |l.out| <= l.tick
    requires |OneTick(c, l, true).x.queue| <= |l.digits|
    ensures AudioState(c, x, OneTick(c, l, true))
  {
    hide AudioPacket, AudioCount, MarkerDue, Stamp, LoopIndex, OneTick;
    var m := OneTick(c, l, true);
    var o := OnePacket(c, l);
    CountMore(l.out, o, m.tick - |m.out|, x.marker);
    NextPosition(c, x.pos, AudioCount(l.out));
    NextStamp(x.ts, l.tick);
  }

  lemma SilentTickKeepsAudioOk(c: Config, x: Tx, l: Log)
    requires ConfigOk(c) && TxOk(c, x) && TxOk(c, l.x) && AudioOk(c, x, l) && |l.out| <= l.tick
    ensures AudioOk(c, x, OneTick(c, l, false))
  {
    hide AudioBytes, AudioCount, MarkerDue, Stamp, LoopIndex;
    SilenceMarks(l.out, l.tick - |l.out|, x.marker);
    NextStamp(x.ts, l.tick);
  }

  lemma QueueFits(c: Config, l: Log, t: Timetable, ts0: nat, seq0: nat)
    requires ConfigOk(c) && LogOk(c, l, t, ts0, seq0)
    ensures |l.x.queue| <= |l.digits|
  {}

  lemma {:induction false} TransmitAudioOk(c: Config, x: Tx, actions: seq<Action>)
    requires ConfigOk(c) && TxOk(c, x) && x.queue == []
    ensures var l := Transmit(c, x, actions); |l.out| <= l.tick && AudioOk(c, x, l)
  {
    if actions == [] {
      FirstPosition(c, x.pos);
    } else {
      var before, last := actions[..|actions| - 1], actions[|actions| - 1];
      TransmitAudioOk(c, x, before);
      TransmitOk(c, x, actions);
      QueueFits(c, Transmit(c, x, actions), Scheduled(actions), x.ts, x.seqNo);
      hide LogOk, AudioOk, OneTick, Dialled, Scheduled, TxOk;
      LastAction(c, x, Transmit(c, x, before), last);
    }
  }

  lemma LastAction(c: Config, x: Tx, l: Log, a: Action)
    requires ConfigOk(c) && TxOk(c, x) && TxOk(c, l.x) && AudioOk(c, x, l) && |l.out| <= l.tick
    requires |Act(c, l, a).x.queue| <= |Act(c, l, a).digits|
    ensures AudioOk(c, x, Act(c, l, a)) && |Act(c, l, a).out| <= Act(c, l, a).tick
  {
    match a
    case Dial(text, nanos) =>
      hide AudioOk, Jobs, Queued;
      SameAudio(c, x, l, Dialled(l, text, nanos));
    case Elapse(may) =>
      hide AudioOk, Tick;
      if may {
        TickKeepsAudioOk(c, x, l);
      } else {
        SilentTickKeepsAudioOk(c, x, l);
      }
  }

  lemma SameAudio(c: Config, x: Tx, l: Log, m: Log)
    requires ConfigOk(c) && TxOk(c, x) && AudioOk(c, x, l)
    requires m == l.(x := l.x.(queue := m.x.queue), digits := m.digits)
    ensures AudioOk(c, x, m)
  {
    hide AudioBytes, AudioCount, MarkerDue, Stamp, LoopIndex;
  }

  /**
   * Over any ticks and calls, audio packet by audio packet: the k-th one carries frame k of the looped audio,
   * whatever digits or silences lie between, with the timestamp of its own tick; it is marked exactly when a
   * silent tick lies between it and the audio packet before it, or before the first one.
   */
  lemma AudioFollowsLoop(c: Config, x: Tx, actions: seq<Action>, i: nat)
    requires ConfigOk(c) && TxOk(c, x) && x.queue == []
    requires var l := Transmit(c, x, actions); i < |l.out| && l.out[i].kind == AUDIO
    ensures var l := Transmit(c, x, actions);
            && l.out[i].tick < l.tick && |l.out| <= l.tick
            && l.out[i].bytes == AudioBytes(c, x, l.out[..i], l.out[i].tick)
  {
    hide Transmit, AudioBytes, AudioCount, MarkerDue, TxOk, ConfigOk;
    TransmitAudioOk(c, x, actions);
    var l := Transmit(c, x, actions);
    assert SilentBefore(l.out[i], i) <= l.tick - |l.out|;
  }
}
