/** RFC 4733 digits from SendDTMF through packet bytes to the receiver's digit string (media/stream.go). */
module Dtmf {
  import opened Options
  import opened RtpPacket

  const GAP := 3
  const ENDS := 3
  const DIGITS := "0123456789*#ABCD"

  /* ---- Queueing ---- */

  datatype Job = Job(event: nat, packets: nat, gap: nat, sent: nat, ended: nat, ts: nat)

  function Upper(c: char): char {
    if 'a' <= c <= 'z' then (c as int - 32) as char else c
  }

  function Uppercase(s: string): (r: string)
    ensures |r| == |s| && forall i :: 0 <= i < |s| ==> r[i] == Upper(s[i])
  {
    if s == [] then [] else [Upper(s[0])] + Uppercase(s[1..])
  }

  function EventOf(c: char): Option<nat> {
    if '0' <= c <= '9' then Some(c as int - '0' as int)
    else if c == '*' then Some(10)
    else if c == '#' then Some(11)
    else if 'A' <= c <= 'D' then Some(12 + (c as int - 'A' as int))
    else None
  }

  /** The receiver's table turns the event of a digit back into that digit. */
  lemma EventRoundTrip(c: char)
    requires EventOf(c).Some?
    ensures EventOf(c).value < |DIGITS| == 16 && DIGITS[EventOf(c).value] == c
  {}

  /** Which characters can be dialled, and the digit that each one is heard as. */
  lemma KeysRecognised(c: char)
    ensures EventOf(Upper(c)).Some? <==> c in "0123456789*#ABCDabcd"
    ensures EventOf(Upper(c)).Some? ==>
              DIGITS[EventOf(Upper(c)).value] == if 'a' <= c <= 'd' then "ABCD"[c as int - 'a' as int] else c
  {}

  function NewJob(event: nat, packets: nat): Job {
    Job(event, packets, GAP, 0, 0, 0)
  }

  /** How many packets of 20 ms a digit lasts: five by default, never none. */
  function PacketsFor(nanos: int): (p: nat)
    ensures p >= 1
  {
    var d := if nanos <= 0 then 100_000_000 else nanos;
    if d / 20_000_000 > 1 then d / 20_000_000 else 1
  }

  /** The jobs of a digit string, None when one of its characters is not a digit. */
  function Jobs(digits: string, packets: nat): (r: Option<seq<Job>>)
    ensures r.Some? <==> forall i :: 0 <= i < |digits| ==> EventOf(Upper(digits[i])).Some?
    ensures r.Some? ==> |r.value| == |digits|
    ensures r.Some? ==> forall i :: 0 <= i < |digits| ==> r.value[i] == NewJob(EventOf(Upper(digits[i])).value, packets)
  {
    if digits == [] then Some([])
    else
      var e, rest := EventOf(Upper(digits[0])), Jobs(digits[1..], packets);
      if e.Some? && rest.Some? then Some([NewJob(e.value, packets)] + rest.value) else None
  }

  /* ---- Sending ---- */

  /** What does not change while digits are sent. src is the looped audio, in whole frames. */
  datatype Config = Config(ssrc: nat, dtmfPt: nat, audioPt: nat, src: seq<byte>)

  predicate ConfigOk(c: Config) {
    c.ssrc < WORD && c.dtmfPt < 128 && c.audioPt < 128 && |c.src| > 0 && |c.src| % FRAME_SAMPLES == 0
  }

  datatype Tx = Tx(seqNo: nat, ts: nat, pos: nat, marker: bool, queue: seq<Job>)

  predicate TxOk(c: Config, x: Tx) {
    && x.seqNo < 0x1_0000 && x.ts < WORD && x.pos % FRAME_SAMPLES == 0 && x.pos < |c.src|
    && forall i :: 0 <= i < |x.queue| ==> x.queue[i].ts < WORD
  }

  /** nextDTMF: drops finished jobs; true when the head of the queue sends in this tick, false for audio. */
  function NextDtmf(queue: seq<Job>): (r: (seq<Job>, bool))
    ensures |r.0| <= |queue| && (r.1 ==> |r.0| > 0)
    ensures forall i :: 0 <= i < |r.0| ==> r.0[i].ts == queue[|queue| - |r.0| + i].ts
  {
    if queue == [] then ([], false)
    else
      var j := queue[0];
      if j.sent < j.packets || j.ended < ENDS then (queue, true)
      else if j.gap > 0 then ([j.(gap := j.gap - 1)] + queue[1..], false)
      else NextDtmf(queue[1..])
  }

  /** The payload of one packet of an event; the duration is truncated to 16 bits. */
  function EventPayload(event: nat, end: bool, units: nat): seq<byte> {
    [event % 256, if end then 0x8A else 10] + U16(units * FRAME_SAMPLES % 0x1_0000)
  }

  function EventPacket(c: Config, event: nat, packets: nat, index: nat, seqNo: nat, ts: nat): seq<byte>
    requires ConfigOk(c) && seqNo < 0x1_0000 && ts < WORD
  {
    Header(c.dtmfPt, index == 0 < packets, seqNo, ts, c.ssrc)
    + EventPayload(event, index >= packets, if index < packets then index + 1 else packets)
  }

  /** What a tick sends: index counts the packets of one event, first its updates and then its end packets. */
  datatype Sent = Event(index: nat, bytes: seq<byte>) | Audio(bytes: seq<byte>)

  function AudioPacket(c: Config, x: Tx): seq<byte>
    requires ConfigOk(c) && TxOk(c, x)
  {
    Header(c.audioPt, x.marker, x.seqNo, x.ts, c.ssrc) + c.src[x.pos..x.pos + FRAME_SAMPLES]
  }

  /** The head job after one more packet of its event, the packet's index in the event and its timestamp. */
  function Advance(j: Job, stamp: nat): (Job, nat, nat) {
    var k := if j.sent == 0 then j.(ts := stamp) else j;
    if j.sent < j.packets then (k.(sent := j.sent + 1), j.sent, k.ts)
    else (k.(ended := j.ended + 1), j.packets + j.ended, k.ts)
  }

  /** tick while the stream may send. */
  function Tick(c: Config, x: Tx): (Tx, Sent)
    requires ConfigOk(c) && TxOk(c, x)
  {
    var (queue, event) := NextDtmf(x.queue);
    var next := Tx((x.seqNo + 1) % 0x1_0000, (x.ts + FRAME_SAMPLES) % WORD, x.pos, x.marker, queue);
    if event then
      assert queue[0].ts == x.queue[|x.queue| - |queue|].ts;
      var (k, index, ts) := Advance(queue[0], x.ts);
      (next.(queue := [k] + queue[1..]), Event(index, EventPacket(c, k.event, k.packets, index, x.seqNo, ts)))
    else
      (next.(pos := (x.pos + FRAME_SAMPLES) % |c.src|, marker := false), Audio(AudioPacket(c, x)))
  }

  /** tick while it may not: only the timestamp moves on, the queue waits. */
  function Silent(x: Tx): Tx {
    x.(ts := (x.ts + FRAME_SAMPLES) % WORD, marker := true)
  }

  lemma NextFrame(pos: nat, length: nat)
    requires pos < length && pos % FRAME_SAMPLES == 0 && length % FRAME_SAMPLES == 0
    ensures pos + FRAME_SAMPLES <= length
    ensures (pos + FRAME_SAMPLES) % length < length && (pos + FRAME_SAMPLES) % length % FRAME_SAMPLES == 0
  {
    var next := pos + FRAME_SAMPLES;
    assert next <= length;
    assert next % length == if next == length then 0 else next;
  }

  lemma TickKeepsTxOk(c: Config, x: Tx)
    requires ConfigOk(c) && TxOk(c, x)
    ensures TxOk(c, Tick(c, x).0) && TxOk(c, Silent(x))
  {
    hide EventPacket, AudioPacket, NextDtmf;
    NextFrame(x.pos, |c.src|);
  }

  /** A header that is written byte by byte. */
  lemma HeaderBytes(b: seq<byte>, pt: nat, mark: bool, seqNo: nat, ts: nat, ssrc: nat)
    requires |b| == 12 && seqNo < 0x1_0000 && ts < WORD && ssrc < WORD
    requires b[0] == 0x80 && b[1] == pt % 128 + if mark then 0x80 else 0
    requires b[2] == U16(seqNo)[0] && b[3] == U16(seqNo)[1]
    requires b[4] == U16(ts / 0x1_0000)[0] && b[5] == U16(ts / 0x1_0000)[1]
    requires b[6] == U16(ts % 0x1_0000)[0] && b[7] == U16(ts % 0x1_0000)[1]
    requires b[8] == U16(ssrc / 0x1_0000)[0] && b[9] == U16(ssrc / 0x1_0000)[1]
    requires b[10] == U16(ssrc % 0x1_0000)[0] && b[11] == U16(ssrc % 0x1_0000)[1]
    ensures b == Header(pt, mark, seqNo, ts, ssrc)
  {
    hide U16;
    var h := Header(pt, mark, seqNo, ts, ssrc);
    assert h[..4] == [b[0], b[1], b[2], b[3]];
    assert h[4..8] == U32(ts) && h[8..12] == U32(ssrc);
    hide Header;
    assert U32(ts) == [b[4], b[5], b[6], b[7]] && U32(ssrc) == [b[8], b[9], b[10], b[11]];
    assert h == h[..4] + h[4..8] + h[8..12];
  }

  lemma PayloadBytes(b: seq<byte>, event: nat, end: bool, units: nat)
    requires |b| == 4 && b[0] == event % 256 && b[1] == if end then 0x8A else 10
    requires var d := U16(units * FRAME_SAMPLES % 0x1_0000); b[2] == d[0] && b[3] == d[1]
    ensures b == EventPayload(event, end, units)
  {
    hide U16;
  }

  /** The sending side of a stream; every packet is built in one buffer that is reused. */
  class Sender {
    const c: Config
    const buf: array<byte>
    var seqNo: nat
    var ts: nat
    var pos: nat
    var marker: bool
    var queue: seq<Job>

    ghost function View(): Tx
      reads this
    {
      Tx(seqNo, ts, pos, marker, queue)
    }

    ghost predicate Valid()
      reads this
    {
      ConfigOk(c) && TxOk(c, View()) && buf.Length == 12 + FRAME_SAMPLES
    }

    constructor (c: Config, seqNo: nat, ts: nat)
      requires ConfigOk(c) && seqNo < 0x1_0000 && ts < WORD
      ensures Valid() && this.c == c && fresh(buf) && View() == Tx(seqNo, ts, 0, true, [])
    {
      this.c, buf, this.seqNo, this.ts, pos, marker, queue := c, new byte[12 + FRAME_SAMPLES], seqNo, ts, 0, true, [];
    }

    /** Queues the digits; nothing is queued when one of them is invalid or the peer takes no telephone events. */
    method SendDtmf(digits: string, nanos: int, negotiated: bool) returns (ok: bool)
      requires Valid()
      modifies this`queue
      ensures Valid()
      ensures var jobs := Jobs(digits, PacketsFor(nanos));
              ok == (jobs.Some? && negotiated) && queue == if ok then old(queue) + jobs.value else old(queue)
    {
      var packets := PacketsFor(nanos);
      var jobs := [];
      for i := 0 to |digits|
        invariant |jobs| == i
        invariant forall k :: 0 <= k < i ==> EventOf(Upper(digits[k])).Some?
        invariant forall k :: 0 <= k < i ==> jobs[k] == NewJob(EventOf(Upper(digits[k])).value, packets)
      {
        var e := EventOf(Upper(digits[i]));
        if e.None? {
          return false;
        }
        jobs := jobs + [NewJob(e.value, packets)];
      }
      if !negotiated {
        return false;
      }
      assert jobs == Jobs(digits, packets).value;
      queue := queue + jobs;
      return true;
    }

    method PutU16(at: nat, x: nat)
      requires at + 2 <= buf.Length && x < 0x1_0000
      modifies buf
      ensures buf[at] == U16(x)[0] && buf[at + 1] == U16(x)[1]
      ensures forall i :: 0 <= i < buf.Length && i != at && i != at + 1 ==> buf[i] == old(buf[i])
    {
      buf[at], buf[at + 1] := x / 256, x % 256;
    }

    /** Writes the header in front of whatever payload is in the buffer and takes the next sequence number. */
    method WriteHeader(pt: nat, mark: bool, stamp: nat)
      requires Valid() && pt < 128 && stamp < WORD
      modifies this`seqNo, buf
      ensures Valid() && seqNo == (old(seqNo) + 1) % 0x1_0000
      ensures buf[..12] == Header(pt, mark, old(seqNo), stamp, c.ssrc) && buf[12..] == old(buf[12..])
    {
      hide U16;
      buf[0] := 0x80;
      buf[1] := pt % 128 + if mark then 0x80 else 0;
      PutU16(2, seqNo);
      PutU16(4, stamp / 0x1_0000);
      PutU16(6, stamp % 0x1_0000);
      PutU16(8, c.ssrc / 0x1_0000);
      PutU16(10, c.ssrc % 0x1_0000);
      HeaderBytes(buf[..12], pt, mark, seqNo, stamp, c.ssrc);
      assert forall i :: 12 <= i < buf.Length ==> buf[i] == old(buf[i]);
      hide Header;
      seqNo := (seqNo + 1) % 0x1_0000;
    }

    /** nextDTMF: true when the head of the queue sends in this tick. */
    method PopFinished() returns (event: bool)
      modifies this`queue
      ensures (queue, event) == NextDtmf(old(queue))
    {
      while |queue| > 0
        invariant NextDtmf(queue) == NextDtmf(old(queue))
        decreases |queue|
      {
        var j := queue[0];
        if j.sent < j.packets || j.ended < ENDS {
          return true;
        } else if j.gap > 0 {
          queue := [j.(gap := j.gap - 1)] + queue[1..];
          return false;
        }
        queue := queue[1..];
      }
      return false;
    }

    /** Builds the next packet of the event at the head of the queue; stamp is the time of this tick. */
    method BuildEvent(stamp: nat) returns (out: seq<byte>)
      requires Valid() && |queue| > 0 && stamp < WORD
      modifies this`queue, this`seqNo, buf
      ensures Valid() && seqNo == (old(seqNo) + 1) % 0x1_0000
      ensures var (k, index, ts) := Advance(old(queue[0]), stamp);
              queue == [k] + old(queue[1..])
              && out == EventPacket(c, k.event, k.packets, index, old(seqNo), ts)
    {
      hide U16, Header;
      var j := queue[0];
      if j.sent == 0 {
        j := j.(ts := stamp);
      }
      var end := j.sent >= j.packets;
      var units := if j.sent + 1 < j.packets then j.sent + 1 else j.packets;
      buf[12] := j.event % 256;
      buf[13] := 10;
      if end {
        buf[13] := 10 + 0x80;
        j := j.(ended := j.ended + 1);
      } else {
        j := j.(sent := j.sent + 1);
      }
      queue := [j] + queue[1..];
      PutU16(14, units * FRAME_SAMPLES % 0x1_0000);
      assert buf[12..][..4] == EventPayload(j.event, end, units) by {
        PayloadBytes(buf[12..][..4], j.event, end, units);
      }
      WriteHeader(c.dtmfPt, j.sent == 1 && !end, j.ts);
      out := buf[..16];
      assert out == buf[..12] + buf[12..][..4];
    }

    /** Builds a packet with the next frame of the looped audio. */
    method BuildAudio(stamp: nat) returns (out: seq<byte>)
      requires Valid() && stamp < WORD
      modifies this`pos, this`marker, this`seqNo, buf
      ensures Valid() && seqNo == (old(seqNo) + 1) % 0x1_0000 && !marker
      ensures pos == (old(pos) + FRAME_SAMPLES) % |c.src|
      ensures out == AudioPacket(c, old(View()).(ts := stamp))
    {
      NextFrame(pos, |c.src|);
      var frame := c.src[pos..pos + FRAME_SAMPLES];
      forall i | 0 <= i < FRAME_SAMPLES {
        buf[12 + i] := frame[i];
      }
      assert buf[12..] == frame;
      pos := (pos + FRAME_SAMPLES) % |c.src|;
      WriteHeader(c.audioPt, marker, stamp);
      marker := false;
      out := buf[..];
      assert out == buf[..12] + buf[12..];
    }

    /** tick; may says whether the stream is open, negotiated and sending in its direction. */
    method DoTick(may: bool) returns (out: Option<seq<byte>>)
      requires Valid()
      modifies this, buf
      ensures Valid()
      ensures if may then View() == Tick(c, old(View())).0 && out == Some(Tick(c, old(View())).1.bytes)
              else View() == Silent(old(View())) && out == None
    {
      hide Header, EventPacket, NextDtmf;
      TickKeepsTxOk(c, View());
      var stamp := ts;
      ts := (ts + FRAME_SAMPLES) % WORD;
      if !may {
        marker := true;
        return None;
      }
      var event := PopFinished();
      var packet;
      if event {
        packet := BuildEvent(stamp);
      } else {
        packet := BuildAudio(stamp);
      }
      return Some(packet);
    }
  }
}
