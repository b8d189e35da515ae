/**
 * The receiving side of digits, and the digits from end to end: what the receiver makes of any delivery that
 * loses, repeats and reorders packets within an event (media/stream.go; RFC 4733, section 2.5.1.4).
 */
module DtmfRun {
  import opened Options
  import opened RtpPacket
  import opened Dtmf
  import opened DtmfPlan
  import Rtp

  datatype Rcv = Rcv(digits: string, haveEvent: bool, lastTs: nat)

  /** The payload types that receive takes for telephone events; remote is -1 before negotiation. */
  predicate TakesEvents(remote: int, pt: nat) {
    (remote >= 0 && pt == remote) || (pt == 101 && remote < 0)
  }

  /** receiveDTMF: a new timestamp is a new digit. */
  function ReceiveEvent(r: Rcv, payload: seq<byte>, ts: nat): Rcv {
    if |payload| < 4 || payload[0] > 15 || (r.haveEvent && ts == r.lastTs) then r
    else Rcv(r.digits + [DIGITS[payload[0]]], true, ts)
  }

  function Receive(r: Rcv, remote: int, b: seq<byte>): Rcv {
    match Parse(b)
    case None => r
    case Some(p) => if TakesEvents(remote, p.pt) then ReceiveEvent(r, p.payload, p.ts) else r
  }

  /** A packet of another payload type, a truncated event and one of another tone than the digits add nothing. */
  lemma OtherPacketsAddNoDigit(r: Rcv, remote: int, p: Parts)
    requires p.WellFormed()
    requires !TakesEvents(remote, p.header[1] % 128) || |p.payload| < 4 || p.payload[0] >= 16
    ensures Receive(r, remote, p.Bytes()) == r
  {
    ParseParts(p);
    hide Parse;
  }

  function ReceiveAll(r: Rcv, remote: int, delivered: seq<Out>): Rcv {
    if delivered == [] then r
    else Receive(ReceiveAll(r, remote, delivered[..|delivered| - 1]), remote, delivered[|delivered| - 1].bytes)
  }

  /** Payload types that carry audio whatever was negotiated: the two G.711 codecs. */
  predicate IsG711(pt: nat) { pt == 0 || pt == 8 }

  /** Counted and taken: not ignored as something else than RTP, and the stream is open. */
  predicate Accepted(closed: bool, b: seq<byte>) {
    !closed && Parse(b).Some?
  }

  /** The receiving side of a stream. peer is where packets are sent, taken over from the first one received. */
  class Receiver {
    const remote: int
    const codec: Option<nat>
    const latching: bool
    const stats: Rtp.Receiver
    var closed: bool
    var latched: bool
    var peer: Option<nat>
    var digits: string
    var haveEvent: bool
    var lastTs: nat

    ghost function View(): Rcv
      reads this
    {
      Rcv(digits, haveEvent, lastTs)
    }

    ghost predicate Valid()
      reads this, stats
    {
      Rtp.RxOk(stats.View())
    }

    constructor (remote: int, codec: Option<nat>, latching: bool)
      ensures Valid() && fresh(stats) && this.remote == remote && this.codec == codec && this.latching == latching
      ensures View() == Rcv([], false, 0) && stats.View() == Rtp.FRESH && !closed && !latched && peer == None
    {
      this.remote, this.codec, this.latching := remote, codec, latching;
      stats := new Rtp.Receiver();
      closed, latched, peer, digits, haveEvent, lastTs := false, false, None, [], false, 0;
    }

    /** audio is the packet if its payload is to be decoded. */
    method Take(b: seq<byte>, src: nat) returns (audio: Option<Parsed>)
      requires Valid()
      modifies this, stats
      ensures Valid() && closed == old(closed)
      ensures View() == if closed then old(View()) else Receive(old(View()), remote, b)
      ensures stats.View() == if Accepted(closed, b)
                              then Rtp.CountSeq(old(stats.View()), Parse(b).value.ssrc, Parse(b).value.seqNo)
                              else old(stats.View())
      ensures (peer, latched) == if Accepted(closed, b) && latching && !old(latched) then (Some(src), true)
                                 else old((peer, latched))
      ensures audio == if && Accepted(closed, b) && !TakesEvents(remote, Parse(b).value.pt)
                          && (codec == Some(Parse(b).value.pt) || IsG711(Parse(b).value.pt))
                       then Parse(b) else None
    {
      hide Parse;
      audio := None;
      var p := Parse(b);
      if p.None? || closed {
        return;
      }
      if latching && !latched {
        peer, latched := Some(src), true;
      }
      stats.Count(p.value.ssrc, p.value.seqNo);
      if TakesEvents(remote, p.value.pt) {
        TakeEvent(p.value.payload, p.value.ts);
      } else if codec == Some(p.value.pt) || IsG711(p.value.pt) {
        audio := p;
      }
    }

    method TakeEvent(payload: seq<byte>, ts: nat)
      modifies this`digits, this`haveEvent, this`lastTs
      ensures View() == ReceiveEvent(old(View()), payload, ts)
    {
      if |payload| < 4 || payload[0] > 15 {
        return;
      }
      if haveEvent && ts == lastTs {
        return;
      }
      haveEvent, lastTs := true, ts;
      digits := digits + [DIGITS[payload[0]]];
    }
  }

  lemma EventIsRead(c: Config, event: nat, packets: nat, index: nat, seqNo: nat, ts: nat, remote: int, r: Rcv)
    requires ConfigOk(c) && event < 16 && seqNo < 0x1_0000 && ts < WORD
    requires TakesEvents(remote, c.dtmfPt) && !(72 <= c.dtmfPt <= 76)
    ensures Receive(r, remote, EventPacket(c, event, packets, index, seqNo, ts))
            == if r.haveEvent && ts == r.lastTs then r else Rcv(r.digits + [DIGITS[event]], true, ts)
  {
    hide Parse, Header;
    var payload := EventPayload(event, index >= packets, if index < packets then index + 1 else packets);
    ParseOwn(c.dtmfPt, index == 0 < packets, seqNo, ts, c.ssrc, payload);
    assert |payload| == 4 && payload[0] == event;
  }

  lemma AudioIsIgnored(c: Config, x: Tx, remote: int, r: Rcv)
    requires ConfigOk(c) && TxOk(c, x) && !TakesEvents(remote, c.audioPt)
    ensures Receive(r, remote, AudioPacket(c, x)) == r
  {
    hide Parse, Header;
    ParseOwn(c.audioPt, x.marker, x.seqNo, x.ts, c.ssrc, c.src[x.pos..x.pos + FRAME_SAMPLES]);
  }

  predicate Readable(digits: seq<Digit>) {
    forall k :: 0 <= k < |digits| ==> digits[k].event < 16
  }

  /** The digits as the receiver prints them. */
  function Shown(digits: seq<Digit>): (r: string)
    requires Readable(digits)
    ensures |r| == |digits| && forall k :: 0 <= k < |r| ==> r[k] == DIGITS[digits[k].event]
  {
    seq(|digits|, k requires 0 <= k < |digits| => DIGITS[digits[k].event])
  }

  /** A packet of the sender as the receiver takes it. */
  lemma SentIsRead(c: Config, o: Out, i: nat, starts: seq<nat>, digits: seq<Digit>, ts0: nat, seq0: nat,
                   remote: int, r: Rcv)
    requires ConfigOk(c) && PacketOk(c, o, i, starts, digits, ts0, seq0)
    requires TakesEvents(remote, c.dtmfPt) && !(72 <= c.dtmfPt <= 76) && !TakesEvents(remote, c.audioPt)
    requires Readable(digits)
    ensures o.kind.tag < 0 ==> Receive(r, remote, o.bytes) == r
    ensures o.kind.tag >= 0 ==>
              o.kind.tag < |starts| && o.kind.tag < |digits|
              && var ts := Stamp(ts0, starts[o.kind.tag]);
                 Receive(r, remote, o.bytes)
                 == if r.haveEvent && ts == r.lastTs then r
                    else Rcv(r.digits + [DIGITS[digits[o.kind.tag].event]], true, ts)
  {
    hide Receive, EventPacket, AudioPacket;
    if o.kind.tag < 0 {
      var x :| TxOk(c, x) && x.seqNo == (seq0 + i) % 0x1_0000 && o.bytes == AudioPacket(c, x);
      AudioIsIgnored(c, x, remote, r);
    } else {
      var d := digits[o.kind.tag];
      EventIsRead(c, d.event, d.packets, o.kind.index, (seq0 + i) % 0x1_0000, Stamp(ts0, starts[o.kind.tag]),
                  remote, r);
    }
  }

  ghost predicate Arrives(delivered: seq<Out>, k: int) {
    exists i :: 0 <= i < |delivered| && delivered[i].kind.tag == k
  }

  /** Packets of different events arrive in order, and of each of the n events at least one arrives. */
  ghost predicate Delivery(delivered: seq<Out>, n: nat) {
    && (forall i, j :: 0 <= i < j < |delivered| && delivered[i].kind.tag >= 0 && delivered[j].kind.tag >= 0 ==>
          delivered[i].kind.tag <= delivered[j].kind.tag)
    && (forall k :: 0 <= k < n ==> Arrives(delivered, k))
  }

  /** How many events have been seen, given that they arrive in order. */
  function Seen(delivered: seq<Out>): int {
    if delivered == [] then 0
    else
      var last := delivered[|delivered| - 1].kind.tag;
      if last >= 0 then last + 1 else Seen(delivered[..|delivered| - 1])
  }

  lemma {:induction false} SeenIsLast(d: seq<Out>)
    ensures Seen(d) >= 0
    ensures Seen(d) > 0 ==> exists i :: 0 <= i < |d| && d[i].kind.tag == Seen(d) - 1
    ensures Seen(d) == 0 ==> forall i :: 0 <= i < |d| ==> d[i].kind.tag < 0
    ensures (forall i, j :: 0 <= i < j < |d| && d[i].kind.tag >= 0 && d[j].kind.tag >= 0 ==>
               d[i].kind.tag <= d[j].kind.tag) ==>
              forall i :: 0 <= i < |d| ==> d[i].kind.tag < Seen(d)
  {
    if d != [] {
      var e := d[..|d| - 1];
      SeenIsLast(e);
      if Seen(e) > 0 {
        var i :| 0 <= i < |e| && e[i].kind.tag == Seen(e) - 1;
        assert d[i] == e[i];
      }
    }
  }

  /** The next event packet belongs to the current event or to the next one. */
  lemma NoEventIsSkipped(delivered: seq<Out>, n: nat, i: nat)
    requires Delivery(delivered, n) && i < |delivered| && 0 <= delivered[i].kind.tag < n
    ensures Seen(delivered[..i]) - 1 <= delivered[i].kind.tag <= Seen(delivered[..i])
  {
    var d, tag := delivered[..i], delivered[i].kind.tag;
    SeenIsLast(d);
    assert forall j :: 0 <= j < i ==> d[j] == delivered[j];
    if Seen(d) > 0 {
      var j :| 0 <= j < |d| && d[j].kind.tag == Seen(d) - 1;
      assert delivered[j] == d[j];
    }
    assert Seen(d) < n ==> Arrives(delivered, Seen(d));
  }

  ghost predicate Distinct(starts: seq<nat>, ts0: nat) {
    forall k :: 0 <= k < |starts| - 1 ==> Stamp(ts0, starts[k]) != Stamp(ts0, starts[k + 1])
  }

  /** What the receiver has after m events of the text. */
  ghost predicate Got(q: Rcv, r: Rcv, m: int, text: string, starts: seq<nat>, ts0: nat) {
    && 0 <= m <= |text| && m <= |starts| && q.digits == r.digits + text[..m]
    && (if m == 0 then q == r else q.haveEvent && q.lastTs == Stamp(ts0, starts[m - 1]))
  }

  /** One more packet of the current event changes nothing, one of the next event adds its digit. */
  lemma GotMore(q: Rcv, r: Rcv, m: int, text: string, starts: seq<nat>, ts0: nat, tag: int)
    requires Got(q, r, m, text, starts, ts0)
    requires 0 <= tag && m - 1 <= tag <= m && tag < |starts| && tag < |text|
    requires Distinct(starts, ts0) && (r.haveEvent && starts != [] ==> r.lastTs != Stamp(ts0, starts[0]))
    ensures var ts := Stamp(ts0, starts[tag]);
            var t := if q.haveEvent && ts == q.lastTs then q else Rcv(q.digits + [text[tag]], true, ts);
            Got(t, r, tag + 1, text, starts, ts0)
  {
    hide Stamp;
    if tag == m {
      assert text[..m + 1] == text[..m] + [text[m]];
      if m > 0 {
        assert Stamp(ts0, starts[m - 1]) != Stamp(ts0, starts[m - 1 + 1]);
      }
    }
  }

  /** What all calls dialled, in upper case; a call with an invalid digit dials nothing. */
  function Typed(actions: seq<Action>): string {
    if actions == [] then ""
    else
      var before := Typed(actions[..|actions| - 1]);
      match actions[|actions| - 1]
      case Elapse(_) => before
      case Dial(text, _) => if Jobs(text, 1).Some? then before + Uppercase(text) else before
  }

  lemma {:induction false} TypedIsShown(actions: seq<Action>)
    ensures Readable(Scheduled(actions).digits) && Shown(Scheduled(actions).digits) == Typed(actions)
  {
    if actions == [] {
      assert Shown([]) == "";
    } else {
      hide Plan, Jobs, Queued, Uppercase, Shown, Readable;
      var before := actions[..|actions| - 1];
      TypedIsShown(before);
      match actions[|actions| - 1]
      case Elapse(_) =>
      case Dial(text, nanos) =>
        TextIsShown(text, nanos);
        ShownConcat(Scheduled(before).digits, Queued(text, nanos));
    }
  }

  lemma ShownConcat(a: seq<Digit>, b: seq<Digit>)
    requires Readable(a) && Readable(b)
    ensures Readable(a + b) && Shown(a + b) == Shown(a) + Shown(b)
  {}

  lemma TextIsShown(text: string, nanos: int)
    ensures Readable(Queued(text, nanos))
    ensures Shown(Queued(text, nanos)) == if Jobs(text, 1).Some? then Uppercase(text) else ""
  {
    hide Jobs, Upper;
    forall k | 0 <= k < |Queued(text, nanos)|
      ensures Queued(text, nanos)[k].event < 16 && DIGITS[Queued(text, nanos)[k].event] == Upper(text[k])
    {
      EventRoundTrip(Upper(text[k]));
    }
  }

  /** The packets that a delivery may contain, and a receiver that can tell them apart. */
  ghost predicate Received(c: Config, l: Log, ts0: nat, seq0: nat, remote: int)
    requires ConfigOk(c)
  {
    && Readable(l.digits) && OutOk(c, l, ts0, seq0)
    && TakesEvents(remote, c.dtmfPt) && !(72 <= c.dtmfPt <= 76) && !TakesEvents(remote, c.audioPt)
  }

  lemma OneReceived(c: Config, l: Log, ts0: nat, seq0: nat, remote: int, o: Out, q: Rcv)
    requires ConfigOk(c) && Received(c, l, ts0, seq0, remote) && o in l.out
    ensures o.kind.tag < 0 ==> Receive(q, remote, o.bytes) == q
    ensures o.kind.tag >= 0 ==>
              o.kind.tag < |l.starts| && o.kind.tag < |l.digits|
              && var ts := Stamp(ts0, l.starts[o.kind.tag]);
                 Receive(q, remote, o.bytes)
                 == if q.haveEvent && ts == q.lastTs then q else Rcv(q.digits + [Shown(l.digits)[o.kind.tag]], true, ts)
  {
    hide Receive, TakesEvents, Stamp;
    var k :| 0 <= k < |l.out| && l.out[k] == o;
    assert PacketOk(c, o, k, l.starts, l.digits, ts0, seq0);
    hide PacketOk, OutOk;
    SentIsRead(c, o, k, l.starts, l.digits, ts0, seq0, remote, q);
  }

  lemma {:induction false} DeliveredPrefix(c: Config, l: Log, ts0: nat, seq0: nat, delivered: seq<Out>,
                                           remote: int, r: Rcv, i: nat)
    requires ConfigOk(c) && Received(c, l, ts0, seq0, remote) && Readable(l.digits)
    requires Delivery(delivered, |l.digits|) && forall k :: 0 <= k < |delivered| ==> delivered[k] in l.out
    requires Distinct(l.starts, ts0) && (r.haveEvent && l.starts != [] ==> r.lastTs != Stamp(ts0, l.starts[0]))
    requires i <= |delivered|
    ensures Got(ReceiveAll(r, remote, delivered[..i]), r, Seen(delivered[..i]), Shown(l.digits), l.starts, ts0)
  {
    hide Receive, Received, Stamp, Got, Delivery, Distinct;
    if i > 0 {
      DeliveredPrefix(c, l, ts0, seq0, delivered, remote, r, i - 1);
      var o, before := delivered[i - 1], delivered[..i - 1];
      var q := ReceiveAll(r, remote, before);
      assert delivered[..i][..i - 1] == before && delivered[..i][i - 1] == o;
      OneReceived(c, l, ts0, seq0, remote, o, q);
      if o.kind.tag >= 0 {
        NoEventIsSkipped(delivered, |l.digits|, i - 1);
        GotMore(q, r, Seen(before), Shown(l.digits), l.starts, ts0, o.kind.tag);
      }
    } else {
      NothingReceived(r, remote, Shown(l.digits), l.starts, ts0);
      assert delivered[..0] == [];
    }
  }

  lemma NothingReceived(r: Rcv, remote: int, text: string, starts: seq<nat>, ts0: nat)
    ensures Got(ReceiveAll(r, remote, []), r, Seen([]), text, starts, ts0)
  {}

  /**
   * End to end through the packet bytes: whatever ticks and calls the sender gets and whatever a delivery loses,
   * repeats or reorders within an event, as long as one packet of each event arrives and events arrive in order,
   * the receiver has all that was dialled, in upper case. Two digits in a row must not share a timestamp.
   */
  lemma DigitsArrive(c: Config, x: Tx, actions: seq<Action>, delivered: seq<Out>, remote: int, r: Rcv)
    requires ConfigOk(c) && TxOk(c, x) && x.queue == []
    requires TakesEvents(remote, c.dtmfPt) && !(72 <= c.dtmfPt <= 76) && !TakesEvents(remote, c.audioPt)
    requires var l := Transmit(c, x, actions);
             && Delivery(delivered, |Typed(actions)|) && (forall k :: 0 <= k < |delivered| ==> delivered[k] in l.out)
             && Distinct(l.starts, x.ts) && (r.haveEvent && l.starts != [] ==> r.lastTs != Stamp(x.ts, l.starts[0]))
    ensures ReceiveAll(r, remote, delivered).digits == r.digits + Typed(actions)
  {
    hide ReceiveAll, Distinct, Transmit, TakesEvents, Delivery, OutOk, TxOk, ConfigOk, Stamp, Typed, Scheduled;
    var l := Transmit(c, x, actions);
    SenderFollowsPlan(c, x, actions);
    TypedIsShown(actions);
    var text := Typed(actions);
    assert text == Shown(l.digits);
    DeliveredPrefix(c, l, x.ts, x.seqNo, delivered, remote, r, |delivered|);
    assert delivered[..|delivered|] == delivered;
    assert Seen(delivered) <= |text|;
    AllSeen(delivered, |text|);
    assert text[..|text|] == text;
  }

  lemma AllSeen(delivered: seq<Out>, n: nat)
    requires Delivery(delivered, n)
    ensures Seen(delivered) >= n
  {
    SeenIsLast(delivered);
    if n > 0 {
      assert Arrives(delivered, n - 1);
    }
  }

  /** Ticks between the beginnings of event k and of the next one. */
  function TicksBetween(starts: seq<nat>, k: nat): int
    requires k + 1 < |starts|
  {
    var a: int, b: int := starts[k], starts[k + 1];
    b - a
  }

  /**
   * Two digits in a row share a timestamp exactly when a multiple of 2^27 ticks lies between them; in a shorter
   * run they never do.
   */
  lemma TimestampsDiffer(c: Config, x: Tx, actions: seq<Action>)
    requires ConfigOk(c) && TxOk(c, x) && x.queue == []
    ensures var l := Transmit(c, x, actions);
            && (forall k :: 0 <= k < |l.starts| - 1 ==>
                  (Stamp(x.ts, l.starts[k]) == Stamp(x.ts, l.starts[k + 1])
                   <==> TicksBetween(l.starts, k) % 0x800_0000 == 0))
            && l.tick <= |actions| && (|actions| <= 0x800_0000 ==> Distinct(l.starts, x.ts))
  {
    hide OutOk, OnTime, QueueOk, HeadOk, Stamp, Distinct;
    TransmitOk(c, x, actions);
    TickCount(c, x, actions);
    var l := Transmit(c, x, actions);
    StampsApart(l.starts, x.ts, l.tick);
  }

  lemma StampsApart(starts: seq<nat>, ts0: nat, end: nat)
    requires forall i :: 0 <= i < |starts| ==> starts[i] < end
    requires forall i, j :: 0 <= i < j < |starts| ==> starts[i] < starts[j]
    ensures forall k :: 0 <= k < |starts| - 1 ==>
              (Stamp(ts0, starts[k]) == Stamp(ts0, starts[k + 1]) <==> TicksBetween(starts, k) % 0x800_0000 == 0)
    ensures end <= 0x800_0000 ==> Distinct(starts, ts0)
  {
    hide Stamp;
    forall k | 0 <= k < |starts| - 1
      ensures Stamp(ts0, starts[k]) == Stamp(ts0, starts[k + 1]) <==> TicksBetween(starts, k) % 0x800_0000 == 0
      ensures 0 < TicksBetween(starts, k) < end
    {
      StampsRepeat(ts0, starts[k], TicksBetween(starts, k));
    }
  }

  lemma {:induction false} TickCount(c: Config, x: Tx, actions: seq<Action>)
    requires ConfigOk(c) && TxOk(c, x)
    ensures Transmit(c, x, actions).tick <= |actions|
  {
    if actions != [] {
      TickCount(c, x, actions[..|actions| - 1]);
    }
  }
}
