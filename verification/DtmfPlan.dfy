/**
 * What a sender of digits puts on the wire over any ticks and any calls of SendDTMF, also while digits are still
 * being sent (media/stream.go; RFC 4733, section 2.5.1.4).
 */
module DtmfPlan {
  import opened Options
  import opened RtpPacket
  import opened Dtmf

  /** The timestamp of tick t when tick 0 has ts0. */
  function Stamp(ts0: nat, t: nat): (r: nat)
    ensures r < WORD
  {
    (ts0 + FRAME_SAMPLES * t) % WORD
  }

  lemma SumMod(a: nat, b: nat)
    ensures (a + b) % WORD == a % WORD <==> b % WORD == 0
  {}

  lemma MultipleOf160(k: nat)
    ensures 160 * k % WORD == 0 <==> k % 0x800_0000 == 0
  {
    if 160 * k % WORD == 0 {
      var q := 160 * k / WORD;
      assert 5 * k == 0x800_0000 * q;
      assert q == 5 * (q / 5) by {
        assert 0x800_0000 == 5 * 26843545 + 3;
        assert 3 * q == 5 * (k - 26843545 * q);
      }
      assert k == 0x800_0000 * (q / 5);
    }
  }

  /** Timestamps come round again only after 2^27 ticks, 31 days: 160 is 5 * 2^5. */
  lemma StampsRepeat(ts0: nat, t: nat, k: nat)
    ensures Stamp(ts0, t + k) == Stamp(ts0, t) <==> k % 0x800_0000 == 0
  {
    SumMod(ts0 + FRAME_SAMPLES * t, 160 * k);
    MultipleOf160(k);
    assert ts0 + FRAME_SAMPLES * (t + k) == ts0 + FRAME_SAMPLES * t + 160 * k;
  }

  /* ---- The sender's schedule ---- */

  /** A digit as it was queued. */
  datatype Digit = Digit(event: nat, packets: nat)

  /** What a packet is: packet `index` of the event of digit `tag`, or audio with tag -1. */
  datatype Kind = Kind(tag: int, index: nat)

  const AUDIO := Kind(-1, 0)

  /** A packet and the tick in which it was sent. */
  datatype Out = Out(kind: Kind, tick: nat, bytes: seq<byte>)

  /**
   * The sender so far; starts has the tick at which each event began. The head of the queue is digit |digits| -
   * |queue|.
   */
  datatype Log = Log(x: Tx, tick: nat, digits: seq<Digit>, starts: seq<nat>, out: seq<Out>)

  /** A tick in which the stream may send or not, or a call of SendDTMF. */
  datatype Action = Elapse(may: bool) | Dial(text: string, nanos: int)

  function OneTick(c: Config, l: Log, may: bool): Log
    requires ConfigOk(c) && TxOk(c, l.x)
  {
    if !may then l.(x := Silent(l.x), tick := l.tick + 1)
    else
      var (x, sent) := Tick(c, l.x);
      match sent
      case Audio(bytes) => Log(x, l.tick + 1, l.digits, l.starts, l.out + [Out(AUDIO, l.tick, bytes)])
      case Event(index, bytes) =>
        Log(x, l.tick + 1, l.digits, if index == 0 then l.starts + [l.tick] else l.starts,
            l.out + [Out(Kind(|l.digits| - |x.queue|, index), l.tick, bytes)])
  }

  /** The digits that one call queues: all of its text or nothing. */
  function Queued(text: string, nanos: int): (r: seq<Digit>)
    ensures |r| == if Jobs(text, 1).Some? then |text| else 0
    ensures forall k :: 0 <= k < |r| ==>
              EventOf(Upper(text[k])).Some? && r[k] == Digit(EventOf(Upper(text[k])).value, PacketsFor(nanos))
  {
    if Jobs(text, 1).None? then []
    else seq(|text|, k requires 0 <= k < |text| => Digit(EventOf(Upper(text[k])).value, PacketsFor(nanos)))
  }

  /** The jobs of a call are new ones, one for each digit. */
  lemma QueuedAsJobs(text: string, nanos: int)
    ensures Jobs(text, PacketsFor(nanos)).Some? <==> Jobs(text, 1).Some?
    ensures Jobs(text, PacketsFor(nanos)).Some? ==>
              var jobs, r := Jobs(text, PacketsFor(nanos)).value, Queued(text, nanos);
              |jobs| == |r| && forall k :: 0 <= k < |r| ==> IsNew(jobs[k], r[k])
  {
    hide Upper, EventOf;
  }

  function Dialled(l: Log, text: string, nanos: int): Log {
    match Jobs(text, PacketsFor(nanos))
    case None => l
    case Some(jobs) => l.(x := l.x.(queue := l.x.queue + jobs), digits := l.digits + Queued(text, nanos))
  }

  function AudioPlan(g: nat): (r: seq<Kind>)
    ensures |r| == g
  {
    if g == 0 then [] else [AUDIO] + AudioPlan(g - 1)
  }

  /** The packets of one event from number i on: `packets` updates, then three end packets. */
  function EventPlan(tag: int, packets: nat, i: nat): seq<Kind>
    decreases packets + ENDS - i
  {
    if i >= packets + ENDS then [] else [Kind(tag, i)] + EventPlan(tag, packets, i + 1)
  }

  /** The digits from number `first` on: the event of each one, then three frames of audio. */
  function Plan(first: nat, digits: seq<Digit>): seq<Kind>
    requires first <= |digits|
    decreases |digits| - first
  {
    if first == |digits| then []
    else EventPlan(first, digits[first].packets, 0) + AudioPlan(GAP) + Plan(first + 1, digits)
  }

  /** The timetable: what was scheduled so far, how much of it is sent, and the digits in it. */
  datatype Timetable = Timetable(kinds: seq<Kind>, sent: nat, digits: seq<Digit>)

  /** A call appends its digits to what is scheduled; a tick with nothing scheduled sends audio. */
  function Scheduled(actions: seq<Action>): Timetable {
    if actions == [] then Timetable([], 0, [])
    else
      Extended(Scheduled(actions[..|actions| - 1]), actions[|actions| - 1])
  }

  function Extended(t: Timetable, a: Action): Timetable {
    match a
    case Dial(text, nanos) =>
      var digits := t.digits + Queued(text, nanos);
      t.(kinds := t.kinds + Plan(|t.digits|, digits), digits := digits)
    case Elapse(may) => if may then Advanced(t) else t
  }

  /** The timetable after a tick in which a packet is sent. */
  function Advanced(t: Timetable): Timetable {
    if t.sent >= |t.kinds| then t.(kinds := t.kinds + [AUDIO], sent := t.sent + 1) else t.(sent := t.sent + 1)
  }

  /** What the head of the queue, digit `tag`, still sends. */
  function HeadPlan(j: Job, tag: int): seq<Kind> {
    EventPlan(tag, j.packets, j.sent + j.ended) + AudioPlan(j.gap)
  }

  /** What a queue still sends. */
  function Remaining(queue: seq<Job>, digits: seq<Digit>): seq<Kind>
    requires |queue| <= |digits|
  {
    if queue == [] then []
    else
      var tag := |digits| - |queue|;
      HeadPlan(queue[0], tag) + Plan(tag + 1, digits)
  }

  ghost predicate QueueOk(queue: seq<Job>, digits: seq<Digit>) {
    && |queue| <= |digits| && (forall k :: 0 <= k < |digits| ==> digits[k].packets >= 1)
    && (forall i :: 1 <= i < |queue| ==> IsNew(queue[i], digits[|digits| - |queue| + i]))
    && (queue != [] ==> HeadIs(queue[0], digits[|digits| - |queue|]))
  }

  predicate IsNew(j: Job, d: Digit) { j == NewJob(d.event, d.packets) }

  predicate HeadIs(j: Job, d: Digit) {
    && j.event == d.event && j.packets == d.packets
    && j.sent <= j.packets && j.ended <= ENDS && j.gap <= GAP
    && (j.ended > 0 ==> j.sent == j.packets) && (j.gap < GAP ==> j.ended == ENDS)
  }

  /** The queue after a tick and the index of the event packet that it sends, if it sends one. */
  function QueueTick(queue: seq<Job>, stamp: nat): (seq<Job>, Option<nat>) {
    var (q, event) := NextDtmf(queue);
    if event then ([Advance(q[0], stamp).0] + q[1..], Some(Advance(q[0], stamp).1)) else (q, None)
  }

  predicate Sending(j: Job) { j.sent < j.packets || j.ended < ENDS }

  /** The head sends one more packet of its event. */
  lemma HeadSends(queue: seq<Job>, stamp: nat, digits: seq<Digit>)
    requires QueueOk(queue, digits) && queue != [] && Sending(queue[0])
    ensures var (q, index) := QueueTick(queue, stamp);
            && QueueOk(q, digits) && |q| == |queue| && q[1..] == queue[1..] && q[0] == Advance(queue[0], stamp).0
            && index == Some(queue[0].sent + queue[0].ended)
            && Remaining(queue, digits) == [Kind(|digits| - |q|, queue[0].sent + queue[0].ended)] + Remaining(q, digits)
  {
    hide Remaining, IsNew;
    JobSends(queue, stamp);
    var k := Advance(queue[0], stamp).0;
    assert HeadIs(k, digits[|digits| - |queue|]);
    hide Advance, QueueTick, HeadIs;
    HeadReplaced(queue, k, digits);
    hide QueueOk;
    PlanAdvances(queue, [k] + queue[1..], digits);
  }

  lemma HeadReplaced(queue: seq<Job>, k: Job, digits: seq<Digit>)
    requires QueueOk(queue, digits) && queue != [] && HeadIs(k, digits[|digits| - |queue|])
    ensures QueueOk([k] + queue[1..], digits)
  {
    hide HeadIs, IsNew;
  }

  lemma JobSends(queue: seq<Job>, stamp: nat)
    requires queue != [] && Sending(queue[0])
    requires queue[0].sent <= queue[0].packets && (queue[0].ended > 0 ==> queue[0].sent == queue[0].packets)
    requires queue[0].ended <= ENDS
    ensures var j := queue[0];
            var (k, index, _) := Advance(j, stamp);
            && QueueTick(queue, stamp) == ([k] + queue[1..], Some(index)) && index == j.sent + j.ended
            && k.sent + k.ended == index + 1 <= k.packets + ENDS && k.gap == j.gap && k.packets == j.packets
  {}

  lemma PlanAdvances(queue: seq<Job>, q: seq<Job>, digits: seq<Digit>)
    requires |q| == |queue| && 0 < |queue| <= |digits| && q[0].gap == queue[0].gap && q[0].packets == queue[0].packets
    requires q[0].sent + q[0].ended == queue[0].sent + queue[0].ended + 1 <= q[0].packets + ENDS
    ensures Remaining(queue, digits) == [Kind(|digits| - |q|, queue[0].sent + queue[0].ended)] + Remaining(q, digits)
  {
    hide Plan, HeadPlan, Remaining;
    var tag := |digits| - |q|;
    HeadAdvances(queue[0], q[0], tag);
    RemainingIs(queue, digits);
    RemainingIs(q, digits);
    Associate([Kind(tag, queue[0].sent + queue[0].ended)], HeadPlan(q[0], tag), Plan(tag + 1, digits));
  }

  lemma HeadAdvances(j: Job, k: Job, tag: int)
    requires k.gap == j.gap && k.packets == j.packets && k.sent + k.ended == j.sent + j.ended + 1 <= k.packets + ENDS
    ensures HeadPlan(j, tag) == [Kind(tag, j.sent + j.ended)] + HeadPlan(k, tag)
  {
    hide AudioPlan;
    Associate([Kind(tag, j.sent + j.ended)], EventPlan(tag, k.packets, k.sent + k.ended), AudioPlan(k.gap));
  }

  /** The head pauses. */
  lemma HeadPauses(queue: seq<Job>, stamp: nat, digits: seq<Digit>)
    requires QueueOk(queue, digits) && queue != [] && !Sending(queue[0]) && queue[0].gap > 0
    ensures var (q, index) := QueueTick(queue, stamp);
            && QueueOk(q, digits) && index == None && q == [queue[0].(gap := queue[0].gap - 1)] + queue[1..]
            && Remaining(queue, digits) == [AUDIO] + Remaining(q, digits)
  {
    hide Plan, NewJob, HeadPlan, Remaining;
    var tag, q := |digits| - |queue|, [queue[0].(gap := queue[0].gap - 1)] + queue[1..];
    DonePlan(queue[0], tag);
    RemainingIs(queue, digits);
    RemainingIs(q, digits);
    Associate([AUDIO], HeadPlan(q[0], tag), Plan(tag + 1, digits));
  }

  /** Once the event is through, the head only pauses. */
  lemma DonePlan(j: Job, tag: int)
    requires j.sent == j.packets && j.ended == ENDS
    ensures HeadPlan(j, tag) == AudioPlan(j.gap)
    ensures j.gap > 0 ==> HeadPlan(j, tag) == [AUDIO] + HeadPlan(j.(gap := j.gap - 1), tag)
  {
    assert EventPlan(tag, j.packets, j.packets + ENDS) == [];
  }

  /** The head is finished: it is dropped, and what happens is what the rest of the queue does. */
  lemma HeadDone(queue: seq<Job>, stamp: nat, digits: seq<Digit>)
    requires QueueOk(queue, digits) && queue != [] && !Sending(queue[0]) && queue[0].gap == 0
    ensures QueueOk(queue[1..], digits) && QueueTick(queue, stamp) == QueueTick(queue[1..], stamp)
    ensures Remaining(queue, digits) == Remaining(queue[1..], digits)
    ensures queue[1..] != [] ==> Sending(queue[1])
  {
    assert queue[1..] != [] ==> IsNew(queue[1], digits[|digits| - |queue| + 1]);
    hide Remaining, QueueTick, NextDtmf, IsNew;
    HeadDropped(queue, stamp);
    TailOk(queue, digits);
    DoneRemaining(queue, digits);
  }

  lemma HeadDropped(queue: seq<Job>, stamp: nat)
    requires queue != [] && !Sending(queue[0]) && queue[0].gap == 0
    ensures QueueTick(queue, stamp) == QueueTick(queue[1..], stamp)
  {
    hide Advance;
    assert NextDtmf(queue) == NextDtmf(queue[1..]);
  }

  lemma TailOk(queue: seq<Job>, digits: seq<Digit>)
    requires QueueOk(queue, digits) && queue != []
    ensures QueueOk(queue[1..], digits)
    ensures |queue| > 1 ==> Sending(queue[1])
  {
    if |queue| > 1 {
      assert IsNew(queue[1], digits[|digits| - |queue| + 1]);
      NewIsHead(queue[1], digits[|digits| - |queue| + 1]);
    }
  }

  lemma DoneRemaining(queue: seq<Job>, digits: seq<Digit>)
    requires 0 < |queue| <= |digits| && HeadIs(queue[0], digits[|digits| - |queue|])
    requires !Sending(queue[0]) && queue[0].gap == 0
    requires |queue| > 1 ==> IsNew(queue[1], digits[|digits| - |queue| + 1])
    ensures Remaining(queue, digits) == Remaining(queue[1..], digits)
  {
    hide Remaining, HeadPlan, EventPlan;
    var tag, rest := |digits| - |queue|, queue[1..];
    DonePlan(queue[0], tag);
    assert AudioPlan(0) == [];
    RemainingIs(queue, digits);
    if rest == [] {
      EmptyQueue(0, digits);
      NothingPlanned(digits);
    } else {
      RemainingIs(rest, digits);
      NewHeadPlan(rest[0], digits[tag + 1], tag + 1);
    }
  }

  lemma NewHeadPlan(j: Job, d: Digit, tag: int)
    requires IsNew(j, d)
    ensures HeadPlan(j, tag) == EventPlan(tag, d.packets, 0) + AudioPlan(GAP)
  {}

  /** The queue after dropping a finished head. */
  function Current(queue: seq<Job>): seq<Job> {
    if queue != [] && queue[0].sent >= queue[0].packets && queue[0].ended >= ENDS && queue[0].gap == 0
    then queue[1..] else queue
  }

  /** One tick: the queue after it and the kind of packet are those of the schedule. */
  lemma QueueFollowsPlan(queue: seq<Job>, stamp: nat, digits: seq<Digit>)
    requires QueueOk(queue, digits)
    ensures var (q, index) := QueueTick(queue, stamp);
            var plan := Remaining(queue, digits);
            && QueueOk(q, digits) && |q| == |Current(queue)|
            && Remaining(q, digits) == (if plan == [] then [] else plan[1..])
            && match index
               case Some(i) => plan != [] && q != [] && plan[0] == Kind(|digits| - |q|, i)
                               && i == Current(queue)[0].sent + Current(queue)[0].ended
                               && q[0] == Advance(Current(queue)[0], stamp).0
               case None => (plan == [] || plan[0] == AUDIO)
                            && (q != [] ==> q[0] == Current(queue)[0].(gap := q[0].gap))
  {
    hide Remaining, NewJob, NextDtmf, Advance;
    if queue == [] {
      EmptyQueue(stamp, digits);
    } else if Sending(queue[0]) {
      HeadSends(queue, stamp, digits);
    } else if queue[0].gap > 0 {
      HeadPauses(queue, stamp, digits);
    } else {
      HeadDone(queue, stamp, digits);
      if queue[1..] == [] {
        EmptyQueue(stamp, digits);
      } else {
        HeadSends(queue[1..], stamp, digits);
      }
    }
  }

  lemma EmptyQueue(stamp: nat, digits: seq<Digit>)
    ensures QueueTick([], stamp) == ([], None) && Remaining([], digits) == []
  {}

  /* ---- The invariant ---- */

  /** The head of the queue with the number of events begun and the tick and timestamp at which it began. */
  ghost predicate HeadOk(l: Log, ts0: nat) {
    && |l.x.queue| <= |l.digits|
    && (l.x.queue == [] ==> |l.starts| == |l.digits|)
    && (l.x.queue != [] ==>
          var tag := |l.digits| - |l.x.queue|;
          if l.x.queue[0].sent == 0 then |l.starts| == tag
          else |l.starts| == tag + 1 && l.x.queue[0].ts == Stamp(ts0, l.starts[tag]))
  }

  ghost predicate ClockOk(l: Log, ts0: nat, seq0: nat) {
    && l.x.ts == Stamp(ts0, l.tick) && l.x.seqNo == (seq0 + |l.out|) % 0x1_0000
    && (forall i :: 0 <= i < |l.starts| ==> l.starts[i] < l.tick)
    && (forall i, j :: 0 <= i < j < |l.starts| ==> l.starts[i] < l.starts[j])
  }

  /** Every packet is the one its kind says, on the timestamp at which its event began. */
  ghost predicate OutOk(c: Config, l: Log, ts0: nat, seq0: nat)
    requires ConfigOk(c)
  {
    forall i :: 0 <= i < |l.out| ==> PacketOk(c, l.out[i], i, l.starts, l.digits, ts0, seq0)
  }

  ghost predicate PacketOk(c: Config, o: Out, i: nat, starts: seq<nat>, digits: seq<Digit>, ts0: nat, seq0: nat)
    requires ConfigOk(c)
  {
    if o.kind.tag < 0 then
      exists x :: TxOk(c, x) && x.seqNo == (seq0 + i) % 0x1_0000 && o.bytes == AudioPacket(c, x)
    else
      && o.kind.tag < |starts| && o.kind.tag < |digits|
      && var d := digits[o.kind.tag];
         o.bytes == EventPacket(c, d.event, d.packets, o.kind.index, (seq0 + i) % 0x1_0000,
                                Stamp(ts0, starts[o.kind.tag]))
  }

  function Kinds(out: seq<Out>): (r: seq<Kind>)
    ensures |r| == |out| && forall i :: 0 <= i < |r| ==> r[i] == out[i].kind
  {
    seq(|out|, i requires 0 <= i < |out| => out[i].kind)
  }

  /** The kinds so far are those of the timetable, and what the queue will send is the rest of it. */
  ghost predicate OnTime(l: Log, t: Timetable) {
    && |l.x.queue| <= |l.digits| && t.digits == l.digits && t.sent == |l.out| <= |t.kinds|
    && Kinds(l.out) == t.kinds[..t.sent] && Remaining(l.x.queue, l.digits) == t.kinds[t.sent..]
  }

  ghost predicate LogOk(c: Config, l: Log, t: Timetable, ts0: nat, seq0: nat)
    requires ConfigOk(c)
  {
    && TxOk(c, l.x) && QueueOk(l.x.queue, l.digits) && HeadOk(l, ts0) && ClockOk(l, ts0, seq0)
    && OutOk(c, l, ts0, seq0) && OnTime(l, t)
  }

  lemma NextStamp(ts0: nat, t: nat)
    ensures (Stamp(ts0, t) + FRAME_SAMPLES) % WORD == Stamp(ts0, t + 1)
  {
    assert ts0 + FRAME_SAMPLES * (t + 1) == ts0 + FRAME_SAMPLES * t + FRAME_SAMPLES;
  }

  lemma StaysOnTime(l: Log, m: Log, t: Timetable)
    requires OnTime(l, t) && |m.x.queue| <= |m.digits| && m.digits == l.digits
    requires |m.out| == |l.out| + 1 && m.out[..|l.out|] == l.out
    requires var plan := Remaining(l.x.queue, l.digits);
             && Remaining(m.x.queue, l.digits) == (if plan == [] then [] else plan[1..])
             && m.out[|l.out|].kind == (if plan == [] then AUDIO else plan[0])
    ensures OnTime(m, Advanced(t))
  {
    hide Remaining;
    assert Kinds(m.out) == Kinds(l.out) + [m.out[|l.out|].kind];
    var n, u := t.sent, Advanced(t);
    if n < |t.kinds| {
      assert t.kinds[n..][0] == t.kinds[n] && t.kinds[n..][1..] == t.kinds[n + 1..];
      assert u.kinds[..n + 1] == t.kinds[..n] + [t.kinds[n]];
    } else {
      assert t.kinds[n..] == [] && u.kinds[..n + 1] == t.kinds[..n] + [AUDIO] && u.kinds[n + 1..] == [];
    }
  }

  lemma TickIsQueueTick(c: Config, x: Tx)
    requires ConfigOk(c) && TxOk(c, x)
    ensures var (y, sent) := Tick(c, x);
            var (q, index) := QueueTick(x.queue, x.ts);
            && y.queue == q && y.seqNo == (x.seqNo + 1) % 0x1_0000 && y.ts == (x.ts + FRAME_SAMPLES) % WORD
            && match index
               case None => sent == Audio(AudioPacket(c, x))
               case Some(i) => q != [] && sent.Event? && sent.index == i
                               && sent.bytes == EventPacket(c, q[0].event, q[0].packets, i, x.seqNo, q[0].ts)
  {
    hide EventPacket, AudioPacket, NextDtmf;
  }

  lemma DroppedHeadOk(l: Log, ts0: nat)
    requires QueueOk(l.x.queue, l.digits) && HeadOk(l, ts0)
    ensures HeadOk(l.(x := l.x.(queue := Current(l.x.queue))), ts0) && QueueOk(Current(l.x.queue), l.digits)
  {}

  /** A tick in which the head sends packet i of its event. */
  lemma EventTickOk(c: Config, l: Log, m: Log, i: nat, ts0: nat)
    requires ConfigOk(c) && TxOk(c, l.x) && l.x.ts == Stamp(ts0, l.tick) && QueueOk(l.x.queue, l.digits)
            && HeadOk(l, ts0)
    requires m.digits == l.digits
    requires m.x.queue != [] && QueueOk(m.x.queue, m.digits) && |m.x.queue| == |Current(l.x.queue)|
    requires i == Current(l.x.queue)[0].sent + Current(l.x.queue)[0].ended
    requires m.x.queue[0] == Advance(Current(l.x.queue)[0], l.x.ts).0
    requires m.starts == if i == 0 then l.starts + [l.tick] else l.starts
    ensures HeadOk(m, ts0) && |l.x.queue| <= |l.digits| && |m.x.queue| <= |l.digits|
    ensures m.x.queue[0].ts < WORD
    ensures var tag := |m.digits| - |m.x.queue|;
            tag < |m.starts| && m.x.queue[0].ts == Stamp(ts0, m.starts[tag])
            && m.x.queue[0].event == m.digits[tag].event && m.x.queue[0].packets == m.digits[tag].packets
  {
    hide NewJob;
    DroppedHeadOk(l, ts0);
  }

  /** A tick in which the queue stays as it is, but for its pause. */
  lemma AudioTickOk(l: Log, m: Log, ts0: nat)
    requires QueueOk(l.x.queue, l.digits) && HeadOk(l, ts0) && m.digits == l.digits
    requires |m.x.queue| == |Current(l.x.queue)| && m.starts == l.starts
    requires m.x.queue != [] ==> m.x.queue[0] == Current(l.x.queue)[0].(gap := m.x.queue[0].gap)
    ensures HeadOk(m, ts0) && |l.x.queue| <= |l.digits| && |m.x.queue| <= |l.digits|
  {
    hide NewJob, Current;
    DroppedHeadOk(l, ts0);
  }

  /** Packets sent before stay what they were when another event begins or more digits are queued. */
  lemma EarlierPacketsOk(c: Config, l: Log, m: Log, ts0: nat, seq0: nat)
    requires ConfigOk(c) && OutOk(c, l, ts0, seq0) && l.starts <= m.starts && l.digits <= m.digits && l.out <= m.out
    requires forall i :: |l.out| <= i < |m.out| ==> PacketOk(c, m.out[i], i, m.starts, m.digits, ts0, seq0)
    ensures OutOk(c, m, ts0, seq0)
  {
    forall i | 0 <= i < |m.out|
      ensures PacketOk(c, m.out[i], i, m.starts, m.digits, ts0, seq0)
    {
      if i < |l.out| {
        assert m.out[i] == l.out[i];
        assert PacketOk(c, l.out[i], i, l.starts, l.digits, ts0, seq0);
      }
    }
  }

  lemma ClockTicks(l: Log, m: Log, ts0: nat, seq0: nat)
    requires ClockOk(l, ts0, seq0) && |m.out| == |l.out| + 1 && m.tick == l.tick + 1
    requires m.x.ts == (l.x.ts + FRAME_SAMPLES) % WORD && m.x.seqNo == (l.x.seqNo + 1) % 0x1_0000
    requires m.starts == l.starts || m.starts == l.starts + [l.tick]
    ensures ClockOk(m, ts0, seq0)
  {
    NextStamp(ts0, l.tick);
  }

  lemma SilenceKeepsLogOk(c: Config, l: Log, t: Timetable, ts0: nat, seq0: nat)
    requires ConfigOk(c) && LogOk(c, l, t, ts0, seq0)
    ensures LogOk(c, OneTick(c, l, false), t, ts0, seq0)
  {
    hide Remaining, QueueOk, PacketOk;
    NextStamp(ts0, l.tick);
    TickKeepsTxOk(c, l.x);
  }

  lemma OneAudio(c: Config, l: Log)
    requires ConfigOk(c) && TxOk(c, l.x) && QueueTick(l.x.queue, l.x.ts).1.None?
    ensures var m, q := OneTick(c, l, true), QueueTick(l.x.queue, l.x.ts).0;
            && TxOk(c, m.x) && m.x.queue == q && m.tick == l.tick + 1 && m.starts == l.starts && m.digits == l.digits
            && m.x.ts == (l.x.ts + FRAME_SAMPLES) % WORD && m.x.seqNo == (l.x.seqNo + 1) % 0x1_0000
            && m.out == l.out + [Out(AUDIO, l.tick, AudioPacket(c, l.x))]
  {
    hide EventPacket, AudioPacket, QueueTick;
    TickKeepsTxOk(c, l.x);
    TickIsQueueTick(c, l.x);
  }

  lemma AudioIsOk(c: Config, l: Log, ts0: nat, seq0: nat)
    requires ConfigOk(c) && TxOk(c, l.x) && ClockOk(l, ts0, seq0)
    ensures PacketOk(c, Out(AUDIO, l.tick, AudioPacket(c, l.x)), |l.out|, l.starts, l.digits, ts0, seq0)
  {}

  lemma AudioKeepsLogOk(c: Config, l: Log, t: Timetable, ts0: nat, seq0: nat)
    requires ConfigOk(c) && LogOk(c, l, t, ts0, seq0) && QueueTick(l.x.queue, l.x.ts).1.None?
    ensures LogOk(c, OneTick(c, l, true), Advanced(t), ts0, seq0)
  {
    hide QueueTick, Remaining, AudioPacket, OneTick, TxOk, QueueOk, HeadOk, OutOk, OnTime, ClockOk, Current,
         PacketOk, ConfigOk;
    var m := OneTick(c, l, true);
    OneAudio(c, l);
    AudioIsOk(c, l, ts0, seq0);
    QueueFollowsPlan(l.x.queue, l.x.ts, l.digits);
    AudioTickOk(l, m, ts0);
    PacketAppended(c, l, m, t, ts0, seq0);
  }

  /** What is the same for every tick that sends a packet. */
  lemma PacketAppended(c: Config, l: Log, m: Log, t: Timetable, ts0: nat, seq0: nat)
    requires ConfigOk(c) && |l.x.queue| <= |l.digits| && |m.x.queue| <= |m.digits| && m.digits == l.digits
    requires ClockOk(l, ts0, seq0) && OutOk(c, l, ts0, seq0) && OnTime(l, t)
    requires |m.out| == |l.out| + 1 && m.out[..|l.out|] == l.out && m.tick == l.tick + 1
    requires m.x.ts == (l.x.ts + FRAME_SAMPLES) % WORD && m.x.seqNo == (l.x.seqNo + 1) % 0x1_0000
    requires m.starts == l.starts || m.starts == l.starts + [l.tick]
    requires PacketOk(c, m.out[|l.out|], |l.out|, m.starts, m.digits, ts0, seq0)
    requires var plan := Remaining(l.x.queue, l.digits);
             && Remaining(m.x.queue, l.digits) == (if plan == [] then [] else plan[1..])
             && m.out[|l.out|].kind == (if plan == [] then AUDIO else plan[0])
    ensures ClockOk(m, ts0, seq0) && OutOk(c, m, ts0, seq0) && OnTime(m, Advanced(t))
  {
    hide Remaining, OnTime, PacketOk, OutOk, ClockOk;
    ClockTicks(l, m, ts0, seq0);
    EarlierPacketsOk(c, l, m, ts0, seq0);
    StaysOnTime(l, m, t);
  }

  lemma OneEvent(c: Config, l: Log)
    requires ConfigOk(c) && TxOk(c, l.x) && QueueTick(l.x.queue, l.x.ts).1.Some?
    ensures var (m, q, i) := (OneTick(c, l, true), QueueTick(l.x.queue, l.x.ts).0,
                              QueueTick(l.x.queue, l.x.ts).1.value);
            && TxOk(c, m.x) && m.x.queue == q != [] && m.tick == l.tick + 1 && m.digits == l.digits
            && m.x.ts == (l.x.ts + FRAME_SAMPLES) % WORD && m.x.seqNo == (l.x.seqNo + 1) % 0x1_0000
            && m.starts == (if i == 0 then l.starts + [l.tick] else l.starts)
            && m.out == l.out + [Out(Kind(|l.digits| - |q|, i), l.tick,
                                     EventPacket(c, q[0].event, q[0].packets, i, l.x.seqNo, q[0].ts))]
  {
    hide EventPacket, AudioPacket, QueueTick;
    TickKeepsTxOk(c, l.x);
    TickIsQueueTick(c, l.x);
  }

  lemma EventIsOk(c: Config, l: Log, m: Log, ts0: nat, seq0: nat)
    requires ConfigOk(c) && TxOk(c, l.x) && ClockOk(l, ts0, seq0) && |m.out| == |l.out| + 1
    requires var o := m.out[|l.out|]; var tag := o.kind.tag;
             && 0 <= tag < |m.starts| && tag < |m.digits|
             && o.bytes == EventPacket(c, m.digits[tag].event, m.digits[tag].packets, o.kind.index, l.x.seqNo,
                                       Stamp(ts0, m.starts[tag]))
    ensures PacketOk(c, m.out[|l.out|], |l.out|, m.starts, m.digits, ts0, seq0)
  {
    hide EventPacket, Stamp;
  }

  lemma EventKeepsLogOk(c: Config, l: Log, t: Timetable, ts0: nat, seq0: nat)
    requires ConfigOk(c) && LogOk(c, l, t, ts0, seq0) && QueueTick(l.x.queue, l.x.ts).1.Some?
    ensures LogOk(c, OneTick(c, l, true), Advanced(t), ts0, seq0)
  {
    hide QueueTick, Remaining, EventPacket, OneTick, TxOk, QueueOk, HeadOk, OutOk, OnTime, Advance, Current, ConfigOk;
    var m := OneTick(c, l, true);
    var i := QueueTick(l.x.queue, l.x.ts).1.value;
    OneEvent(c, l);
    QueueFollowsPlan(l.x.queue, l.x.ts, l.digits);
    EventTickOk(c, l, m, i, ts0);
    EventIsOk(c, l, m, ts0, seq0);
    hide PacketOk, ClockOk;
    PacketAppended(c, l, m, t, ts0, seq0);
  }

  /* ---- More digits ---- */

  lemma {:induction false} PlanGrows(first: nat, digits: seq<Digit>, more: seq<Digit>)
    requires first <= |digits|
    ensures Plan(first, digits + more) == Plan(first, digits) + Plan(|digits|, digits + more)
    decreases |digits| - first
  {
    hide EventPlan, AudioPlan;
    if first < |digits| {
      PlanGrows(first + 1, digits, more);
      assert (digits + more)[first] == digits[first];
    }
  }

  lemma QueueGrows(queue: seq<Job>, jobs: seq<Job>, digits: seq<Digit>, more: seq<Digit>)
    requires QueueOk(queue, digits) && |jobs| == |more|
    requires forall k :: 0 <= k < |more| ==> more[k].packets >= 1 && IsNew(jobs[k], more[k])
    ensures QueueOk(queue + jobs, digits + more)
  {
    var q, d := queue + jobs, digits + more;
    var base := |d| - |q|;
    forall i | 0 <= i < |q|
      ensures if i < |queue| then q[i] == queue[i] && d[base + i] == digits[base + i] else IsNew(q[i], d[base + i])
    {
      if i >= |queue| {
        assert q[i] == jobs[i - |queue|] && d[base + i] == more[i - |queue|];
      }
    }
    hide IsNew, HeadIs;
    if queue == [] && jobs != [] {
      NewIsHead(jobs[0], more[0]);
    }
  }

  lemma NewIsHead(j: Job, d: Digit)
    requires IsNew(j, d)
    ensures HeadIs(j, d) && j.sent + j.ended == 0 && j.gap == GAP
  {}

  /** The events of new jobs are appended to what remains. */
  lemma RemainingGrows(queue: seq<Job>, jobs: seq<Job>, digits: seq<Digit>, more: seq<Digit>)
    requires |queue| <= |digits| && |jobs| == |more|
    requires forall k :: 0 <= k < |more| ==> IsNew(jobs[k], more[k])
    ensures Remaining(queue + jobs, digits + more) == Remaining(queue, digits) + Plan(|digits|, digits + more)
  {
    hide HeadPlan, Plan, IsNew;
    if queue != [] {
      BusyRemaining(queue, jobs, digits, more);
    } else {
      assert queue + jobs == jobs && Remaining(queue, digits) == [];
      FirstRemaining(jobs, digits, more);
    }
  }

  lemma BusyRemaining(queue: seq<Job>, jobs: seq<Job>, digits: seq<Digit>, more: seq<Digit>)
    requires 0 < |queue| <= |digits| && |jobs| == |more|
    ensures Remaining(queue + jobs, digits + more) == Remaining(queue, digits) + Plan(|digits|, digits + more)
  {
    hide HeadPlan, Plan, Remaining;
    var q, d, tag := queue + jobs, digits + more, |digits| - |queue|;
    assert q[0] == queue[0] && |d| - |q| == tag && q != [];
    RemainingIs(queue, digits);
    RemainingIs(q, d);
    PlanGrows(tag + 1, digits, more);
    Associate(HeadPlan(queue[0], tag), Plan(tag + 1, digits), Plan(|digits|, d));
  }

  lemma RemainingIs(queue: seq<Job>, digits: seq<Digit>)
    requires 0 < |queue| <= |digits|
    ensures var tag := |digits| - |queue|; Remaining(queue, digits) == HeadPlan(queue[0], tag) + Plan(tag + 1, digits)
  {}

  lemma Associate(a: seq<Kind>, b: seq<Kind>, c: seq<Kind>)
    ensures a + (b + c) == a + b + c
  {}

  lemma FirstRemaining(jobs: seq<Job>, digits: seq<Digit>, more: seq<Digit>)
    requires |jobs| == |more| && forall k :: 0 <= k < |more| ==> IsNew(jobs[k], more[k])
    ensures Remaining(jobs, digits + more) == Plan(|digits|, digits + more)
  {
    if jobs == [] {
      assert digits + more == digits;
    } else {
      assert (digits + more)[|digits|] == more[0];
      NewIsHead(jobs[0], more[0]);
    }
  }

  lemma DialKeepsLogOk(c: Config, l: Log, t: Timetable, text: string, nanos: int, ts0: nat, seq0: nat)
    requires ConfigOk(c) && LogOk(c, l, t, ts0, seq0)
    ensures LogOk(c, Dialled(l, text, nanos), Extended(t, Dial(text, nanos)), ts0, seq0)
  {
    hide Jobs, Remaining, PacketOk, Queued, Plan, QueueOk, OutOk, TxOk, HeadOk, ClockOk, OnTime, PacketsFor;
    var more, m := Queued(text, nanos), Dialled(l, text, nanos);
    QueuedAsJobs(text, nanos);
    if Jobs(text, PacketsFor(nanos)).None? {
      NothingPlanned(t.digits);
      assert more == [] && t.digits == l.digits by { TimetableDigits(l, t); }
      assert t.digits + more == t.digits && t.kinds + [] == t.kinds;
    } else {
      var jobs := Jobs(text, PacketsFor(nanos)).value;
      QueueGrows(l.x.queue, jobs, l.digits, more);
      EarlierPacketsOk(c, l, m, ts0, seq0);
      JobsAreOk(c, l.x, jobs, more);
      HeadStaysOk(l, jobs, more, ts0);
      ClockStaysOk(l, m, ts0, seq0);
      DialOnTime(l, m, t, jobs, more);
    }
  }

  lemma TimetableDigits(l: Log, t: Timetable)
    requires OnTime(l, t)
    ensures t.digits == l.digits && |l.x.queue| <= |l.digits|
  {}

  lemma ClockStaysOk(l: Log, m: Log, ts0: nat, seq0: nat)
    requires ClockOk(l, ts0, seq0) && m == l.(x := l.x.(queue := m.x.queue), digits := m.digits)
    ensures ClockOk(m, ts0, seq0)
  {}

  lemma DialOnTime(l: Log, m: Log, t: Timetable, jobs: seq<Job>, more: seq<Digit>)
    requires OnTime(l, t) && |jobs| == |more| && forall k :: 0 <= k < |more| ==> IsNew(jobs[k], more[k])
    requires m == l.(x := l.x.(queue := l.x.queue + jobs), digits := l.digits + more)
    ensures OnTime(m, t.(kinds := t.kinds + Plan(|t.digits|, t.digits + more), digits := t.digits + more))
  {
    hide Remaining, Plan, IsNew;
    hide Kinds;
    RemainingGrows(l.x.queue, jobs, l.digits, more);
    SlicesGrow(t.kinds, Plan(|t.digits|, t.digits + more), t.sent);
  }

  lemma SlicesGrow(kinds: seq<Kind>, more: seq<Kind>, n: nat)
    requires n <= |kinds|
    ensures (kinds + more)[..n] == kinds[..n] && (kinds + more)[n..] == kinds[n..] + more
  {}

  lemma JobsAreOk(c: Config, x: Tx, jobs: seq<Job>, more: seq<Digit>)
    requires TxOk(c, x) && |jobs| == |more| && forall k :: 0 <= k < |more| ==> IsNew(jobs[k], more[k])
    ensures TxOk(c, x.(queue := x.queue + jobs))
  {}

  lemma HeadStaysOk(l: Log, jobs: seq<Job>, more: seq<Digit>, ts0: nat)
    requires HeadOk(l, ts0) && |jobs| == |more| && forall k :: 0 <= k < |more| ==> IsNew(jobs[k], more[k])
    ensures HeadOk(l.(x := l.x.(queue := l.x.queue + jobs), digits := l.digits + more), ts0)
  {
    hide Stamp;
    if jobs == [] {
      assert l.x.queue + jobs == l.x.queue;
    }
  }

  lemma NothingPlanned(digits: seq<Digit>)
    ensures Plan(|digits|, digits) == []
  {}

  /* ---- Whole runs ---- */

  function Act(c: Config, l: Log, a: Action): (m: Log)
    requires ConfigOk(c) && TxOk(c, l.x)
    ensures TxOk(c, m.x)
  {
    match a
    case Elapse(may) => TickKeepsTxOk(c, l.x); OneTick(c, l, may)
    case Dial(text, nanos) => Dialled(l, text, nanos)
  }

  lemma ActionKeepsLogOk(c: Config, l: Log, t: Timetable, a: Action, ts0: nat, seq0: nat)
    requires ConfigOk(c) && LogOk(c, l, t, ts0, seq0)
    ensures LogOk(c, Act(c, l, a), Extended(t, a), ts0, seq0)
  {
    match a
    case Dial(text, nanos) => DialKeepsLogOk(c, l, t, text, nanos, ts0, seq0);
    case Elapse(may) =>
      hide LogOk, OneTick, QueueTick, Advanced;
      if !may {
        SilenceKeepsLogOk(c, l, t, ts0, seq0);
      } else if QueueTick(l.x.queue, l.x.ts).1.None? {
        AudioKeepsLogOk(c, l, t, ts0, seq0);
      } else {
        EventKeepsLogOk(c, l, t, ts0, seq0);
      }
  }

  /** The sender from state x with nothing queued, over any actions. */
  function Transmit(c: Config, x: Tx, actions: seq<Action>): (l: Log)
    requires ConfigOk(c) && TxOk(c, x)
    ensures TxOk(c, l.x)
  {
    if actions == [] then Log(x, 0, [], [], [])
    else Act(c, Transmit(c, x, actions[..|actions| - 1]), actions[|actions| - 1])
  }

  lemma {:induction false} TransmitOk(c: Config, x: Tx, actions: seq<Action>)
    requires ConfigOk(c) && TxOk(c, x) && x.queue == []
    ensures LogOk(c, Transmit(c, x, actions), Scheduled(actions), x.ts, x.seqNo)
  {
    if actions == [] {
      EmptyQueue(0, []);
    } else {
      hide LogOk, Act, TxOk;
      var before := actions[..|actions| - 1];
      TransmitOk(c, x, before);
      ActionKeepsLogOk(c, Transmit(c, x, before), Scheduled(before), actions[|actions| - 1], x.ts, x.seqNo);
    }
  }

  /**
   * Over any ticks, silent ones in the middle of a digit included, and any calls, also while digits are still
   * being sent: the packets are those of the timetable (for each digit its updates, three end packets, three audio
   * frames, and audio when nothing is scheduled), and each one carries the bytes of its event with the timestamp
   * of the tick at which that event began.
   */
  lemma SenderFollowsPlan(c: Config, x: Tx, actions: seq<Action>)
    requires ConfigOk(c) && TxOk(c, x) && x.queue == []
    ensures var l, t := Transmit(c, x, actions), Scheduled(actions);
            t.sent <= |t.kinds| && Kinds(l.out) == t.kinds[..t.sent] && l.digits == t.digits
            && OutOk(c, l, x.ts, x.seqNo)
  {
    TransmitOk(c, x, actions);
  }

  /** Every digit of a plan takes its updates and six ticks more. */
  lemma {:induction false} PlanLength(first: nat, digits: seq<Digit>)
    requires first < |digits|
    ensures |Plan(first, digits)| == digits[first].packets + ENDS + GAP + |Plan(first + 1, digits)|
  {
    EventPlanLength(first, digits[first].packets, 0);
  }

  lemma {:induction false} EventPlanLength(tag: int, packets: nat, i: nat)
    requires i <= packets + ENDS
    ensures |EventPlan(tag, packets, i)| == packets + ENDS - i
    decreases packets + ENDS - i
  {
    if i < packets + ENDS {
      EventPlanLength(tag, packets, i + 1);
    }
  }

  /**
   * The 16-bit duration field is the number of samples since the start exactly while the event is at most 409
   * packets long.
   */
  lemma DurationFits(packets: nat)
    requires packets >= 1
    ensures (forall units: nat :: 1 <= units <= packets ==>
               units * FRAME_SAMPLES % 0x1_0000 == units * FRAME_SAMPLES)
            <==> packets <= 409
  {
    assert 410 * FRAME_SAMPLES % 0x1_0000 == 64;
    if packets >= 410 {
      var units: nat := 410;
      assert units * FRAME_SAMPLES % 0x1_0000 != units * FRAME_SAMPLES;
    }
  }
}
