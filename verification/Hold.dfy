/**
 * Two ends of one call exchanging re-INVITEs (engine/dialog.go, onReInvite in engine/device.go,
 * reofferAnswer in engine/callmedia.go): their locks, their streams and the messages in flight.
 * The protocol is shown to refine a call on which every accepted re-INVITE takes effect at once.
 */
module Hold {
  import opened Options
  import opened Sdp

  datatype Side = A | B {
    function Other(): Side { if A? then B else A }
  }

  /**
   * What the re-INVITE mutex is held for. Backoff is the sleep after 491: the source holds the lock through it.
   * A session refresh is one attempt with the direction the stream already has.
   */
  datatype Phase =
    | Idle
    | Waiting(prev: Direction, want: Direction, attempt: nat, refresh: bool)
    | Backoff(again: Direction)

  /** Our own re-INVITE on its way: the request, then its final response. */
  datatype Wire =
    | Quiet
    | Request(offer: Description)
    | Final(code: nat, answer: Option<Description>)

  datatype Party = Party(media: Media, localHold: bool, remoteHold: bool, phase: Phase, wire: Wire,
                         ended: bool, results: seq<bool>)

  datatype Exchange = Exchange(side: Side, want: Direction)

  /** log keeps the accepted re-INVITEs in the order in which they were accepted. */
  datatype State = State(a: Party, b: Party, log: seq<Exchange>) {
    function Get(s: Side): Party { if s.A? then a else b }

    function Put(s: Side, p: Party): State { if s.A? then this.(a := p) else this.(b := p) }
  }

  predicate IsSuccess(code: nat) { 200 <= code < 300 }

  predicate Holds(d: Direction) { d.SendOnly? || d.Inactive? }

  /* ---- The code of one side ---- */

  /** reinviteOnce up to the point where the request is sent. */
  function Offering(p: Party, want: Direction, attempt: nat, refresh: bool): Party {
    var (m, offer) := p.media.Offered(want);
    p.(media := m, phase := Waiting(p.media.dir, want, attempt, refresh), wire := Request(offer))
  }

  /** onReInvite: 491 while the lock is taken, otherwise the offer is applied and answered. */
  function OnReInvite(q: Party, offer: Description): (Party, Wire)
    requires q.media.codec.Some?
  {
    if !q.phase.Idle? then (q, Final(491, None))
    else
      var (m, answer) := q.media.Updated(offer);
      (q.(media := m, remoteHold := Holds(offer.dir)), Final(200, Some(answer)))
  }

  /** reinviteOnce and reinvite (or refreshSession) once the final response is there. */
  function OnFinal(p: Party): Party
    requires p.phase.Waiting? && p.wire.Final?
  {
    var w := p.phase;
    if !IsSuccess(p.wire.code) then
      var back := p.(media := p.media.(dir := w.prev), wire := Quiet);
      if w.refresh then back.(phase := Idle, ended := true, results := p.results + [false])
      else if p.wire.code == 491 && w.attempt == 0 then back.(phase := Backoff(w.want))
      else back.(phase := Idle, results := p.results + [false])
    else
      var m := match p.wire.answer case Some(r) => p.media.AnswerApplied(r) case None => p.media;
      p.(media := m, localHold := w.want != SendRecv, phase := Idle, wire := Quiet, results := p.results + [true])
  }

  /** A final response; the answer is the SDP of a 2xx, if it has one that parses. */
  datatype Response = Response(code: nat, answer: Option<Description>)

  /** One attempt that starts idle and ends with this response. */
  function Attempt(m: Media, localHold: bool, want: Direction, res: Response): Party {
    OnFinal(Offering(Party(m, localHold, false, Idle, Quiet, false, []), want, 0, false)
            .(wire := Final(res.code, res.answer)))
  }

  /** A refused attempt restores the direction and leaves the flag, an accepted one sets the flag. */
  lemma AttemptOutcome(m: Media, localHold: bool, want: Direction, res: Response)
    ensures var p := Attempt(m, localHold, want, res);
            if IsSuccess(res.code) then p.localHold == (want != SendRecv)
            else p.media.dir == m.dir && p.localHold == localHold
  {}

  /** The attempts of one call of Hold or Unhold: a second one after 491. */
  function Attempts(m: Media, localHold: bool, want: Direction, res: seq<Response>): (Party, bool)
    requires |res| == 2
  {
    var p := Attempt(m, localHold, want, res[0]);
    if res[0].code == 491 then (Attempt(p.media, p.localHold, want, res[1]), IsSuccess(res[1].code))
    else (p, IsSuccess(res[0].code))
  }

  lemma AttemptsOutcome(m: Media, localHold: bool, want: Direction, res: seq<Response>)
    requires |res| == 2
    ensures var (p, success) := Attempts(m, localHold, want, res);
            if success then p.localHold == (want != SendRecv)
            else p.media.dir == m.dir && p.localHold == localHold
  {
    hide Attempt;
    var p := Attempt(m, localHold, want, res[0]);
    AttemptOutcome(m, localHold, want, res[0]);
    AttemptOutcome(p.media, p.localHold, want, res[1]);
  }

  /**
   * The call object: its re-INVITE lock, its hold flags and its stream. acks and restarts count the ACKs sent and
   * how often the session timer was started again.
   */
  class Endpoint {
    const stream: Stream
    var connected: bool
    var locked: bool
    var localHold: bool
    var remoteHold: bool
    var acks: nat
    var restarts: nat

    constructor (stream: Stream)
      ensures this.stream == stream && connected && !locked && !localHold && !remoteHold && acks == restarts == 0
    {
      this.stream, connected, locked, localHold, remoteHold := stream, true, false, false, false;
      acks, restarts := 0, 0;
    }

    /** Returns success and whether a 491 asks for another attempt. */
    method ReinviteOnce(want: Direction, res: Response) returns (ok: bool, retry: bool)
      modifies this`localHold, this`acks, this`restarts, stream
      ensures var p := Attempt(old(stream.View()), old(localHold), want, res);
              stream.View() == p.media && localHold == p.localHold
      ensures ok == IsSuccess(res.code) && retry == (res.code == 491)
      ensures acks == old(acks) + (if ok then 1 else 0) && restarts == old(restarts) + (if ok then 1 else 0)
    {
      var prev := stream.dir;
      var _ := stream.Offer(want);
      if !IsSuccess(res.code) {
        stream.SetDirection(prev);
        return false, res.code == 491;
      }
      acks := acks + 1;
      if res.answer.Some? {
        stream.ApplyAnswer(res.answer.value);
      }
      localHold := want != SendRecv;
      restarts := restarts + 1;
      return true, false;
    }

    /**
     * Hold and Unhold: false at once unless the call is connected. A call that fails leaves the direction and the
     * flag as they were, after one attempt or two.
     */
    method Reinvite(want: Direction, res: seq<Response>) returns (ok: bool)
      requires |res| == 2 && !locked
      modifies this`locked, this`localHold, this`acks, this`restarts, stream
      ensures if connected then
                var (p, success) := Attempts(old(stream.View()), old(localHold), want, res);
                stream.View() == p.media && localHold == p.localHold && ok == success
              else !ok && stream.View() == old(stream.View())
      ensures acks == old(acks) + (if ok then 1 else 0) && restarts == old(restarts) + (if ok then 1 else 0)
      ensures ok ==> localHold == (want != SendRecv)
      ensures !ok ==> stream.dir == old(stream.dir) && localHold == old(localHold)
      ensures !locked
    {
      if !connected {
        return false;
      }
      hide Attempt;
      AttemptsOutcome(stream.View(), localHold, want, res);
      locked := true;
      var retry;
      ok, retry := ReinviteOnce(want, res[0]);
      var attempt := 0;
      while retry && attempt == 0
        invariant 0 <= attempt <= 1 && locked
        invariant acks == old(acks) + (if ok then 1 else 0) && restarts == old(restarts) + (if ok then 1 else 0)
        invariant retry ==> !ok
        invariant attempt == 0 ==>
                    && retry == (res[0].code == 491) && ok == IsSuccess(res[0].code)
                    && var p := Attempt(old(stream.View()), old(localHold), want, res[0]);
                       stream.View() == p.media && localHold == p.localHold
        invariant attempt == 1 ==>
                    && res[0].code == 491 && ok == IsSuccess(res[1].code)
                    && var p := Attempts(old(stream.View()), old(localHold), want, res).0;
                       stream.View() == p.media && localHold == p.localHold
        decreases 1 - attempt
      {
        attempt := attempt + 1;
        ok, retry := ReinviteOnce(want, res[attempt]);
      }
      locked := false;
    }

    /** The peer's re-INVITE: 491 while ours is under way. Without an offer the answer makes one. */
    method HandleReinvite(offer: Option<Description>) returns (res: Response)
      requires stream.codec.Some?
      modifies this`remoteHold, this`restarts, stream
      ensures restarts == old(restarts) + if locked then 0 else 1
      ensures var phase := if locked then Backoff(SendRecv) else Idle;
              var before := Party(old(stream.View()), localHold, old(remoteHold), phase, Quiet, false, []);
              match offer
              case Some(r) =>
                var (p, response) := OnReInvite(before, r);
                stream.View() == p.media && remoteHold == p.remoteHold && response == Final(res.code, res.answer)
              case None =>
                remoteHold == old(remoteHold)
                && if locked then res == Response(491, None) && stream.View() == before.media
                   else stream.View() == before.media.Offered(SendRecv).0
                        && res == Response(200, Some(before.media.Offered(SendRecv).1))
    {
      if locked {
        return Response(491, None);
      }
      var answer;
      if offer.Some? {
        remoteHold := offer.value.dir == SendOnly || offer.value.dir == Inactive;
        answer := stream.Update(offer.value);
      } else {
        answer := stream.Offer(SendRecv);
      }
      restarts := restarts + 1;
      return Response(200, Some(answer));
    }
  }

  /* ---- The interleavings ---- */

  datatype Event =
    | Begin(side: Side, want: Direction)   // Hold, Unhold
    | Refresh(side: Side)                  // the session timer of the refresher fires
    | Deliver(side: Side)                  // the peer handles the request
    | Refuse(side: Side, code: nat)        // the peer does not apply it: unknown call, failure, lock still taken
    | Complete(side: Side)                 // the final response arrives
    | Retry(side: Side)                    // the backoff ends
    | End(side: Side)                      // hang-up

  predicate Enabled(s: State, e: Event) {
    var p := s.Get(e.side);
    match e
    case Begin(_, _) => p.phase.Idle? && !p.ended
    case Refresh(_) => p.phase.Idle? && !p.ended
    case Deliver(_) => p.wire.Request? && !s.Get(e.side.Other()).ended && s.Get(e.side.Other()).media.codec.Some?
    case Refuse(_, code) => p.wire.Request? && code >= 300
    case Complete(_) => p.phase.Waiting? && p.wire.Final?
    case Retry(_) => p.phase.Backoff?
    case End(_) => true
  }

  predicate Accepts(s: State, e: Event) {
    e.Deliver? && s.Get(e.side.Other()).phase.Idle?
  }

  function Next(s: State, e: Event): State
    requires Enabled(s, e)
  {
    var p := s.Get(e.side);
    match e
    case Begin(side, want) => s.Put(side, Offering(p, want, 0, false))
    case Refresh(side) => s.Put(side, Offering(p, p.media.dir, 0, true))
    case Deliver(side) =>
      var (q, response) := OnReInvite(s.Get(side.Other()), p.wire.offer);
      var s' := s.Put(side.Other(), q).Put(side, p.(wire := response));
      if Accepts(s, e) && p.phase.Waiting? then s'.(log := s.log + [Exchange(side, p.phase.want)]) else s'
    case Refuse(side, code) => s.Put(side, p.(wire := Final(code, None)))
    case Complete(side) => s.Put(side, OnFinal(p))
    case Retry(side) => s.Put(side, Offering(p, p.phase.again, 1, false))
    case End(side) => s.Put(side, p.(ended := true))
  }

  predicate ValidRun(s: State, run: seq<Event>)
    decreases |run|
  {
    run == [] || (Enabled(s, run[0]) && ValidRun(Next(s, run[0]), run[1..]))
  }

  function After(s: State, run: seq<Event>): State
    requires ValidRun(s, run)
    decreases |run|
  {
    if run == [] then s else After(Next(s, run[0]), run[1..])
  }

  /* ---- The simple call it refines ---- */

  /** What one end has agreed to. */
  datatype Agreed = Agreed(dir: Direction, localHold: bool, remoteHold: bool)

  datatype Call = Call(a: Agreed, b: Agreed) {
    function Get(s: Side): Agreed { if s.A? then a else b }
  }

  /** A re-INVITE that takes effect at both ends at once. */
  function Exchanged(c: Call, x: Exchange): Call {
    var p := c.Get(x.side).(dir := x.want, localHold := x.want != SendRecv);
    var q := c.Get(x.side.Other()).(dir := x.want.Reverse(), remoteHold := Holds(x.want));
    if x.side.A? then Call(p, q) else Call(q, p)
  }

  function Replay(c: Call, log: seq<Exchange>): Call {
    if log == [] then c else Exchanged(Replay(c, log[..|log| - 1]), log[|log| - 1])
  }

  /** A re-INVITE counts from its acceptance on; until then its offered direction does not. */
  function Settled(p: Party): Agreed {
    if !p.phase.Waiting? then Agreed(p.media.dir, p.localHold, p.remoteHold)
    else if p.wire.Final? && IsSuccess(p.wire.code) then
      Agreed(p.phase.want, p.phase.want != SendRecv, p.remoteHold)
    else Agreed(p.phase.prev, p.localHold, p.remoteHold)
  }

  function Abstract(s: State): Call {
    Call(Settled(s.a), Settled(s.b))
  }

  /* ---- The invariant ---- */

  predicate Accepted(p: Party) {
    p.wire.Final? && IsSuccess(p.wire.code)
  }

  /** The codec and payload type both ends settled on at call setup. */
  ghost predicate Negotiated(p: Party, c: Codec, dtmf: int) {
    p.media.codec == Some(c) && p.media.dtmf == dtmf >= 0 && Named(p.media.codecs, c.name).Some?
  }

  ghost predicate PartyOk(p: Party, c: Codec, dtmf: int) {
    && Negotiated(p, c, dtmf)
    && (p.phase.Waiting? <==> !p.wire.Quiet?)
    && (p.phase.Waiting? ==> p.media.dir == p.phase.want)
    && (p.phase.Waiting? && p.phase.refresh ==> p.phase.want == p.phase.prev)
    && (p.wire.Request? ==> p.wire.offer.dir == p.media.dir)
    && (Accepted(p) ==> p.wire.answer.Some? && Answers(p.wire.answer.value, c, dtmf, p.phase.want))
  }

  predicate Answers(d: Description, c: Codec, dtmf: int, want: Direction) {
    d.codecs == [c] && d.dtmf == dtmf && d.dir == want.Reverse()
  }

  /** p sends to q, and so do the descriptions on p's wire say. */
  ghost predicate Linked(p: Party, q: Party) {
    && p.media.remote == Some(q.media.own)
    && (p.wire.Request? ==> p.wire.offer.addr == Some(p.media.own))
    && (Accepted(p) ==> p.wire.answer.Some? && p.wire.answer.value.addr == Some(q.media.own))
  }

  ghost predicate PairOk(p: Party, q: Party, c: Codec, dtmf: int) {
    && PartyOk(p, c, dtmf) && PartyOk(q, c, dtmf)
    && !(Accepted(p) && Accepted(q))
    && Settled(p).dir == Settled(q).dir.Reverse()
    && Linked(p, q) && Linked(q, p)
  }

  ghost predicate Inv(s: State, c: Codec, dtmf: int) {
    PairOk(s.a, s.b, c, dtmf)
  }

  /** A call that has just been set up: both streams agree and nothing has been exchanged. */
  ghost predicate Fresh(s: State) {
    && Agree(s.a.media, s.b.media) && s.log == []
    && s.a.phase.Idle? && s.b.phase.Idle? && s.a.wire.Quiet? && s.b.wire.Quiet?
    && !s.a.localHold && !s.a.remoteHold && !s.b.localHold && !s.b.remoteHold
    && s.a.results == [] && s.b.results == []
  }

  lemma PairSymmetric(p: Party, q: Party, c: Codec, dtmf: int)
    requires PairOk(p, q, c, dtmf)
    ensures PairOk(q, p, c, dtmf)
  {
    ReverseMirrors(Settled(q).dir);
  }

  lemma OfferingOk(p: Party, q: Party, c: Codec, dtmf: int, want: Direction, attempt: nat, refresh: bool)
    requires PairOk(p, q, c, dtmf) && !p.phase.Waiting? && (refresh ==> want == p.media.dir)
    ensures PairOk(Offering(p, want, attempt, refresh), q, c, dtmf)
    ensures Settled(Offering(p, want, attempt, refresh)) == Settled(p)
  {}

  lemma DeliverOk(p: Party, q: Party, c: Codec, dtmf: int)
    requires PairOk(p, q, c, dtmf) && p.wire.Request?
    ensures var (q', w) := OnReInvite(q, p.wire.offer);
            var p' := p.(wire := w);
            PairOk(p', q', c, dtmf)
            && if q.phase.Idle?
               then Settled(p') == Settled(p).(dir := p.phase.want, localHold := p.phase.want != SendRecv)
                    && Settled(q') == Settled(q).(dir := p.phase.want.Reverse(), remoteHold := Holds(p.phase.want))
               else Settled(p') == Settled(p) && q' == q
  {
    ReverseMirrors(p.phase.want);
  }

  /** The answer to a re-INVITE changes nothing but the address. */
  lemma AnswerFits(m: Media, d: Description, c: Codec, dtmf: int, want: Direction)
    requires m.codec == Some(c) && Named(m.codecs, c.name).Some? && m.dtmf == dtmf && m.dir == want
    requires Answers(d, c, dtmf, want) && d.addr.Some?
    ensures m.AnswerApplied(d) == m.(remote := d.addr, latched := false)
  {
    ReverseMirrors(want);
    ChooseOnly(m.codecs, c);
  }

  lemma AcceptedOk(p: Party, q: Party, c: Codec, dtmf: int)
    requires PairOk(p, q, c, dtmf) && Accepted(p)
    ensures PairOk(OnFinal(p), q, c, dtmf) && Settled(OnFinal(p)) == Settled(p)
  {
    AnswerFits(p.media, p.wire.answer.value, c, dtmf, p.phase.want);
    hide Answers;
  }

  lemma RejectedOk(p: Party, q: Party, c: Codec, dtmf: int)
    requires PairOk(p, q, c, dtmf) && p.wire.Final? && !Accepted(p)
    ensures PairOk(OnFinal(p), q, c, dtmf) && Settled(OnFinal(p)) == Settled(p)
  {
    var r := OnFinal(p);
    assert r == p.(media := p.media.(dir := p.phase.prev), wire := Quiet, phase := r.phase, ended := r.ended,
                   results := r.results);
    hide PairOk, OnFinal, Settled;
    RestoredOk(p, q, r, c, dtmf);
  }

  lemma RestoredOk(p: Party, q: Party, r: Party, c: Codec, dtmf: int)
    requires PairOk(p, q, c, dtmf) && p.phase.Waiting? && !Accepted(p) && !r.phase.Waiting?
    requires r == p.(media := p.media.(dir := p.phase.prev), wire := Quiet, phase := r.phase, ended := r.ended,
                     results := r.results)
    ensures PairOk(r, q, c, dtmf) && Settled(r) == Settled(p)
  {
    hide Answers;
  }

  lemma CompleteOk(p: Party, q: Party, c: Codec, dtmf: int)
    requires PairOk(p, q, c, dtmf) && p.wire.Final?
    ensures PairOk(OnFinal(p), q, c, dtmf) && Settled(OnFinal(p)) == Settled(p)
  {
    hide PairOk, OnFinal, Settled;
    if Accepted(p) {
      AcceptedOk(p, q, c, dtmf);
    } else {
      RejectedOk(p, q, c, dtmf);
    }
  }

  lemma RefusedOk(p: Party, q: Party, c: Codec, dtmf: int, code: nat)
    requires PairOk(p, q, c, dtmf) && p.wire.Request? && !IsSuccess(code)
    ensures PairOk(p.(wire := Final(code, None)), q, c, dtmf) && Settled(p.(wire := Final(code, None))) == Settled(p)
  {}

  lemma DeliverStep(s: State, side: Side, c: Codec, dtmf: int)
    requires PairOk(s.Get(side), s.Get(side.Other()), c, dtmf) && Enabled(s, Deliver(side))
    ensures var p, q, s' := s.Get(side), s.Get(side.Other()), Next(s, Deliver(side));
            var p', q' := s'.Get(side), s'.Get(side.Other());
            PairOk(p', q', c, dtmf)
            && if q.phase.Idle?
               then p.phase.Waiting? && s'.log == s.log + [Exchange(side, p.phase.want)]
                    && Settled(p') == Settled(p).(dir := p.phase.want, localHold := p.phase.want != SendRecv)
                    && Settled(q') == Settled(q).(dir := p.phase.want.Reverse(), remoteHold := Holds(p.phase.want))
               else s'.log == s.log && Settled(p') == Settled(p) && Settled(q') == Settled(q)
  {
    var p, q := s.Get(side), s.Get(side.Other());
    assert PartyOk(p, c, dtmf);
    DeliverOk(p, q, c, dtmf);
    hide PairOk, Settled, OnReInvite;
  }

  /** A step that only the side itself takes part in. */
  lemma OwnPartOk(s: State, e: Event, c: Codec, dtmf: int)
    requires PairOk(s.Get(e.side), s.Get(e.side.Other()), c, dtmf) && Enabled(s, e) && !e.Deliver?
    ensures var p, q, s' := s.Get(e.side), s.Get(e.side.Other()), Next(s, e);
            var p' := s'.Get(e.side);
            && s' == s.Put(e.side, p') && s'.Get(e.side.Other()) == q
            && PairOk(p', q, c, dtmf) && Settled(p') == Settled(p)
  {
    var p, q := s.Get(e.side), s.Get(e.side.Other());
    IdleParty(p, q, c, dtmf);
    hide PairOk, Settled, Offering, OnFinal;
    match e
    case Begin(_, want) => OfferingOk(p, q, c, dtmf, want, 0, false);
    case Refresh(_) => OfferingOk(p, q, c, dtmf, p.media.dir, 0, true);
    case Retry(_) => OfferingOk(p, q, c, dtmf, p.phase.again, 1, false);
    case Complete(_) => CompleteOk(p, q, c, dtmf);
    case Refuse(_, code) => RefusedOk(p, q, c, dtmf, code);
    case End(_) => EndedOk(p, q, c, dtmf);
  }

  lemma EndedOk(p: Party, q: Party, c: Codec, dtmf: int)
    requires PairOk(p, q, c, dtmf)
    ensures PairOk(p.(ended := true), q, c, dtmf) && Settled(p.(ended := true)) == Settled(p)
  {}

  lemma IdleParty(p: Party, q: Party, c: Codec, dtmf: int)
    requires PairOk(p, q, c, dtmf)
    ensures p.phase.Waiting? <==> !p.wire.Quiet?
  {}

  /** One step seen from the side whose re-INVITE it belongs to. */
  lemma PairStep(s: State, e: Event, c: Codec, dtmf: int)
    requires PairOk(s.Get(e.side), s.Get(e.side.Other()), c, dtmf) && Enabled(s, e)
    ensures var p, q, s' := s.Get(e.side), s.Get(e.side.Other()), Next(s, e);
            var p', q' := s'.Get(e.side), s'.Get(e.side.Other());
            PairOk(p', q', c, dtmf)
            && if Accepts(s, e)
               then p.phase.Waiting? && s'.log == s.log + [Exchange(e.side, p.phase.want)]
                    && Settled(p') == Settled(p).(dir := p.phase.want, localHold := p.phase.want != SendRecv)
                    && Settled(q') == Settled(q).(dir := p.phase.want.Reverse(), remoteHold := Holds(p.phase.want))
               else s'.log == s.log && Settled(p') == Settled(p) && Settled(q') == Settled(q)
  {
    match e
    case Deliver(side) => DeliverStep(s, side, c, dtmf);
    case _ => OwnPartOk(s, e, c, dtmf);
  }

  /** Every step keeps the invariant, and is either one accepted exchange of the simple call or invisible there. */
  lemma StepRefines(s: State, e: Event, c: Codec, dtmf: int)
    requires Inv(s, c, dtmf) && Enabled(s, e)
    ensures Inv(Next(s, e), c, dtmf)
    ensures if Accepts(s, e)
            then Next(s, e).log == s.log + [Exchange(e.side, s.Get(e.side).phase.want)]
                 && Abstract(Next(s, e)) == Exchanged(Abstract(s), Exchange(e.side, s.Get(e.side).phase.want))
            else Next(s, e).log == s.log && Abstract(Next(s, e)) == Abstract(s)
  {
    hide PairOk, Settled, Next, Enabled, Accepts;
    if e.side.B? {
      PairSymmetric(s.a, s.b, c, dtmf);
    }
    PairStep(s, e, c, dtmf);
    if e.side.B? {
      PairSymmetric(Next(s, e).b, Next(s, e).a, c, dtmf);
    }
  }

  /* ---- Whole runs ---- */

  lemma {:induction false} RunRefines(s: State, run: seq<Event>, c: Codec, dtmf: int, c0: Call)
    requires Inv(s, c, dtmf) && ValidRun(s, run) && Abstract(s) == Replay(c0, s.log)
    ensures Inv(After(s, run), c, dtmf) && Abstract(After(s, run)) == Replay(c0, After(s, run).log)
    decreases |run|
  {
    hide Inv, Next, Enabled, Abstract, Exchanged, Accepts;
    if run != [] {
      var s' := Next(s, run[0]);
      StepRefines(s, run[0], c, dtmf);
      if Accepts(s, run[0]) {
        assert s'.log[..|s'.log| - 1] == s.log;
      }
      RunRefines(s', run[1..], c, dtmf, c0);
    }
  }

  /**
   * In every interleaving from call setup on, the two ends are where the accepted re-INVITEs, applied one
   * after the other, put them. Whenever no request is outstanding the directions are mirror images, so one
   * end sends exactly when the other receives; the codec and payload type never change, and each end always sends
   * to the other's address.
   */
  lemma HoldRefinesSimpleCall(s0: State, run: seq<Event>)
    requires Fresh(s0) && ValidRun(s0, run)
    ensures var s := After(s0, run);
            && Abstract(s) == Replay(Abstract(s0), s.log)
            && s.a.media.codec == s.b.media.codec == s0.a.media.codec && s.a.media.dtmf == s.b.media.dtmf
            && s.a.media.remote == Some(s.b.media.own) && s.b.media.remote == Some(s.a.media.own)
            && (!s.a.phase.Waiting? && !s.b.phase.Waiting? ==>
                 && s.a.media.dir == s.b.media.dir.Reverse()
                 && (s.a.media.dir.Sends() <==> s.b.media.dir.Receives())
                 && (s.b.media.dir.Sends() <==> s.a.media.dir.Receives()))
  {
    var c, dtmf := s0.a.media.codec.value, s0.a.media.dtmf;
    RunRefines(s0, run, c, dtmf, Abstract(s0));
    ReverseMirrors(After(s0, run).b.media.dir);
  }

  /* ---- One call to Hold or Unhold ---- */

  /** `side` has the re-INVITE lock before every event of the run. */
  predicate HeldRun(s: State, side: Side, run: seq<Event>)
    decreases |run|
  {
    run == [] || (!s.Get(side).phase.Idle? && Enabled(s, run[0]) && HeldRun(Next(s, run[0]), side, run[1..]))
  }

  lemma {:induction false} HeldRunValid(s: State, side: Side, run: seq<Event>)
    requires HeldRun(s, side, run)
    ensures ValidRun(s, run)
    decreases |run|
  {
    if run != [] {
      HeldRunValid(Next(s, run[0]), side, run[1..]);
    }
  }

  /** Where one call is, relative to the state s0 that it started from. */
  ghost predicate Pending(s: State, s0: State, x: Exchange) {
    var p := s.Get(x.side);
    && p.results == s0.Get(x.side).results
    && (p.phase.Waiting? || p.phase.Backoff?)
    && (p.phase.Waiting? ==> p.phase.want == x.want)
    && (p.phase.Backoff? ==> p.phase.again == x.want)
    && (if Accepted(p) then s.log == s0.log + [x] && Abstract(s) == Exchanged(Abstract(s0), x)
        else s.log == s0.log && Abstract(s) == Abstract(s0))
  }

  ghost predicate Returned(s: State, s0: State, x: Exchange) {
    var p := s.Get(x.side);
    && p.phase.Idle?
    && if p.results == s0.Get(x.side).results + [true]
       then s.log == s0.log + [x] && Abstract(s) == Exchanged(Abstract(s0), x)
       else p.results == s0.Get(x.side).results + [false] && s.log == s0.log && Abstract(s) == Abstract(s0)
  }

  /** While the lock is taken, the peer's steps leave this side alone: its offers are answered 491. */
  lemma LockKeepsPeerOut(s: State, side: Side, e: Event)
    requires Enabled(s, e) && e.side != side && !s.Get(side).phase.Idle?
    ensures Next(s, e).Get(side) == s.Get(side) && !Accepts(s, e)
    ensures e.Deliver? ==> Next(s, e).Get(e.side).wire == Final(491, None)
  {}

  lemma OwnStep(s: State, side: Side, e: Event, c: Codec, dtmf: int)
    requires Enabled(s, e) && e.side == side && !s.Get(side).phase.Idle? && PartyOk(s.Get(side), c, dtmf)
    ensures var p, p' := s.Get(side), Next(s, e).Get(side);
            if e.Complete? && (Accepted(p) || !p'.phase.Backoff?)
            then p'.phase.Idle? && p'.results == p.results + [Accepted(p)]
            else p'.results == p.results && !p'.phase.Idle?
                 && (p'.phase.Waiting? ==> p'.phase.want == if p.phase.Waiting? then p.phase.want else p.phase.again)
                 && (p'.phase.Backoff? ==> p'.phase.again == if p.phase.Waiting? then p.phase.want else p.phase.again)
                 && (e.Complete? ==> !Accepted(p'))
                 && (Accepted(p') <==> Accepts(s, e) || (Accepted(p) && !e.Complete?))
  {}

  lemma ResultsDiffer(results: seq<bool>)
    ensures results + [true] != results + [false]
  {
    assert (results + [true])[|results|] != (results + [false])[|results|];
  }

  lemma HeldStep(s: State, s0: State, x: Exchange, e: Event, c: Codec, dtmf: int)
    requires Inv(s, c, dtmf) && Enabled(s, e) && Pending(s, s0, x)
    ensures Inv(Next(s, e), c, dtmf)
    ensures Pending(Next(s, e), s0, x) || Returned(Next(s, e), s0, x)
  {
    hide Settled, Negotiated, Exchanged, OnFinal, OnReInvite, Offering, Next, Abstract;
    StepRefines(s, e, c, dtmf);
    if e.side == x.side {
      OwnStep(s, x.side, e, c, dtmf);
      ResultsDiffer(s0.Get(x.side).results);
    } else {
      LockKeepsPeerOut(s, x.side, e);
    }
  }

  lemma {:induction false} HeldRunReturns(s: State, s0: State, x: Exchange, run: seq<Event>, c: Codec, dtmf: int)
    requires Inv(s, c, dtmf) && HeldRun(s, x.side, run) && (Pending(s, s0, x) || (run == [] && Returned(s, s0, x)))
    ensures ValidRun(s, run) && (Pending(After(s, run), s0, x) || Returned(After(s, run), s0, x))
    decreases |run|
  {
    hide Inv, Next, Enabled, Pending, Returned;
    HeldRunValid(s, x.side, run);
    if run != [] {
      HeldStep(s, s0, x, run[0], c, dtmf);
      if Pending(Next(s, run[0]), s0, x) || run[1..] == [] {
        HeldRunReturns(Next(s, run[0]), s0, x, run[1..], c, dtmf);
      } else {
        ReturnedIsIdle(Next(s, run[0]), s0, x);
        assert false;
      }
    }
  }

  lemma ReturnedIsIdle(s: State, s0: State, x: Exchange)
    requires Returned(s, s0, x)
    ensures s.Get(x.side).phase.Idle?
  {}

  /**
   * Whatever the peer does meanwhile, one call of Hold, Unhold or a refresh that has returned true took effect
   * at both ends as a single exchange, and one that has returned false left both ends as they were: a refused
   * attempt restores the direction it started from, also when the attempt after a 491 is refused again.
   */
  lemma ReinviteIsAtomic(s0: State, first: Event, run: seq<Event>, c: Codec, dtmf: int)
    requires Inv(s0, c, dtmf) && (first.Begin? || first.Refresh?) && Enabled(s0, first)
    requires HeldRun(Next(s0, first), first.side, run)
    ensures ValidRun(Next(s0, first), run)
    ensures var x := Exchange(first.side, if first.Begin? then first.want else s0.Get(first.side).media.dir);
            var s := After(Next(s0, first), run);
            s.Get(x.side).phase.Idle? ==>
              Returned(s, s0, x)
              && (s.Get(x.side).results == s0.Get(x.side).results + [false] ==>
                    s.Get(x.side).media.dir == s0.Get(x.side).media.dir)
  {
    var x := Exchange(first.side, if first.Begin? then first.want else s0.Get(first.side).media.dir);
    StepRefines(s0, first, c, dtmf);
    HeldRunReturns(Next(s0, first), s0, x, run, c, dtmf);
    ResultsDiffer(s0.Get(x.side).results);
  }

  /* ---- Glare ---- */

  ghost predicate InGlare(p: Party, before: seq<bool>) {
    || (p.results == before && p.phase.Backoff? && p.wire.Quiet?)
    || (p.results == before && p.phase.Waiting? && p.phase.attempt == 1 && !p.phase.refresh && !p.wire.Quiet?)
    || (p.phase.Idle? && p.wire.Quiet? && (p.results == before + [true] || p.results == before + [false]))
  }

  ghost predicate Won(p: Party, before: seq<bool>) {
    Accepted(p) || p.results == before + [true]
  }

  ghost predicate GlareOk(p: Party, q: Party, pBefore: seq<bool>, qBefore: seq<bool>) {
    && InGlare(p, pBefore) && InGlare(q, qBefore)
    && (Won(p, pBefore) ==> q.results == qBefore + [false])
    && (Won(q, qBefore) ==> p.results == pBefore + [false])
  }

  lemma GlareStep(s: State, e: Event, before: seq<bool>, otherBefore: seq<bool>)
    requires GlareOk(s.Get(e.side), s.Get(e.side.Other()), before, otherBefore)
    requires Enabled(s, e) && !e.Begin? && !e.Refresh?
    ensures GlareOk(Next(s, e).Get(e.side), Next(s, e).Get(e.side.Other()), before, otherBefore)
  {
    ResultsDiffer(before);
    ResultsDiffer(otherBefore);
  }

  lemma {:induction false} GlareRun(s: State, run: seq<Event>, aBefore: seq<bool>, bBefore: seq<bool>)
    requires GlareOk(s.a, s.b, aBefore, bBefore) && ValidRun(s, run)
    requires forall e :: e in run ==> !e.Begin? && !e.Refresh?
    ensures GlareOk(After(s, run).a, After(s, run).b, aBefore, bBefore)
    decreases |run|
  {
    hide GlareOk, Next, Enabled;
    if run != [] {
      var e := run[0];
      GlareSides(s, aBefore, bBefore);
      GlareStep(s, e, if e.side.A? then aBefore else bBefore, if e.side.A? then bBefore else aBefore);
      GlareSides(Next(s, e), aBefore, bBefore);
      GlareRun(Next(s, e), run[1..], aBefore, bBefore);
    }
  }

  lemma GlareSides(s: State, aBefore: seq<bool>, bBefore: seq<bool>)
    ensures GlareOk(s.a, s.b, aBefore, bBefore) <==> GlareOk(s.b, s.a, bBefore, aBefore)
  {}

  /**
   * When both re-INVITEs were refused with 491 and both sides back off, at most one of the two calls returns
   * true: the side that retries while the other still holds its lock is refused again, and does not try a third time.
   */
  lemma GlareHasAtMostOneWinner(s0: State, run: seq<Event>)
    requires s0.a.phase.Backoff? && s0.b.phase.Backoff? && s0.a.wire.Quiet? && s0.b.wire.Quiet?
    requires ValidRun(s0, run) && forall e :: e in run ==> !e.Begin? && !e.Refresh?
    ensures var s := After(s0, run);
            !(s.a.results == s0.a.results + [true] && s.b.results == s0.b.results + [true])
    ensures var s := After(s0, run);
            s.a.phase.Idle? && s.b.phase.Idle? ==>
              s.a.results == s0.a.results + [false] || s.b.results == s0.b.results + [false]
  {
    ResultsDiffer(s0.a.results);
    ResultsDiffer(s0.b.results);
    assert forall r: bool :: |s0.a.results + [r]| != |s0.a.results|;
    GlareRun(s0, run, s0.a.results, s0.b.results);
  }

  /* ---- The hold flags ---- */

  /** The last direction that `side` got accepted, SendRecv at the start. */
  function LastWanted(log: seq<Exchange>, side: Side): Direction {
    if log == [] then SendRecv
    else if log[|log| - 1].side == side then log[|log| - 1].want
    else LastWanted(log[..|log| - 1], side)
  }

  lemma {:induction false} FlagsFollowLog(c: Call, log: seq<Exchange>, side: Side)
    requires !c.Get(side).localHold && !c.Get(side.Other()).remoteHold
    ensures Replay(c, log).Get(side).localHold == (LastWanted(log, side) != SendRecv)
    ensures Replay(c, log).Get(side.Other()).remoteHold == Holds(LastWanted(log, side))
  {
    if log != [] {
      FlagsFollowLog(c, log[..|log| - 1], side);
    }
  }

  /**
   * While no request is outstanding, OnHold of one end equals RemoteHold of the other exactly when the last
   * accepted re-INVITE of the first end did not offer recvonly. Hold and Unhold never do; a session refresh
   * sent by the held end does.
   */
  lemma HoldFlagsAgree(s0: State, run: seq<Event>, side: Side)
    requires Fresh(s0) && ValidRun(s0, run)
    ensures var s := After(s0, run);
            !s.a.phase.Waiting? && !s.b.phase.Waiting? ==>
              (s.Get(side).localHold == s.Get(side.Other()).remoteHold <==> LastWanted(s.log, side) != RecvOnly)
  {
    HoldRefinesSimpleCall(s0, run);
    FlagsFollowLog(Abstract(s0), After(s0, run).log, side);
  }

  /* ---- Concrete runs ---- */

  /** Nothing is under way at either end. */
  predicate Quiescent(s: State) {
    s.a.phase.Idle? && s.b.phase.Idle? && s.a.wire.Quiet? && s.b.wire.Quiet? && !s.a.ended && !s.b.ended
  }

  function ExchangeRun(first: Event): seq<Event> {
    [first, Deliver(first.side), Complete(first.side)]
  }

  lemma {:induction false} AfterConcat(s: State, run: seq<Event>, more: seq<Event>)
    requires ValidRun(s, run) && ValidRun(After(s, run), more)
    ensures ValidRun(s, run + more) && After(s, run + more) == After(After(s, run), more)
    decreases |run|
  {
    if run == [] {
      assert run + more == more;
    } else {
      AfterConcat(Next(s, run[0]), run[1..], more);
      assert (run + more)[0] == run[0] && (run + more)[1..] == run[1..] + more;
    }
  }

  /**
   * Whatever addresses and codecs the two ends started from, an accepted re-INVITE leaves them in agreement on the
   * answering end's codec: each sends to the address that the other one now names, and the audio starts anew exactly
   * when the codec changed.
   */
  lemma ExchangeAgrees(p: Party, q: Party, want: Direction)
    requires q.phase.Idle? && q.media.codec.Some? && q.media.dtmf >= 0
    requires var name := q.media.codec.value.name;
             Named(p.media.codecs, name).Some? && Named(q.media.codecs, name).Some?
    ensures var sent := Offering(p, want, 0, false);
            var (q1, response) := OnReInvite(q, sent.wire.offer);
            var m, n := OnFinal(sent.(wire := response)).media, q1.media;
            && Agree(m, n) && m.dir == want && m.codec == n.codec == q.media.codec && n.dtmf == q.media.dtmf
            && !m.latched && !n.latched && m.version == p.media.version + 1 && n.version == q.media.version + 1
            && n.pos == q.media.pos
            && m.pos == if p.media.codec.None? || p.media.codec.value.name != q.media.codec.value.name then 0
                        else p.media.pos
  {
    ChooseOnly(p.media.codecs, q.media.codec.value);
    ReverseMirrors(want);
  }

  lemma ExchangeBegins(s: State, first: Event, want: Direction)
    requires Quiescent(s) && s.a.media.codec.Some? && s.b.media.codec.Some?
    requires first == Begin(first.side, want) || (first.Refresh? && want == s.Get(first.side).media.dir)
    ensures Enabled(s, first)
    ensures var side, t := first.side, Next(s, first);
            && t.Get(side).phase.Waiting? && t.Get(side).phase.want == want && t.Get(side).wire.Request?
            && !t.Get(side).ended && t.Get(side.Other()) == s.Get(side.Other())
  {}

  lemma ExchangeDelivered(s: State, side: Side)
    requires s.Get(side).phase.Waiting? && s.Get(side).wire.Request? && !s.Get(side).ended
    requires var q := s.Get(side.Other()); q.phase.Idle? && q.wire.Quiet? && !q.ended && q.media.codec.Some?
    ensures Enabled(s, Deliver(side)) && Accepts(s, Deliver(side))
    ensures var t := Next(s, Deliver(side));
            var p, q := t.Get(side), t.Get(side.Other());
            && p.phase.Waiting? && p.wire.Final? && IsSuccess(p.wire.code) && !p.ended
            && q.phase.Idle? && q.wire.Quiet? && !q.ended
  {}

  lemma ExchangeCompleted(s: State, side: Side)
    requires var p, q := s.Get(side), s.Get(side.Other());
             && p.phase.Waiting? && p.wire.Final? && IsSuccess(p.wire.code) && !p.ended
             && q.phase.Idle? && q.wire.Quiet? && !q.ended
    ensures Enabled(s, Complete(side)) && Quiescent(Next(s, Complete(side)))
  {}

  /** A re-INVITE that meets no other takes three steps. */
  lemma OneExchange(s: State, first: Event, want: Direction, c: Codec, dtmf: int)
    requires Inv(s, c, dtmf) && Quiescent(s)
    requires first == Begin(first.side, want) || (first.Refresh? && want == s.Get(first.side).media.dir)
    ensures ValidRun(s, ExchangeRun(first))
    ensures var t := After(s, ExchangeRun(first));
            && Inv(t, c, dtmf) && Quiescent(t) && t.log == s.log + [Exchange(first.side, want)]
            && Abstract(t) == Exchanged(Abstract(s), Exchange(first.side, want))
  {
    var side := first.side;
    ExchangeBegins(s, first, want);
    var s1 := Next(s, first);
    ExchangeDelivered(s1, side);
    var s2 := Next(s1, Deliver(side));
    ExchangeCompleted(s2, side);
    var s3 := Next(s2, Complete(side));
    hide Inv, Next, Abstract, Exchanged, Quiescent, Enabled, Accepts;
    StepRefines(s, first, c, dtmf);
    StepRefines(s1, Deliver(side), c, dtmf);
    StepRefines(s2, Complete(side), c, dtmf);
    ThreeSteps(s, first, Deliver(side), Complete(side));
    assert !Accepts(s, first) && !Accepts(s2, Complete(side)) by { OnlyDeliveries(s, first, s2, side); }
  }

  lemma OnlyDeliveries(s: State, first: Event, s2: State, side: Side)
    requires !first.Deliver?
    ensures !Accepts(s, first) && !Accepts(s2, Complete(side))
  {}

  lemma Preceded(s: State, e: Event, rest: seq<Event>)
    requires Enabled(s, e) && ValidRun(Next(s, e), rest)
    ensures ValidRun(s, [e] + rest) && After(s, [e] + rest) == After(Next(s, e), rest)
  {
    hide Next, Enabled;
    assert ([e] + rest)[1..] == rest;
  }

  lemma ThreeSteps(s: State, e: Event, f: Event, g: Event)
    requires Enabled(s, e) && Enabled(Next(s, e), f) && Enabled(Next(Next(s, e), f), g)
    ensures ValidRun(s, [e, f, g]) && After(s, [e, f, g]) == Next(Next(Next(s, e), f), g)
  {
    hide Next, Enabled;
    Preceded(Next(Next(s, e), f), g, []);
    assert [g] + [] == [g];
    Preceded(Next(s, e), f, [g]);
    Preceded(s, e, [f, g]);
    assert [f] + [g] == [f, g] && [e] + [f, g] == [e, f, g];
  }

  /** Two exchanges one after the other, from call setup on. */
  lemma TwoExchanges(s0: State, first: Event, want: Direction, second: Event, want2: Direction)
    requires Fresh(s0) && !s0.a.ended && !s0.b.ended
    requires first == Begin(first.side, want)
    requires second == Begin(second.side, want2)
             || (second.Refresh? && second.side != first.side && want2 == want.Reverse())
    ensures var run := ExchangeRun(first) + ExchangeRun(second);
            && ValidRun(s0, run) && Quiescent(After(s0, run))
            && Abstract(After(s0, run))
               == Exchanged(Exchanged(Abstract(s0), Exchange(first.side, want)), Exchange(second.side, want2))
  {
    var c, dtmf := s0.a.media.codec.value, s0.a.media.dtmf;
    FreshOk(s0);
    hide Inv, Fresh, ValidRun, After, Exchanged, Settled;
    OneExchange(s0, first, want, c, dtmf);
    var s := After(s0, ExchangeRun(first));
    PeerMirrors(s0, s, first.side, want);
    OneExchange(s, second, want2, c, dtmf);
    AfterConcat(s0, ExchangeRun(first), ExchangeRun(second));
  }

  lemma FreshOk(s0: State)
    requires Fresh(s0)
    ensures Inv(s0, s0.a.media.codec.value, s0.a.media.dtmf)
  {}

  lemma PeerMirrors(s0: State, s: State, side: Side, want: Direction)
    requires Quiescent(s) && Abstract(s) == Exchanged(Abstract(s0), Exchange(side, want))
    ensures s.Get(side.Other()).media.dir == want.Reverse() && s.Get(side).media.dir == want
  {}

  /** Hold by one end and then by the other: the first still reports OnHold although it receives again. */
  lemma SecondHoldOverridesFirst(s0: State)
    requires Fresh(s0) && !s0.a.ended && !s0.b.ended
    ensures var run := ExchangeRun(Begin(A, SendOnly)) + ExchangeRun(Begin(B, SendOnly));
            ValidRun(s0, run)
            && var s := After(s0, run);
               Quiescent(s) && s.a.localHold && s.a.media.dir == RecvOnly && s.b.media.dir == SendOnly
  {
    hide Fresh, ValidRun, After;
    TwoExchanges(s0, Begin(A, SendOnly), SendOnly, Begin(B, SendOnly), SendOnly);
  }

  /** Hold by one end, then a session refresh by the held end: it now reports OnHold, and the holder sees no hold. */
  lemma RefreshOfHeldEndSetsItsFlag(s0: State)
    requires Fresh(s0) && !s0.a.ended && !s0.b.ended
    ensures var run := ExchangeRun(Begin(A, SendOnly)) + ExchangeRun(Refresh(B));
            ValidRun(s0, run)
            && var s := After(s0, run);
               Quiescent(s) && s.a.media.dir == SendOnly && s.b.media.dir == RecvOnly && s.b.localHold
               && !s.a.remoteHold
  {
    FreshFlags(s0);
    hide Fresh, ValidRun, After;
    TwoExchanges(s0, Begin(A, SendOnly), SendOnly, Refresh(B), RecvOnly);
  }

  lemma FreshFlags(s0: State)
    requires Fresh(s0)
    ensures !Abstract(s0).a.remoteHold
  {}

  /** What an end that reports OnHold hears, by the last exchange. */
  lemma DeafInReplay(c: Call, log: seq<Exchange>, side: Side)
    requires !c.Get(side).localHold && !c.Get(side.Other()).remoteHold && Replay(c, log).Get(side).localHold
    ensures log != []
    ensures var last := log[|log| - 1];
            Replay(c, log).Get(side).dir.Receives() <==>
              if last.side == side then last.want == RecvOnly else last.want.Sends()
  {
    FlagsFollowLog(c, log, side);
    if log != [] {
      ReverseMirrors(log[|log| - 1].want);
    }
  }

  /**
   * An end that reports OnHold while nothing is outstanding still hears the peer exactly when it had the last word
   * itself and offered recvonly, as a session refresh of a held end does, or the peer had it and offered to send.
   * With Hold and Unhold only that is: when the peer had the last word.
   */
  lemma OnHoldIsDeafUnlessOverridden(s0: State, run: seq<Event>, side: Side)
    requires Fresh(s0) && ValidRun(s0, run)
    ensures var s := After(s0, run);
            !s.a.phase.Waiting? && !s.b.phase.Waiting? && s.Get(side).localHold ==>
              && s.log != []
              && var last := s.log[|s.log| - 1];
                 && (s.Get(side).media.dir.Receives() <==>
                       if last.side == side then last.want == RecvOnly else last.want.Sends())
                 && ((forall x :: x in s.log ==> x.want == SendOnly || x.want == SendRecv) ==>
                       (s.Get(side).media.dir.Receives() <==> last.side != side))
  {
    HoldRefinesSimpleCall(s0, run);
    var s := After(s0, run);
    if !s.a.phase.Waiting? && !s.b.phase.Waiting? && s.Get(side).localHold {
      hide Replay;
      DeafInReplay(Abstract(s0), s.log, side);
      assert s.log[|s.log| - 1] in s.log;
      LastWantedIsOffered(s.log, side);
    }
  }

  lemma {:induction false} LastWantedIsOffered(log: seq<Exchange>, side: Side)
    ensures LastWanted(log, side) == SendRecv || exists x :: x in log && x.want == LastWanted(log, side)
  {
    if log != [] && log[|log| - 1].side != side {
      LastWantedIsOffered(log[..|log| - 1], side);
    }
  }
}
