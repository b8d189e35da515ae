/**
 * Directions, codecs and the choice between them (media/sdp.go), and the negotiated side of a stream
 * (media/stream.go).
 */
module Sdp {
  import opened Options

  datatype Direction = SendRecv | SendOnly | RecvOnly | Inactive {
    /** What the other end of the stream does. */
    function Reverse(): Direction {
      match this
      case SendOnly => RecvOnly
      case RecvOnly => SendOnly
      case _ => this
    }

    predicate Sends() { SendRecv? || SendOnly? }

    predicate Receives() { SendRecv? || RecvOnly? }
  }

  datatype Codec = Codec(name: string, pt: nat)

  type Address = nat

  /**
   * An audio description as ParseSDP reads it back from what buildSDP printed; dtmf is -1 without telephone-event,
   * addr is None for no address or the unspecified one.
   */
  datatype Description = Description(codecs: seq<Codec>, dtmf: int, dir: Direction, addr: Option<Address>)

  const DEFAULT_DTMF_PT := 101

  /** The first codec of list with this name. */
  function Named(list: seq<Codec>, name: string): (r: Option<Codec>)
    ensures r.Some? ==> r.value in list && r.value.name == name
    ensures r.None? ==> forall c :: c in list ==> c.name != name
  {
    if list == [] then None
    else if list[0].name == name then Some(list[0])
    else Named(list[1..], name)
  }

  /** Walk `order`; the first name that `other` also has decides. The result is the entry of the peer's list. */
  function FirstCommon(order: seq<Codec>, other: seq<Codec>, peerIsOther: bool): (r: Option<Codec>)
    ensures r.Some? ==> r.value in (if peerIsOther then other else order)
    ensures r.Some? ==> Named(order, r.value.name).Some? && Named(other, r.value.name).Some?
    ensures r.None? ==> forall c :: c in order ==> Named(other, c.name).None?
  {
    if order == [] then None
    else
      var entry := Named(other, order[0].name);
      if entry.Some? then Some(if peerIsOther then entry.value else order[0])
      else FirstCommon(order[1..], other, peerIsOther)
  }

  /** Our preference decides when we answer, the peer's order when we offered. */
  function Choose(ours: seq<Codec>, remote: seq<Codec>, answering: bool): Option<Codec> {
    if answering then FirstCommon(ours, remote, true) else FirstCommon(remote, ours, false)
  }

  /**
   * The negotiated side of a stream, as a value: our address and the one we send to, whether that was taken over from
   * the packets received, and the position in the looped audio.
   */
  datatype Media = Media(codecs: seq<Codec>, codec: Option<Codec>, dtmf: int, dir: Direction, version: nat,
                         own: Address, remote: Option<Address>, latched: bool, pos: nat) {

    function Offered(d: Direction): (Media, Description) {
      (this.(dir := d, version := version + 1), Description(codecs, DEFAULT_DTMF_PT, d, Some(own)))
    }

    function Reaching(addr: Option<Address>): Media {
      if addr.Some? then this.(remote := addr, latched := false) else this
    }

    /** Our answer with the negotiated codec; the caller has just set the direction. */
    function Described(): (Media, Description)
      requires codec.Some?
    {
      (this.(version := version + 1), Description([codec.value], if dtmf >= 0 then dtmf else -1, dir, Some(own)))
    }

    /** Another codec starts the audio again. */
    function WithRemote(r: Description, c: Codec): Media {
      var restarts := codec.None? || codec.value.name != c.name;
      Reaching(r.addr).(codec := Some(c), dtmf := r.dtmf, pos := if restarts then 0 else pos)
    }

    /** Answer to the offer of a new call; None is "no common codec". */
    function Answered(r: Description): Option<(Media, Description)> {
      var c := Choose(codecs, r.codecs, true);
      if c.None? then None else Some(WithRemote(r, c.value).(dir := r.dir.Reverse()).Described())
    }

    /** Without a common codec an answer changes nothing. */
    function AnswerApplied(r: Description): Media {
      var c := Choose(codecs, r.codecs, false);
      if c.None? then this else WithRemote(r, c.value).(dir := r.dir.Reverse())
    }

    /** An in-dialog offer: the negotiated codec is kept. */
    function Updated(r: Description): (Media, Description)
      requires codec.Some?
    {
      Reaching(r.addr).(dir := r.dir.Reverse()).Described()
    }
  }

  /** The stream object of the source; its mutex makes every method one atomic step. */
  class Stream {
    const codecs: seq<Codec>
    const own: Address
    var codec: Option<Codec>
    var dtmf: int
    var dir: Direction
    var version: nat
    var remote: Option<Address>
    var latched: bool
    var pos: nat

    ghost function View(): Media
      reads this
    {
      Media(codecs, codec, dtmf, dir, version, own, remote, latched, pos)
    }

    constructor (codecs: seq<Codec>, own: Address)
      ensures View() == Media(codecs, None, -1, SendRecv, 0, own, None, false, 0)
    {
      this.codecs, this.own, codec, dtmf, dir, version := codecs, own, None, -1, SendRecv, 0;
      remote, latched, pos := None, false, 0;
    }

    method Offer(d: Direction) returns (sdp: Description)
      modifies this
      ensures (View(), sdp) == old(View()).Offered(d)
    {
      dir := d;
      version := version + 1;
      sdp := Description(codecs, DEFAULT_DTMF_PT, d, Some(own));
    }

    method Answer(r: Description) returns (sdp: Option<Description>)
      modifies this
      ensures match old(View()).Answered(r)
              case None => sdp == None && View() == old(View())
              case Some(res) => sdp == Some(res.1) && View() == res.0
    {
      var c := Choose(codecs, r.codecs, true);
      if c.None? {
        return None;
      }
      SetRemote(r, c.value);
      dir := r.dir.Reverse();
      var answer := Describe();
      sdp := Some(answer);
    }

    method ApplyAnswer(r: Description)
      modifies this
      ensures View() == old(View()).AnswerApplied(r)
    {
      var c := Choose(codecs, r.codecs, false);
      if c.Some? {
        SetRemote(r, c.value);
        dir := r.dir.Reverse();
      }
    }

    method Update(r: Description) returns (sdp: Description)
      requires codec.Some?
      modifies this
      ensures (View(), sdp) == old(View()).Updated(r)
    {
      if r.addr.Some? {
        remote, latched := r.addr, false;
      }
      dir := r.dir.Reverse();
      sdp := Describe();
    }

    method SetDirection(d: Direction)
      modifies this
      ensures View() == old(View()).(dir := d)
    {
      dir := d;
    }

    method SetRemote(r: Description, c: Codec)
      modifies this
      ensures View() == old(View()).WithRemote(r, c)
    {
      if r.addr.Some? {
        remote, latched := r.addr, false;
      }
      if codec.None? || codec.value.name != c.name {
        pos := 0;
      }
      codec, dtmf := Some(c), r.dtmf;
    }

    method Describe() returns (sdp: Description)
      requires codec.Some?
      modifies this
      ensures (View(), sdp) == old(View()).Described()
    {
      version := version + 1;
      sdp := Description([codec.value], if dtmf >= 0 then dtmf else -1, dir, Some(own));
    }
  }

  /** One side sends exactly when the other receives, and reversing twice changes nothing. */
  lemma ReverseMirrors(d: Direction)
    ensures d.Reverse().Reverse() == d
    ensures d.Sends() <==> d.Reverse().Receives()
    ensures d.Receives() <==> d.Reverse().Sends()
  {}

  /** A codec that an answer names alone is chosen by an offerer that has it. */
  lemma ChooseOnly(ours: seq<Codec>, c: Codec)
    requires Named(ours, c.name).Some?
    ensures Choose(ours, [c], false) == Some(c)
  {}

  /** order names a codec of `other` at i and none before it. */
  predicate FirstAt(order: seq<Codec>, other: seq<Codec>, i: nat) {
    i < |order| && Named(other, order[i].name).Some? && forall j :: 0 <= j < i ==> Named(other, order[j].name).None?
  }

  lemma {:induction false} FirstCommonIsFirst(order: seq<Codec>, other: seq<Codec>, peerIsOther: bool) returns (i: nat)
    ensures var c := FirstCommon(order, other, peerIsOther);
            c.Some? ==> FirstAt(order, other, i)
                        && c == if peerIsOther then Named(other, order[i].name) else Some(order[i])
  {
    hide Named;
    i := 0;
    if order != [] && Named(other, order[0].name).None? {
      var k := FirstCommonIsFirst(order[1..], other, peerIsOther);
      i := k + 1;
      if FirstCommon(order, other, peerIsOther).Some? {
        forall j | 0 <= j < i
          ensures Named(other, order[j].name).None?
        {
          assert j > 0 ==> order[j] == order[1..][j - 1];
        }
      }
    }
  }

  /**
   * The answerer's order decides when we answer and the peer's order when we offered; either way the payload type is
   * the peer's, and there is no choice only when no name is common.
   */
  lemma ChooseFollowsOrder(ours: seq<Codec>, remote: seq<Codec>, answering: bool) returns (i: nat)
    ensures var c := Choose(ours, remote, answering);
            var (order, other) := if answering then (ours, remote) else (remote, ours);
            && (c.Some? ==> c.value in remote && FirstAt(order, other, i) && c.value.name == order[i].name)
            && (c.None? <==> forall a, b :: a in ours && b in remote ==> a.name != b.name)
  {
    if answering {
      i := FirstCommonIsFirst(ours, remote, true);
    } else {
      i := FirstCommonIsFirst(remote, ours, false);
    }
    if Choose(ours, remote, answering).None? {
      forall a, b | a in ours && b in remote
        ensures a.name != b.name
      {
        assert Named(if answering then remote else ours, if answering then a.name else b.name).None?;
      }
    }
  }

  /** Both ends have the same codec and payload types, send to each other and have mirrored directions. */
  ghost predicate Agree(x: Media, y: Media) {
    && x.codec.Some? && x.codec == y.codec && x.dtmf == y.dtmf >= 0
    && Named(x.codecs, x.codec.value.name).Some? && Named(y.codecs, y.codec.value.name).Some?
    && x.dir == y.dir.Reverse() && x.remote == Some(y.own) && y.remote == Some(x.own)
  }

  /** The exchange that sets a call up either has no common codec at all or leaves the two ends in agreement. */
  lemma SetupAgrees(x: Media, y: Media, d: Direction)
    ensures var offer := x.Offered(d);
            match y.Answered(offer.1)
            case None => forall c, e :: c in x.codecs && e in y.codecs ==> c.name != e.name
            case Some(answer) =>
              var x1 := offer.0.AnswerApplied(answer.1);
              && Agree(x1, answer.0) && x1.dir == d && !x1.latched && !answer.0.latched
              && (x.codec.None? ==> x1.pos == 0) && (y.codec.None? ==> answer.0.pos == 0)
  {
    var (x1, offer) := x.Offered(d);
    match y.Answered(offer)
    case None =>
      forall c, e | c in x.codecs && e in y.codecs
        ensures c.name != e.name
      {
        assert Named(x.codecs, e.name).None?;
      }
    case Some(answer) =>
      ChooseOnly(x.codecs, answer.0.codec.value);
      ReverseMirrors(d);
  }
}
