/** RTP packets as bytes: the header the sender writes and the one the receiver reads (media/stream.go). */
module RtpPacket {
  import opened Options

  type byte = x: int | 0 <= x < 256

  const WORD := 0x1_0000_0000
  const FRAME_SAMPLES := 160

  /** What the receiver takes out of a packet. */
  datatype Parsed = Parsed(pt: nat, seqNo: nat, ts: nat, ssrc: nat, payload: seq<byte>)

  function U16(x: nat): (b: seq<byte>)
    requires x < 0x1_0000
    ensures |b| == 2
  {
    [x / 256, x % 256]
  }

  function U32(x: nat): (b: seq<byte>)
    requires x < WORD
    ensures |b| == 4
  {
    U16(x / 0x1_0000) + U16(x % 0x1_0000)
  }

  function ReadU16(b: seq<byte>, at: nat): (x: nat)
    requires at + 2 <= |b|
    ensures x < 0x1_0000
  {
    var high: nat := b[at];
    high * 256 + b[at + 1]
  }

  function ReadU32(b: seq<byte>, at: nat): (x: nat)
    requires at + 4 <= |b|
    ensures x < WORD
  {
    ReadU16(b, at) * 0x1_0000 + ReadU16(b, at + 2)
  }

  /** Version 2, no padding, no extension, no CSRC. */
  function Header(pt: nat, marker: bool, seqNo: nat, ts: nat, ssrc: nat): (b: seq<byte>)
    requires seqNo < 0x1_0000 && ts < WORD && ssrc < WORD
    ensures |b| == 12
  {
    [0x80, pt % 128 + if marker then 0x80 else 0] + U16(seqNo) + U32(ts) + U32(ssrc)
  }

  predicate IsExtended(first: byte) { first / 16 % 2 == 1 }

  predicate IsPadded(first: byte) { first / 32 % 2 == 1 }

  /** How many contributing sources the first byte counts. */
  function Sources(first: byte): (n: nat)
    ensures n < 16
  {
    first % 16
  }

  /** receive up to the switch on the payload type; None is a packet that is ignored. */
  function Parse(b: seq<byte>): (r: Option<Parsed>)
    ensures r.Some? ==> r.value.seqNo < 0x1_0000
  {
    if |b| < 12 || b[0] / 64 != 2 then None
    else
      var pt := b[1] % 128;
      if 72 <= pt <= 76 then None   // RTCP
      else
        var hl := 12 + 4 * Sources(b[0]);
        var extension := IsExtended(b[0]);
        if extension && |b| < hl + 4 then None
        else
          var start := if extension then hl + 4 + 4 * ReadU16(b, hl + 2) else hl;
          var end := if IsPadded(b[0]) then |b| - b[|b| - 1] else |b|;
          if start > end then None
          else Some(Parsed(pt, ReadU16(b, 2), ReadU32(b, 4), ReadU32(b, 8), b[start..end]))
  }

  /** A packet of ours is read back as it was written, unless its payload type makes it look like RTCP. */
  lemma ParseOwn(pt: nat, marker: bool, seqNo: nat, ts: nat, ssrc: nat, payload: seq<byte>)
    requires pt < 128 && seqNo < 0x1_0000 && ts < WORD && ssrc < WORD
    ensures Parse(Header(pt, marker, seqNo, ts, ssrc) + payload)
            == if 72 <= pt <= 76 then None else Some(Parsed(pt, seqNo, ts, ssrc, payload))
  {
    var b := Header(pt, marker, seqNo, ts, ssrc) + payload;
    assert b[2..4] == U16(seqNo) && b[4..6] == U16(ts / 0x1_0000) && b[6..8] == U16(ts % 0x1_0000);
    assert b[8..10] == U16(ssrc / 0x1_0000) && b[10..12] == U16(ssrc % 0x1_0000);
    ReadBack(b, 2, seqNo);
    ReadBack(b, 4, ts / 0x1_0000);
    ReadBack(b, 6, ts % 0x1_0000);
    ReadBack(b, 8, ssrc / 0x1_0000);
    ReadBack(b, 10, ssrc % 0x1_0000);
    assert b[12..|b|] == payload;
    assert b[0] == 0x80 && b[1] % 128 == pt;
    assert ReadU32(b, 4) == ts && ReadU32(b, 8) == ssrc;
  }

  lemma ReadBack(b: seq<byte>, at: nat, x: nat)
    requires at + 2 <= |b| && x < 0x1_0000 && b[at..at + 2] == U16(x)
    ensures ReadU16(b, at) == x
  {
    assert b[at] == b[at..at + 2][0] && b[at + 1] == b[at..at + 2][1];
  }

  /* ---- Packets of other senders ---- */

  /** The parts of a packet: contributing sources, extension and padding lie around the payload. */
  datatype Parts = Parts(header: seq<byte>, csrcs: seq<byte>, ext: seq<byte>, payload: seq<byte>, padding: seq<byte>) {
    function Bytes(): seq<byte> { header + csrcs + ext + payload + padding }

    /**
     * Version 2 and no RTCP; as many contributing sources as the header counts; an extension exactly if it is
     * announced, as long as its own header says; and if padding is announced, as much as the last byte counts.
     */
    predicate WellFormed() {
      && |header| == 12 && header[0] / 64 == 2 && !(72 <= header[1] % 128 <= 76)
      && |csrcs| == 4 * Sources(header[0])
      && (if IsExtended(header[0]) then |ext| >= 4 && |ext| == 4 + 4 * ReadU16(ext, 2) else ext == [])
      && |padding| == if IsPadded(header[0]) then Bytes()[|Bytes()| - 1] else 0
    }
  }

  /** The payload of a well-formed packet is what lies between the other parts. */
  lemma ParseParts(p: Parts)
    requires p.WellFormed()
    ensures Parse(p.Bytes()) == Some(Parsed(p.header[1] % 128, ReadU16(p.header, 2), ReadU32(p.header, 4),
                                            ReadU32(p.header, 8), p.payload))
  {
    var b, h := p.Bytes(), p.header;
    var hl := 12 + |p.csrcs|;
    var start, end := hl + |p.ext|, |b| - |p.padding|;
    assert b[0] == h[0] && b[1] == h[1] && b[2..12] == h[2..12];
    HeaderRead(h, b);
    assert b[start..end] == p.payload;
    if IsExtended(h[0]) {
      assert b[hl + 2] == p.ext[2] && b[hl + 3] == p.ext[3];
      assert ReadU16(b, hl + 2) == ReadU16(p.ext, 2);
    }
    hide ReadU16, ReadU32, IsExtended, IsPadded, Sources;
  }

  /** Where the parts of b end. */
  predicate EndsAt(b: seq<byte>, csrcs: nat, ext: nat, payload: nat) {
    && |b| >= 12 && b[0] / 64 == 2 && !(72 <= b[1] % 128 <= 76)
    && csrcs == 12 + 4 * Sources(b[0]) && csrcs <= ext <= payload <= |b|
    && (if IsExtended(b[0]) then ext >= csrcs + 4 && ext == csrcs + 4 + 4 * ReadU16(b, csrcs + 2) else ext == csrcs)
    && payload == if IsPadded(b[0]) then |b| - b[|b| - 1] else |b|
  }

  lemma Ends(b: seq<byte>) returns (csrcs: nat, ext: nat, payload: nat)
    requires Parse(b).Some?
    ensures EndsAt(b, csrcs, ext, payload)
  {
    hide ReadU16, ReadU32, IsExtended, IsPadded, Sources;
    csrcs := 12 + 4 * Sources(b[0]);
    ext := if IsExtended(b[0]) then csrcs + 4 + 4 * ReadU16(b, csrcs + 2) else csrcs;
    payload := if IsPadded(b[0]) then |b| - b[|b| - 1] else |b|;
  }

  /** Nothing but well-formed packets is read. */
  lemma PartsOf(b: seq<byte>) returns (p: Parts)
    requires Parse(b).Some?
    ensures p.WellFormed() && p.Bytes() == b
  {
    hide Parse, ReadU16, IsExtended, IsPadded, Sources, Parts.Bytes;
    var csrcs, ext, payload := Ends(b);
    p := CutAt(b, csrcs, ext, payload);
    if IsExtended(b[0]) {
      ReadPart(b, csrcs, ext, 2);
    }
  }

  lemma CutAt(b: seq<byte>, x: nat, y: nat, z: nat) returns (p: Parts)
    requires 12 <= x <= y <= z <= |b|
    ensures p == Parts(b[..12], b[12..x], b[x..y], b[y..z], b[z..]) && p.Bytes() == b
  {
    p := Parts(b[..12], b[12..x], b[x..y], b[y..z], b[z..]);
    assert p.Bytes() == b;
  }

  lemma ReadPart(b: seq<byte>, x: nat, y: nat, at: nat)
    requires x + at + 2 <= y <= |b|
    ensures ReadU16(b[x..y], at) == ReadU16(b, x + at)
  {
    assert b[x..y][at] == b[x + at] && b[x..y][at + 1] == b[x + at + 1];
  }

  /** A packet is read exactly if it is well-formed; everything else is ignored. */
  lemma ReadExactlyIfWellFormed(b: seq<byte>)
    ensures Parse(b).Some? <==> exists p: Parts :: p.WellFormed() && p.Bytes() == b
  {
    hide Parse;
    if Parse(b).Some? {
      var p := PartsOf(b);
    }
    forall p: Parts | p.WellFormed() && p.Bytes() == b
      ensures Parse(b).Some?
    {
      ParseParts(p);
    }
  }

  lemma HeaderRead(h: seq<byte>, b: seq<byte>)
    requires |h| == 12 <= |b| && b[2..12] == h[2..12]
    ensures ReadU16(b, 2) == ReadU16(h, 2) && ReadU32(b, 4) == ReadU32(h, 4) && ReadU32(b, 8) == ReadU32(h, 8)
  {
    forall i | 2 <= i < 12
      ensures b[i] == h[i]
    {
      assert b[2..12][i - 2] == h[2..12][i - 2];
    }
  }
}
