/**
 The byte layouts of src/fec/rtp_fec.cpp: the RTP header (section 5.1 of
 RFC 3550, with the extension of section 5.3.1), the length-prefixed source
 symbol, and the private repair packet.
 */
module RtpWire {
  import opened Common
  import opened GF256
  import opened RsKernels
  import opened LinearSystem
  import opened RsCode

  type Packet = seq<byte>

  const REPAIR_PAYLOAD_TYPE: byte := 122
  const MAX_MEDIA_PACKET := 1148
  const MAX_WIRE_PACKET := 1184
  const MAX_SOURCES := 16
  const MAX_REPAIRS := 4
  const FEC_HEADER_SIZE := 16

  function Read16(p: Packet, i: nat): (v: nat)
    requires i + 2 <= |p|
    ensures v < 0x1_0000
  {
    p[i] as int * 256 + p[i + 1] as int
  }

  function Read32(p: Packet, i: nat): (v: nat)
    requires i + 4 <= |p|
    ensures v < 0x1_0000_0000
  {
    0x1_0000 * Read16(p, i) + Read16(p, i + 2)
  }

  /** The two low bytes of `v`, high byte first. */
  function Write16(v: nat): (s: seq<byte>)
    ensures |s| == 2
  {
    [v / 256 % 256, v % 256]
  }

  function Write32(v: nat): (s: seq<byte>)
    ensures |s| == 4
  {
    Write16(v / 0x1_0000) + Write16(v % 0x1_0000)
  }

  lemma Split16(v: nat)
    ensures (v / 256 % 256) * 256 + v % 256 == v % 0x1_0000
  {
    assert v / 256 == 256 * (v / 256 / 256) + v / 256 % 256;
    assert v / 256 / 256 == v / 0x1_0000;
  }

  lemma Read16Back(v: nat)
    ensures Read16(Write16(v), 0) == v % 0x1_0000
  {
    Split16(v);
  }

  lemma Read32Back(v: nat)
    requires v < 0x1_0000_0000
    ensures Read32(Write32(v), 0) == v
  {
    var hi, lo := v / 0x1_0000, v % 0x1_0000;
    var w := Write32(v);
    Split16(hi);
    Split16(lo);
    assert w[0] == hi / 256 % 256 && w[1] == hi % 256 && w[2] == lo / 256 % 256 && w[3] == lo % 256;
  }

  lemma Read16Slice(p: Packet, i: nat, q: Packet, j: nat)
    requires i + 2 <= |p| && j + 2 <= |q| && p[i..i + 2] == q[j..j + 2]
    ensures Read16(p, i) == Read16(q, j)
  {
    assert p[i] == p[i..i + 2][0] && p[i + 1] == p[i..i + 2][1];
    assert q[j] == q[j..j + 2][0] && q[j + 1] == q[j..j + 2][1];
  }

  lemma Read32Slice(p: Packet, i: nat, q: Packet, j: nat)
    requires i + 4 <= |p| && j + 4 <= |q| && p[i..i + 4] == q[j..j + 4]
    ensures Read32(p, i) == Read32(q, j)
  {
    assert p[i..i + 4][0..2] == p[i..i + 2] && p[i..i + 4][2..4] == p[i + 2..i + 4];
    assert q[j..j + 4][0..2] == q[j..j + 2] && q[j..j + 4][2..4] == q[j + 2..j + 4];
    Read16Slice(p, i, q, j);
    Read16Slice(p, i + 2, q, j + 2);
  }

  /** The length of the RTP header, or zero when the packet is not one the codec accepts. */
  function HeaderSize(p: Packet): (h: nat)
    ensures h != 0 ==> 12 <= h < |p|
  {
    if |p| < 12 || p[0] / 64 != 2 || p[0] / 32 % 2 == 1 then 0
    else
      var header := 12 + 4 * (p[0] as int % 16);
      if header > |p| then 0
      else if p[0] / 16 % 2 == 0 then (if header < |p| then header else 0)
      else if |p| - header < 4 then 0
      else
        var longer := header + 4 + 4 * Read16(p, header + 2);
        if longer < |p| then longer else 0
  }

  /** The header length depends on the header bytes and on there being a payload. */
  lemma HeaderSizeLocal(p: Packet, q: Packet)
    requires HeaderSize(p) != 0 && |q| > HeaderSize(p)
    requires q[0] == p[0] && q[12..HeaderSize(p)] == p[12..HeaderSize(p)]
    ensures HeaderSize(q) == HeaderSize(p)
  {
    var h := HeaderSize(p);
    var short := 12 + 4 * (p[0] as int % 16);
    if p[0] / 16 % 2 == 1 {
      assert p[short + 2] == p[12..h][short - 10] && p[short + 3] == p[12..h][short - 9];
      assert q[short + 2] == q[12..h][short - 10] && q[short + 3] == q[12..h][short - 9];
    }
  }

  // ----- What an RTP packet is made of -----

  /** The extension of section 5.3.1 of RFC 3550: a profile word and whole 32-bit words. */
  datatype Extension = Extension(profile: seq<byte>, words: seq<byte>)

  /** The fixed header, the contributing sources, the extension if any, and the payload. */
  datatype Parts = Parts(fixed: seq<byte>, sources: seq<byte>, extension: Option<Extension>, payload: seq<byte>)
  {
    /** Version two, no padding, the counts and flags true to the parts, and a payload. */
    predicate Valid() {
      && |fixed| == 12 && fixed[0] / 64 == 2 && fixed[0] / 32 % 2 == 0
      && |sources| == 4 * (fixed[0] as int % 16)
      && (fixed[0] / 16 % 2 == 1 <==> extension.Some?)
      && (extension.Some? ==> |extension.value.profile| == 2 && |extension.value.words| % 4 == 0 && |extension.value.words| / 4 < 0x1_0000)
      && payload != []
    }

    function Header(): seq<byte> {
      fixed + sources
      + match extension
        case None => []
        case Some(x) => x.profile + Write16(|x.words| / 4) + x.words
    }

    function Assembled(): Packet {
      Header() + payload
    }
  }

  /** A packet put together from valid parts has just their header. */
  lemma HeaderOfAssembled(m: Parts)
    requires m.Valid()
    ensures HeaderSize(m.Assembled()) == |m.Header()|
  {
    var p := m.Assembled();
    assert p[0] == m.fixed[0];
    if m.extension.Some? {
      var x, at := m.extension.value, 12 + |m.sources|;
      var n := Write16(|x.words| / 4);
      assert p == (m.fixed + m.sources + x.profile) + n + (x.words + m.payload);
      assert p[at + 2] == n[0] && p[at + 3] == n[1];
      Split16(|x.words| / 4);
      assert Read16(p, at + 2) == |x.words| / 4;
    }
  }

  /** And every packet with a header is put together from valid parts, whose header is of that length. */
  lemma Disassembled(p: Packet) returns (m: Parts)
    requires HeaderSize(p) != 0
    ensures m.Valid() && m.Assembled() == p && |m.Header()| == HeaderSize(p)
  {
    hide Read16;
    hide Write16;
    var h, at := HeaderSize(p), 12 + 4 * (p[0] as int % 16);
    if p[0] / 16 % 2 == 0 {
      m := Parts(p[..12], p[12..at], None, p[h..]);
      assert p == p[..12] + p[12..at] + p[h..];
    } else {
      m := Parts(p[..12], p[12..at], Some(Extension(p[at..at + 2], p[at + 4..h])), p[h..]);
      Reassembled(p, at, h);
    }
  }

  lemma Reassembled(p: Packet, at: nat, h: nat)
    requires 12 <= at && at + 4 <= h <= |p| && h == at + 4 + 4 * Read16(p, at + 2)
    ensures |p[at + 4..h]| == 4 * Read16(p, at + 2)
    ensures Parts(p[..12], p[12..at], Some(Extension(p[at..at + 2], p[at + 4..h])), p[h..]).Assembled() == p
  {
    hide Write16;
    hide Read16;
    Bytes16(p, at + 2);
    assert p == p[..12] + p[12..at] + (p[at..at + 2] + p[at + 2..at + 4] + p[at + 4..h]) + p[h..];
  }

  lemma Bytes16(p: Packet, i: nat)
    requires i + 2 <= |p|
    ensures Write16(Read16(p, i)) == p[i..i + 2]
  {
    var v := Read16(p, i);
    assert v / 256 == p[i] as int && v % 256 == p[i + 1] as int;
  }

  function Sequence(p: Packet): nat
    requires |p| >= 12
  {
    Read16(p, 2)
  }

  function Timestamp(p: Packet): nat
    requires |p| >= 12
  {
    Read32(p, 4)
  }

  function Ssrc(p: Packet): nat
    requires |p| >= 12
  {
    Read32(p, 8)
  }

  function PayloadType(p: Packet): nat
    requires |p| >= 12
  {
    p[1] % 128
  }

  predicate Marker(p: Packet)
    requires |p| >= 12
  {
    p[1] >= 128
  }

  // ----- Source symbols -----

  /** A packet as a source symbol: its length, its bytes, then zeros. */
  function Pad(p: Packet, size: nat): (s: seq<byte>)
    requires |p| + 2 <= size
    ensures |s| == size
  {
    Write16(|p|) + p + Zeros(size - 2 - |p|)
  }

  /** The length a symbol claims, and the bytes it holds. */
  function Claimed(s: seq<byte>): nat
    requires |s| >= 2
  {
    Read16(s, 0)
  }

  function Unpad(s: seq<byte>): (p: Packet)
    requires |s| >= 2 && Claimed(s) + 2 <= |s|
    ensures |p| == Claimed(s)
  {
    s[2..2 + Claimed(s)]
  }

  lemma UnpadPad(p: Packet, size: nat)
    requires |p| + 2 <= size && |p| < 0x1_0000
    ensures Claimed(Pad(p, size)) == |p| && Unpad(Pad(p, size)) == p
  {
    Read16Back(|p|);
    assert Pad(p, size)[0..2] == Write16(|p|)[0..2];
    Read16Slice(Pad(p, size), 0, Write16(|p|), 0);
  }

  // ----- Repair packets -----

  /** The 16 bytes before a repair symbol. */
  function RepairHeader(k: byte, r: byte, id: byte, size: nat, ssrc: nat, base: nat): (h: seq<byte>)
    ensures |h| == FEC_HEADER_SIZE
  {
    [77, 70, 1, k, r, id] + Write16(size) + Write32(ssrc) + Write16(base) + [0, 0]
  }

  /** A repair packet: the header of the last source, repair numbering, repair symbol. */
  function RepairPacket(last: Packet, repairSsrc: nat, h: seq<byte>, data: seq<byte>): (p: Packet)
    requires HeaderSize(last) != 0 && |h| == FEC_HEADER_SIZE
    ensures |p| == HeaderSize(last) + FEC_HEADER_SIZE + |data|
  {
    [last[0], REPAIR_PAYLOAD_TYPE, 0, 0] + last[4..8] + Write32(repairSsrc) + last[12..HeaderSize(last)] + h + data
  }

  /** Parsing a repair packet gives back what it was built from. */
  lemma RepairPacketParses(last: Packet, repairSsrc: nat, h: seq<byte>, data: seq<byte>)
    requires HeaderSize(last) != 0 && |h| == FEC_HEADER_SIZE && repairSsrc < 0x1_0000_0000
    ensures var p := RepairPacket(last, repairSsrc, h, data);
      && HeaderSize(p) == HeaderSize(last)
      && PayloadType(p) == REPAIR_PAYLOAD_TYPE && Ssrc(p) == repairSsrc && Timestamp(p) == Timestamp(last)
      && p[HeaderSize(p)..HeaderSize(p) + FEC_HEADER_SIZE] == h
      && p[HeaderSize(p) + FEC_HEADER_SIZE..] == data
  {
    hide Write16;
    hide Write32;
    hide Read16;
    hide Read32;
    var p, n := RepairPacket(last, repairSsrc, h, data), HeaderSize(last);
    assert p[12..n] == last[12..n];
    assert p[0] == last[0];
    HeaderSizeLocal(last, p);
    Read32Slice(p, 4, last, 4);
    assert p[8..12] == Write32(repairSsrc)[0..4];
    Read32Slice(p, 8, Write32(repairSsrc), 0);
    Read32Back(repairSsrc);
  }

  lemma RepairHeaderParses(k: byte, r: byte, id: byte, size: nat, ssrc: nat, base: nat)
    requires size < 0x1_0000 && ssrc < 0x1_0000_0000 && base < 0x1_0000
    ensures var h := RepairHeader(k, r, id, size, ssrc, base);
      && h[..6] == [77, 70, 1, k, r, id] && h[14] == 0 && h[15] == 0
      && Read16(h, 6) == size && Read32(h, 8) == ssrc && Read16(h, 12) == base
  {
    hide Write16;
    hide Write32;
    hide Read16;
    hide Read32;
    var h := RepairHeader(k, r, id, size, ssrc, base);
    Read16Back(size);
    Read32Back(ssrc);
    Read16Back(base);
    assert h[6..8] == Write16(size)[0..2];
    Read16Slice(h, 6, Write16(size), 0);
    assert h[8..12] == Write32(ssrc)[0..4];
    Read32Slice(h, 8, Write32(ssrc), 0);
    assert h[12..14] == Write16(base)[0..2];
    Read16Slice(h, 12, Write16(base), 0);
  }
}
