/**
 What a sender has put on the wire: the media packets it was given and the
 repair blocks it cut from them.  Both ends of the link are stated against it.
 */
module FecTranscript {
  import opened Common
  import opened GF256
  import opened LinearSystem
  import opened RsCode
  import opened FecCodec
  import opened RtpWire

  /** The repair matrices the two ends share, by source and repair count. */
  type Matrices = (nat, nat) -> Matrix

  ghost predicate Shared(matrix: Matrices) {
    forall k: nat, r: nat :: SupportsSmallRs(k, r) ==> Rectangle(matrix(k, r), r, k)
  }

  /** The symbol size of a block: the longest packet and its length field. */
  function BlockSize(packets: seq<Packet>): (size: nat)
    ensures forall i :: 0 <= i < |packets| ==> |packets[i]| + 2 <= size
    ensures packets == [] ==> size == 0
    ensures packets != [] ==> exists i :: 0 <= i < |packets| && size == |packets[i]| + 2
  {
    if packets == [] then 0
    else
      var n := |packets| - 1;
      var rest := BlockSize(packets[..n]);
      assert forall i :: 0 <= i < n ==> packets[..n][i] == packets[i];
      if rest < |packets[n]| + 2 then |packets[n]| + 2 else rest
  }

  /** A packet the sender will protect. */
  predicate Protectable(p: Packet) {
    HeaderSize(p) != 0 && |p| <= MAX_MEDIA_PACKET
  }

  /** `q` follows `p` in the same frame of the same stream. */
  predicate Follows(p: Packet, q: Packet)
    requires |p| >= 12 && |q| >= 12
  {
    Ssrc(p) == Ssrc(q) && Timestamp(p) == Timestamp(q) && (Sequence(p) + 1) % 0x1_0000 == Sequence(q)
  }

  /** Protectable packets of one frame, in sequence. */
  ghost predicate Consecutive(packets: seq<Packet>) {
    && (forall i :: 0 <= i < |packets| ==> Protectable(packets[i]))
    && (forall i, j :: 0 <= i && i + 1 == j < |packets| ==> Follows(packets[i], packets[j]))
  }

  lemma {:induction false} ConsecutiveFrom(packets: seq<Packet>, i: nat)
    requires Consecutive(packets) && i < |packets|
    ensures Timestamp(packets[i]) == Timestamp(packets[0]) && Ssrc(packets[i]) == Ssrc(packets[0])
    ensures Sequence(packets[i]) == (Sequence(packets[0]) + i) % 0x1_0000
  {
    if i > 0 {
      ConsecutiveFrom(packets, i - 1);
      assert Follows(packets[i - 1], packets[i]);
      NextSequence(Sequence(packets[0]) + i - 1);
    }
  }

  lemma NextSequence(s: nat)
    ensures (s % 0x1_0000 + 1) % 0x1_0000 == (s + 1) % 0x1_0000
  {
  }

  // ----- Blocks -----

  datatype SentBlock = SentBlock(start: nat, packets: seq<Packet>, r: nat, repairSsrc: nat)
  {
    ghost predicate Valid() {
      && 0 < |packets| <= MAX_SOURCES && 0 < r <= MAX_REPAIRS
      && Consecutive(packets) && repairSsrc < 0x1_0000_0000
    }

    function Size(): nat {
      BlockSize(packets)
    }

    function Sources(): (s: Symbols)
      ensures Rectangle(s, |packets|, Size())
    {
      seq(|packets|, i requires 0 <= i < |packets| => Pad(packets[i], Size()))
    }

    ghost function Code(matrix: Matrices): (w: Symbols)
      requires Valid() && Shared(matrix)
      ensures Rectangle(w, |packets| + r, Size())
    {
      Codeword(matrix(|packets|, r), Sources(), Size())
    }

    ghost function HeaderOf(i: nat): seq<byte>
      requires Valid() && i < r
    {
      RepairHeader(|packets|, r, |packets| + i, Size(), Ssrc(packets[0]), Sequence(packets[0]))
    }

    /** The i-th repair packet of the block. */
    ghost function RepairAt(i: nat, matrix: Matrices): Packet
      requires Valid() && Shared(matrix) && i < r
    {
      RepairPacket(packets[|packets| - 1], repairSsrc, HeaderOf(i), Code(matrix)[|packets| + i])
    }

    ghost function Repairs(matrix: Matrices): (s: seq<Packet>)
      requires Valid() && Shared(matrix)
      ensures |s| == r && forall i :: 0 <= i < r ==> s[i] == RepairAt(i, matrix)
    {
      seq(r, i requires 0 <= i < r => RepairAt(i, matrix))
    }

    /** Wire bytes of each repair. */
    function WireSize(): nat
      requires packets != []
    {
      HeaderSize(packets[|packets| - 1]) + FEC_HEADER_SIZE + Size()
    }
  }

  // ----- Transcripts -----

  datatype Transcript = Transcript(sent: seq<Packet>, blocks: seq<SentBlock>)
  {
    /** Blocks are disjoint runs of the packets sent, in order. */
    ghost predicate WellFormed() {
      && (forall j :: 0 <= j < |blocks| ==>
        && blocks[j].Valid()
        && blocks[j].start + |blocks[j].packets| <= |sent|
        && blocks[j].packets == sent[blocks[j].start..blocks[j].start + |blocks[j].packets|])
      && (forall i, j :: 0 <= i < j < |blocks| ==> blocks[i].start + |blocks[i].packets| <= blocks[j].start)
    }

    /** No two packets share timestamp and sequence number. */
    ghost predicate DistinctKeys() {
      forall i, j :: 0 <= i < j < |sent| && |sent[i]| >= 12 && |sent[j]| >= 12 ==>
        Timestamp(sent[i]) != Timestamp(sent[j]) || Sequence(sent[i]) != Sequence(sent[j])
    }

    /** All repairs go out on one stream, which no media packet uses. */
    ghost predicate OneRepairStream(ssrc: nat) {
      && (forall i :: 0 <= i < |sent| && |sent[i]| >= 12 ==> Ssrc(sent[i]) != ssrc)
      && (forall j :: 0 <= j < |blocks| ==> blocks[j].repairSsrc == ssrc)
    }

    ghost predicate Honest(ssrc: nat) {
      WellFormed() && DistinctKeys() && OneRepairStream(ssrc)
    }

    ghost predicate IsRepair(p: Packet, matrix: Matrices)
      requires WellFormed() && Shared(matrix)
    {
      exists j, i :: 0 <= j < |blocks| && 0 <= i < blocks[j].r && p == blocks[j].RepairAt(i, matrix)
    }

    /** A packet the channel may deliver: a media packet or a repair of some block. */
    ghost predicate OnWire(p: Packet, matrix: Matrices)
      requires WellFormed() && Shared(matrix)
    {
      p in sent || IsRepair(p, matrix)
    }
  }

  /** An honest sender's channel delivers `p`. */
  ghost predicate Arrives(p: Packet, t: Transcript, matrix: Matrices, repairSsrc: nat)
    requires Shared(matrix)
  {
    t.Honest(repairSsrc) && t.OnWire(p, matrix)
  }

  lemma DistinctAt(t: Transcript, i: nat, j: nat)
    requires t.DistinctKeys() && i < |t.sent| && j < |t.sent| && i != j
    requires |t.sent[i]| >= 12 && |t.sent[j]| >= 12
    ensures Timestamp(t.sent[i]) != Timestamp(t.sent[j]) || Sequence(t.sent[i]) != Sequence(t.sent[j])
  {
    if j < i {
      assert Timestamp(t.sent[j]) != Timestamp(t.sent[i]) || Sequence(t.sent[j]) != Sequence(t.sent[i]);
    }
  }

  /** Packets that agree on timestamp and sequence number are the same packet. */
  lemma SameKeySamePacket(t: Transcript, p: Packet, q: Packet)
    requires t.DistinctKeys() && p in t.sent && q in t.sent && |p| >= 12 && |q| >= 12
    requires Timestamp(p) == Timestamp(q) && Sequence(p) == Sequence(q)
    ensures p == q
  {
    var i :| 0 <= i < |t.sent| && t.sent[i] == p;
    var j :| 0 <= j < |t.sent| && t.sent[j] == q;
    if i != j {
      DistinctAt(t, i, j);
    }
  }

  /** A block is identified by the timestamp and sequence number of its first packet. */
  lemma SameKeySameBlock(t: Transcript, i: nat, j: nat)
    requires t.WellFormed() && t.DistinctKeys() && i < |t.blocks| && j < |t.blocks|
    requires Timestamp(t.blocks[i].packets[0]) == Timestamp(t.blocks[j].packets[0])
    requires Sequence(t.blocks[i].packets[0]) == Sequence(t.blocks[j].packets[0])
    ensures i == j
  {
    var a, b := t.blocks[i], t.blocks[j];
    assert a.packets[0] == t.sent[a.start] && b.packets[0] == t.sent[b.start];
    if a.start != b.start {
      DistinctAt(t, a.start, b.start);
    }
  }

  lemma BlockPacketSent(t: Transcript, j: nat, i: nat)
    requires t.WellFormed() && j < |t.blocks| && i < |t.blocks[j].packets|
    ensures t.blocks[j].packets[i] in t.sent
  {
    assert t.blocks[j].packets[i] == t.sent[t.blocks[j].start + i];
  }

  /** What every accepted repair packet says about its block. */
  lemma RepairFields(b: SentBlock, i: nat, matrix: Matrices)
    requires b.Valid() && Shared(matrix) && i < b.r
    ensures var p := b.RepairAt(i, matrix); var n := HeaderSize(p);
      && n == HeaderSize(b.packets[|b.packets| - 1]) && |p| == b.WireSize()
      && Ssrc(p) == b.repairSsrc && PayloadType(p) == REPAIR_PAYLOAD_TYPE
      && Timestamp(p) == Timestamp(b.packets[0])
      && p[n..n + FEC_HEADER_SIZE] == b.HeaderOf(i)
      && p[n + FEC_HEADER_SIZE..] == b.Code(matrix)[|b.packets| + i]
  {
    hide RepairPacket;
    hide HeaderSize;
    hide Timestamp;
    hide Ssrc;
    var last := b.packets[|b.packets| - 1];
    RepairPacketParses(last, b.repairSsrc, b.HeaderOf(i), b.Code(matrix)[|b.packets| + i]);
    ConsecutiveFrom(b.packets, |b.packets| - 1);
  }
}
