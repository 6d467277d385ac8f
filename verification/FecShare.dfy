/**
 What RtpFecSender of src/fec/rtp_fec.cpp does with a frame given to it packet by
 packet: which packets become a block, what the block earns, and how many repairs
 it is due; and what breaks a frame off.
 */
module FecShare {
  import opened RtpWire
  import opened FecTranscript
  import opened RateBudget
  import opened RtpSender

  /** A packet handed to AddPacket. */
  datatype Given = Given(p: Packet, now: int, keyframe: bool)

  function Packets(frame: seq<Given>): (packets: seq<Packet>)
    ensures |packets| == |frame|
    ensures forall i :: 0 <= i < |frame| ==> packets[i] == frame[i].p
  {
    seq(|frame|, i requires 0 <= i < |frame| => frame[i].p)
  }

  function Bytes(frame: seq<Given>): nat {
    if frame == [] then 0 else Bytes(frame[..|frame| - 1]) + |frame[|frame| - 1].p|
  }

  /** The sender after AddPacket has been called for each packet in turn. */
  ghost function Fed(s: Sender, matrix: Matrices, frame: seq<Given>, repairSsrc: nat, codec: bool): (r: Sender)
    requires s.Open(matrix) && repairSsrc < 0x1_0000_0000
    ensures r.Open(matrix)
  {
    if frame == [] then s
    else
      var n := |frame| - 1;
      var t := Fed(s, matrix, frame[..n], repairSsrc, codec);
      AddedKeeps(t, matrix, frame[n].p, repairSsrc, frame[n].now, frame[n].keyframe, codec);
      t.Added(matrix, frame[n].p, repairSsrc, frame[n].now, frame[n].keyframe, codec)
  }

  /** RTP packets of at most 1148 bytes, one after the other, of one stream and one timestamp. */
  ghost predicate InSequence(frame: seq<Given>) {
    && (forall i :: 0 <= i < |frame| ==> HeaderSize(frame[i].p) != 0 && |frame[i].p| <= 1148)
    && (forall i :: 0 <= i < |frame| && |frame[i].p| >= 12 && |frame[0].p| >= 12 ==>
      && Ssrc(frame[i].p) == Ssrc(frame[0].p) && Timestamp(frame[i].p) == Timestamp(frame[0].p)
      && Sequence(frame[i].p) == (Sequence(frame[0].p) + i) % 65536)
  }

  lemma InSequenceConsecutive(frame: seq<Given>)
    requires InSequence(frame)
    ensures Consecutive(Packets(frame))
  {
    hide Ssrc;
    hide Timestamp;
    hide Sequence;
    hide HeaderSize;
    forall i, j | 0 <= i && i + 1 == j < |frame|
      ensures Protectable(frame[i].p) && Protectable(frame[j].p) && Follows(frame[i].p, frame[j].p)
    {
      assert Protectable(frame[0].p) && Protectable(frame[i].p) && Protectable(frame[j].p);
      ProtectableSize(frame[0].p);
      ProtectableSize(frame[i].p);
      ProtectableSize(frame[j].p);
      NextSequence(Sequence(frame[0].p) + i);
    }
    var packets := Packets(frame);
    forall i | 0 <= i < |packets|
      ensures Protectable(packets[i])
    {
      assert packets[i] == frame[i].p;
    }
    forall i, j | 0 <= i && i + 1 == j < |packets|
      ensures Follows(packets[i], packets[j])
    {
      assert packets[i] == frame[i].p && packets[j] == frame[j].p;
    }
  }

  /** Protection is on. */
  predicate On(s: Sender) {
    s.config.ratio > 0.0 && s.config.fecBps != 0
  }

  /**
   Sixteen packets, or fewer of which the last and only the last has the marker
   bit, in sequence, all within 20 ms.
   */
  ghost predicate WholeFrame(frame: seq<Given>, repairSsrc: nat) {
    && 0 < |frame| <= 16 && repairSsrc != 0 && 0 <= frame[0].now
    && InSequence(frame)
    && (forall i :: 0 <= i < |frame| ==> Ssrc(frame[i].p) != repairSsrc)
    && (forall i :: 0 <= i < |frame| ==> frame[0].now <= frame[i].now < frame[0].now + 20)
    && (forall i, j :: 0 <= i < j < |frame| ==> frame[i].now <= frame[j].now)
    && (forall i :: 0 <= i < |frame| - 1 ==> !Marker(frame[i].p))
    && (|frame| == 16 || Marker(frame[|frame| - 1].p))
  }

  /** More than a second has passed since the last packet, or time has run backwards. */
  predicate Silent(s: Sender, now: int) {
    s.lastPacketMs >= 0 && (now < s.lastPacketMs || now > s.lastPacketMs + 1000)
  }

  /** The credit a silence leaves. */
  function Kept(s: Sender, now: int): real {
    if Silent(s, now) then 0.0 else s.credit
  }

  /** Credit that so many bytes have added to, at this ratio and up to 4800. */
  function Saved(credit: real, bytes: nat, ratio: real): real {
    Min(4800.0, credit + bytes as real * ratio)
  }

  /** The block of the frame's first packets, with what they have earned. */
  ghost predicate Gathered(s: Sender, frame: seq<Given>, t: Sender)
    requires frame != []
  {
    && t.pending == Packets(frame) && t.firstMs == frame[0].now && t.keyframe == frame[0].keyframe
    && t.config == s.config && t.blockConfig == s.config
    && t.credit == Saved(Kept(s, frame[0].now), Bytes(frame), s.config.ratio)
    && t.rate == (if s.lastPacketMs < 0 && s.config.fecBps >= 0 then s.rate.WithRate(s.config.fecBps, frame[0].now) else s.rate)
    && t.lastPacketMs == frame[|frame| - 1].now
    && t.emitted == s.emitted && t.blocks == s.blocks
  }

  /** The packet has joined the block; what is left is to see whether the block is complete. */
  ghost function Joined(s: Sender, g: Given): Sender {
    s.(repairDeadlineMs := -1).Admitted(|g.p|, g.now).Appended(g.p, g.now, g.keyframe)
  }

  lemma Joins(s: Sender, matrix: Matrices, g: Given, repairSsrc: nat, codec: bool)
    requires s.Open(matrix) && repairSsrc < 0x1_0000_0000
    requires Takes(g.p, repairSsrc) && !s.config.Off() && |g.p| >= 12
    requires Silent(s, g.now) || s.pending == [] || s.Continues(g.p, g.now)
    ensures var c := Joined(s, g);
      && c.Valid(matrix)
      && s.Added(matrix, g.p, repairSsrc, g.now, g.keyframe, codec) == c.Completed(matrix, g.p, repairSsrc, g.now, codec)
  {
    hide Sender.Valid;
    hide Protectable;
    hide Ssrc;
    hide Marker;
    hide Sender.Flushed;
    hide Sender.Appended;
    hide Topped;
    hide Follows;
    DeadlineFree(s, matrix, -1);
    var t := s.(repairDeadlineMs := -1);
    AdmittedKeeps(t, matrix, |g.p|, g.now);
    var a := t.Admitted(|g.p|, g.now);
    assert a.pending == [] || a.Continues(g.p, g.now);
    AppendedKeeps(a, matrix, g.p, g.now, g.keyframe);
  }

  lemma EarnsMore(credit: real, a: nat, b: nat, ratio: real)
    requires 0.0 <= ratio
    ensures Topped(Saved(credit, a, ratio), b, ratio) == Saved(credit, a + b, ratio)
  {
    assert (a + b) as real * ratio == a as real * ratio + b as real * ratio;
    assert b as real * ratio >= 0.0;
  }

  /** A packet that joins a block changes nothing but this. */
  lemma JoinedIs(t: Sender, g: Given)
    requires t.pending != [] && 0 <= t.lastPacketMs <= g.now <= t.lastPacketMs + 1000
    ensures Joined(t, g) == t.(pending := t.pending + [g.p], credit := Topped(t.credit, |g.p|, t.config.ratio),
      lastPacketMs := g.now, repairDeadlineMs := -1, sent := t.sent + [g.p], admitted := t.admitted + |g.p|)
  {
    hide Topped;
  }

  /** One more packet of a frame under way. */
  lemma GathersMore(s: Sender, frame: seq<Given>, t: Sender, g: Given)
    requires frame != [] && Gathered(s, frame, t) && s.config.Valid()
    requires 0 <= frame[|frame| - 1].now <= g.now <= frame[|frame| - 1].now + 1000
    ensures Gathered(s, frame + [g], Joined(t, g))
  {
    hide Topped;
    hide Saved;
    hide Kept;
    hide Joined;
    hide RateState.WithRate;
    JoinedIs(t, g);
    var n := |frame|;
    assert (frame + [g])[..n] == frame;
    EarnsMore(Kept(s, frame[0].now), Bytes(frame), |g.p|, s.config.ratio);
    assert t.pending + [g.p] == Packets(frame + [g]);
  }

  /** The first packet of a frame. */
  lemma GathersFirst(s: Sender, g: Given)
    requires s.config.Valid() && 0.0 <= s.credit && (s.pending == [] || Silent(s, g.now))
    ensures Gathered(s, [g], Joined(s, g))
  {
    assert [g][..0] == [];
    assert Bytes([g]) == |g.p|;
    assert [g.p] == Packets([g]);
  }

  /** The next packet of a whole frame joins the block of those before it. */
  lemma NextJoins(s: Sender, matrix: Matrices, frame: seq<Given>, n: nat, t: Sender, repairSsrc: nat, codec: bool)
    requires s.config.Valid() && On(s) && 0.0 <= s.credit && t.Open(matrix) && repairSsrc < 0x1_0000_0000
    requires WholeFrame(frame, repairSsrc) && n < |frame|
    requires if n == 0 then t == s && (s.pending == [] || Silent(s, frame[0].now)) else Gathered(s, frame[..n], t)
    ensures var c, g := Joined(t, frame[n]), frame[n];
      && |g.p| >= 12 && c.Valid(matrix) && Gathered(s, frame[..n + 1], c)
      && t.Added(matrix, g.p, repairSsrc, g.now, g.keyframe, codec) == c.Completed(matrix, g.p, repairSsrc, g.now, codec)
  {
    hide Sender.Valid;
    hide Marker;
    hide Sender.Added;
    hide Sender.Completed;
    hide Saved;
    hide Kept;
    hide RateState.WithRate;
    hide HeaderSize;
    hide Ssrc;
    hide Timestamp;
    hide Sequence;
    InSequenceConsecutive(frame);
    hide InSequence;
    var g := frame[n];
    assert Packets(frame)[n] == g.p && Protectable(g.p);
    ProtectableSize(g.p);
    if n == 0 {
      assert frame[..1] == [g];
      GathersFirst(s, g);
    } else {
      var m := n - 1;
      assert Packets(frame)[m] == frame[m].p && Packets(frame)[m + 1] == g.p;
      assert Follows(Packets(frame)[m], Packets(frame)[n]);
      assert frame[..n][m] == frame[m] && t.pending[m] == frame[m].p;
      assert Protectable(frame[m].p);
      ProtectableSize(frame[m].p);
      assert frame[..n] + [g] == frame[..n + 1];
      GathersMore(s, frame[..n], t, g);
    }
    hide Gathered;
    hide Joined;
    hide Consecutive;
    hide Protectable;
    hide Follows;
    Joins(t, matrix, g, repairSsrc, codec);
  }

  /** Before its last packet a frame only gathers: nothing is sent. */
  lemma {:induction false} Gathering(s: Sender, matrix: Matrices, frame: seq<Given>, n: nat, repairSsrc: nat, codec: bool)
    requires s.Open(matrix) && On(s) && repairSsrc < 0x1_0000_0000
    requires WholeFrame(frame, repairSsrc) && 0 < n < |frame| && (s.pending == [] || Silent(s, frame[0].now))
    ensures Gathered(s, frame[..n], Fed(s, matrix, frame[..n], repairSsrc, codec))
  {
    hide Sender.Valid;
    hide Gathered;
    hide Joined;
    hide InSequence;
    hide Sender.Added;
    hide Sender.Flushed;
    hide Silent;
    hide On;
    ConfigValid(s, matrix);
    var m := n - 1;
    assert frame[..n][..m] == frame[..m];
    if m > 0 {
      Gathering(s, matrix, frame, m, repairSsrc, codec);
    }
    var t := Fed(s, matrix, frame[..m], repairSsrc, codec);
    NextJoins(s, matrix, frame, m, t, repairSsrc, codec);
    GatheredSize(s, frame[..n], Joined(t, frame[m]));
  }

  lemma GatheredSize(s: Sender, frame: seq<Given>, t: Sender)
    requires frame != [] && Gathered(s, frame, t)
    ensures |t.pending| == |frame|
  {
  }

  lemma ConfigValid(s: Sender, matrix: Matrices)
    requires s.Valid(matrix)
    ensures s.config.Valid() && s.blockConfig.Valid() && s.rate.Valid() && 0.0 <= s.credit
  {
    hide EmitsRepairs;
    hide PendingIsTail;
    hide Transcript.WellFormed;
    BudgetFacts(s.emitted, s.credit, s.admitted);
  }

  /**
   A whole frame fed to a sender with protection on and nothing pending becomes
   one block.  The repairs that come with its last packet, and none before, are
   as many as are due to the frame, out of the credit its packets have added to.
   */
  lemma FrameProtected(s: Sender, matrix: Matrices, frame: seq<Given>, repairSsrc: nat, codec: bool) returns (c: Sender)
    requires s.Open(matrix) && On(s) && repairSsrc < 0x1_0000_0000
    requires WholeFrame(frame, repairSsrc) && (s.pending == [] || Silent(s, frame[0].now))
    ensures var r, now := Fed(s, matrix, frame, repairSsrc, codec), frame[|frame| - 1].now;
      && Gathered(s, frame, c) && r.pending == [] && |s.emitted| <= |r.emitted|
      && RepairsDue(c, now, codec, |r.emitted| - |s.emitted|)
      && RepairsOf(s, r, Packets(frame), matrix)
      && r.repairDeadlineMs == (if r.emitted == s.emitted then -1 else frame[0].now + s.config.windowMs)
      && forall n :: 0 <= n < |frame| ==> Fed(s, matrix, frame[..n], repairSsrc, codec).emitted == s.emitted
  {
    hide Sender.Valid;
    hide Gathered;
    hide Joined;
    hide InSequence;
    hide Sender.Added;
    hide Sender.Flushed;
    hide Silent;
    hide Marker;
    hide On;
    hide RepairsDue;
    ConfigValid(s, matrix);
    var m := |frame| - 1;
    if m > 0 {
      Gathering(s, matrix, frame, m, repairSsrc, codec);
    } else {
      assert frame[..0] == [];
    }
    forall n | 0 <= n < |frame|
      ensures Fed(s, matrix, frame[..n], repairSsrc, codec).emitted == s.emitted
    {
      if n > 0 {
        Gathering(s, matrix, frame, n, repairSsrc, codec);
        NothingYet(s, frame[..n], Fed(s, matrix, frame[..n], repairSsrc, codec));
      }
    }
    var t := Fed(s, matrix, frame[..m], repairSsrc, codec);
    NextJoins(s, matrix, frame, m, t, repairSsrc, codec);
    c := Joined(t, frame[m]);
    assert frame[..m + 1] == frame;
    GatheredSize(s, frame, c);
    NothingYet(s, frame, c);
    FlushedCount(c, matrix, repairSsrc, frame[m].now, codec);
    FlushedKeeps(c, matrix, repairSsrc, frame[m].now, codec);
    FlushedRepairs(c, matrix, repairSsrc, frame[m].now, codec);
    NoDeadline(t, frame[m]);
    DeadlineNoted(c, matrix, repairSsrc, frame[m].now, codec);
    GatheredDeadline(s, frame, c);
  }

  lemma NoDeadline(t: Sender, g: Given)
    ensures Joined(t, g).repairDeadlineMs == -1
  {
  }

  lemma GatheredDeadline(s: Sender, frame: seq<Given>, t: Sender)
    requires frame != [] && Gathered(s, frame, t)
    ensures t.firstMs == frame[0].now && t.config == t.blockConfig == s.config
  {
  }

  /** With repairs out, the earliest time by which a block of this call must be repaired is noted. */
  lemma DeadlineNoted(s: Sender, matrix: Matrices, repairSsrc: nat, now: int, codec: bool)
    requires s.Valid(matrix) && repairSsrc < 0x1_0000_0000
    ensures var r := s.Flushed(matrix, repairSsrc, now, codec);
      var deadline := s.firstMs + if s.config.windowMs <= s.blockConfig.windowMs then s.config.windowMs else s.blockConfig.windowMs;
      r.repairDeadlineMs ==
        if r.emitted == s.emitted then s.repairDeadlineMs
        else if s.repairDeadlineMs < 0 || deadline < s.repairDeadlineMs then deadline else s.repairDeadlineMs
  {
    hide Sender.Flushed;
    hide Sender.RepairCount;
    hide HeaderSize;
    hide BlockSize;
    hide AfterAffording;
    hide Sender.Valid;
    hide SentBlock.Valid;
    hide SentBlock.Repairs;
    hide Shared;
    hide Consecutive;
    FlushedIs(s, matrix, repairSsrc, now, codec);
    SharedOf(s, matrix);
    ConfigValid(s, matrix);
    if s.Attempts(now) && s.RepairCount(now) != 0 && codec {
      var b := s.PendingBlock(repairSsrc, s.RepairCount(now));
      NotNothing(s.emitted, b, matrix);
    }
  }

  lemma NotNothing(emitted: seq<Packet>, b: SentBlock, matrix: Matrices)
    requires Shared(matrix) && b.Valid()
    ensures emitted + b.Repairs(matrix) != emitted
  {
    hide SentBlock.RepairAt;
    assert |b.Repairs(matrix)| == b.r > 0;
  }

  /** What has been emitted is the repairs of one new block of these packets, or nothing. */
  ghost predicate RepairsOf(s: Sender, r: Sender, packets: seq<Packet>, matrix: Matrices)
    requires Shared(matrix)
  {
    || (r.emitted == s.emitted && r.blocks == s.blocks)
    || (exists b: SentBlock :: b.Valid() && b.packets == packets && r.blocks == s.blocks + [b] && r.emitted == s.emitted + b.Repairs(matrix))
  }

  lemma RecordedRepairs(s: Sender, b: SentBlock, matrix: Matrices)
    requires Shared(matrix) && b.Valid() && s.pending != []
    ensures var r := s.Recorded(b, matrix);
      r.blocks == s.blocks + [b] && r.emitted == s.emitted + b.Repairs(matrix)
  {
  }

  lemma FlushedRepairs(s: Sender, matrix: Matrices, repairSsrc: nat, now: int, codec: bool)
    requires s.Valid(matrix) && repairSsrc < 0x1_0000_0000
    ensures RepairsOf(s, s.Flushed(matrix, repairSsrc, now, codec), s.pending, matrix)
  {
    hide Sender.Flushed;
    hide Sender.RepairCount;
    hide Sender.DeadlineMs;
    hide Sender.Recorded;
    hide HeaderSize;
    hide BlockSize;
    hide AfterAffording;
    hide Sender.Valid;
    hide SentBlock.Valid;
    hide Shared;
    hide Consecutive;
    FlushedIs(s, matrix, repairSsrc, now, codec);
    SharedOf(s, matrix);
    ConfigValid(s, matrix);
    if s.Attempts(now) && s.RepairCount(now) != 0 && codec {
      var b := s.PendingBlock(repairSsrc, s.RepairCount(now));
      var t := s.(rate := AfterAffording(s.rate, s.Cost(), now, s.RepairsWanted()));
      RecordedRepairs(t, b, matrix);
      assert b.packets == s.pending && b.Valid();
    }
  }

  lemma SharedOf(s: Sender, matrix: Matrices)
    requires s.Valid(matrix)
    ensures Shared(matrix)
  {
  }

  lemma NothingYet(s: Sender, frame: seq<Given>, t: Sender)
    requires frame != [] && Gathered(s, frame, t)
    ensures t.emitted == s.emitted && t.blocks == s.blocks && t.pending == Packets(frame)
  {
  }

  /** `g` comes next in the frame whose block is pending, and in time. */
  predicate NextInFrame(s: Sender, g: Given) {
    && s.pending != [] && |g.p| >= 12 && |s.pending[|s.pending| - 1]| >= 12
    && var last := s.pending[|s.pending| - 1];
      && Ssrc(g.p) == Ssrc(last) && Timestamp(g.p) == Timestamp(last)
      && Sequence(g.p) == (if Sequence(last) == 65535 then 0 else Sequence(last) + 1)
      && s.firstMs <= g.now < s.firstMs + 20
  }

  /**
   A packet that does not come next cuts off the block before it, whose repairs
   are due as for any block, this packet's bytes having added to the credit; and
   it begins a block of its own.
   */
  lemma FrameBroken(s: Sender, matrix: Matrices, g: Given, repairSsrc: nat, codec: bool)
    requires s.Open(matrix) && On(s) && s.lastPacketMs >= 0 && 0 < repairSsrc < 0x1_0000_0000
    requires HeaderSize(g.p) != 0 && |g.p| <= 1148
    requires |g.p| >= 12 ==> Ssrc(g.p) != repairSsrc && !Marker(g.p)
    requires s.pending != [] && !Silent(s, g.now) && !NextInFrame(s, g)
    ensures var r := s.Added(matrix, g.p, repairSsrc, g.now, g.keyframe, codec);
      && r.pending == [g.p] && r.firstMs == g.now && r.keyframe == g.keyframe && r.blockConfig == s.config
      && |s.emitted| <= |r.emitted|
      && RepairsDue(s.(credit := Saved(s.credit, |g.p|, s.config.ratio), lastPacketMs := g.now), g.now, codec, |r.emitted| - |s.emitted|)
      && RepairsOf(s, r, s.pending, matrix)
  {
    hide Ssrc;
    hide Timestamp;
    hide Sequence;
    hide Marker;
    hide HeaderSize;
    hide Sender.Valid;
    hide Sender.Flushed;
    hide RepairsDue;
    hide RepairsOf;
    hide Saved;
    hide Topped;
    ProtectableSize(g.p);
    DeadlineFree(s, matrix, -1);
    var t := s.(repairDeadlineMs := -1);
    AdmittedKeeps(t, matrix, |g.p|, g.now);
    var a := t.Admitted(|g.p|, g.now);
    assert a.pending == s.pending && a.firstMs == s.firstMs;
    NotNext(s, g);
    assert !a.Continues(g.p, g.now);
    EarnsOne(s.credit, |g.p|, s.config.ratio);
    RoomyKeeps(a, matrix, g.p, repairSsrc, g.now, codec);
    FlushedCount(a, matrix, repairSsrc, g.now, codec);
    FlushedKeeps(a, matrix, repairSsrc, g.now, codec);
    FlushedRepairs(a, matrix, repairSsrc, g.now, codec);
    FlushedCuts(a, matrix, repairSsrc, g.now, codec);
    var b := a.Flushed(matrix, repairSsrc, g.now, codec);
    AppendedKeeps(b, matrix, g.p, g.now, g.keyframe);
    DueWhatever(s.(credit := a.credit, lastPacketMs := g.now), a, g.now, codec, |b.emitted| - |a.emitted|);
    SharedOf(a, matrix);
    SameRepairs(a, b, s, s.Added(matrix, g.p, repairSsrc, g.now, g.keyframe, codec), s.pending, matrix);
  }

  lemma NotNext(s: Sender, g: Given)
    requires s.pending != [] && !NextInFrame(s, g)
    ensures !s.Continues(g.p, g.now)
  {
    hide Ssrc;
    hide Timestamp;
  }

  lemma EarnsOne(credit: real, a: nat, ratio: real)
    ensures Topped(credit, a, ratio) == Saved(credit, a, ratio)
  {
  }

  lemma SameRepairs(a: Sender, b: Sender, s: Sender, r: Sender, packets: seq<Packet>, matrix: Matrices)
    requires Shared(matrix) && RepairsOf(a, b, packets, matrix)
    requires a.emitted == s.emitted && a.blocks == s.blocks && b.emitted == r.emitted && b.blocks == r.blocks
    ensures RepairsOf(s, r, packets, matrix)
  {
  }

  /**
   A packet of another kind, too long or on the repair stream is not protected and
   ends the block, and so does any packet while protection is off: no repair comes.
   */
  lemma NotProtected(s: Sender, matrix: Matrices, g: Given, repairSsrc: nat, codec: bool)
    requires s.Open(matrix) && repairSsrc < 0x1_0000_0000
    requires HeaderSize(g.p) == 0 || |g.p| > 1148 || repairSsrc == 0 || repairSsrc == Ssrc(g.p) || !On(s)
    ensures s.Added(matrix, g.p, repairSsrc, g.now, g.keyframe, codec)
      == s.(pending := [], sent := s.sent + [g.p], repairDeadlineMs := -1)
  {
    ConfigValid(s, matrix);
    hide Ssrc;
    hide HeaderSize;
    hide Sender.Valid;
    hide Sender.Admitted;
    hide Sender.Roomy;
    hide Sender.Completed;
  }
}
