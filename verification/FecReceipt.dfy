/**
 What RtpFecReceiver of src/fec/rtp_fec.cpp keeps, drops and reports, whatever
 arrives; and the bytes of the repairs it is sent.
 */
module FecReceipt {
  import opened Common
  import opened RsCode
  import opened RtpWire
  import opened FecTranscript
  import opened RtpReceiver

  // ----- On the wire -----

  /** Two bytes as a number, high byte first. */
  function Big16(s: seq<byte>, i: nat): nat
    requires i + 2 <= |s|
  {
    s[i] as int * 256 + s[i + 1] as int
  }

  /** Where a packet's own fields lie. */
  lemma FieldsLie(p: Packet)
    requires |p| >= 12
    ensures Sequence(p) == Big16(p, 2) && PayloadType(p) == p[1] % 128 && (Marker(p) <==> p[1] >= 128)
    ensures Timestamp(p) == Big16(p, 4) * 65536 + Big16(p, 6) && Ssrc(p) == Big16(p, 8) * 65536 + Big16(p, 10)
  {
  }

  /**
   The i-th repair of a block, byte by byte: the header of the block's last packet
   under payload type 122 and number 0 on the repair stream, sixteen bytes that
   number it, and its symbol.
   */
  lemma RepairLayout(b: SentBlock, i: nat, matrix: Matrices)
    requires b.Valid() && Shared(matrix) && i < b.r && b.repairSsrc > 0
    ensures |b.packets[0]| >= 12
    ensures var p, first, last := b.RepairAt(i, matrix), b.packets[0], b.packets[|b.packets| - 1];
      var n := HeaderSize(last);
      && 12 <= n && |p| == n + 16 + b.Size() && n < |last|
      && p[0] == last[0] && p[1] == 122 && p[2] == 0 && p[3] == 0 && p[4..8] == last[4..8]
      && Big16(p, 8) * 65536 + Big16(p, 10) == b.repairSsrc && p[12..n] == last[12..n]
      && p[n..n + 6] == [77, 70, 1, |b.packets|, b.r, |b.packets| + i] && Big16(p, n + 6) == b.Size()
      && p[n + 8..n + 12] == first[8..12] && p[n + 12..n + 14] == first[2..4] && p[n + 14] == 0 && p[n + 15] == 0
      && p[n + 16..] == b.Code(matrix)[|b.packets| + i]
  {
    hide Codeword;
    hide HeaderSize;
    hide BlockSize;
    var first, last := b.packets[0], b.packets[|b.packets| - 1];
    assert Protectable(first) && Protectable(last);
    ProtectableLength(first);
    ProtectableLength(last);
    SizeBound(b);
    HeaderBytes(b, i);
    PacketBytes(last, b.repairSsrc, b.HeaderOf(i), b.Code(matrix)[|b.packets| + i]);
    hide RepairPacket;
    hide SentBlock.HeaderOf;
    hide Big16;
    var p, n, h := b.RepairAt(i, matrix), HeaderSize(last), b.HeaderOf(i);
    assert p[n..n + 16] == h;
    assert p[n..n + 6] == h[..6] && p[n + 8..n + 12] == h[8..12] && p[n + 12..n + 14] == h[12..14];
    assert p[n + 14] == h[14] && p[n + 15] == h[15];
    Big16Slice(p, n + 6, h, 6);
  }

  lemma Big16Slice(p: seq<byte>, i: nat, h: seq<byte>, j: nat)
    requires i + 2 <= |p| && j + 2 <= |h| && p[i] == h[j] && p[i + 1] == h[j + 1]
    ensures Big16(p, i) == Big16(h, j)
  {
  }

  lemma HeaderBytes(b: SentBlock, i: nat)
    requires b.Valid() && i < b.r && |b.packets[0]| >= 12 && b.Size() < 65536
    ensures var h, first := b.HeaderOf(i), b.packets[0];
      && |h| == 16 && h[..6] == [77, 70, 1, |b.packets|, b.r, |b.packets| + i] && Big16(h, 6) == b.Size()
      && h[8..12] == first[8..12] && h[12..14] == first[2..4] && h[14] == 0 && h[15] == 0
  {
    hide Consecutive;
    hide BlockSize;
    var first := b.packets[0];
    WrittenBack16(first, 2);
    WrittenBack32(first, 8);
    Split16(b.Size());
  }

  /** Writing what was read gives back the bytes. */
  lemma WrittenBack16(p: Packet, i: nat)
    requires i + 2 <= |p|
    ensures Write16(Read16(p, i)) == p[i..i + 2]
  {
    Bytes16(p, i);
  }

  lemma WrittenBack32(p: Packet, i: nat)
    requires i + 4 <= |p|
    ensures Write32(Read32(p, i)) == p[i..i + 4]
  {
    var hi, lo := Read16(p, i), Read16(p, i + 2);
    assert Read32(p, i) / 65536 == hi && Read32(p, i) % 65536 == lo;
    Bytes16(p, i);
    Bytes16(p, i + 2);
    assert p[i..i + 4] == p[i..i + 2] + p[i + 2..i + 4];
  }

  lemma PacketBytes(last: Packet, repairSsrc: nat, h: seq<byte>, data: seq<byte>)
    requires HeaderSize(last) != 0 && |h| == 16 && repairSsrc < 0x1_0000_0000
    ensures var p, n := RepairPacket(last, repairSsrc, h, data), HeaderSize(last);
      && |p| == n + 16 + |data| && p[0] == last[0] && p[1] == 122 && p[2] == 0 && p[3] == 0 && p[4..8] == last[4..8]
      && Big16(p, 8) * 65536 + Big16(p, 10) == repairSsrc && p[12..n] == last[12..n] && p[n..n + 16] == h && p[n + 16..] == data
  {
    hide HeaderSize;
    Read32Back(repairSsrc);
    var w := Write32(repairSsrc);
    var p := RepairPacket(last, repairSsrc, h, data);
    assert p[8] == w[0] && p[9] == w[1] && p[10] == w[2] && p[11] == w[3];
    assert Read32(w, 0) == Big16(w, 0) * 65536 + Big16(w, 2);
    hide Write32;
    hide Read32;
  }

  /** A source symbol is the packet's length in two bytes, the packet, and zeros. */
  lemma SymbolLayout(b: SentBlock, j: nat)
    requires b.Valid() && j < |b.packets|
    ensures var s, p := b.Sources()[j], b.packets[j];
      && |s| == b.Size() && |p| + 2 <= |s|
      && Big16(s, 0) == |p| && s[2..2 + |p|] == p && forall m :: 2 + |p| <= m < |s| ==> s[m] == 0
  {
    hide BlockSize;
    hide HeaderSize;
    assert Protectable(b.packets[j]);
    Split16(|b.packets[j]|);
  }

  // ----- What is reported -----

  /** An RTP packet of the media stream that could have been protected. */
  predicate MediaLike(q: Packet, media: Stream) {
    && HeaderSize(q) != 0 && |q| <= 1148 && |q| >= 12
    && Ssrc(q) == media.ssrc && PayloadType(q) == media.payloadType
  }

  /** Its number and timestamp are those of one of the block's packets. */
  predicate InBlock(q: Packet, b: Block) {
    |q| >= 12 && Timestamp(q) == b.timestamp && (Sequence(q) - b.base) % 65536 < b.k
  }

  predicate MediaOf(q: Packet, media: Stream, b: Block) {
    MediaLike(q, media) && InBlock(q, b)
  }

  lemma Ahead(base: nat, i: nat)
    requires i < 16
    ensures ((base + i) % 65536 - base) % 65536 == i
  {
  }

  lemma {:induction false} AbsentLike(packets: seq<Packet>, c: seq<Option<Packet>>, n: nat, media: Stream, b: Block)
    requires n <= |c| && n <= |packets| && forall i :: 0 <= i < n && c[i].None? ==> MediaOf(packets[i], media, b)
    ensures forall q :: q in Absent(packets, c, n) ==> MediaOf(q, media, b)
  {
    hide MediaOf;
    if n > 0 {
      AbsentLike(packets, c, n - 1, media, b);
    }
  }

  lemma HarvestLike(b: Block, c: seq<Option<Packet>>, now: Symbols, media: Stream)
    requires b.Valid() && |c| == b.k <= |now|
    ensures forall q :: q in Harvest(b, c, now, media) ==> MediaOf(q, media, b)
  {
    hide HeaderSize;
    if AllPlausible(b, c, now, media, b.k) {
      forall i | 0 <= i < b.k && c[i].None? ensures MediaOf(Unpadded(now)[i], media, b) {
        assert Plausible(b, i, now[i], media);
        Ahead(b.base, i);
      }
      AbsentLike(Unpadded(now), c, b.k, media, b);
    }
  }

  lemma ReportsLike(b: Block, cache: map<nat, Source>, matrix: Matrices, codec: bool, media: Stream, after: Block, packets: seq<Packet>)
    requires Shared(matrix) && Reports(b, cache, matrix, codec, media, after, packets)
    ensures forall q :: q in packets ==> MediaOf(q, media, after)
  {
    hide Harvest;
    hide MediaOf;
    hide Block.Valid;
    if packets != [] {
      var c, m := CachedAll(cache, b), MatrixIf(matrix, b, codec);
      var ok, now :| Recovers(b, c, m.value, media, ok, now, packets);
      DecodedShape(b, c, m, now);
      HarvestLike(b, c, now, media);
      forall q | q in packets ensures MediaOf(q, media, after) {
        SameMedia(q, media, b, after);
      }
    }
  }

  lemma SameMedia(q: Packet, media: Stream, b: Block, after: Block)
    requires MediaOf(q, media, b) && after.timestamp == b.timestamp && after.base == b.base && after.k == b.k
    ensures MediaOf(q, media, after)
  {
    hide MediaLike;
  }

  lemma ListenedLike(was: map<Key, Block>, cache: map<nat, Source>, matrix: Matrices, codec: bool, media: Stream,
                     after: map<Key, Block>, recovered: seq<Packet>, q: Packet)
    requires Shared(matrix) && Listened(was, cache, matrix, codec, media, after, recovered) && q in recovered
    ensures exists key :: key in after && MediaOf(q, media, after[key])
  {
    hide MediaOf;
    hide Reports;
    hide Ascending;
    var order, parts :| InOrder(was, cache, matrix, codec, media, after, recovered, order, parts);
    var key :| key in order && q in parts[key];
    assert key in was && key in after.Keys;
    ReportsLike(was[key], cache, matrix, codec, media, after[key], parts[key]);
  }

  lemma RepairedLike(was: map<Key, Block>, info: RepairInfo, now: int, cache: map<nat, Source>, matrix: Matrices, codec: bool,
                     media: Stream, after: map<Key, Block>, recovered: seq<Packet>, q: Packet)
    requires Shared(matrix) && Repaired(was, info, now, cache, matrix, codec, media, after, recovered) && q in recovered
    ensures exists key :: key in after && MediaOf(q, media, after[key])
  {
    hide MediaOf;
    hide Reports;
    hide Opens;
    var key := (info.timestamp, info.base);
    var mid: map<Key, Block> :| Opens(was, info, now, mid) && key in mid && key in after
      && (if Files(mid[key], info) then
            && after == mid[key := after[key]]
            && Reports(WithRepair(mid[key], info), cache, matrix, codec, media, after[key], recovered)
          else after == mid && recovered == []);
    ReportsLike(WithRepair(mid[key], info), cache, matrix, codec, media, after[key], recovered);
  }

  /** Whatever arrives, what is reported as recovered is a packet of the media stream, of a size that is protected and of a block the receiver knows. */
  lemma ReportsMedia(was: Held, p: Packet, now: int, codec: bool, matrix: Matrices, media: Stream, repairSsrc: nat,
                     after: Held, recovered: seq<Packet>, q: Packet)
    requires Shared(matrix) && Hears(was, p, now, codec, matrix, media, repairSsrc, after, recovered) && q in recovered
    ensures exists key :: key in after.blocks && MediaOf(q, media, after.blocks[key])
  {
    hide MediaOf;
    hide Listened;
    hide Repaired;
    hide CachesAll;
    hide Caches;
    hide IsMedia;
    hide HeaderSize;
    hide RepairOk;
    hide ReadRepair;
    var live := was.Live(now);
    var cache :| HearsWith(live, p, now, codec, matrix, media, repairSsrc, cache, after, recovered);
    if IsMedia(p, media) {
      ListenedLike(live.blocks, cache, matrix, codec, media, after.blocks, recovered, q);
    } else {
      RepairedLike(live.blocks, ReadRepair(p, HeaderSize(p)), now, cache, matrix, codec, media, after.blocks, recovered, q);
    }
  }

  /** The positions of a block no packet is cached for. */
  function Gaps(c: seq<Option<Packet>>): nat {
    if c == [] then 0 else Gaps(c[..|c| - 1]) + if c[|c| - 1].None? then 1 else 0
  }

  lemma {:induction false} AbsentCount(packets: seq<Packet>, c: seq<Option<Packet>>, n: nat)
    requires n <= |c| && n <= |packets|
    ensures |Absent(packets, c, n)| == Gaps(c[..n])
  {
    if n > 0 {
      AbsentCount(packets, c, n - 1);
      assert c[..n][..n - 1] == c[..n - 1] && c[..n][n - 1] == c[n - 1];
    }
  }

  /** A block that is tried yields a packet for every gap, or none at all. */
  lemma AllOrNothing(b: Block, cache: map<nat, Source>, matrix: Matrices, codec: bool, media: Stream, after: Block, packets: seq<Packet>)
    requires Shared(matrix) && Reports(b, cache, matrix, codec, media, after, packets)
    ensures packets == [] || |packets| == Gaps(CachedAll(cache, b))
  {
    hide Cached;
    hide Block.Valid;
    hide AllPlausible;
    if packets != [] {
      var c, m := CachedAll(cache, b), MatrixIf(matrix, b, codec);
      var ok, now :| Recovers(b, c, m.value, media, ok, now, packets);
      DecodedShape(b, c, m, now);
      AbsentCount(Unpadded(now), c, b.k);
      assert c[..b.k] == c;
    }
  }

  // ----- What is taken -----

  /** A packet of the media stream of at most 1148 bytes. */
  predicate TakenAsMedia(p: Packet, media: Stream) {
    HeaderSize(p) != 0 && |p| <= 1148 && |p| >= 12 && PayloadType(p) == media.payloadType && Ssrc(p) == media.ssrc
  }

  /** A packet of the repair stream of at most 1184 bytes whose sixteen bytes number a repair of the media stream. */
  predicate TakenAsRepair(p: Packet, media: Stream, repairSsrc: nat) {
    && HeaderSize(p) != 0 && |p| <= 1184 && |p| >= 12 && PayloadType(p) == 122 && Ssrc(p) == repairSsrc
    && var n := HeaderSize(p);
      && n + 16 <= |p| && p[n] == 77 && p[n + 1] == 70 && p[n + 2] == 1 && p[n + 14] == 0 && p[n + 15] == 0
      && 1 <= p[n + 3] <= 16 && 1 <= p[n + 4] <= 4 && p[n + 3] as int <= p[n + 5] as int < p[n + 3] as int + p[n + 4] as int
      && 14 <= Big16(p, n + 6) <= 1150 && |p| == n + 16 + Big16(p, n + 6)
      && Big16(p, n + 8) * 65536 + Big16(p, n + 10) == media.ssrc
  }

  lemma TakenRight(p: Packet, media: Stream, repairSsrc: nat)
    ensures IsMedia(p, media) <==> TakenAsMedia(p, media)
    ensures IsRepair(p, media, repairSsrc) <==> TakenAsRepair(p, media, repairSsrc)
  {
    var n := HeaderSize(p);
    hide HeaderSize;
    if n != 0 && n + 16 <= |p| {
      var h := p[n..n + 16];
      assert h[0] == p[n] && h[1] == p[n + 1] && h[2] == p[n + 2] && h[14] == p[n + 14] && h[15] == p[n + 15];
      assert h[3] == p[n + 3] && h[4] == p[n + 4] && h[5] == p[n + 5];
      assert Read16(h, 6) == Big16(p, n + 6);
      assert Read32(h, 8) == Big16(p, n + 8) * 65536 + Big16(p, n + 10);
      assert |p[n + 16..]| == |p| - n - 16;
    }
    hide Read16;
    hide Read32;
    hide Big16;
  }

  /** Anything else changes nothing, once what is out of the retention window has gone; and nothing is reported. */
  lemma TakesNothing(was: Held, p: Packet, now: int, codec: bool, matrix: Matrices, media: Stream, repairSsrc: nat,
                     after: Held, recovered: seq<Packet>)
    requires Shared(matrix) && Hears(was, p, now, codec, matrix, media, repairSsrc, after, recovered)
    requires !TakenAsMedia(p, media) && !TakenAsRepair(p, media, repairSsrc)
    ensures recovered == [] && after == was.Live(now)
  {
    TakenRight(p, media, repairSsrc);
    hide IsMedia;
    hide IsRepair;
    hide LiveSources;
    hide LiveBlocks;
  }

  // ----- What is kept -----

  /** Inside the 150 ms window. */
  predicate Recent(arrival: int, now: int) {
    arrival <= now < arrival + 150
  }

  ghost predicate AllRecent(sources: map<nat, Source>, now: int) {
    forall s :: s in sources ==> Recent(sources[s].arrival, now)
  }

  /** What left a full cache arrived no later than anything that stays of what was there. */
  ghost predicate OldestLeft(was: map<nat, Source>, after: map<nat, Source>) {
    forall s, t :: s in was && t in was && (s !in after || after[s] != was[s]) && t in after && after[t] == was[t] ==>
      was[s].arrival <= was[t].arrival
  }

  /** The cache holds no more than it may. */
  ghost predicate Fits(sources: map<nat, Source>) {
    |sources| <= 512
  }

  lemma CachesRecent(was: map<nat, Source>, p: Packet, now: int, after: map<nat, Source>)
    requires |p| >= 12 && Caches(was, p, now, after) && Fits(was) && AllRecent(was, now)
    ensures Fits(after) && AllRecent(after, now)
  {
    hide Sequence;
    var key := Sequence(p);
    if key !in was {
      if |was| < MAX_CACHED {
        OneMore(was, key, Source(p, now));
      } else {
        var oldest: nat :| FirstSource(was, oldest) && after == (was - {oldest})[key := Source(p, now)];
        assert oldest in was;
        hide FirstSource;
        OneLess(was, oldest);
        OneMore(was - {oldest}, key, Source(p, now));
      }
    }
  }

  lemma {:induction false} CachesAllRecent(was: map<nat, Source>, packets: seq<Packet>, now: int, after: map<nat, Source>)
    requires LongEnough(packets) && CachesAll(was, packets, now, after) && Fits(was) && AllRecent(was, now)
    ensures Fits(after) && AllRecent(after, now)
  {
    hide Caches;
    hide Fits;
    hide AllRecent;
    if packets != [] {
      var n := |packets| - 1;
      var mid :| CachesAll(was, packets[..n], now, mid) && Caches(mid, packets[n], now, after);
      CachesAllRecent(was, packets[..n], now, mid);
      CachesRecent(mid, packets[n], now, after);
    }
  }

  /** What is gone stays gone, or comes back with a new arrival. */
  lemma DropsTwice(was: map<nat, Source>, mid: map<nat, Source>, after: map<nat, Source>, p: Packet, now: int)
    requires |p| >= 12 && OldestLeft(was, mid) && Caches(mid, p, now, after)
    requires forall s :: s in was ==> was[s].arrival <= now
    requires NewIsNow(was, mid, now)
    ensures OldestLeft(was, after) && NewIsNow(was, after, now)
  {
    hide Sequence;
  }

  /** Every entry that is not one of those there before arrived now. */
  ghost predicate NewIsNow(was: map<nat, Source>, after: map<nat, Source>, now: int) {
    forall s :: s in after && !(s in was && was[s] == after[s]) ==> after[s].arrival == now
  }

  lemma {:induction false} CachesAllDrops(was: map<nat, Source>, packets: seq<Packet>, now: int, after: map<nat, Source>)
    requires LongEnough(packets) && CachesAll(was, packets, now, after) && AllRecent(was, now)
    ensures OldestLeft(was, after) && NewIsNow(was, after, now)
  {
    hide Caches;
    hide OldestLeft;
    if packets != [] {
      var n := |packets| - 1;
      var mid :| CachesAll(was, packets[..n], now, mid) && Caches(mid, packets[n], now, after);
      CachesAllDrops(was, packets[..n], now, mid);
      DropsTwice(was, mid, after, packets[n], now);
    } else {
      SameLeft(was);
    }
  }

  lemma SameLeft(was: map<nat, Source>)
    ensures OldestLeft(was, was)
  {
  }

  // ----- The blocks kept -----

  ghost predicate BlocksRecent(blocks: map<Key, Block>, now: int) {
    |blocks| <= 64 && forall key :: key in blocks ==> Recent(blocks[key].arrival, now)
  }

  /** A block that left a full table was opened no later than any that stays. */
  ghost predicate FirstLeft(was: map<Key, Block>, after: map<Key, Block>) {
    && (forall key :: key in was && key in after ==> after[key].arrival == was[key].arrival)
    && forall key, other :: key in was && other in was && key !in after && other in after ==> was[key].arrival <= was[other].arrival
  }

  lemma ReportsArrival(b: Block, cache: map<nat, Source>, matrix: Matrices, codec: bool, media: Stream, after: Block, packets: seq<Packet>)
    requires Shared(matrix) && Reports(b, cache, matrix, codec, media, after, packets)
    ensures after.arrival == b.arrival
  {
    hide Recovers;
  }

  /** One block more, opened now, in the place of the first if need be. */
  lemma OneOpened(was: map<Key, Block>, kept: map<Key, Block>, key: Key, b: Block, now: int)
    requires BlocksRecent(was, now) && key !in was && b.arrival == now && |kept| < 64
    requires kept == was || exists first :: FirstBlock(was, first) && kept == was - {first}
    ensures BlocksRecent(kept[key := b], now) && FirstLeft(was, kept[key := b])
  {
    hide NotAfter;
    RtpReceiver.OneMore(kept, key, b);
  }

  lemma OpensRecent(was: map<Key, Block>, info: RepairInfo, now: int, mid: map<Key, Block>)
    requires Opens(was, info, now, mid) && BlocksRecent(was, now)
    ensures BlocksRecent(mid, now) && FirstLeft(was, mid)
  {
    hide FirstBlock;
    hide FirstLeft;
    NoneLeft(was);
    var key := (info.timestamp, info.base);
    if key !in was {
      if |was| < MAX_BLOCKS {
        OneOpened(was, was, key, EmptyBlock(info, now), now);
      } else {
        var oldest :| FirstBlock(was, oldest) && mid == (was - {oldest})[key := EmptyBlock(info, now)];
        FirstIs(was, oldest);
        OneLess(was, oldest);
        OneOpened(was, was - {oldest}, key, EmptyBlock(info, now), now);
      }
    }
  }

  lemma FirstIs(was: map<Key, Block>, key: Key)
    requires FirstBlock(was, key)
    ensures key in was
  {
  }

  lemma RepairedRecent(was: map<Key, Block>, info: RepairInfo, now: int, cache: map<nat, Source>, matrix: Matrices, codec: bool,
                       media: Stream, after: map<Key, Block>, recovered: seq<Packet>)
    requires Shared(matrix) && Repaired(was, info, now, cache, matrix, codec, media, after, recovered) && BlocksRecent(was, now)
    ensures BlocksRecent(after, now) && FirstLeft(was, after)
  {
    hide Reports;
    hide Opens;
    var key := (info.timestamp, info.base);
    var mid: map<Key, Block> :| Opens(was, info, now, mid) && key in mid && key in after
      && (if Files(mid[key], info) then
            && after == mid[key := after[key]]
            && Reports(WithRepair(mid[key], info), cache, matrix, codec, media, after[key], recovered)
          else after == mid && recovered == []);
    OpensRecent(was, info, now, mid);
    if Files(mid[key], info) {
      ReportsArrival(WithRepair(mid[key], info), cache, matrix, codec, media, after[key], recovered);
      RtpReceiver.OneMore(mid, key, after[key]);
    }
  }

  lemma ListenedRecent(was: map<Key, Block>, cache: map<nat, Source>, matrix: Matrices, codec: bool, media: Stream,
                       after: map<Key, Block>, recovered: seq<Packet>, now: int)
    requires Shared(matrix) && Listened(was, cache, matrix, codec, media, after, recovered) && BlocksRecent(was, now)
    ensures BlocksRecent(after, now) && FirstLeft(was, after)
  {
    hide Reports;
    hide Strung;
    hide Ascending;
    var order, parts :| InOrder(was, cache, matrix, codec, media, after, recovered, order, parts);
    SmallerMap(was, after);
    forall key | key in was ensures key in after && after[key].arrival == was[key].arrival {
      assert key in after.Keys;
      ReportsArrival(was[key], cache, matrix, codec, media, after[key], parts[key]);
    }
    forall key | key in after ensures key in was {
      assert key in after.Keys;
    }
  }

  /** What is still in the window. */
  function StillIn(was: Held, now: int): Held {
    Held(map s | s in was.sources && Recent(was.sources[s].arrival, now) :: was.sources[s],
         map key | key in was.blocks && Recent(was.blocks[key].arrival, now) :: was.blocks[key])
  }

  lemma StillInIs(was: Held, now: int)
    ensures was.Live(now) == StillIn(was, now)
    ensures |was.sources| <= 512 && |was.blocks| <= 64 ==>
      Fits(StillIn(was, now).sources) && AllRecent(StillIn(was, now).sources, now) && BlocksRecent(StillIn(was, now).blocks, now)
  {
    var in_ := StillIn(was, now);
    assert was.Live(now).sources == in_.sources && was.Live(now).blocks == in_.blocks;
    SmallerMap(was.sources, in_.sources);
    SmallerMap(was.blocks, in_.blocks);
  }

  /**
   After every packet, whatever it is: nothing held is 150 ms old, there are at most
   512 packets and 64 blocks, and of what was still in the window the first to have
   come have made room.
   */
  lemma HearsKeepsRecent(was: Held, p: Packet, now: int, codec: bool, matrix: Matrices, media: Stream, repairSsrc: nat,
                         after: Held, recovered: seq<Packet>)
    requires Shared(matrix) && Hears(was, p, now, codec, matrix, media, repairSsrc, after, recovered)
    requires |was.sources| <= 512 && |was.blocks| <= 64
    ensures Fits(after.sources) && AllRecent(after.sources, now) && BlocksRecent(after.blocks, now)
    ensures FirstLeft(StillIn(was, now).blocks, after.blocks)
    ensures OldestLeft(StillIn(was, now).sources, after.sources) && NewIsNow(StillIn(was, now).sources, after.sources, now)
  {
    StillInIs(was, now);
    var live := StillIn(was, now);
    hide StillIn;
    hide Listened;
    hide Repaired;
    hide CachesAll;
    hide Caches;
    hide IsMedia;
    hide HeaderSize;
    hide RepairOk;
    hide ReadRepair;
    hide Fits;
    hide AllRecent;
    hide BlocksRecent;
    hide OldestLeft;
    hide NewIsNow;
    hide LiveSources;
    hide LiveBlocks;
    var cache :| HearsWith(live, p, now, codec, matrix, media, repairSsrc, cache, after, recovered);
    if IsMedia(p, media) {
      MediaSize(p, media);
      ListenedRecent(live.blocks, cache, matrix, codec, media, after.blocks, recovered, now);
      MoreCached(live.sources, p, cache, recovered, now, after.sources);
    } else {
      if IsRepair(p, media, repairSsrc) {
        RepairedRecent(live.blocks, ReadRepair(p, HeaderSize(p)), now, cache, matrix, codec, media, after.blocks, recovered);
      } else {
        NoneLeft(live.blocks);
      }
      CachesAllRecent(live.sources, recovered, now, after.sources);
      CachesAllDrops(live.sources, recovered, now, after.sources);
    }
  }

  lemma NoneLeft(was: map<Key, Block>)
    ensures FirstLeft(was, was)
  {
  }

  /** One packet kept, then others: as if all were kept one after the other. */
  lemma MoreCached(was: map<nat, Source>, p: Packet, cache: map<nat, Source>, packets: seq<Packet>, now: int, after: map<nat, Source>)
    requires |p| >= 12 && Caches(was, p, now, cache) && LongEnough(packets) && CachesAll(cache, packets, now, after)
    requires Fits(was) && AllRecent(was, now)
    ensures Fits(after) && AllRecent(after, now) && OldestLeft(was, after) && NewIsNow(was, after, now)
  {
    hide Fits;
    hide Caches;
    hide CachesAll;
    hide OldestLeft;
    hide NewIsNow;
    assert LongEnough([p] + packets);
    Prepended(was, p, cache, packets, now, after);
    CachesAllRecent(was, [p] + packets, now, after);
    CachesAllDrops(was, [p] + packets, now, after);
  }

  lemma {:induction false} Prepended(was: map<nat, Source>, p: Packet, cache: map<nat, Source>, packets: seq<Packet>, now: int,
                                     after: map<nat, Source>)
    requires |p| >= 12 && Caches(was, p, now, cache) && LongEnough(packets) && CachesAll(cache, packets, now, after)
    ensures LongEnough([p] + packets) && CachesAll(was, [p] + packets, now, after)
  {
    hide Caches;
    var all := [p] + packets;
    if packets == [] {
      assert all == [p] && all[..0] == [];
      assert CachesAll(was, all[..0], now, was) && Caches(was, all[0], now, after);
    } else {
      var n := |packets| - 1;
      var mid :| CachesAll(cache, packets[..n], now, mid) && Caches(mid, packets[n], now, after);
      Prepended(was, p, cache, packets[..n], now, mid);
      assert all[..n + 1] == [p] + packets[..n] && all[n + 1] == packets[n];
    }
  }
}
