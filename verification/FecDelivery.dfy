/**
 What a receiver can recover it does recover, over every run of the link in
 which the codec never fails to build its matrix.
 */
module FecDelivery {
  import opened Common
  import opened GF256
  import opened LinearSystem
  import opened RsCode
  import opened FecCodec
  import opened RtpWire
  import opened FecTranscript
  import opened RtpSender
  import opened RtpReceiver
  import opened FecLink

  /** How many symbols of an open block the receiver has at hand. */
  function AtHand(sources: map<nat, Source>, b: Block): nat
    requires b.r <= |b.present|
  {
    Have(CachedAll(sources, b)) + CountSeen(b.present, b.r)
  }

  /** The block is one the sender cut, and all its packets are known. */
  ghost predicate Served(b: Block, t: Transcript, matrix: Matrices, media: Stream, known: set<Packet>)
    requires Shared(matrix)
  {
    exists j :: 0 <= j < |t.blocks| && Matches(b, t.blocks[j], matrix, media) && forall q :: q in t.blocks[j].packets ==> q in known
  }

  ghost predicate Lacks(sources: map<nat, Source>, b: Block) {
    b.Valid() && !b.done && AtHand(sources, b) < b.k
  }

  /** Everything kept is known, and every block either lacks symbols or has been served. */
  ghost predicate Settled(h: Held, t: Transcript, matrix: Matrices, media: Stream, known: set<Packet>)
    requires Shared(matrix)
  {
    && (forall s :: s in h.sources ==> h.sources[s].bytes in known)
    && forall key :: key in h.blocks ==> Lacks(h.sources, h.blocks[key]) || Served(h.blocks[key], t, matrix, media, known)
  }

  /** Every square submatrix of every matrix is non-singular, and the media stream has one payload type. */
  ghost predicate Able(matrix: Matrices, media: Stream, sent: seq<Packet>)
    requires Shared(matrix)
  {
    && (forall k: nat, r: nat :: SupportsSmallRs(k, r) ==> AllSubmatricesNonSingular(matrix(k, r), k))
    && forall q :: q in sent && |q| >= 12 ==> PayloadType(q) == media.payloadType
  }

  // ----- Counting -----

  lemma {:induction false} CountLess(f: seq<bool>, g: seq<bool>, n: nat)
    requires n <= |f| && n <= |g| && forall i :: 0 <= i < n && f[i] ==> g[i]
    ensures CountSeen(f, n) <= CountSeen(g, n)
  {
    if n > 0 {
      CountLess(f, g, n - 1);
    }
  }

  /** Every packet of the block cached now was cached before. */
  ghost predicate NoneNew(sources: map<nat, Source>, was: map<nat, Source>, b: Block) {
    forall i :: 0 <= i < b.k && Cached(sources, b, i).Some? ==> Cached(was, b, i).Some?
  }

  lemma StillLacks(sources: map<nat, Source>, was: map<nat, Source>, b: Block)
    requires Lacks(was, b) && NoneNew(sources, was, b)
    ensures Lacks(sources, b)
  {
    hide Cached;
    var c, d := CachedAll(sources, b), CachedAll(was, b);
    CountLess(Flags(c), Flags(d), b.k);
  }

  // ----- One decision -----

  /** A block of the sender's, tried: it lacks symbols and stays, or is done with all its packets cached or recovered. */
  lemma Decision(b: Block, c: seq<Option<Packet>>, sb: SentBlock, matrix: Matrices, media: Stream, after: Block, recovered: seq<Packet>)
    requires Shared(matrix) && Matches(b, sb, matrix, media) && !b.done && CachedFrom(c, sb.packets)
    requires Decides(b, c, Some(matrix(b.k, b.r)), media, after, recovered)
    requires AllSubmatricesNonSingular(matrix(b.k, b.r), b.k)
    requires forall i :: 0 <= i < |sb.packets| ==> PayloadType(sb.packets[i]) == media.payloadType
    ensures Matches(after, sb, matrix, media)
    ensures if Have(c) + CountSeen(b.present, b.r) < b.k then after == b && recovered == []
            else after.done && recovered == Absent(sb.packets, c, b.k)
  {
    hide Timestamp;
    hide Sequence;
    hide Ssrc;
    hide HeaderSize;
    hide BlockSize;
    hide Codeword;
    hide AllSubmatricesNonSingular;
    hide PayloadType;
    HonestFits(c, sb);
    HonestDecision(b, c, sb, matrix, true, media, after, recovered);
    if Have(c) == b.k {
      AllThere(c, b.k);
      NoneAbsent(sb.packets, c, b.k);
    }
  }

  lemma {:induction false} AllThere(c: seq<Option<Packet>>, n: nat)
    requires n <= |c| && CountSeen(Flags(c), n) == n
    ensures forall i :: 0 <= i < n ==> c[i].Some?
  {
    if n > 0 {
      CountBound(Flags(c), n - 1);
      AllThere(c, n - 1);
    }
  }

  lemma {:induction false} CountBound(f: seq<bool>, n: nat)
    requires n <= |f|
    ensures CountSeen(f, n) <= n
  {
    if n > 0 {
      CountBound(f, n - 1);
    }
  }

  lemma {:induction false} NoneAbsent(packets: seq<Packet>, c: seq<Option<Packet>>, n: nat)
    requires n <= |c| && n <= |packets| && forall i :: 0 <= i < n ==> c[i].Some?
    ensures Absent(packets, c, n) == []
  {
    if n > 0 {
      NoneAbsent(packets, c, n - 1);
    }
  }

  lemma {:induction false} AbsentHas(packets: seq<Packet>, c: seq<Option<Packet>>, n: nat, i: nat)
    requires i < n <= |c| && n <= |packets| && c[i].None?
    ensures packets[i] in Absent(packets, c, n)
  {
    if i < n - 1 {
      AbsentHas(packets, c, n - 1, i);
    }
  }

  /** The packets come from a block of the sender's that is done. */
  ghost predicate From(after: Block, j: nat, recovered: seq<Packet>, t: Transcript, matrix: Matrices, media: Stream)
    requires Shared(matrix)
  {
    j < |t.blocks| && Matches(after, t.blocks[j], matrix, media) && after.done && forall q :: q in recovered ==> q in t.blocks[j].packets
  }

  /** One block tried, in an honest run. */
  lemma Tries(b: Block, cache: map<nat, Source>, matrix: Matrices, media: Stream, repairSsrc: nat, t: Transcript,
              after: Block, recovered: seq<Packet>, known: set<Packet>)
    requires Shared(matrix) && t.Honest(repairSsrc) && Able(matrix, media, t.sent) && !b.done
    requires Reports(b, cache, matrix, true, media, after, recovered)
    requires FromSender(b, t, matrix, media) && TrueSources(cache, t)
    requires (forall s :: s in cache ==> cache[s].bytes in known) && forall q :: q in recovered ==> q in known
    ensures Lacks(cache, after) || Served(after, t, matrix, media, known)
    ensures recovered == [] || exists j: nat :: From(after, j, recovered, t, matrix, media)
  {
    hide Decides;
    hide TrueSources;
    hide Transcript.DistinctKeys;
    hide Transcript.OneRepairStream;
    hide Consecutive;
    hide Codeword;
    hide PayloadType;
    hide Timestamp;
    hide Sequence;
    hide Ssrc;
    hide HeaderSize;
    hide BlockSize;
    var j :| 0 <= j < |t.blocks| && Matches(b, t.blocks[j], matrix, media);
    var sb, c := t.blocks[j], CachedAll(cache, b);
    CachedIsTrue(b, cache, t, j, matrix, media);
    BlockTyped(t, j, media, matrix);
    Decision(b, c, sb, matrix, media, after, recovered);
    if AtHand(cache, b) >= b.k {
      forall i | 0 <= i < b.k ensures sb.packets[i] in known {
        if c[i].None? {
          AbsentHas(sb.packets, c, b.k, i);
        } else {
          CachedKnown(b, cache, i, known);
        }
      }
      assert From(after, j, recovered, t, matrix, media);
    }
  }

  lemma CachedKnown(b: Block, cache: map<nat, Source>, i: nat, known: set<Packet>)
    requires Cached(cache, b, i).Some? && forall s :: s in cache ==> cache[s].bytes in known
    ensures Cached(cache, b, i).value in known
  {
  }

  lemma BlockTyped(t: Transcript, j: nat, media: Stream, matrix: Matrices)
    requires Shared(matrix) && t.WellFormed() && j < |t.blocks| && Able(matrix, media, t.sent)
    ensures forall i :: 0 <= i < |t.blocks[j].packets| ==> PayloadType(t.blocks[j].packets[i]) == media.payloadType
  {
    hide PayloadType;
    hide HeaderSize;
    hide Ssrc;
    hide Timestamp;
    hide Sequence;
    forall i | 0 <= i < |t.blocks[j].packets| ensures PayloadType(t.blocks[j].packets[i]) == media.payloadType {
      BlockPacketSent(t, j, i);
      ProtectableLength(t.blocks[j].packets[i]);
    }
  }

  // ----- What is recovered belongs to no other block -----

  /** The packet belongs at position `i` of the block. */
  predicate Fits(q: Packet, b: Block, i: nat)
    requires |q| >= 12
  {
    Timestamp(q) == b.timestamp && Sequence(q) == (b.base + i) % 0x1_0000
  }

  /** The packet has no place in the block. */
  ghost predicate Quiet(q: Packet, b: Block) {
    |q| >= 12 && forall i :: 0 <= i < b.k ==> !Fits(q, b, i)
  }

  lemma CachesQuiet(was: map<nat, Source>, q: Packet, now: int, after: map<nat, Source>, b: Block)
    requires Quiet(q, b) && Caches(was, q, now, after)
    ensures NoneNew(after, was, b)
  {
    hide Timestamp;
    hide Sequence;
    hide FirstSource;
    forall i | 0 <= i < b.k && Cached(after, b, i).Some? ensures Cached(was, b, i).Some? {
      assert !Fits(q, b, i);
    }
  }

  lemma {:induction false} CachesAllQuiet(was: map<nat, Source>, packets: seq<Packet>, now: int, after: map<nat, Source>, b: Block)
    requires LongEnough(packets) && CachesAll(was, packets, now, after) && forall q :: q in packets ==> Quiet(q, b)
    ensures NoneNew(after, was, b)
  {
    hide Quiet;
    hide Caches;
    hide Cached;
    if packets != [] {
      var n := |packets| - 1;
      var mid :| CachesAll(was, packets[..n], now, mid) && Caches(mid, packets[n], now, after);
      CachesAllQuiet(was, packets[..n], now, mid, b);
      CachesQuiet(mid, packets[n], now, after, b);
    }
  }

  /** The packets of one block have no place in another. */
  lemma Elsewhere(b: Block, done: Block, t: Transcript, j: nat, matrix: Matrices, media: Stream, recovered: seq<Packet>, q: Packet)
    requires Shared(matrix) && t.WellFormed() && t.DistinctKeys()
    requires FromSender(b, t, matrix, media) && From(done, j, recovered, t, matrix, media) && q in recovered
    requires (b.timestamp, b.base) != (done.timestamp, done.base)
    ensures Quiet(q, b)
  {
    hide Timestamp;
    hide Sequence;
    hide Ssrc;
    hide HeaderSize;
    hide BlockSize;
    hide Codeword;
    hide Consecutive;
    hide Transcript.DistinctKeys;
    var l :| 0 <= l < |t.blocks| && Matches(b, t.blocks[l], matrix, media);
    var x :| 0 <= x < |t.blocks[j].packets| && t.blocks[j].packets[x] == q;
    assert l != j;
    PacketSize(t, j, x);
    forall i | 0 <= i < b.k ensures !Fits(q, b, i) {
      Apart(t, l, i, j, x);
    }
  }

  lemma PacketSize(t: Transcript, j: nat, x: nat)
    requires t.WellFormed() && j < |t.blocks| && x < |t.blocks[j].packets|
    ensures |t.blocks[j].packets[x]| >= 12
  {
    hide HeaderSize;
    ProtectableLength(t.blocks[j].packets[x]);
  }

  /** Packets of two blocks differ in timestamp or sequence number. */
  lemma Apart(t: Transcript, l: nat, i: nat, j: nat, x: nat)
    requires t.WellFormed() && t.DistinctKeys() && l < |t.blocks| && j < |t.blocks| && l != j
    requires i < |t.blocks[l].packets| && x < |t.blocks[j].packets|
    ensures |t.blocks[j].packets[x]| >= 12 && |t.blocks[l].packets[0]| >= 12
    ensures var q, first := t.blocks[j].packets[x], t.blocks[l].packets[0];
      Timestamp(q) != Timestamp(first) || Sequence(q) != (Sequence(first) + i) % 0x1_0000
  {
    hide Timestamp;
    hide Sequence;
    hide Ssrc;
    hide HeaderSize;
    hide BlockSize;
    PacketSize(t, j, x);
    PacketSize(t, l, i);
    PacketSize(t, l, 0);
    ConsecutiveFrom(t.blocks[l].packets, i);
    hide Consecutive;
    SamePlace(t, l, j);
    assert t.blocks[l].packets[i] == t.sent[t.blocks[l].start + i];
    assert t.blocks[j].packets[x] == t.sent[t.blocks[j].start + x];
    DistinctAt(t, t.blocks[l].start + i, t.blocks[j].start + x);
  }

  /** Blocks of the sender that overlap are the same one. */
  lemma SamePlace(t: Transcript, l: nat, j: nat)
    requires t.WellFormed() && l < |t.blocks| && j < |t.blocks|
    ensures l == j || t.blocks[l].start + |t.blocks[l].packets| <= t.blocks[j].start
                   || t.blocks[j].start + |t.blocks[j].packets| <= t.blocks[l].start
  {
  }

  // ----- One packet -----

  lemma ServedMore(b: Block, t: Transcript, matrix: Matrices, media: Stream, known: set<Packet>, more: set<Packet>)
    requires Shared(matrix) && Served(b, t, matrix, media, known) && known <= more
    ensures Served(b, t, matrix, media, more)
  {
    hide Matches;
  }

  lemma LiveSettled(h: Held, now: int, t: Transcript, matrix: Matrices, media: Stream, known: set<Packet>)
    requires Shared(matrix) && Settled(h, t, matrix, media, known)
    ensures Settled(h.Live(now), t, matrix, media, known)
  {
    hide Served;
    hide Lacks;
    var l := h.Live(now);
    forall key | key in l.blocks ensures Lacks(l.sources, l.blocks[key]) || Served(l.blocks[key], t, matrix, media, known) {
      if Lacks(h.sources, h.blocks[key]) {
        StillLacks(l.sources, h.sources, h.blocks[key]);
      }
    }
  }

  /** Every packet recovered comes from a block that is done now. */
  ghost predicate AllFrom(blocks: map<Key, Block>, recovered: seq<Packet>, t: Transcript, matrix: Matrices, media: Stream)
    requires Shared(matrix)
  {
    forall q :: q in recovered ==> exists key, j: nat :: key in blocks && From(blocks[key], j, [q], t, matrix, media)
  }

  /** The blocks are settled, with these packets cached and these recovered but not cached yet. */
  ghost predicate Tested(cache: map<nat, Source>, blocks: map<Key, Block>, recovered: seq<Packet>, t: Transcript, matrix: Matrices,
                         media: Stream, known: set<Packet>)
    requires Shared(matrix)
  {
    && (forall key :: key in blocks ==> Lacks(cache, blocks[key]) || Served(blocks[key], t, matrix, media, known))
    && AllFrom(blocks, recovered, t, matrix, media)
  }

  lemma FromOne(b: Block, j: nat, recovered: seq<Packet>, t: Transcript, matrix: Matrices, media: Stream, q: Packet)
    requires Shared(matrix) && From(b, j, recovered, t, matrix, media) && q in recovered
    ensures From(b, j, [q], t, matrix, media)
  {
  }

  /** Trying every block settles them. */
  lemma ListenedTests(was: map<Key, Block>, cache: map<nat, Source>, matrix: Matrices, media: Stream, repairSsrc: nat, t: Transcript,
                      after: map<Key, Block>, recovered: seq<Packet>, known: set<Packet>)
    requires Shared(matrix) && t.Honest(repairSsrc) && Able(matrix, media, t.sent)
    requires Listened(was, cache, matrix, true, media, after, recovered)
    requires (forall key :: key in was ==> FromSender(was[key], t, matrix, media)) && TrueSources(cache, t)
    requires forall key :: key in was && was[key].done ==> Served(was[key], t, matrix, media, known)
    requires (forall s :: s in cache ==> cache[s].bytes in known) && forall q :: q in recovered ==> q in known
    ensures Tested(cache, after, recovered, t, matrix, media, known)
  {
    hide FromSender;
    hide TrueSources;
    hide Served;
    hide Lacks;
    hide Able;
    hide From;
    hide NotAfter;
    hide Reports;
    hide Transcript.Honest;
    var order, parts :| InOrder(was, cache, matrix, true, media, after, recovered, order, parts);
    PartsIn(order, parts, recovered);
    forall key | key in after
      ensures Lacks(cache, after[key]) || Served(after[key], t, matrix, media, known)
      ensures forall q :: q in parts[key] ==> exists j: nat :: From(after[key], j, [q], t, matrix, media)
    {
      if was[key].done {
        DoneStays(was[key], cache, matrix, media, after[key], parts[key]);
      } else {
        Tries(was[key], cache, matrix, media, repairSsrc, t, after[key], parts[key], known);
        if parts[key] != [] {
          var j: nat :| From(after[key], j, parts[key], t, matrix, media);
          forall q | q in parts[key] ensures From(after[key], j, [q], t, matrix, media) {
            FromOne(after[key], j, parts[key], t, matrix, media, q);
          }
        }
      }
    }
    forall q | q in recovered ensures exists key, j: nat :: key in after && From(after[key], j, [q], t, matrix, media) {
      var key :| key in order && q in parts[key];
      var j: nat :| From(after[key], j, [q], t, matrix, media);
    }
  }

  lemma DoneStays(b: Block, cache: map<nat, Source>, matrix: Matrices, media: Stream, after: Block, packets: seq<Packet>)
    requires Shared(matrix) && b.done && Reports(b, cache, matrix, true, media, after, packets)
    ensures after == b && packets == []
  {
  }

  lemma {:induction false} PartsIn(order: seq<Key>, parts: map<Key, seq<Packet>>, all: seq<Packet>)
    requires (forall key :: key in order ==> key in parts) && all == Strung(order, parts)
    ensures forall key, q :: key in order && q in parts[key] ==> q in all
  {
    if order != [] {
      var n := |order| - 1;
      assert forall key :: key in order[..n] ==> key in order;
      PartsIn(order[..n], parts, Strung(order[..n], parts));
      assert forall key :: key in order <==> key in order[..n] || key == order[n];
    }
  }

  /** A repair of the sender's settles its block. */
  lemma RepairedTests(was: map<Key, Block>, info: RepairInfo, now: int, cache: map<nat, Source>, matrix: Matrices, media: Stream,
                      repairSsrc: nat, t: Transcript, after: map<Key, Block>, recovered: seq<Packet>, known: set<Packet>)
    requires Shared(matrix) && t.Honest(repairSsrc) && Able(matrix, media, t.sent) && media.ssrc != repairSsrc
    requires Repaired(was, info, now, cache, matrix, true, media, after, recovered) && Keyed(was)
    requires IsInfo(info, t, matrix, media) && info.k <= info.id < info.k + info.r
    requires Faithful(cache, was, t, matrix, media, repairSsrc)
    requires Tested(cache, was, [], t, matrix, media, known)
    requires (forall s :: s in cache ==> cache[s].bytes in known) && forall q :: q in recovered ==> q in known
    ensures Tested(cache, after, recovered, t, matrix, media, known)
  {
    hide FromSender;
    hide TrueSources;
    hide Served;
    hide Lacks;
    hide Able;
    hide From;
    hide Reports;
    hide IsInfo;
    hide FirstBlock;
    hide Transcript.Honest;
    hide WithRepair;
    var key := (info.timestamp, info.base);
    var mid: map<Key, Block> :| Opens(was, info, now, mid) && key in mid && key in after
      && (if Files(mid[key], info) then
            && after == mid[key := after[key]]
            && Reports(WithRepair(mid[key], info), cache, matrix, true, media, after[key], recovered)
          else after == mid && recovered == []);
    OpensHonest(cache, was, info, now, mid, t, matrix, media, repairSsrc);
    OpensKeyed(was, info, now, mid);
    if Files(mid[key], info) {
      FiledHonest(cache, mid, key, info, t, matrix, media, repairSsrc);
      var b := WithRepair(mid[key], info);
      assert FromSender(mid[key := b][key], t, matrix, media);
      FiledOpen(mid[key], info);
      Tries(b, cache, matrix, media, repairSsrc, t, after[key], recovered, known);
      forall q | q in recovered ensures exists k, j: nat :: k in after && From(after[k], j, [q], t, matrix, media) {
        var j: nat :| From(after[key], j, recovered, t, matrix, media);
        FromOne(after[key], j, recovered, t, matrix, media, q);
      }
    }
  }

  lemma FiledOpen(b: Block, info: RepairInfo)
    requires Files(b, info)
    ensures !WithRepair(b, info).done
  {
  }

  /** Keeping what was recovered leaves the blocks settled. */
  lemma CachedSettled(cache: map<nat, Source>, blocks: map<Key, Block>, recovered: seq<Packet>, now: int, sources: map<nat, Source>,
                      t: Transcript, matrix: Matrices, media: Stream, known: set<Packet>)
    requires Shared(matrix) && t.WellFormed() && t.DistinctKeys() && Keyed(blocks)
    requires LongEnough(recovered) && CachesAll(cache, recovered, now, sources)
    requires Tested(cache, blocks, recovered, t, matrix, media, known)
    requires forall key :: key in blocks ==> FromSender(blocks[key], t, matrix, media)
    ensures forall key :: key in blocks ==> Lacks(sources, blocks[key]) || Served(blocks[key], t, matrix, media, known)
  {
    hide FromSender;
    hide Served;
    hide From;
    hide CachesAll;
    hide Quiet;
    hide AtHand;
    hide Transcript.WellFormed;
    hide Transcript.DistinctKeys;
    forall key | key in blocks && Lacks(cache, blocks[key]) ensures Lacks(sources, blocks[key]) {
      forall q | q in recovered ensures Quiet(q, blocks[key]) {
        var done, j: nat :| done in blocks && From(blocks[done], j, [q], t, matrix, media);
        FromDone(blocks[done], j, [q], t, matrix, media);
        Elsewhere(blocks[key], blocks[done], t, j, matrix, media, [q], q);
      }
      CachesAllQuiet(cache, recovered, now, sources, blocks[key]);
      StillLacks(sources, cache, blocks[key]);
    }
  }

  lemma FromDone(b: Block, j: nat, recovered: seq<Packet>, t: Transcript, matrix: Matrices, media: Stream)
    requires Shared(matrix) && From(b, j, recovered, t, matrix, media)
    ensures b.done
  {
  }

  lemma CachesKnown(was: map<nat, Source>, p: Packet, now: int, after: map<nat, Source>, known: set<Packet>)
    requires |p| >= 12 && Caches(was, p, now, after) && p in known && forall s :: s in was ==> was[s].bytes in known
    ensures forall s :: s in after ==> after[s].bytes in known
  {
    hide FirstSource;
  }

  lemma {:induction false} CachesAllKnown(was: map<nat, Source>, packets: seq<Packet>, now: int, after: map<nat, Source>, known: set<Packet>)
    requires LongEnough(packets) && CachesAll(was, packets, now, after)
    requires (forall q :: q in packets ==> q in known) && forall s :: s in was ==> was[s].bytes in known
    ensures forall s :: s in after ==> after[s].bytes in known
  {
    hide Caches;
    if packets != [] {
      var n := |packets| - 1;
      var mid :| CachesAll(was, packets[..n], now, mid) && Caches(mid, packets[n], now, after);
      CachesAllKnown(was, packets[..n], now, mid, known);
      CachesKnown(mid, packets[n], now, after, known);
    }
  }

  lemma HearsSettles(was: Held, p: Packet, now: int, matrix: Matrices, media: Stream, repairSsrc: nat, after: Held,
                     recovered: seq<Packet>, t: Transcript, known: set<Packet>, more: set<Packet>)
    requires Shared(matrix) && Arrives(p, t, matrix, repairSsrc) && Able(matrix, media, t.sent) && media.ssrc != repairSsrc
    requires Hears(was, p, now, true, matrix, media, repairSsrc, after, recovered) && Keyed(was.blocks)
    requires Faithful(was.sources, was.blocks, t, matrix, media, repairSsrc) && Settled(was, t, matrix, media, known)
    requires known <= more && p in more && forall q :: q in recovered ==> q in more
    ensures Settled(after, t, matrix, media, more)
  {
    hide Served;
    hide Able;
    hide Lacks;
    hide FromSender;
    hide TrueSources;
    hide Caches;
    hide CachesAll;
    hide Listened;
    hide Repaired;
    hide AllFrom;
    hide Transcript.WellFormed;
    hide Transcript.DistinctKeys;
    hide Transcript.OneRepairStream;
    hide Transcript.OnWire;
    hide HeaderSize;
    hide RepairOk;
    hide ReadRepair;
    hide Ssrc;
    hide PayloadType;
    hide IsInfo;
    hide LiveSources;
    hide LiveBlocks;
    hide Keyed;
    var live := was.Live(now);
    var cache :| HearsWith(live, p, now, true, matrix, media, repairSsrc, cache, after, recovered);
    LiveSettled(was, now, t, matrix, media, known);
    LiveKeyed(was, now);
    ExpiryKeeps(was.sources, was.blocks, now, t, matrix, media, repairSsrc);
    HearsHonest(was, p, now, true, matrix, media, repairSsrc, after, recovered, t);
    HearsKeyed(was, p, now, true, matrix, media, repairSsrc, after, recovered);
    SettledMore(live, t, matrix, media, known, more);
    if IsMedia(p, media) {
      MediaSize(p, media);
      MediaKept(p, now, was.sources, was.blocks, t, matrix, media, repairSsrc);
      CachesHonest(live.sources, p, now, cache, live.blocks, t, matrix, media, repairSsrc);
      CachesKnown(live.sources, p, now, cache, more);
      DoneServed(live, t, matrix, media, more);
      ListenedTests(live.blocks, cache, matrix, media, repairSsrc, t, after.blocks, recovered, more);
    } else if IsRepair(p, media, repairSsrc) {
      RepairOkFacts(p, HeaderSize(p), media.ssrc);
      HonestRepair(p, t, matrix, repairSsrc, media);
      NothingFrom(live.blocks, t, matrix, media);
      RepairedTests(live.blocks, ReadRepair(p, HeaderSize(p)), now, cache, matrix, media, repairSsrc, t, after.blocks, recovered, more);
    } else {
      NothingFrom(live.blocks, t, matrix, media);
    }
    CachedSettled(cache, after.blocks, recovered, now, after.sources, t, matrix, media, more);
    CachesAllKnown(cache, recovered, now, after.sources, more);
  }

  lemma LiveKeyed(h: Held, now: int)
    requires Keyed(h.blocks)
    ensures Keyed(h.Live(now).blocks)
  {
  }

  lemma NothingFrom(blocks: map<Key, Block>, t: Transcript, matrix: Matrices, media: Stream)
    requires Shared(matrix)
    ensures AllFrom(blocks, [], t, matrix, media)
  {
  }

  lemma SettledMore(h: Held, t: Transcript, matrix: Matrices, media: Stream, known: set<Packet>, more: set<Packet>)
    requires Shared(matrix) && Settled(h, t, matrix, media, known) && known <= more
    ensures Settled(h, t, matrix, media, more)
  {
    hide Served;
    hide Lacks;
    forall key | key in h.blocks && Served(h.blocks[key], t, matrix, media, known) ensures Served(h.blocks[key], t, matrix, media, more) {
      ServedMore(h.blocks[key], t, matrix, media, known, more);
    }
  }

  lemma DoneServed(h: Held, t: Transcript, matrix: Matrices, media: Stream, known: set<Packet>)
    requires Shared(matrix) && Settled(h, t, matrix, media, known)
    ensures forall key :: key in h.blocks && h.blocks[key].done ==> Served(h.blocks[key], t, matrix, media, known)
  {
    hide Served;
  }

  /** What is settled stays so when the sender goes on. */
  lemma SettledGrows(h: Held, t: Transcript, u: Transcript, matrix: Matrices, media: Stream, known: set<Packet>)
    requires Shared(matrix) && Settled(h, t, matrix, media, known) && Extends(t, u)
    ensures Settled(h, u, matrix, media, known)
  {
    hide Matches;
    hide Lacks;
    forall key | key in h.blocks && Served(h.blocks[key], t, matrix, media, known)
      ensures Served(h.blocks[key], u, matrix, media, known)
    {
      var b := h.blocks[key];
      var j :| 0 <= j < |t.blocks| && Matches(b, t.blocks[j], matrix, media) && forall q :: q in t.blocks[j].packets ==> q in known;
      assert u.blocks[j] == t.blocks[j];
    }
  }

  // ----- Every run -----

  /** The packets a run delivers. */
  function Heard(script: seq<Event>, run: seq<World>): set<Packet>
    requires |run| == |script| + 1
  {
    if script == [] then {}
    else
      var n := |script| - 1;
      var e := script[n];
      Heard(script[..n], run[..n + 1]) + if e.Deliver? && e.index < |run[n].wire| then {run[n].wire[e.index]} else {}
  }

  /** The receiver's codec always builds its matrix. */
  ghost predicate CodecWorks(script: seq<Event>) {
    forall i :: 0 <= i < |script| && script[i].Deliver? ==> script[i].codec
  }

  /** What has arrived or been recovered. */
  function Known(script: seq<Event>, run: seq<World>): set<Packet>
    requires |run| == |script| + 1
  {
    Heard(script, run) + set q | q in run[|script|].reported
  }

  lemma FewerDistinguishable(less: seq<Packet>, more: seq<Packet>, repairSsrc: nat)
    requires Distinguishable(more, repairSsrc) && less <= more
    ensures Distinguishable(less, repairSsrc)
  {
    hide Ssrc;
    hide Timestamp;
    hide Sequence;
    assert forall i :: 0 <= i < |less| ==> less[i] == more[i];
  }

  lemma StepReports(x: Setup, e: Event, w: World, v: World)
    requires x.Valid() && Happens(x, e, w, v)
    ensures w.reported <= v.reported
  {
    hide Sender.Added;
    hide Sender.Expired;
    hide Sender.Open;
    hide Hears;
  }

  lemma {:induction false} RunSettles(x: Setup, script: seq<Event>, run: seq<World>)
    requires x.Valid() && IsRun(x, script, run) && x.media.ssrc != x.repairSsrc && CodecWorks(script)
    requires Distinguishable(Given(script), x.repairSsrc) && Able(x.matrix, x.media, Given(script))
    ensures |run| == |script| + 1
    ensures var w := run[|script|]; Settled(w.held, w.sender.Log(), x.matrix, x.media, Known(script, run))
  {
    hide Linked;
    hide Happens;
    hide Settled;
    hide Distinguishable;
    hide Able;
    RunLinked(x, script, run);
    if script == [] {
      NothingSettled(x);
      assert Known(script, run) == {};
    } else {
      var n := |script| - 1;
      FewerDistinguishable(Given(script[..n]), Given(script), x.repairSsrc);
      StepReports(x, script[n], run[n], run[n + 1]);
      AbleLess(x, Given(script[..n]), Given(script));
      RunSettles(x, script[..n], run[..n + 1]);
      RunLinked(x, script[..n], run[..n + 1]);
      StepSettles(x, script[n], run[n], run[n + 1], Known(script[..n], run[..n + 1]), Known(script, run));
    }
  }

  lemma NothingSettled(x: Setup)
    requires x.Valid()
    ensures Settled(START.held, START.sender.Log(), x.matrix, x.media, {})
  {
  }

  lemma AbleLess(x: Setup, less: seq<Packet>, more: seq<Packet>)
    requires x.Valid() && Able(x.matrix, x.media, more) && less <= more
    ensures Able(x.matrix, x.media, less)
  {
    hide PayloadType;
    hide AllSubmatricesNonSingular;
    assert forall q :: q in less ==> q in more;
  }

  lemma StepSettles(x: Setup, e: Event, w: World, v: World, known: set<Packet>, more: set<Packet>)
    requires x.Valid() && Happens(x, e, w, v) && x.media.ssrc != x.repairSsrc && (e.Deliver? ==> e.codec)
    requires Linked(x, w) && Linked(x, v)
    requires Distinguishable(w.sender.sent, x.repairSsrc) && Able(x.matrix, x.media, w.sender.sent)
    requires Settled(w.held, w.sender.Log(), x.matrix, x.media, known) && known <= more
    requires (forall q :: q in v.reported ==> q in more) && (e.Deliver? && e.index < |w.wire| ==> w.wire[e.index] in more)
    ensures Settled(v.held, v.sender.Log(), x.matrix, x.media, more)
  {
    hide Settled;
    hide Distinguishable;
    hide Able;
    hide Hears;
    hide Faithful;
    hide Sender.Added;
    hide Sender.Expired;
    hide Transcript.Honest;
    hide Arrives;
    hide Sender.Open;
    OpenFacts(w.sender, x.matrix);
    if e.Deliver? {
      if e.index < |w.wire| {
        var t, p := w.sender.Log(), w.wire[e.index];
        var recovered :| Hears(w.held, p, e.now, e.codec, x.matrix, x.media, x.repairSsrc, v.held, recovered)
          && v == w.(held := v.held, reported := w.reported + recovered);
        StreamsAreHonest(t, x.repairSsrc);
        WireArrives(p, t, w.sender.emitted, x.matrix, x.repairSsrc);
        HearsSettles(w.held, p, e.now, x.matrix, x.media, x.repairSsrc, v.held, recovered, t, known, more);
      } else {
        SettledMore(w.held, w.sender.Log(), x.matrix, x.media, known, more);
      }
    } else {
      StepExtends(x, e, w, v);
      SettledGrows(w.held, w.sender.Log(), v.sender.Log(), x.matrix, x.media, known);
      SettledMore(v.held, v.sender.Log(), x.matrix, x.media, known, more);
    }
  }

  lemma StepExtends(x: Setup, e: Event, w: World, v: World)
    requires x.Valid() && Happens(x, e, w, v) && !e.Deliver?
    ensures Extends(w.sender.Log(), v.sender.Log()) && v.held == w.held
  {
    hide Sender.Added;
    hide Sender.Expired;
    hide Sender.Open;
    match e {
      case Send(p, isKeyframe, now, codec) =>
        AddedGoesOn(w.sender, x.matrix, p, x.repairSsrc, now, isKeyframe, codec);
      case Flush(now, codec) =>
        ExpiredGoesOn(w.sender, x.matrix, x.repairSsrc, now, codec);
      case Protect(_, _) =>
      case Forget =>
    }
  }

  /**
   Over every run in which the media packets can be told apart and the codec
   works: once the receiver has had as many symbols of a block at hand as the
   block has packets, every packet of the block has arrived or been recovered.
   */
  lemma Delivers(x: Setup, script: seq<Event>, run: seq<World>, key: Key, j: nat)
    requires x.Valid() && IsRun(x, script, run) && x.media.ssrc != x.repairSsrc && CodecWorks(script)
    requires Distinguishable(Given(script), x.repairSsrc) && Able(x.matrix, x.media, Given(script))
    requires |run| == |script| + 1
    requires var w := run[|script|];
      && key in w.held.blocks && j < |w.sender.blocks| && Matches(w.held.blocks[key], w.sender.blocks[j], x.matrix, x.media)
      && (w.held.blocks[key].done || AtHand(w.held.sources, w.held.blocks[key]) >= w.held.blocks[key].k)
    ensures forall q :: q in run[|script|].sender.blocks[j].packets ==> q in Known(script, run)
  {
    hide IsRun;
    hide Distinguishable;
    hide Able;
    hide Known;
    hide Timestamp;
    hide Sequence;
    hide Ssrc;
    hide Sender.Open;
    hide AtHand;
    hide Sound;
    hide Codeword;
    RunSettles(x, script, run);
    RunLinked(x, script, run);
    var w := run[|script|];
    var t, b := w.sender.Log(), w.held.blocks[key];
    OpenFacts(w.sender, x.matrix);
    StreamsAreHonest(t, x.repairSsrc);
    assert Served(b, t, x.matrix, x.media, Known(script, run));
    var l :| 0 <= l < |t.blocks| && Matches(b, t.blocks[l], x.matrix, x.media)
      && forall q :: q in t.blocks[l].packets ==> q in Known(script, run);
    SameKeySameBlock(t, l, j);
  }

  // ----- Media on the repair stream -----

  /** A repair of a sender's block is a repair to the receiver. */
  lemma RepairSeen(sb: SentBlock, i: nat, matrix: Matrices, media: Stream)
    requires Shared(matrix) && sb.Valid() && i < sb.r && Ssrc(sb.packets[0]) == media.ssrc != sb.repairSsrc
    requires sb.WireSize() <= MAX_WIRE_PACKET
    ensures var p := sb.RepairAt(i, matrix);
      !IsMedia(p, media) && IsRepair(p, media, sb.repairSsrc) && ReadRepair(p, HeaderSize(p)) == InfoOf(sb, i, matrix)
  {
    hide HeaderSize;
    hide RepairPacket;
    hide Codeword;
    hide Read16;
    hide Read32;
    hide BlockSize;
    RepairFields(sb, i, matrix);
    RepairAtReads(sb, i, matrix);
    SizeBound(sb);
    RepairHeaderParses(|sb.packets|, sb.r, |sb.packets| + i, sb.Size(), Ssrc(sb.packets[0]), Sequence(sb.packets[0]));
    var h := sb.HeaderOf(i);
    assert h[0] == h[..6][0] && h[1] == h[..6][1] && h[2] == h[..6][2];
  }

  /** One repair of a block of one packet is enough for a receiver that holds nothing. */
  lemma AloneRecovers(sb: SentBlock, now: int, matrix: Matrices, media: Stream, after: Held, recovered: seq<Packet>)
    requires Shared(matrix) && sb.Valid() && |sb.packets| == sb.r == 1 && sb.WireSize() <= MAX_WIRE_PACKET
    requires Ssrc(sb.packets[0]) == media.ssrc != sb.repairSsrc && PayloadType(sb.packets[0]) == media.payloadType
    requires AllSubmatricesNonSingular(matrix(1, 1), 1)
    requires Hears(Held(map[], map[]), sb.RepairAt(0, matrix), now, true, matrix, media, sb.repairSsrc, after, recovered)
    ensures recovered == sb.packets
  {
    hide HeaderSize;
    hide ReadRepair;
    hide RepairOk;
    hide IsMedia;
    hide IsRepair;
    hide Codeword;
    hide Consecutive;
    hide Ssrc;
    hide PayloadType;
    hide Timestamp;
    hide Sequence;
    hide BlockSize;
    hide AllSubmatricesNonSingular;
    hide Caches;
    hide CachesAll;
    hide Decides;
    hide WithRepair;
    hide EmptyBlock;
    RepairSeen(sb, 0, matrix, media);
    var p, info := sb.RepairAt(0, matrix), InfoOf(sb, 0, matrix);
    var cache :| HearsWith(Held(map[], map[]).Live(now), p, now, true, matrix, media, sb.repairSsrc, cache, after, recovered);
    assert Held(map[], map[]).Live(now) == Held(map[], map[]);
    var b := FreshBlock(sb, now, cache, matrix, media, after.blocks, recovered);
    assert CachedAll(cache, b) == [None];
    Decision(b, [None], sb, matrix, media, after.blocks[(info.timestamp, info.base)], recovered);
    assert Absent(sb.packets, [None], 0) == [];
    assert Absent(sb.packets, [None], 1) == [sb.packets[0]];
  }

  /** The block a lone repair opens, with the repair filed. */
  lemma FreshBlock(sb: SentBlock, now: int, cache: map<nat, Source>, matrix: Matrices, media: Stream,
                   after: map<Key, Block>, recovered: seq<Packet>) returns (b: Block)
    requires Shared(matrix) && sb.Valid() && |sb.packets| == sb.r == 1 && Ssrc(sb.packets[0]) == media.ssrc && cache == map[]
    requires Repaired(map[], InfoOf(sb, 0, matrix), now, cache, matrix, true, media, after, recovered)
    ensures Matches(b, sb, matrix, media) && !b.done && CountSeen(b.present, 1) == 1
    ensures var i := InfoOf(sb, 0, matrix);
      (i.timestamp, i.base) in after
      && Decides(b, CachedAll(cache, b), Some(matrix(b.k, b.r)), media, after[(i.timestamp, i.base)], recovered)
  {
    hide Decides;
    hide Codeword;
    hide Consecutive;
    hide Ssrc;
    hide Timestamp;
    hide Sequence;
    hide BlockSize;
    var info := InfoOf(sb, 0, matrix);
    EmptyHonest(sb, 0, matrix, media, now);
    StoreHonest(EmptyBlock(info, now), sb, 0, matrix, media);
    b := WithRepair(EmptyBlock(info, now), info);
    assert b.present[..0] == [] && CountSeen(b.present, 0) == 0;
  }

  lemma OneEvent(x: Setup, e: Event, run: seq<World>)
    requires x.Valid() && IsRun(x, [e], run)
    ensures |run| == 2 && run[0] == START && Happens(x, e, run[0], run[1])
  {
    hide Happens;
    assert [e][..0] == [];
    assert IsRun(x, [e][..0], run[..1]);
  }

  /**
   The hypothesis that no media packet uses the repair stream is needed.  A media
   packet on it that reads as the repair of a one-packet block nobody sent makes
   the receiver report that packet as recovered.
   */
  lemma RecoversUnsent(x: Setup, sb: SentBlock, isKeyframe: bool, at: int, codec: bool, now: int, run: seq<World>)
    requires x.Valid() && sb.Valid() && |sb.packets| == sb.r == 1 && sb.WireSize() <= MAX_WIRE_PACKET
    requires sb.repairSsrc == x.repairSsrc && AllSubmatricesNonSingular(x.matrix(1, 1), 1)
    requires Ssrc(sb.packets[0]) == x.media.ssrc != x.repairSsrc && PayloadType(sb.packets[0]) == x.media.payloadType
    requires var m := sb.RepairAt(0, x.matrix);
      IsRun(x, [Send(m, isKeyframe, at, codec), Deliver(0, now, true)], run)
    ensures var m := sb.RepairAt(0, x.matrix);
      && Given([Send(m, isKeyframe, at, codec), Deliver(0, now, true)]) == [m] && Ssrc(m) == x.repairSsrc
      && |run| == 3 && run[2].reported == sb.packets && sb.packets[0] !in [m]
  {
    hide HeaderSize;
    hide SentBlock.RepairAt;
    hide Ssrc;
    hide PayloadType;
    hide AllSubmatricesNonSingular;
    hide Consecutive;
    hide Hears;
    hide Sender.Added;
    hide Sender.Open;
    var m := sb.RepairAt(0, x.matrix);
    var first, second := Send(m, isKeyframe, at, codec), Deliver(0, now, true);
    var script := [first, second];
    assert script[..1] == [first] && [first][..0] == [];
    assert IsRun(x, [first], run[..2]);
    OneEvent(x, first, run[..2]);
    assert run[1].wire[0] == m && run[1].held == START.held && run[1].reported == [];
    var recovered :| Hears(run[1].held, m, now, true, x.matrix, x.media, x.repairSsrc, run[2].held, recovered)
      && run[2] == run[1].(held := run[2].held, reported := run[1].reported + recovered);
    AloneRecovers(sb, now, x.matrix, x.media, run[2].held, recovered);
    RepairFields(sb, 0, x.matrix);
    assert Given([first]) == [m];
  }
}
