/**
 What is delivered inside the receiver's retention window, while its tables
 have room, is at hand: the receiver of src/fec/rtp_fec.cpp keeps every symbol.
 */
module FecRetention {
  import opened Common
  import opened LinearSystem
  import opened RsCode
  import opened FecCodec
  import opened RtpWire
  import opened FecTranscript
  import opened RtpSender
  import opened RtpReceiver
  import opened FecLink
  import opened FecDelivery

  // ----- The packets kept -----

  /** Nothing kept was lost, and what is new came now. */
  ghost predicate Grew(was: map<nat, Source>, after: map<nat, Source>, now: int) {
    && (forall s :: s in was ==> s in after && after[s] == was[s])
    && forall s :: s in after && s !in was ==> after[s].arrival == now
  }

  /** A cache that does not reach its limit drops nothing. */
  lemma CachesGrows(was: map<nat, Source>, p: Packet, now: int, after: map<nat, Source>)
    requires |p| >= 12 && Caches(was, p, now, after) && |after| < MAX_CACHED
    ensures Grew(was, after, now) && Sequence(p) in after && |was| < MAX_CACHED
  {
    hide Sequence;
    var key := Sequence(p);
    if key !in was && |was| >= MAX_CACHED {
      var oldest: nat :| FirstSource(was, oldest) && after == (was - {oldest})[key := Source(p, now)];
      assert oldest in was;
      hide FirstSource;
      Replaced(was, oldest, key, Source(p, now));
    }
    hide FirstSource;
    SmallerMap(after, was);
  }

  /** One out, one in: as many as before. */
  lemma Replaced<K, V>(m: map<K, V>, out: K, k: K, v: V)
    requires out in m && k !in m
    ensures |(m - {out})[k := v]| == |m|
  {
    OneLess(m, out);
    RtpReceiver.OneMore(m - {out}, k, v);
  }

  lemma {:induction false} CachesAllGrows(was: map<nat, Source>, packets: seq<Packet>, now: int, after: map<nat, Source>)
    requires LongEnough(packets) && CachesAll(was, packets, now, after) && |after| < MAX_CACHED
    ensures Grew(was, after, now)
  {
    hide Caches;
    if packets != [] {
      var n := |packets| - 1;
      var mid :| CachesAll(was, packets[..n], now, mid) && Caches(mid, packets[n], now, after);
      CachesGrows(mid, packets[n], now, after);
      CachesAllGrows(was, packets[..n], now, mid);
    }
  }

  // ----- The blocks -----

  /** The block needs this repair no more, or has it. */
  predicate Holds(b: Block, i: nat) {
    b.done || (i < |b.present| && b.present[i])
  }

  ghost predicate HoldsMore(b: Block, after: Block) {
    after.arrival == b.arrival && forall i: nat :: Holds(b, i) ==> Holds(after, i)
  }

  /** The block under this key is still there, with what it had; if it is new it was opened now. */
  ghost predicate Lasts(was: map<Key, Block>, after: map<Key, Block>, key: Key, now: int) {
    && (key in was ==> key in after && HoldsMore(was[key], after[key]))
    && (key in after && key !in was ==> after[key].arrival == now)
  }

  lemma ReportsHolds(b: Block, cache: map<nat, Source>, matrix: Matrices, codec: bool, media: Stream, after: Block, packets: seq<Packet>)
    requires Shared(matrix) && Reports(b, cache, matrix, codec, media, after, packets)
    ensures HoldsMore(b, after)
  {
  }

  lemma ListenedLasts(was: map<Key, Block>, cache: map<nat, Source>, matrix: Matrices, codec: bool, media: Stream,
                      after: map<Key, Block>, recovered: seq<Packet>, key: Key, now: int)
    requires Shared(matrix) && Listened(was, cache, matrix, codec, media, after, recovered)
    ensures Lasts(was, after, key, now) && (key in after ==> key in was)
  {
    hide Reports;
    hide HoldsMore;
    hide Strung;
    hide Ascending;
    var order, parts :| InOrder(was, cache, matrix, codec, media, after, recovered, order, parts);
    assert key in after <==> key in after.Keys;
    if key in was {
      ReportsHolds(was[key], cache, matrix, codec, media, after[key], parts[key]);
    }
  }

  /** A table that does not fill drops nothing. */
  lemma OpensGrows(was: map<Key, Block>, info: RepairInfo, now: int, mid: map<Key, Block>)
    requires Opens(was, info, now, mid) && |mid| < MAX_BLOCKS
    ensures forall key :: key in was ==> key in mid && mid[key] == was[key]
    ensures forall key :: key in mid && key !in was ==> mid[key].arrival == now
    ensures (info.timestamp, info.base) in mid
  {
    hide FirstBlock;
    var key := (info.timestamp, info.base);
    if key !in was && |was| >= MAX_BLOCKS {
      var oldest :| FirstBlock(was, oldest) && mid == (was - {oldest})[key := EmptyBlock(info, now)];
      FirstIsIn(was, oldest);
      Replaced(was, oldest, key, EmptyBlock(info, now));
    }
  }

  lemma FirstIsIn(blocks: map<Key, Block>, key: Key)
    requires FirstBlock(blocks, key)
    ensures key in blocks
  {
  }

  lemma RepairedLasts(was: map<Key, Block>, info: RepairInfo, now: int, cache: map<nat, Source>, matrix: Matrices, codec: bool,
                      media: Stream, after: map<Key, Block>, recovered: seq<Packet>, key: Key)
    requires Shared(matrix) && Repaired(was, info, now, cache, matrix, codec, media, after, recovered) && |after| < MAX_BLOCKS
    ensures Lasts(was, after, key, now)
  {
    hide Reports;
    hide Opens;
    hide WithRepair;
    hide EmptyBlock;
    var own := (info.timestamp, info.base);
    var mid: map<Key, Block> :| Opens(was, info, now, mid) && own in mid && own in after
      && (if Files(mid[own], info) then
            && after == mid[own := after[own]]
            && Reports(WithRepair(mid[own], info), cache, matrix, codec, media, after[own], recovered)
          else after == mid && recovered == []);
    if Files(mid[own], info) {
      RtpReceiver.OneMore(mid, own, after[own]);
      ReportsHolds(WithRepair(mid[own], info), cache, matrix, codec, media, after[own], recovered);
      FilesHolds(mid[own], info);
    }
    OpensGrows(was, info, now, mid);
  }

  lemma FilesHolds(b: Block, info: RepairInfo)
    requires Files(b, info)
    ensures HoldsMore(b, WithRepair(b, info)) && Holds(WithRepair(b, info), info.id - b.k)
  {
  }

  // ----- One block of the sender's -----

  /** The sequence number of the block's `i`-th packet. */
  function Slot(sb: SentBlock, i: nat): nat
    requires sb.packets != [] && |sb.packets[0]| >= 12
  {
    (Sequence(sb.packets[0]) + i) % 0x1_0000
  }

  /** Where the receiver files the block. */
  function KeyOf(sb: SentBlock): Key
    requires sb.packets != [] && |sb.packets[0]| >= 12
  {
    (Timestamp(sb.packets[0]), Sequence(sb.packets[0]))
  }

  /** Of these packets heard, the receiver keeps the block's own, and what it keeps of the block came between the two times. */
  ghost predicate KeepsSources(sources: map<nat, Source>, sb: SentBlock, heard: set<Packet>, from: int, at: int)
    requires sb.packets != [] && |sb.packets[0]| >= 12
  {
    && (forall i :: 0 <= i < |sb.packets| && sb.packets[i] in heard ==> Slot(sb, i) in sources)
    && forall i :: 0 <= i < |sb.packets| && Slot(sb, i) in sources ==> from <= sources[Slot(sb, i)].arrival <= at
  }

  /** And of the repairs heard, those of the block, unless it is done with. */
  ghost predicate KeepsRepairs(blocks: map<Key, Block>, sb: SentBlock, matrix: Matrices, heard: set<Packet>, from: int, at: int)
    requires Shared(matrix) && sb.Valid() && |sb.packets[0]| >= 12
  {
    && (KeyOf(sb) in blocks ==> from <= blocks[KeyOf(sb)].arrival <= at)
    && forall i :: 0 <= i < sb.r && sb.RepairAt(i, matrix) in heard ==> KeyOf(sb) in blocks && Holds(blocks[KeyOf(sb)], i)
  }

  lemma LiveKeepsSources(h: Held, sb: SentBlock, heard: set<Packet>, from: int, at: int, now: int)
    requires sb.packets != [] && |sb.packets[0]| >= 12
    requires KeepsSources(h.sources, sb, heard, from, at) && from <= at <= now < from + WINDOW_MS
    ensures KeepsSources(h.Live(now).sources, sb, heard, from, now)
  {
    hide Slot;
  }

  lemma GrewKeepsSources(was: map<nat, Source>, after: map<nat, Source>, sb: SentBlock, heard: set<Packet>, from: int, now: int)
    requires sb.packets != [] && |sb.packets[0]| >= 12
    requires Grew(was, after, now) && KeepsSources(was, sb, heard, from, now) && from <= now
    ensures KeepsSources(after, sb, heard, from, now)
  {
    hide Slot;
  }

  /** The packet just heard is kept too, if it is one of the block's. */
  lemma OwnKept(sources: map<nat, Source>, sb: SentBlock, heard: set<Packet>, p: Packet, from: int, now: int)
    requires sb.Valid() && |sb.packets[0]| >= 12 && KeepsSources(sources, sb, heard, from, now)
    requires p in sb.packets ==> |p| >= 12 && Sequence(p) in sources
    ensures KeepsSources(sources, sb, heard + {p}, from, now)
  {
    hide Sequence;
    hide Timestamp;
    hide Ssrc;
    forall i | 0 <= i < |sb.packets| && sb.packets[i] in heard + {p} ensures Slot(sb, i) in sources {
      if sb.packets[i] == p {
        ConsecutiveFrom(sb.packets, i);
      }
    }
  }

  lemma LiveKeepsRepairs(h: Held, sb: SentBlock, matrix: Matrices, heard: set<Packet>, from: int, at: int, now: int)
    requires Shared(matrix) && sb.Valid() && |sb.packets[0]| >= 12
    requires KeepsRepairs(h.blocks, sb, matrix, heard, from, at) && from <= at <= now < from + WINDOW_MS
    ensures KeepsRepairs(h.Live(now).blocks, sb, matrix, heard, from, now)
  {
    hide KeyOf;
    hide SentBlock.RepairAt;
    hide Holds;
  }

  lemma LastsKeepsRepairs(was: map<Key, Block>, after: map<Key, Block>, sb: SentBlock, matrix: Matrices, heard: set<Packet>, from: int, now: int)
    requires Shared(matrix) && sb.Valid() && |sb.packets[0]| >= 12
    requires Lasts(was, after, KeyOf(sb), now) && KeepsRepairs(was, sb, matrix, heard, from, now) && from <= now
    ensures KeepsRepairs(after, sb, matrix, heard, from, now)
  {
    hide KeyOf;
    hide SentBlock.RepairAt;
    hide Holds;
  }

  // ----- One packet -----

  lemma HearsKeepsSources(was: Held, p: Packet, now: int, codec: bool, matrix: Matrices, media: Stream, repairSsrc: nat, after: Held,
                          recovered: seq<Packet>, sb: SentBlock, heard: set<Packet>, from: int, at: int)
    requires Shared(matrix) && sb.Valid() && |sb.packets[0]| >= 12 && (p in sb.packets ==> IsMedia(p, media))
    requires Hears(was, p, now, codec, matrix, media, repairSsrc, after, recovered) && |after.sources| < MAX_CACHED
    requires KeepsSources(was.sources, sb, heard, from, at) && from <= at <= now < from + WINDOW_MS
    ensures KeepsSources(after.sources, sb, heard + {p}, from, now)
  {
    hide Caches;
    hide CachesAll;
    hide Listened;
    hide Repaired;
    hide KeepsSources;
    hide IsMedia;
    hide IsRepair;
    hide ReadRepair;
    hide Grew;
    assert sb.packets != [];
    hide SentBlock.Valid;
    var live := was.Live(now);
    var cache :| HearsWith(live, p, now, codec, matrix, media, repairSsrc, cache, after, recovered);
    LiveKeepsSources(was, sb, heard, from, at, now);
    CachesAllGrows(cache, recovered, now, after.sources);
    GrewSize(cache, after.sources, now);
    if IsMedia(p, media) {
      MediaSize(p, media);
      CachesGrows(live.sources, p, now, cache);
      GrewKeepsSources(live.sources, cache, sb, heard, from, now);
    }
    OwnKept(cache, sb, heard, p, from, now);
    GrewKeepsSources(cache, after.sources, sb, heard + {p}, from, now);
  }

  lemma GrewSize(was: map<nat, Source>, after: map<nat, Source>, now: int)
    requires Grew(was, after, now)
    ensures |was| <= |after|
  {
    SmallerMap(after, was);
  }

  lemma HearsLasts(was: Held, p: Packet, now: int, codec: bool, matrix: Matrices, media: Stream, repairSsrc: nat, after: Held,
                   recovered: seq<Packet>, key: Key)
    requires Shared(matrix) && Hears(was, p, now, codec, matrix, media, repairSsrc, after, recovered) && |after.blocks| < MAX_BLOCKS
    ensures Lasts(was.Live(now).blocks, after.blocks, key, now)
  {
    hide Caches;
    hide CachesAll;
    hide Listened;
    hide Repaired;
    hide IsMedia;
    hide IsRepair;
    hide ReadRepair;
    hide LiveSources;
    hide LiveBlocks;
    hide RepairOk;
    var live := was.Live(now);
    var cache :| HearsWith(live, p, now, codec, matrix, media, repairSsrc, cache, after, recovered);
    if IsMedia(p, media) {
      ListenedLasts(live.blocks, cache, matrix, codec, media, after.blocks, recovered, key, now);
    } else if IsRepair(p, media, repairSsrc) {
      IsRepairSize(p, media, repairSsrc);
      RepairedLasts(live.blocks, ReadRepair(p, HeaderSize(p)), now, cache, matrix, codec, media, after.blocks, recovered, key);
    }
  }

  lemma IsRepairSize(p: Packet, media: Stream, repairSsrc: nat)
    requires IsRepair(p, media, repairSsrc)
    ensures 12 <= HeaderSize(p) && HeaderSize(p) + FEC_HEADER_SIZE <= |p|
  {
  }

  /** A repair of the block, filed. */
  lemma OwnFiled(was: map<Key, Block>, sb: SentBlock, i: nat, now: int, cache: map<nat, Source>, matrix: Matrices, codec: bool,
                 media: Stream, repairSsrc: nat, after: map<Key, Block>, recovered: seq<Packet>, t: Transcript, j: nat)
    requires Shared(matrix) && t.Honest(repairSsrc) && j < |t.blocks| && sb == t.blocks[j] && i < sb.r && |sb.packets[0]| >= 12
    requires Ssrc(sb.packets[0]) == media.ssrc
    requires Repaired(was, InfoOf(sb, i, matrix), now, cache, matrix, codec, media, after, recovered) && Keyed(was)
    requires Faithful(cache, was, t, matrix, media, repairSsrc)
    ensures KeyOf(sb) in after && Holds(after[KeyOf(sb)], i)
  {
    hide Reports;
    hide Opens;
    hide WithRepair;
    hide EmptyBlock;
    hide Codeword;
    hide Timestamp;
    hide Sequence;
    hide Ssrc;
    hide Consecutive;
    hide BlockSize;
    hide Faithful;
    hide FromSender;
    assert sb.Valid();
    hide Transcript.Honest;
    var info := InfoOf(sb, i, matrix);
    var own := (info.timestamp, info.base);
    var mid: map<Key, Block> :| Opens(was, info, now, mid) && own in mid && own in after
      && (if Files(mid[own], info) then
            && after == mid[own := after[own]]
            && Reports(WithRepair(mid[own], info), cache, matrix, codec, media, after[own], recovered)
          else after == mid && recovered == []);
    assert own == KeyOf(sb);
    assert NumbersRepair(info, t.blocks[j], i, matrix, media);
    OpensHonest(cache, was, info, now, mid, t, matrix, media, repairSsrc);
    OpensKeyed(was, info, now, mid);
    BlockThere(cache, mid, own, t, j, i, matrix, media, repairSsrc);
    if Files(mid[own], info) {
      ReportsHolds(WithRepair(mid[own], info), cache, matrix, codec, media, after[own], recovered);
      FilesHolds(mid[own], info);
    }
  }

  /** The block under the key is the sender's, and open or not, it has the repair or files it. */
  lemma BlockThere(cache: map<nat, Source>, blocks: map<Key, Block>, key: Key, t: Transcript, j: nat, i: nat, matrix: Matrices,
                   media: Stream, repairSsrc: nat)
    requires Shared(matrix) && t.Honest(repairSsrc) && j < |t.blocks| && i < t.blocks[j].r && key in blocks && Keyed(blocks)
    requires Faithful(cache, blocks, t, matrix, media, repairSsrc)
    requires var info := InfoOf(t.blocks[j], i, matrix); key == (info.timestamp, info.base)
    ensures Matches(blocks[key], t.blocks[j], matrix, media)
    ensures Files(blocks[key], InfoOf(t.blocks[j], i, matrix)) || Holds(blocks[key], i)
    ensures InfoOf(t.blocks[j], i, matrix).id - blocks[key].k == i
  {
    hide Codeword;
    hide Timestamp;
    hide Sequence;
    hide Ssrc;
    hide Consecutive;
    hide BlockSize;
    hide TrueSources;
    hide FromSender;
    hide Transcript.DistinctKeys;
    hide Transcript.OneRepairStream;
    SameBlock(blocks[key], t, j, i, matrix, media);
  }

  /** The block's repairs as the packet leaves them. */
  lemma HearsKeepsRepairs(was: Held, p: Packet, now: int, codec: bool, matrix: Matrices, media: Stream, repairSsrc: nat, after: Held,
                          recovered: seq<Packet>, t: Transcript, j: nat, heard: set<Packet>, from: int, at: int)
    requires Shared(matrix) && t.Honest(repairSsrc) && j < |t.blocks| && |t.blocks[j].packets[0]| >= 12
    requires Ssrc(t.blocks[j].packets[0]) == media.ssrc != repairSsrc && Keyed(was.blocks)
    requires Hears(was, p, now, codec, matrix, media, repairSsrc, after, recovered) && |after.blocks| < MAX_BLOCKS
    requires Faithful(was.sources, was.blocks, t, matrix, media, repairSsrc)
    requires |p| <= MAX_WIRE_PACKET || !t.IsRepair(p, matrix)
    requires KeepsRepairs(was.blocks, t.blocks[j], matrix, heard, from, at) && from <= at <= now < from + WINDOW_MS
    ensures KeepsRepairs(after.blocks, t.blocks[j], matrix, heard + {p}, from, now)
  {
    hide Hears;
    hide Faithful;
    hide Transcript.DistinctKeys;
    hide Transcript.OneRepairStream;
    hide Keyed;
    hide Lasts;
    hide Ssrc;
    hide KeyOf;
    hide Holds;
    hide SentBlock.RepairAt;
    var sb := t.blocks[j];
    LiveKeepsRepairs(was, sb, matrix, heard, from, at, now);
    HearsLasts(was, p, now, codec, matrix, media, repairSsrc, after, recovered, KeyOf(sb));
    LastsKeepsRepairs(was.Live(now).blocks, after.blocks, sb, matrix, heard, from, now);
    forall i | 0 <= i < sb.r && p == sb.RepairAt(i, matrix) ensures KeyOf(sb) in after.blocks && Holds(after.blocks[KeyOf(sb)], i) {
      assert t.IsRepair(p, matrix);
      HearsOwn(was, p, now, codec, matrix, media, repairSsrc, after, recovered, t, j, i);
    }
  }

  lemma HearsOwn(was: Held, p: Packet, now: int, codec: bool, matrix: Matrices, media: Stream, repairSsrc: nat, after: Held,
                 recovered: seq<Packet>, t: Transcript, j: nat, i: nat)
    requires Shared(matrix) && t.Honest(repairSsrc) && j < |t.blocks| && |t.blocks[j].packets[0]| >= 12
    requires Ssrc(t.blocks[j].packets[0]) == media.ssrc != repairSsrc && Keyed(was.blocks)
    requires Hears(was, p, now, codec, matrix, media, repairSsrc, after, recovered)
    requires Faithful(was.sources, was.blocks, t, matrix, media, repairSsrc)
    requires i < t.blocks[j].r && p == t.blocks[j].RepairAt(i, matrix) && |p| <= MAX_WIRE_PACKET
    ensures KeyOf(t.blocks[j]) in after.blocks && Holds(after.blocks[KeyOf(t.blocks[j])], i)
  {
    hide Caches;
    hide CachesAll;
    hide Listened;
    hide Repaired;
    hide IsMedia;
    hide IsRepair;
    hide ReadRepair;
    hide RepairOk;
    hide LiveSources;
    hide LiveBlocks;
    hide Faithful;
    hide Ssrc;
    hide KeyOf;
    hide Holds;
    hide Keyed;
    hide InfoOf;
    hide Consecutive;
    var sb := t.blocks[j];
    RepairFields(sb, i, matrix);
    hide SentBlock.RepairAt;
    RepairSeen(sb, i, matrix, media);
    ExpiryKeeps(was.sources, was.blocks, now, t, matrix, media, repairSsrc);
    LiveKeyed(was, now);
    var live := was.Live(now);
    var cache :| HearsWith(live, p, now, codec, matrix, media, repairSsrc, cache, after, recovered);
    OwnFiled(live.blocks, sb, i, now, cache, matrix, codec, media, repairSsrc, after.blocks, recovered, t, j);
  }

  // ----- Every run -----

  /** When the last packet was delivered. */
  function LastHeard(from: int, events: seq<Event>): int {
    if events == [] then from
    else
      var n := |events| - 1;
      if events[n].Deliver? then events[n].now else LastHeard(from, events[..n])
  }

  /** Packets are delivered in order of time, all within 150 ms from this time on. */
  ghost predicate InWindow(from: int, events: seq<Event>) {
    events == [] ||
    var n := |events| - 1;
    InWindow(from, events[..n]) && (events[n].Deliver? ==> LastHeard(from, events[..n]) <= events[n].now < from + 150)
  }

  /** The tables never fill. */
  ghost predicate Room(h: Held) {
    |h.sources| < 512 && |h.blocks| < 64
  }

  /** A block of the media stream. */
  ghost predicate OnStream(sb: SentBlock, media: Stream) {
    sb.packets != [] && |sb.packets[0]| >= 12 && Ssrc(sb.packets[0]) == media.ssrc
  }

  /** Nothing is kept under the block's numbers. */
  ghost predicate Unheard(h: Held, sb: SentBlock)
    requires sb.packets != [] && |sb.packets[0]| >= 12
  {
    KeyOf(sb) !in h.blocks && forall i :: 0 <= i < |sb.packets| ==> Slot(sb, i) !in h.sources
  }

  /** Nothing but the block's own packets is kept under their sequence numbers. */
  ghost predicate Unmixed(h: Held, sb: SentBlock)
    requires sb.packets != [] && |sb.packets[0]| >= 12
  {
    forall i :: 0 <= i < |sb.packets| && Slot(sb, i) in h.sources ==> h.sources[Slot(sb, i)].bytes == sb.packets[i]
  }

  ghost predicate Keeps(h: Held, sb: SentBlock, matrix: Matrices, heard: set<Packet>, from: int, at: int)
    requires Shared(matrix) && sb.Valid() && |sb.packets[0]| >= 12
  {
    KeepsSources(h.sources, sb, heard, from, at) && KeepsRepairs(h.blocks, sb, matrix, heard, from, at)
  }

  lemma UnheardKeeps(h: Held, sb: SentBlock, matrix: Matrices, from: int)
    requires Shared(matrix) && sb.Valid() && |sb.packets[0]| >= 12 && Unheard(h, sb)
    ensures Keeps(h, sb, matrix, {}, from, from)
  {
    hide Slot;
    hide KeyOf;
  }

  lemma {:induction false} SenderExtends(x: Setup, script: seq<Event>, run: seq<World>, m: nat)
    requires x.Valid() && IsRun(x, script, run) && |run| == |script| + 1 && m <= |script|
    ensures Extends(run[m].sender.Log(), run[|script|].sender.Log())
    decreases |script| - m
  {
    hide Happens;
    hide IsRun;
    if m < |script| {
      RunStepAt(x, script, run, m);
      OneExtends(x, script[m], run[m], run[m + 1]);
      SenderExtends(x, script, run, m + 1);
    }
  }

  lemma OneExtends(x: Setup, e: Event, w: World, v: World)
    requires x.Valid() && Happens(x, e, w, v)
    ensures Extends(w.sender.Log(), v.sender.Log()) && (!e.Deliver? ==> v.held == w.held)
  {
    hide Sender.Added;
    hide Sender.Expired;
    hide Sender.Open;
    hide Hears;
    if !e.Deliver? {
      StepExtends(x, e, w, v);
    }
  }

  /** The final transcript, and what the receiver holds at any moment against it. */
  lemma HeldFaithful(x: Setup, script: seq<Event>, run: seq<World>, m: nat)
    requires x.Valid() && IsRun(x, script, run) && |run| == |script| + 1 && m <= |script|
    requires Distinguishable(Given(script), x.repairSsrc)
    ensures var t := run[|script|].sender.Log();
      && t.Honest(x.repairSsrc) && t.sent == Given(script)
      && Keyed(run[m].held.blocks) && Faithful(run[m].held.sources, run[m].held.blocks, t, x.matrix, x.media, x.repairSsrc)
  {
    hide IsRun;
    hide Distinguishable;
    hide Faithful;
    hide Transcript.Honest;
    hide Sender.Open;
    var t := run[|script|].sender.Log();
    RunLinked(x, script, run);
    OpenFacts(run[|script|].sender, x.matrix);
    StreamsAreHonest(t, x.repairSsrc);
    RunPrefix(x, script, run, m);
    RunLinked(x, script[..m], run[..m + 1]);
    var w := run[m];
    OpenFacts(w.sender, x.matrix);
    SenderExtends(x, script, run, m);
    SoundGrows(w.held.sources, w.held.blocks, w.reported, w.sender.Log(), t, x.matrix, x.media, x.repairSsrc);
  }

  /** A repair on the wire fits it. */
  lemma WireFits(x: Setup, w: World, t: Transcript, p: Packet)
    requires x.Valid() && Linked(x, w) && Extends(w.sender.Log(), t) && t.Honest(x.repairSsrc) && p in w.wire && t.IsRepair(p, x.matrix)
    ensures |p| <= MAX_WIRE_PACKET
  {
    hide SentBlock.RepairAt;
    hide Ssrc;
    hide Sound;
    hide Sender.Open;
    OpenFacts(w.sender, x.matrix);
    var j, i :| 0 <= j < |t.blocks| && 0 <= i < t.blocks[j].r && p == t.blocks[j].RepairAt(i, x.matrix);
    RepairFields(t.blocks[j], i, x.matrix);
    var l :| 0 <= l < |w.wire| && w.wire[l] == p;
    assert p in w.sender.emitted;
  }

  /** A packet of the block is media to the receiver. */
  lemma BlockMedia(x: Setup, t: Transcript, j: nat, p: Packet)
    requires x.Valid() && t.WellFormed() && j < |t.blocks| && p in t.blocks[j].packets && OnStream(t.blocks[j], x.media)
    requires Able(x.matrix, x.media, t.sent)
    ensures IsMedia(p, x.media)
  {
    hide HeaderSize;
    hide PayloadType;
    hide Ssrc;
    hide Timestamp;
    hide Sequence;
    hide Able;
    BlockTyped(t, j, x.media, x.matrix);
    var i :| 0 <= i < |t.blocks[j].packets| && t.blocks[j].packets[i] == p;
    ConsecutiveFrom(t.blocks[j].packets, i);
    assert Protectable(t.blocks[j].packets[i]);
  }

  lemma HearsKeeps(x: Setup, w: World, v: World, p: Packet, now: int, codec: bool, recovered: seq<Packet>, t: Transcript, j: nat,
                   heard: set<Packet>, from: int, at: int)
    requires x.Valid() && x.media.ssrc != x.repairSsrc && t.Honest(x.repairSsrc) && Able(x.matrix, x.media, t.sent)
    requires j < |t.blocks| && OnStream(t.blocks[j], x.media)
    requires Linked(x, w) && Extends(w.sender.Log(), t) && p in w.wire && Keyed(w.held.blocks)
    requires Faithful(w.held.sources, w.held.blocks, t, x.matrix, x.media, x.repairSsrc)
    requires Hears(w.held, p, now, codec, x.matrix, x.media, x.repairSsrc, v.held, recovered) && Room(v.held)
    requires Keeps(w.held, t.blocks[j], x.matrix, heard, from, at) && from <= at <= now < from + WINDOW_MS
    ensures Keeps(v.held, t.blocks[j], x.matrix, heard + {p}, from, now)
  {
    hide Hears;
    hide Linked;
    hide Faithful;
    hide KeepsSources;
    hide KeepsRepairs;
    hide Keyed;
    hide Able;
    hide IsMedia;
    hide Extends;
    hide Ssrc;
    hide Transcript.IsRepair;
    hide Transcript.DistinctKeys;
    hide Transcript.OneRepairStream;
    var sb := t.blocks[j];
    if p in sb.packets {
      BlockMedia(x, t, j, p);
    }
    if t.IsRepair(p, x.matrix) {
      WireFits(x, w, t, p);
    }
    HearsKeepsSources(w.held, p, now, codec, x.matrix, x.media, x.repairSsrc, v.held, recovered, sb, heard, from, at);
    HearsKeepsRepairs(w.held, p, now, codec, x.matrix, x.media, x.repairSsrc, v.held, recovered, t, j, heard, from, at);
  }

  /** The packets delivered from event `i` to event `m`. */
  function HeardFrom(script: seq<Event>, run: seq<World>, i: nat, m: nat): set<Packet>
    requires i <= m <= |script| && |run| == |script| + 1
  {
    Heard(script[i..m], run[i..m + 1])
  }

  lemma HeardStep(script: seq<Event>, run: seq<World>, i: nat, m: nat)
    requires i <= m < |script| && |run| == |script| + 1
    ensures var e := script[m];
      HeardFrom(script, run, i, m + 1)
        == HeardFrom(script, run, i, m) + if e.Deliver? && e.index < |run[m].wire| then {run[m].wire[e.index]} else {}
  {
    assert script[i..m + 1][..m - i] == script[i..m];
    assert run[i..m + 2][..m + 1 - i] == run[i..m + 1];
    assert run[i..m + 2][m - i] == run[m];
  }

  lemma LastStep(from: int, script: seq<Event>, i: nat, m: nat)
    requires i <= m < |script|
    ensures LastHeard(from, script[i..m + 1]) == if script[m].Deliver? then script[m].now else LastHeard(from, script[i..m])
  {
    assert script[i..m + 1][..m - i] == script[i..m];
  }

  lemma {:induction false} WindowStep(from: int, script: seq<Event>, i: nat, m: nat)
    requires i <= m < |script| && InWindow(from, script[i..])
    ensures script[m].Deliver? ==> from <= LastHeard(from, script[i..m]) <= script[m].now < from + WINDOW_MS
    ensures from <= LastHeard(from, script[i..m])
    decreases |script|
  {
    var n := |script| - 1;
    assert script[i..][..n - i] == script[..n][i..];
    if m < n {
      assert script[..n][i..m] == script[i..m];
      WindowStep(from, script[..n], i, m);
    } else {
      assert script[..n][i..] == script[i..m];
      LastAfter(from, script[i..m]);
    }
  }

  lemma {:induction false} LastAfter(from: int, events: seq<Event>)
    requires InWindow(from, events)
    ensures from <= LastHeard(from, events)
  {
    if events != [] {
      LastAfter(from, events[..|events| - 1]);
    }
  }

  /** What a stretch of a run is asked for. */
  ghost predicate Stretch(x: Setup, script: seq<Event>, run: seq<World>, i: nat, j: nat, from: int)
    requires x.Valid()
  {
    && IsRun(x, script, run) && |run| == |script| + 1 && i <= |script| && x.media.ssrc != x.repairSsrc
    && Distinguishable(Given(script), x.repairSsrc) && Able(x.matrix, x.media, Given(script))
    && j < |run[|script|].sender.blocks| && OnStream(run[|script|].sender.blocks[j], x.media)
    && InWindow(from, script[i..]) && Unheard(run[i].held, run[|script|].sender.blocks[j])
    && forall m :: i < m <= |script| ==> Room(run[m].held)
  }

  /** At event `m` the receiver keeps every symbol of the block delivered since event `i`. */
  ghost predicate KeptAt(x: Setup, script: seq<Event>, run: seq<World>, i: nat, j: nat, from: int, m: nat)
    requires x.Valid()
  {
    && |run| == |script| + 1 && i <= m <= |script| && j < |run[|script|].sender.blocks|
    && var sb := run[|script|].sender.blocks[j];
    && sb.Valid() && |sb.packets[0]| >= 12
    && Keeps(run[m].held, sb, x.matrix, HeardFrom(script, run, i, m), from, LastHeard(from, script[i..m]))
  }

  /** A stretch in which the tables have room keeps every symbol of the block delivered in it. */
  lemma {:induction false} StretchKeeps(x: Setup, script: seq<Event>, run: seq<World>, i: nat, j: nat, from: int, m: nat)
    requires x.Valid() && Stretch(x, script, run, i, j, from) && i <= m <= |script|
    ensures KeptAt(x, script, run, i, j, from, m)
    decreases m
  {
    hide Stretch;
    hide KeptAt;
    hide Setup.Valid;
    if m == i {
      StretchStarts(x, script, run, i, j, from);
    } else {
      StretchKeeps(x, script, run, i, j, from, m - 1);
      StretchStep(x, script, run, i, j, from, m - 1);
    }
  }

  lemma StretchStarts(x: Setup, script: seq<Event>, run: seq<World>, i: nat, j: nat, from: int)
    requires x.Valid() && Stretch(x, script, run, i, j, from)
    ensures KeptAt(x, script, run, i, j, from, i)
  {
    hide IsRun;
    hide Distinguishable;
    hide Able;
    hide InWindow;
    hide Faithful;
    hide Keeps;
    hide Keyed;
    hide Heard;
    hide LastHeard;
    hide Unheard;
    hide Room;
    HeldFaithful(x, script, run, i);
    UnheardKeeps(run[i].held, run[|script|].sender.blocks[j], x.matrix, from);
    NothingHeard(script, run, i, from);
  }

  lemma StretchStep(x: Setup, script: seq<Event>, run: seq<World>, i: nat, j: nat, from: int, m: nat)
    requires x.Valid() && Stretch(x, script, run, i, j, from) && m < |script| && KeptAt(x, script, run, i, j, from, m)
    ensures KeptAt(x, script, run, i, j, from, m + 1)
  {
    hide IsRun;
    hide Distinguishable;
    hide Able;
    hide InWindow;
    hide Happens;
    hide Faithful;
    hide Keeps;
    hide Keyed;
    hide Heard;
    hide LastHeard;
    hide Extends;
    hide Linked;
    hide Unheard;
    hide Room;
    hide Transcript.Honest;
    hide OnStream;
    HeldFaithful(x, script, run, m);
    WindowStep(from, script, i, m);
    LastStep(from, script, i, m);
    HeardStep(script, run, i, m);
    RunStepAt(x, script, run, m);
    SenderExtends(x, script, run, m);
    StepKeeps(x, run[m], script[m], run[m + 1], run[|script|].sender.Log(), j, HeardFrom(script, run, i, m), from,
      LastHeard(from, script[i..m]));
  }

  lemma NothingHeard(script: seq<Event>, run: seq<World>, i: nat, from: int)
    requires i <= |script| && |run| == |script| + 1
    ensures HeardFrom(script, run, i, i) == {} && LastHeard(from, script[i..i]) == from
  {
  }

  lemma StepKeeps(x: Setup, w: World, e: Event, v: World, t: Transcript, j: nat, heard: set<Packet>, from: int, at: int)
    requires x.Valid() && x.media.ssrc != x.repairSsrc && t.Honest(x.repairSsrc) && Able(x.matrix, x.media, t.sent)
    requires j < |t.blocks| && OnStream(t.blocks[j], x.media) && Happens(x, e, w, v) && Room(v.held)
    requires Linked(x, w) && Extends(w.sender.Log(), t) && Keyed(w.held.blocks)
    requires Faithful(w.held.sources, w.held.blocks, t, x.matrix, x.media, x.repairSsrc)
    requires Keeps(w.held, t.blocks[j], x.matrix, heard, from, at) && from <= at && (e.Deliver? ==> at <= e.now < from + WINDOW_MS)
    ensures Keeps(v.held, t.blocks[j], x.matrix,
      heard + (if e.Deliver? && e.index < |w.wire| then {w.wire[e.index]} else {}), from, if e.Deliver? then e.now else at)
  {
    hide Hears;
    hide Linked;
    hide Faithful;
    hide Keyed;
    hide Able;
    hide Extends;
    hide Keeps;
    hide Sender.Added;
    hide Sender.Expired;
    hide Sender.Open;
    hide Transcript.DistinctKeys;
    hide Transcript.OneRepairStream;
    if e.Deliver? && e.index < |w.wire| {
      var recovered :| Hears(w.held, w.wire[e.index], e.now, e.codec, x.matrix, x.media, x.repairSsrc, v.held, recovered)
        && v == w.(held := v.held, reported := w.reported + recovered);
      HearsKeeps(x, w, v, w.wire[e.index], e.now, e.codec, recovered, t, j, heard, from, at);
    } else {
      OneExtends(x, e, w, v);
      assert heard + {} == heard;
      LaterKeeps(v.held, t.blocks[j], x.matrix, heard, from, at, if e.Deliver? then e.now else at);
    }
  }

  lemma LaterKeeps(h: Held, sb: SentBlock, matrix: Matrices, heard: set<Packet>, from: int, at: int, now: int)
    requires Shared(matrix) && sb.Valid() && |sb.packets[0]| >= 12 && Keeps(h, sb, matrix, heard, from, at) && at <= now
    ensures Keeps(h, sb, matrix, heard, from, now)
  {
    hide Slot;
    hide KeyOf;
    hide Holds;
    hide SentBlock.RepairAt;
  }

  // ----- Counting -----

  /** The packet that carries symbol `s` of a block. */
  ghost function Carrier(sb: SentBlock, s: nat, matrix: Matrices): Packet
    requires Shared(matrix) && sb.Valid() && s < |sb.packets| + sb.r
  {
    if s < |sb.packets| then sb.packets[s] else sb.RepairAt(s - |sb.packets|, matrix)
  }

  /** Which symbols of the block were heard. */
  ghost function Got(sb: SentBlock, matrix: Matrices, heard: set<Packet>): (f: seq<bool>)
    requires Shared(matrix) && sb.Valid()
    ensures |f| == |sb.packets| + sb.r
  {
    seq(|sb.packets| + sb.r, s requires 0 <= s < |sb.packets| + sb.r => Carrier(sb, s, matrix) in heard)
  }

  lemma SourcesCached(h: Held, b: Block, sb: SentBlock, matrix: Matrices, heard: set<Packet>, from: int, at: int)
    requires Shared(matrix) && sb.Valid() && |sb.packets[0]| >= 12 && KeepsSources(h.sources, sb, heard, from, at) && Unmixed(h, sb)
    requires b.base == Sequence(sb.packets[0]) && b.timestamp == Timestamp(sb.packets[0]) && b.k == |sb.packets|
    ensures forall i :: 0 <= i < b.k && Got(sb, matrix, heard)[i] ==> Flags(CachedAll(h.sources, b))[i]
  {
    hide SentBlock.RepairAt;
    hide Slot;
    hide Cached;
    hide Unmixed;
    hide Sequence;
    hide Timestamp;
    forall i | 0 <= i < b.k && Got(sb, matrix, heard)[i] ensures Flags(CachedAll(h.sources, b))[i] {
      assert Carrier(sb, i, matrix) == sb.packets[i];
      SlotCached(h, b, sb, i);
    }
  }

  lemma RepairsPresent(h: Held, b: Block, sb: SentBlock, matrix: Matrices, heard: set<Packet>, from: int, at: int)
    requires Shared(matrix) && sb.Valid() && |sb.packets[0]| >= 12 && KeepsRepairs(h.blocks, sb, matrix, heard, from, at)
    requires KeyOf(sb) in h.blocks && b == h.blocks[KeyOf(sb)] && !b.done && b.r == sb.r == |b.present|
    ensures forall i :: 0 <= i < b.r && Got(sb, matrix, heard)[|sb.packets| + i] ==> b.present[i]
  {
    hide SentBlock.RepairAt;
    hide KeyOf;
    forall i | 0 <= i < b.r && Got(sb, matrix, heard)[|sb.packets| + i] ensures b.present[i] {
      assert Carrier(sb, |sb.packets| + i, matrix) == sb.RepairAt(i, matrix);
      assert Holds(b, i);
    }
  }

  /** Every symbol the first marks, one of the others does, the second from where the first ends. */
  ghost predicate Covered(got: seq<bool>, f: seq<bool>, g: seq<bool>) {
    |got| == |f| + |g| && forall s :: 0 <= s < |got| && got[s] ==> if s < |f| then f[s] else g[s - |f|]
  }

  lemma {:induction false} CountBoth(got: seq<bool>, f: seq<bool>, g: seq<bool>, n: nat)
    requires Covered(got, f, g) && n <= |got|
    ensures CountSeen(got, n) <= if n <= |f| then CountSeen(f, n) else CountSeen(f, |f|) + CountSeen(g, n - |f|)
  {
    if n > 0 {
      CountBoth(got, f, g, n - 1);
    }
  }

  /** What is kept of an open block counts every symbol heard. */
  lemma AllAtHand(h: Held, b: Block, sb: SentBlock, matrix: Matrices, media: Stream, heard: set<Packet>, from: int, at: int)
    requires Shared(matrix) && sb.Valid() && |sb.packets[0]| >= 12 && Keeps(h, sb, matrix, heard, from, at) && Unmixed(h, sb)
    requires KeyOf(sb) in h.blocks && b == h.blocks[KeyOf(sb)] && Matches(b, sb, matrix, media) && !b.done
    ensures AtHand(h.sources, b) >= CountSeen(Got(sb, matrix, heard), b.k + b.r)
  {
    hide Codeword;
    hide SentBlock.RepairAt;
    hide BlockSize;
    hide Sequence;
    hide Timestamp;
    hide Ssrc;
    hide Consecutive;
    hide Cached;
    hide KeepsSources;
    hide KeepsRepairs;
    hide Unmixed;
    hide Got;
    SourcesCached(h, b, sb, matrix, heard, from, at);
    RepairsPresent(h, b, sb, matrix, heard, from, at);
    CountBoth(Got(sb, matrix, heard), Flags(CachedAll(h.sources, b)), b.present, b.k + b.r);
  }

  lemma SlotCached(h: Held, b: Block, sb: SentBlock, i: nat)
    requires sb.Valid() && |sb.packets[0]| >= 12 && Unmixed(h, sb) && i < |sb.packets| && Slot(sb, i) in h.sources
    requires b.base == Sequence(sb.packets[0]) && b.timestamp == Timestamp(sb.packets[0])
    ensures Cached(h.sources, b, i).Some?
  {
    hide Sequence;
    hide Timestamp;
    hide Ssrc;
    hide HeaderSize;
    hide BlockSize;
    ConsecutiveFrom(sb.packets, i);
    ProtectableLength(sb.packets[i]);
  }

  /** Without a repair heard, as many symbols as packets are all the packets. */
  lemma SourcesOnly(sb: SentBlock, matrix: Matrices, heard: set<Packet>)
    requires Shared(matrix) && sb.Valid() && forall i :: 0 <= i < sb.r ==> sb.RepairAt(i, matrix) !in heard
    requires CountSeen(Got(sb, matrix, heard), |sb.packets| + sb.r) >= |sb.packets|
    ensures forall q :: q in sb.packets ==> q in heard
  {
    hide SentBlock.RepairAt;
    var k, got := |sb.packets|, Got(sb, matrix, heard);
    var f, g := got[..k], got[k..];
    assert got == f + g;
    CountConcat(f, g, k + sb.r);
    NoneSeen(g, sb.r);
    AllSeen(f, k);
    forall i | 0 <= i < k ensures sb.packets[i] in heard {
      assert Carrier(sb, i, matrix) == sb.packets[i] && got[i] == f[i];
    }
  }

  lemma {:induction false} NoneSeen(f: seq<bool>, n: nat)
    requires n <= |f| && forall i :: 0 <= i < n ==> !f[i]
    ensures CountSeen(f, n) == 0
  {
    if n > 0 {
      NoneSeen(f, n - 1);
    }
  }

  lemma {:induction false} AllSeen(f: seq<bool>, n: nat)
    requires n <= |f| && CountSeen(f, n) >= n
    ensures forall i :: 0 <= i < n ==> f[i]
  {
    if n > 0 {
      CountBound(f, n - 1);
      AllSeen(f, n - 1);
    }
  }

  lemma {:induction false} HeardEarlier(script: seq<Event>, run: seq<World>, i: nat)
    requires i <= |script| && |run| == |script| + 1
    ensures HeardFrom(script, run, i, |script|) <= Heard(script, run)
    decreases |script|
  {
    var n := |script| - 1;
    assert script[i..|script|] == script[i..] && run[i..|script| + 1] == run[i..];
    if i == |script| {
    } else {
      HeardEarlier(script[..n], run[..n + 1], i);
      HeardStep(script, run, i, n);
      assert script[..n][i..n] == script[i..n] && run[..n + 1][i..n + 1] == run[i..n + 1];
    }
  }

  /** As many symbols of the block were delivered since event `i` as it has packets. */
  ghost predicate HeardEnough(x: Setup, script: seq<Event>, run: seq<World>, i: nat, j: nat)
    requires x.Valid()
  {
    && |run| == |script| + 1 && i <= |script| && j < |run[|script|].sender.blocks|
    && var sb := run[|script|].sender.blocks[j];
    && sb.Valid()
    && CountSeen(Got(sb, x.matrix, HeardFrom(script, run, i, |script|)), |sb.packets| + sb.r) >= |sb.packets|
  }

  /** The receiver's block is the sender's, done with or with enough at hand. */
  lemma EnoughAtHand(x: Setup, script: seq<Event>, run: seq<World>, i: nat, j: nat, from: int)
    requires x.Valid() && Stretch(x, script, run, i, j, from) && HeardEnough(x, script, run, i, j)
    requires Unmixed(run[|script|].held, run[|script|].sender.blocks[j])
    requires KeptAt(x, script, run, i, j, from, |script|)
    requires KeyOf(run[|script|].sender.blocks[j]) in run[|script|].held.blocks
    ensures var w := run[|script|]; var b := w.held.blocks[KeyOf(w.sender.blocks[j])];
      Matches(b, w.sender.blocks[j], x.matrix, x.media) && (b.done || AtHand(w.held.sources, b) >= b.k)
  {
    hide IsRun;
    hide Distinguishable;
    hide Able;
    hide InWindow;
    hide Faithful;
    hide Keyed;
    hide LastHeard;
    hide HeardFrom;
    hide Unheard;
    hide Unmixed;
    hide Room;
    hide Got;
    hide Keeps;
    hide AtHand;
    hide CountSeen;
    hide InfoOf;
    hide KeyOf;
    hide Files;
    hide Holds;
    var w := run[|script|];
    var sb := w.sender.blocks[j];
    HeldFaithful(x, script, run, |script|);
    KeyIs(sb, x.matrix);
    BlockThere(w.held.sources, w.held.blocks, KeyOf(sb), w.sender.Log(), j, 0, x.matrix, x.media, x.repairSsrc);
    var b := w.held.blocks[KeyOf(sb)];
    MatchedShape(b, sb, x.matrix, x.media);
    if !b.done {
      AllAtHand(w.held, b, sb, x.matrix, x.media, HeardFrom(script, run, i, |script|), from, LastHeard(from, script[i..|script|]));
    }
  }

  lemma MatchedShape(b: Block, sb: SentBlock, matrix: Matrices, media: Stream)
    requires Shared(matrix) && Matches(b, sb, matrix, media)
    ensures b.k == |sb.packets| && b.r == sb.r
  {
  }

  /** No block was opened, so no repair was heard, and every packet was. */
  lemma AllHeard(x: Setup, script: seq<Event>, run: seq<World>, i: nat, j: nat, from: int)
    requires x.Valid() && HeardEnough(x, script, run, i, j) && KeptAt(x, script, run, i, j, from, |script|)
    requires KeyOf(run[|script|].sender.blocks[j]) !in run[|script|].held.blocks
    ensures forall q :: q in run[|script|].sender.blocks[j].packets ==> q in FecDelivery.Known(script, run)
  {
    hide Got;
    hide CountSeen;
    hide KeepsSources;
    hide KeyOf;
    hide LastHeard;
    HeardEarlier(script, run, i);
    hide HeardFrom;
    SourcesOnly(run[|script|].sender.blocks[j], x.matrix, HeardFrom(script, run, i, |script|));
  }

  /**
   As many symbols of a block as it has packets, delivered within the retention
   window of a receiver that has room, are enough: every packet of the block has
   arrived or been recovered.  The window opens when nothing is kept under the
   block's numbers, and none of its slots goes to another packet.
   */
  lemma DeliversInTime(x: Setup, script: seq<Event>, run: seq<World>, i: nat, j: nat, from: int)
    requires x.Valid() && Stretch(x, script, run, i, j, from) && CodecWorks(script) && HeardEnough(x, script, run, i, j)
    requires Unmixed(run[|script|].held, run[|script|].sender.blocks[j])
    ensures forall q :: q in run[|script|].sender.blocks[j].packets ==> q in FecDelivery.Known(script, run)
  {
    hide IsRun;
    hide Distinguishable;
    hide Able;
    hide InWindow;
    hide Unheard;
    hide Unmixed;
    hide HeardEnough;
    hide KeptAt;
    hide Matches;
    hide AtHand;
    hide KeyOf;
    hide Ssrc;
    StretchKeeps(x, script, run, i, j, from, |script|);
    var w := run[|script|];
    if KeyOf(w.sender.blocks[j]) in w.held.blocks {
      EnoughAtHand(x, script, run, i, j, from);
      Delivers(x, script, run, KeyOf(w.sender.blocks[j]), j);
    } else {
      AllHeard(x, script, run, i, j, from);
    }
  }

  lemma KeyIs(sb: SentBlock, matrix: Matrices)
    requires Shared(matrix) && sb.Valid() && |sb.packets[0]| >= 12
    ensures var info := InfoOf(sb, 0, matrix); KeyOf(sb) == (info.timestamp, info.base)
  {
  }
}
