/**
 PrioritizedPacketQueue of src/qos/prioritized_packet_queue.cc.  Streams are
 found by SSRC, so the round-robin tables hold SSRCs where the original holds
 pointers.  The ghost list `arrivals` is the simple queue all indexes refine.
 */
module PacketQueue {
  import opened Common
  import opened QueueBooks

  /** StreamQueue: one FIFO per level. */
  datatype Stream = Stream(levels: seq<seq<Entry>>, created: int, keyframes: int)
  {
    predicate Empty() {
      forall l :: 0 <= l < |levels| ==> levels[l] == []
    }
  }

  type Tables = seq<seq<nat>>

  function Slot(kind: MediaType): (i: nat)
    ensures i < 5
  {
    match kind
    case Audio => 0 case Video => 1 case Retransmission => 2 case ForwardErrorCorrection => 3 case Padding => 4
  }

  // ----- What the indexes say -----

  /** A stream's queues are its packets in the list, level by level. */
  ghost predicate Queues(a: seq<Entry>, s: nat, stream: Stream) {
    && |stream.levels| == LEVELS
    && (forall l :: 0 <= l < LEVELS ==> stream.levels[l] == Select(a, s, l))
    && stream.keyframes == Total(a, Keyframes(s))
  }

  ghost predicate Indexed(a: seq<Entry>, streams: map<nat, Stream>) {
    && (forall s :: s in streams ==> Queues(a, s, streams[s]))
    && forall i :: 0 <= i < |a| ==> a[i].packet.ssrc in streams && a[i].level < LEVELS
  }

  ghost predicate Distinct(table: seq<nat>) {
    forall i, j :: 0 <= i < j < |table| ==> table[i] != table[j]
  }

  /** The table of a level holds exactly the streams with packets there, once each. */
  ghost predicate Lists(a: seq<Entry>, table: seq<nat>, l: nat) {
    Distinct(table) && forall s :: s in table <==> Select(a, s, l) != []
  }

  ghost predicate Tabled(a: seq<Entry>, tables: Tables) {
    |tables| == LEVELS && forall l :: 0 <= l < LEVELS ==> Lists(a, tables[l], l)
  }

  /** The top level is the least one in use. */
  ghost predicate Topped(tables: Tables, top: int) {
    && |tables| == LEVELS && -1 <= top < LEVELS
    && (top == -1 ==> forall l :: 0 <= l < LEVELS ==> tables[l] == [])
    && (top >= 0 ==> tables[top] != [] && forall l :: 0 <= l < top ==> tables[l] == [])
  }

  // ----- Purging a level -----

  /** The streams of a table that keep a packet. */
  function KeptTable(a: seq<Entry>, table: seq<nat>, l: nat, now: int, ttl: int): (t: seq<nat>) {
    if table == [] then []
    else
      var n := |table| - 1;
      KeptTable(a, table[..n], l, now, ttl) + if Fresh(Select(a, table[n], l), now, ttl) != [] then [table[n]] else []
  }

  lemma {:induction false} KeptTableHas(a: seq<Entry>, table: seq<nat>, l: nat, now: int, ttl: int, s: nat)
    ensures s in KeptTable(a, table, l, now, ttl) <==> s in table && Fresh(Select(a, s, l), now, ttl) != []
  {
    hide Fresh;
    hide Select;
    if table != [] {
      var n := |table| - 1;
      LastIn(table, s);
      KeptTableHas(a, table[..n], l, now, ttl, s);
    }
  }

  lemma LastIn(table: seq<nat>, s: nat)
    requires table != []
    ensures s in table <==> s in table[..|table| - 1] || s == table[|table| - 1]
  {
    assert table == table[..|table| - 1] + [table[|table| - 1]];
  }

  lemma {:induction false} KeptTableDistinct(a: seq<Entry>, table: seq<nat>, l: nat, now: int, ttl: int)
    requires Distinct(table)
    ensures Distinct(KeptTable(a, table, l, now, ttl))
  {
    if table != [] {
      var n := |table| - 1;
      KeptTableDistinct(a, table[..n], l, now, ttl);
      KeptTableHas(a, table[..n], l, now, ttl, table[n]);
      assert table[n] !in table[..n];
      DistinctAppend(KeptTable(a, table[..n], l, now, ttl), table[n]);
    }
  }

  lemma DistinctAppend(t: seq<nat>, s: nat)
    requires Distinct(t) && s !in t
    ensures Distinct(t + [s])
  {
  }

  /** A table without one stream. */
  function Left(table: seq<nat>, s: nat): (t: seq<nat>) {
    if table == [] then []
    else Left(table[..|table| - 1], s) + if table[|table| - 1] == s then [] else [table[|table| - 1]]
  }

  lemma {:induction false} LeftHas(table: seq<nat>, s: nat, s': nat)
    ensures s' in Left(table, s) <==> s' in table && s' != s
  {
    if table != [] {
      var n := |table| - 1;
      LeftHas(table[..n], s, s');
      assert s' in table <==> s' in table[..n] || s' == table[n];
    }
  }

  lemma {:induction false} LeftDistinct(table: seq<nat>, s: nat)
    requires Distinct(table)
    ensures Distinct(Left(table, s)) && (s !in table ==> Left(table, s) == table)
  {
    if table != [] {
      var n := |table| - 1;
      LeftDistinct(table[..n], s);
      LeftHas(table[..n], s, table[n]);
      assert table[n] !in table[..n];
      assert table == table[..n] + [table[n]];
      if table[n] != s {
        DistinctAppend(Left(table[..n], s), table[n]);
      }
    }
  }

  method FilterOut(table: seq<nat>, s: nat) returns (t: seq<nat>)
    ensures t == Left(table, s)
  {
    t := [];
    for i := 0 to |table|
      invariant t == Left(table[..i], s)
    {
      assert table[..i + 1][..i] == table[..i];
      if table[i] != s {
        t := t + [table[i]];
      }
    }
    assert table[..|table|] == table;
  }

  datatype Books = Books(a: seq<Entry>, tables: Tables)
  {
    ghost predicate Valid() {
      Tabled(a, tables)
    }

    function PurgeLevel(l: nat, now: int, ttl: Option<int>): (b: Books)
      requires l < |tables|
      ensures |b.tables| == |tables|
    {
      if ttl.None? then this
      else Books(PurgeStreams(a, tables[l], l, now, ttl.value), tables[l := KeptTable(a, tables[l], l, now, ttl.value)])
    }

    /** Every packet of a stream is gone, and the stream from every table. */
    function Removed(s: nat): (b: Books)
      ensures |b.tables| == |tables|
    {
      Books(Stripped(a, s, LEVELS), seq(|tables|, l requires 0 <= l < |tables| => Left(tables[l], s)))
    }

    /** A packet arrives; its stream joins the end of its level's table unless it is there. */
    function Joined(e: Entry): (b: Books)
      requires e.level < |tables|
      ensures |b.tables| == |tables|
    {
      var s, t := e.packet.ssrc, tables[e.level];
      Books(a + [e], if s in t then tables else tables[e.level := t + [s]])
    }

    /** The head of a level's table gives up its oldest packet there. */
    function Served(l: nat): (b: Books)
      requires l < |tables| && tables[l] != []
      ensures |b.tables| == |tables|
    {
      var s := tables[l][0];
      var b := WithoutFirst(a, s, l);
      Books(b, tables[l := tables[l][1..] + if Select(b, s, l) != [] then [s] else []])
    }

    /** Settle only if the level is no longer in use. */
    function Settled(l: nat, now: int, ttls: seq<Option<int>>): (b: Books)
      requires l < LEVELS && |tables| == |ttls| == LEVELS
      ensures |b.tables| == LEVELS
    {
      if tables[l] != [] then this else Settle(0, now, ttls)
    }

    /** Purge level after level until one is in use. */
    function Settle(from: nat, now: int, ttls: seq<Option<int>>): (b: Books)
      requires from <= LEVELS && |tables| == |ttls| == LEVELS
      ensures |b.tables| == LEVELS
      decreases LEVELS - from
    {
      if from == LEVELS then this
      else
        var b := PurgeLevel(from, now, ttls[from]);
        if b.tables[from] != [] then b else b.Settle(from + 1, now, ttls)
    }
  }

  lemma PurgedLists(a: seq<Entry>, table: seq<nat>, l: nat, now: int, ttl: int)
    requires Lists(a, table, l)
    ensures Lists(PurgeStreams(a, table, l, now, ttl), KeptTable(a, table, l, now, ttl), l)
  {
    hide PurgeStreams;
    hide KeptTable;
    hide Fresh;
    hide Select;
    KeptTableDistinct(a, table, l, now, ttl);
    forall s ensures s in KeptTable(a, table, l, now, ttl) <==> Select(PurgeStreams(a, table, l, now, ttl), s, l) != [] {
      SelectPurgeStreams(a, table, l, now, ttl, s, l);
      KeptTableHas(a, table, l, now, ttl, s);
    }
  }

  lemma OtherLists(a: seq<Entry>, table: seq<nat>, l: nat, now: int, ttl: int, other: seq<nat>, l': nat)
    requires Lists(a, other, l') && l' != l
    ensures Lists(PurgeStreams(a, table, l, now, ttl), other, l')
  {
    hide PurgeStreams;
    hide Select;
    forall s ensures Select(PurgeStreams(a, table, l, now, ttl), s, l') == Select(a, s, l') {
      SelectPurgeStreams(a, table, l, now, ttl, s, l');
    }
  }

  lemma PurgeLevelKeeps(b: Books, l: nat, now: int, ttl: Option<int>)
    requires b.Valid() && l < LEVELS
    ensures b.PurgeLevel(l, now, ttl).Valid()
  {
    hide PurgeStreams;
    hide KeptTable;
    hide Lists;
    if ttl.Some? {
      PurgedLists(b.a, b.tables[l], l, now, ttl.value);
      forall l' | 0 <= l' < LEVELS && l' != l ensures Lists(b.PurgeLevel(l, now, ttl).a, b.tables[l'], l') {
        OtherLists(b.a, b.tables[l], l, now, ttl.value, b.tables[l'], l');
      }
    }
  }

  /** What a purge does to each queue: a level with a time limit loses its expired heads, and nothing else changes. */
  lemma PurgeLevelMeans(b: Books, l: nat, now: int, ttl: Option<int>, s: nat, l': nat)
    requires b.Valid() && l < LEVELS && l' < LEVELS
    ensures Select(b.PurgeLevel(l, now, ttl).a, s, l') ==
      if l' == l && ttl.Some? then Fresh(Select(b.a, s, l), now, ttl.value) else Select(b.a, s, l')
  {
    if ttl.Some? {
      SelectPurgeStreams(b.a, b.tables[l], l, now, ttl.value, s, l');
      assert Lists(b.a, b.tables[l], l);
    }
  }

  /** Settling leaves the least level in use, if any, at the top. */
  lemma {:induction false} SettleTops(b: Books, from: nat, now: int, ttls: seq<Option<int>>)
    requires b.Valid() && from <= LEVELS && |ttls| == LEVELS && forall l :: 0 <= l < from ==> b.tables[l] == []
    ensures b.Settle(from, now, ttls).Valid()
    ensures Topped(b.Settle(from, now, ttls).tables, Least(b.Settle(from, now, ttls).tables))
    ensures forall l :: 0 <= l < from ==> b.Settle(from, now, ttls).tables[l] == []
    decreases LEVELS - from
  {
    assert |b.tables| == LEVELS;
    hide Books.Valid;
    hide Books.PurgeLevel;
    hide Topped;
    hide Least;
    LeastTops(b.tables);
    if from < LEVELS {
      PurgeLevelKeeps(b, from, now, ttls[from]);
      PurgeOthers(b, from, now, ttls[from]);
      var c := b.PurgeLevel(from, now, ttls[from]);
      if c.tables[from] == [] {
        SettleTops(c, from + 1, now, ttls);
      } else {
        LeastTops(c.tables);
      }
    }
  }

  /** The least level in use, or -1. */
  function Least(tables: Tables): int
    requires |tables| == LEVELS
  {
    if tables[0] != [] then 0 else if tables[1] != [] then 1 else if tables[2] != [] then 2
    else if tables[3] != [] then 3 else if tables[4] != [] then 4 else -1
  }

  lemma LeastTops(tables: Tables)
    requires |tables| == LEVELS
    ensures Topped(tables, Least(tables))
    ensures forall top :: Topped(tables, top) ==> top == Least(tables)
  {
  }

  lemma HasMember(table: seq<nat>)
    ensures table == [] || exists s :: s in table
  {
    if table != [] {
      assert table[0] in table;
    }
  }

  /** The tables are empty exactly when nothing waits. */
  lemma NothingWaits(a: seq<Entry>, tables: Tables)
    requires Tabled(a, tables) && forall i :: 0 <= i < |a| ==> a[i].level < LEVELS
    ensures a == [] <==> forall l :: 0 <= l < LEVELS ==> tables[l] == []
  {
    if a != [] {
      Unselected(a, a[0].packet.ssrc, a[0].level);
      assert Lists(a, tables[a[0].level], a[0].level);
      assert a[0].packet.ssrc in tables[a[0].level];
    } else {
      forall l | 0 <= l < LEVELS ensures tables[l] == [] {
        assert Lists(a, tables[l], l);
        HasMember(tables[l]);
      }
    }
  }

  // ----- The counters -----

  /** Totals over everything waiting. */
  datatype Counters = Counters(packets: int, perKind: seq<int>, payload: int, waited: int)
  {
    ghost predicate Count(a: seq<Entry>, clock: int) {
      && packets == |a| && |perKind| == 5
      && (forall kind :: perKind[Slot(kind)] == Total(a, Kind(kind)))
      && payload == Total(a, Bytes) && waited == Total(a, Waited(clock))
    }

    /** One packet more, or one less, that has waited so long. */
    function Plus(e: Entry, sign: int, waiting: int): Counters
      requires |perKind| == 5
    {
      Counters(packets + sign, perKind[Slot(e.packet.kind) := perKind[Slot(e.packet.kind)] + sign],
        payload + sign * (e.packet.payload + e.packet.padding), waited + sign * waiting)
    }
  }

  lemma CountLess(c: Counters, a: seq<Entry>, s: nat, l: nat, clock: int)
    requires c.Count(a, clock) && Select(a, s, l) != []
    ensures var e := Select(a, s, l)[0]; c.Plus(e, -1, clock - e.at).Count(WithoutFirst(a, s, l), clock)
  {
    hide Select;
    hide WithoutFirst;
    hide Total;
    var e, b := Select(a, s, l)[0], WithoutFirst(a, s, l);
    WithoutFirstLength(a, s, l);
    TotalWithoutFirst(a, s, l, Bytes);
    TotalWithoutFirst(a, s, l, Waited(clock));
    forall kind ensures Total(b, Kind(kind)) == Total(a, Kind(kind)) - Kind(kind).Value(e) {
      TotalWithoutFirst(a, s, l, Kind(kind));
    }
  }

  lemma CountMore(c: Counters, a: seq<Entry>, e: Entry, clock: int)
    requires c.Count(a, clock)
    ensures c.Plus(e, 1, clock - e.at).Count(a + [e], clock)
  {
    hide Total;
    TotalAppend(a, e, Bytes);
    TotalAppend(a, e, Waited(clock));
    forall kind ensures Total(a + [e], Kind(kind)) == Total(a, Kind(kind)) + Kind(kind).Value(e) {
      TotalAppend(a, e, Kind(kind));
    }
  }

  // ----- The streams -----

  /** A stream that lost its oldest packet at a level. */
  function Dequeued(stream: Stream, l: nat): Stream
    requires l < |stream.levels| && stream.levels[l] != []
  {
    stream.(levels := stream.levels[l := stream.levels[l][1..]],
            keyframes := stream.keyframes - if stream.levels[l][0].packet.keyframe then 1 else 0)
  }

  function Enqueued(stream: Stream, l: nat, e: Entry): Stream
    requires l < |stream.levels|
  {
    stream.(levels := stream.levels[l := stream.levels[l] + [e]],
            keyframes := stream.keyframes + if e.packet.keyframe then 1 else 0)
  }

  lemma IndexedLess(a: seq<Entry>, streams: map<nat, Stream>, s: nat, l: nat)
    requires Indexed(a, streams) && l < LEVELS && Select(a, s, l) != []
    ensures s in streams && l < |streams[s].levels| && streams[s].levels[l] == Select(a, s, l)
    ensures Indexed(WithoutFirst(a, s, l), streams[s := Dequeued(streams[s], l)])
  {
    hide WithoutFirst;
    hide Total;
    hide Select;
    var b := WithoutFirst(a, s, l);
    var i := FirstIndex(a, s, l);
    assert a[i].Of(s, l) && Queues(a, s, streams[s]);
    forall t | t in streams && t != s ensures Queues(b, t, streams[t]) {
      assert Queues(a, t, streams[t]);
      TotalWithoutFirst(a, s, l, Keyframes(t));
      forall l' | 0 <= l' < LEVELS ensures Select(b, t, l') == Select(a, t, l') {
        SelectWithoutFirst(a, s, l, t, l');
      }
    }
    TotalWithoutFirst(a, s, l, Keyframes(s));
    forall l' | 0 <= l' < LEVELS ensures Select(b, s, l') == Dequeued(streams[s], l).levels[l'] {
      SelectWithoutFirst(a, s, l, s, l');
    }
  }

  lemma IndexedMore(a: seq<Entry>, streams: map<nat, Stream>, e: Entry)
    requires Indexed(a, streams) && e.packet.ssrc in streams && e.level < LEVELS
    ensures var s := e.packet.ssrc; |streams[s].levels| == LEVELS && Indexed(a + [e], streams[s := Enqueued(streams[s], e.level, e)])
  {
    hide Total;
    hide Select;
    var b, s := a + [e], e.packet.ssrc;
    assert Queues(a, s, streams[s]);
    forall t | t in streams && t != s ensures Queues(b, t, streams[t]) {
      assert Queues(a, t, streams[t]);
      TotalAppend(a, e, Keyframes(t));
      forall l | 0 <= l < LEVELS ensures Select(b, t, l) == Select(a, t, l) {
        SelectAppend(a, e, t, l);
      }
    }
    TotalAppend(a, e, Keyframes(s));
    forall l | 0 <= l < LEVELS ensures Select(b, s, l) == Enqueued(streams[s], e.level, e).levels[l] {
      SelectAppend(a, e, s, l);
    }
  }

  /** A stream no packet belongs to. */
  lemma IndexedNew(a: seq<Entry>, streams: map<nat, Stream>, s: nat, created: int)
    requires Indexed(a, streams) && s !in streams
    ensures Indexed(a, streams[s := NewStream(created)])
  {
    hide Total;
    hide Select;
    KeyframesCounted(a, s);
    forall l | 0 <= l < LEVELS ensures Select(a, s, l) == [] {
      Unselected(a, s, l);
    }
  }

  /** The same streams, created when they were. */
  ghost predicate Aged(was: map<nat, Stream>, now: map<nat, Stream>) {
    now.Keys == was.Keys && forall s :: s in now ==> now[s].created == was[s].created
  }

  /** No limit but for retransmissions and video. */
  datatype TimeToLive = TimeToLive(audioRetransmission: Option<int>, videoRetransmission: Option<int>, video: Option<int>)
  {
    function PerLevel(): (t: seq<Option<int>>)
      ensures |t| == LEVELS
      ensures t[PriorityOf(Retransmission, Some(OriginalAudio))] == audioRetransmission
      ensures t[PriorityOf(Retransmission, Some(OriginalVideo))] == videoRetransmission
      ensures t[PriorityOf(Video, None)] == video
      ensures t[PriorityOf(Audio, None)] == t[PriorityOf(Padding, None)] == None
    {
      [None, audioRetransmission, videoRetransmission, video, None]
    }
  }

  /** When each stream was created. */
  function Ages(streams: map<nat, Stream>): map<nat, int> {
    map s | s in streams :: streams[s].created
  }

  lemma AgedAges(was: map<nat, Stream>, now: map<nat, Stream>)
    requires Aged(was, now)
    ensures Ages(now) == Ages(was)
  {
    forall s | s in Ages(now) ensures s in Ages(was) && Ages(now)[s] == Ages(was)[s] {
      assert s in now.Keys;
    }
    assert Ages(now).Keys == now.Keys && Ages(was).Keys == was.Keys;
  }

  lemma AgesKeys(streams: map<nat, Stream>)
    ensures Ages(streams).Keys == streams.Keys
  {
  }

  lemma AgesMore(streams: map<nat, Stream>, s: nat, created: int)
    ensures Ages(streams[s := NewStream(created)]) == Ages(streams)[s := created]
  {
  }

  /** The streams culling leaves: those that hold packets, or were created lately. */
  function Remembered(created: map<nat, int>, a: seq<Entry>, now: int): map<nat, int> {
    map s | s in created && !(created[s] + 500 < now && Idle(a, s)) :: created[s]
  }

  lemma CulledAges(a: seq<Entry>, streams: map<nat, Stream>, now: int)
    requires Indexed(a, streams)
    ensures Ages(Culled(streams, now)) == Remembered(Ages(streams), a, now)
  {
    hide Total;
    hide Select;
    hide Idle;
    hide Stale;
    CullMeans(a, streams, now);
  }

  // ----- The queue as a value -----

  /** What is fixed when a queue is made. */
  datatype Setup = Setup(prioritizeAudio: bool, ttls: seq<Option<int>>)
  {
    function LevelOf(packet: Media): (l: nat)
      ensures l < LEVELS
    {
      PriorityOf(packet.kind, if prioritizeAudio then packet.original else None)
    }
  }

  /** The simple list and the tables, the clocks, and when each stream known was created. */
  datatype State = State(setup: Setup, books: Books, now: int, pauses: int, paused: bool, nextTag: nat, culled: int,
                         created: map<nat, int>)
  {
    predicate Shaped() {
      |books.tables| == |setup.ttls| == LEVELS
    }

    function Top(): int
      requires Shaped()
    {
      Least(books.tables)
    }

    /** The time the queue has not been paused. */
    function Clock(): int {
      now - pauses
    }

    /** Time passes. */
    function Advanced(t: int): State {
      this.(now := t, pauses := if paused then pauses + (t - now) else pauses)
    }

    /** A packet joins, once the expired packets of its level are gone. */
    function Placed(t: int, packet: Media): (q: State)
      requires Shaped()
      ensures q.Shaped()
    {
      var l, q := setup.LevelOf(packet), Advanced(t);
      q.(books := books.PurgeLevel(l, t, setup.ttls[l]).Joined(Entry(packet, l, q.Clock(), nextTag, t)),
         nextTag := nextTag + 1,
         created := if packet.ssrc in created then created else created[packet.ssrc := t])
    }

    /** Idle streams are forgotten, at most every 500 ms. */
    function Trimmed(): State {
      if now - culled > 500 then this.(created := Remembered(created, books.a, now), culled := now) else this
    }

    /** A packet is pushed. */
    function Pushed(t: int, packet: Media): (q: State)
      requires Shaped()
      ensures q.Shaped()
    {
      Placed(t, packet).Trimmed()
    }

    /** A packet is popped, if any waits. */
    function Popped(): (q: State)
      requires Shaped()
      ensures q.Shaped()
    {
      if Top() < 0 then this
      else this.(books := books.Served(Top()).Settled(Top(), now, setup.ttls))
    }

    /** A stream's packets are removed. */
    function Forgotten(s: nat): (q: State)
      requires Shaped()
      ensures q.Shaped()
    {
      var b := books.Removed(s);
      this.(books := if Top() >= 0 && b.tables[Top()] != [] then b else b.Settle(0, now, setup.ttls))
    }
  }

  lemma PlacedIs(q: State, t: int, packet: Media, p: State)
    requires q.Shaped()
    requires var l := q.setup.LevelOf(packet);
      p.books == q.books.PurgeLevel(l, t, q.setup.ttls[l]).Joined(Entry(packet, l, q.Advanced(t).Clock(), q.nextTag, t))
    requires p == q.Advanced(t).(books := p.books, nextTag := q.nextTag + 1, created := p.created)
    requires p.created == if packet.ssrc in q.created then q.created else q.created[packet.ssrc := t]
    ensures p == q.Placed(t, packet)
  {
  }

  lemma PlacedNow(q: State, t: int, packet: Media)
    requires q.Shaped()
    ensures q.Placed(t, packet).now == t
  {
  }

  lemma PoppedIs(q: State, top: int)
    requires q.Shaped() && Topped(q.books.tables, top)
    ensures q.Popped() == if top < 0 then q else q.(books := q.books.Served(top).Settled(top, q.now, q.setup.ttls))
  {
    LeastTops(q.books.tables);
  }

  lemma ForgottenIs(q: State, s: nat, top: int)
    requires q.Shaped() && Topped(q.books.tables, top)
    ensures var b := q.books.Removed(s);
      q.Forgotten(s) == q.(books := if top != -1 && b.tables[top] != [] then b else b.Settle(0, q.now, q.setup.ttls))
  {
    LeastTops(q.books.tables);
  }

  function Opened(setup: Setup, creation: int): State {
    State(setup, Books([], [[], [], [], [], []]), creation, 0, false, 0, creation, map[])
  }

  class PrioritizedPacketQueue {
    const prioritizeAudio: bool
    const ttls: seq<Option<int>>
    var counters: Counters
    var pauseTimeSum: int
    var lastUpdate: int
    var paused: bool
    var lastCulling: int
    var streams: map<nat, Stream>
    var tables: Tables
    var top: int
    var enqueueTimes: seq<Node>
    var nextTag: nat
    /** Every packet waiting, in the order pushed. */
    ghost var arrivals: seq<Entry>

    /** The time the queue has not been paused. */
    function Clock(): int
      reads this
    {
      lastUpdate - pauseTimeSum
    }

    ghost predicate Loose()
      reads this
    {
      && Indexed(arrivals, streams) && counters.Count(arrivals, Clock())
      && enqueueTimes == Nodes(arrivals) && Tagged(arrivals, nextTag) && |ttls| == LEVELS
    }

    ghost predicate Valid()
      reads this
    {
      Loose() && Tabled(arrivals, tables) && Topped(tables, top)
    }

    ghost function View(): Books
      reads this
    {
      Books(arrivals, tables)
    }

    ghost function Value(): (q: State)
      reads this
      ensures Valid() ==> q.Shaped()
    {
      State(Setup(prioritizeAudio, ttls), View(), lastUpdate, pauseTimeSum, paused, nextTag, lastCulling, Ages(streams))
    }

    constructor (creation: int, prioritizeAudio: bool, ttl: TimeToLive)
      ensures Valid() && Value() == Opened(Setup(prioritizeAudio, ttl.PerLevel()), creation)
    {
      this.prioritizeAudio, ttls := prioritizeAudio, ttl.PerLevel();
      counters := Counters(0, [0, 0, 0, 0, 0], 0, 0);
      pauseTimeSum, lastUpdate, paused, lastCulling := 0, creation, false, creation;
      streams, tables, top := map[], [[], [], [], [], []], -1;
      enqueueTimes, nextTag, arrivals := [], 0, [];
    }

    /** The oldest packet of a stream at a level leaves, stamped with the unpaused time it waited. */
    method Dequeue(s: nat, l: nat) returns (e: Entry, stamp: int)
      requires Loose() && l < LEVELS && Select(arrivals, s, l) != []
      modifies `streams, `counters, `enqueueTimes, `arrivals
      ensures Loose() && Aged(old(streams), streams)
      ensures e == old(Select(arrivals, s, l))[0] && stamp == Clock() - e.at
      ensures arrivals == WithoutFirst(old(arrivals), s, l)
    {
      hide Indexed;
      hide Counters.Count;
      hide Tagged;
      hide Select;
      hide WithoutFirst;
      IndexedLess(arrivals, streams, s, l);
      CountLess(counters, arrivals, s, l, Clock());
      CountShape(counters, arrivals, Clock());
      var stream := streams[s];
      e := stream.levels[l][0];
      streams := streams[s := Dequeued(stream, l)];
      stamp := lastUpdate - e.at - pauseTimeSum;
      counters := counters.Plus(e, -1, stamp);
      enqueueTimes := Erase(enqueueTimes, arrivals, s, l, nextTag, e.tag);
      arrivals := WithoutFirst(arrivals, s, l);
    }

    /** Drop a stream's expired head at a level. */
    method PurgeHead(s: nat, l: nat, now: int, ttl: int)
      requires Loose() && l < LEVELS && s in streams
      modifies `streams, `counters, `enqueueTimes, `arrivals
      ensures Loose() && Aged(old(streams), streams)
      ensures arrivals == PurgeStream(old(arrivals), s, l, now, ttl)
    {
      hide Counters.Count;
      hide Tagged;
      hide Select;
      hide WithoutFirst;
      hide Queues;
      QueueAt(arrivals, streams, s, l);
      while streams[s].levels[l] != [] && now - streams[s].levels[l][0].at > ttl
        invariant Loose() && Aged(old(streams), streams) && s in streams && |streams[s].levels| == LEVELS
        invariant streams[s].levels[l] == Select(arrivals, s, l)
        invariant PurgeStream(arrivals, s, l, now, ttl) == PurgeStream(old(arrivals), s, l, now, ttl)
        decreases |arrivals|
      {
        WithoutFirstLength(arrivals, s, l);
        var _, _ := Dequeue(s, l);
        QueueAt(arrivals, streams, s, l);
      }
    }

    /** Drop the expired heads of the streams in a table, and the streams left with nothing. */
    method PurgeTable(ghost table: seq<nat>, all: seq<nat>, l: nat, now: int, ttl: int) returns (queues: seq<nat>)
      requires Loose() && Lists(arrivals, table, l) && all == table && l < LEVELS
      modifies `streams, `counters, `enqueueTimes, `arrivals
      ensures Loose() && Aged(old(streams), streams)
      ensures arrivals == PurgeStreams(old(arrivals), table, l, now, ttl)
      ensures queues == KeptTable(old(arrivals), table, l, now, ttl)
    {
      hide Indexed;
      hide Counters.Count;
      hide Tagged;
      hide Select;
      hide WithoutFirst;
      hide PurgeStream;
      hide Fresh;
      hide Lists;
      hide Nodes;
      ghost var was := arrivals;
      NothingPurged(was, table, l, now, ttl);
      hide PurgeStreams;
      hide KeptTable;
      queues := all;
      ghost var done := 0;
      var i := 0;
      while i < |queues|
        invariant Loose() && Aged(old(streams), streams)
        invariant done <= |table| && i <= |queues| && i == |KeptTable(was, table[..done], l, now, ttl)|
        invariant queues == KeptTable(was, table[..done], l, now, ttl) + table[done..]
        invariant arrivals == PurgeStreams(was, table[..done], l, now, ttl)
        decreases |table| - done
      {
        var s := queues[i];
        assert s == table[done];
        NextInTable(was, table, done, l, now, ttl);
        StreamKnown(arrivals, streams, s, l);
        PurgeHead(s, l, now, ttl);
        QueueAt(arrivals, streams, s, l);
        TableStep(queues, KeptTable(was, table[..done], l, now, ttl), table, done);
        if streams[s].levels[l] == [] {
          queues := queues[..i] + queues[i + 1..];
        } else {
          i := i + 1;
        }
        done := done + 1;
      }
      assert done == |table| && table[..done] == table;
    }

    /** PurgeOldPacketsAtPriorityLevel. */
    method Purge(l: nat, now: int)
      requires Loose() && Tabled(arrivals, tables) && l < LEVELS
      modifies `streams, `counters, `enqueueTimes, `arrivals, `tables
      ensures Loose() && Aged(old(streams), streams)
      ensures View() == old(View()).PurgeLevel(l, now, ttls[l])
    {
      hide Indexed;
      hide Counters.Count;
      hide Tagged;
      hide Lists;
      hide PurgeStreams;
      hide KeptTable;
      if ttls[l].Some? {
        var queues := PurgeTable(tables[l], tables[l], l, now, ttls[l].value);
        tables := tables[l := queues];
      }
    }

    /** MaybeUpdateTopPrioLevel: when the top level is empty, find the least level in use, purging on the way. */
    method MaybeUpdateTop()
      requires Loose() && Tabled(arrivals, tables) && -1 <= top < LEVELS
      modifies `streams, `counters, `enqueueTimes, `arrivals, `tables, `top
      ensures Loose() && Aged(old(streams), streams)
      ensures old(top) != -1 && old(tables)[old(top)] != [] ==>
        arrivals == old(arrivals) && tables == old(tables) && top == old(top)
      ensures !(old(top) != -1 && old(tables)[old(top)] != []) ==>
        View() == old(View()).Settle(0, lastUpdate, ttls) && top == Least(tables)
    {
      hide Indexed;
      hide Counters.Count;
      hide Tagged;
      hide Lists;
      hide Books.PurgeLevel;
      hide Nodes;
      TabledShape(arrivals, tables);
      hide Tabled;
      if top != -1 && tables[top] != [] {
        return;
      }
      ghost var was := View();
      var i := 0;
      var found := false;
      while i < LEVELS && !found
        invariant Loose() && Tabled(arrivals, tables) && |tables| == LEVELS && Aged(old(streams), streams) && i <= LEVELS
        invariant !found ==> View().Settle(i, lastUpdate, ttls) == was.Settle(0, lastUpdate, ttls)
        invariant !found ==> forall l :: 0 <= l < i ==> tables[l] == []
        invariant found ==> View() == was.Settle(0, lastUpdate, ttls) && top == Least(tables) && top != -1
        decreases LEVELS - i, !found
      {
        PurgeLevelKeeps(View(), i, lastUpdate, ttls[i]);
        PurgeOthers(View(), i, lastUpdate, ttls[i]);
        Purge(i, lastUpdate);
        if tables[i] != [] {
          top := i;
          found := true;
          LeastTops(tables);
        } else {
          i := i + 1;
        }
      }
      LooseFacts(arrivals, streams, counters, Clock());
      NothingWaits(arrivals, tables);
      if counters.packets == 0 {
        top := -1;
      }
    }

    /** UpdateAverageQueueTime: the unpaused clock runs only while not paused. */
    method UpdateAverageQueueTime(now: int)
      requires Loose()
      modifies `counters, `pauseTimeSum, `lastUpdate
      ensures Loose() && Value() == old(Value()).Advanced(now)
    {
      hide Indexed;
      hide Tagged;
      hide Nodes;
      if now == lastUpdate {
        return;
      }
      var delta := now - lastUpdate;
      if paused {
        pauseTimeSum := pauseTimeSum + delta;
      } else {
        WaitedLonger(arrivals, Clock(), delta);
        counters := counters.(waited := counters.waited + delta * counters.packets);
      }
      lastUpdate := now;
    }

    method SetPauseState(pause: bool, now: int)
      requires Valid()
      modifies `counters, `pauseTimeSum, `lastUpdate, `paused
      ensures Valid() && Value() == old(Value()).Advanced(now).(paused := pause)
    {
      hide Indexed;
      hide Counters.Count;
      hide Tagged;
      hide Nodes;
      UpdateAverageQueueTime(now);
      paused := pause;
    }

    /**
     Pop.  The stream at the head of the top level's table gives up its oldest
     packet there, stamped with the unpaused time it waited, and goes to the
     end of the table if it has more.
     */
    method Pop() returns (r: Option<(Media, int)>)
      requires Valid()
      modifies `streams, `counters, `enqueueTimes, `arrivals, `tables, `top
      ensures Valid() && Value() == old(Value()).Popped()
      ensures old(arrivals) == [] ==> r == None && arrivals == []
      ensures old(arrivals) != [] ==>
        && old(top) >= 0 && old(tables[top]) != [] && Select(old(arrivals), old(tables[top][0]), old(top)) != []
        && (var e := Select(old(arrivals), old(tables[top][0]), old(top))[0]; r == Some((e.packet, Clock() - e.at)))
    {
      hide Indexed;
      hide Counters.Count;
      hide Tagged;
      hide Nodes;
      hide Lists;
      hide Select;
      hide WithoutFirst;
      hide Books.Settle;
      hide Least;
      hide Distinct;
      hide Ages;
      hide State.Popped;
      PoppedIs(Value(), top);
      LooseFacts(arrivals, streams, counters, Clock());
      NothingWaits(arrivals, tables);
      if counters.packets == 0 {
        return None;
      }
      ghost var was, knew := View(), streams;
      var l := top;
      var s := tables[l][0];
      HeadHasPackets(arrivals, tables, l);
      StreamKnown(arrivals, streams, s, l);
      ServedKeeps(was, l);
      ServedTop(was, l);
      var e, stamp := Dequeue(s, l);
      tables := tables[l := tables[l][1..]];
      QueueAt(arrivals, streams, s, l);
      if streams[s].levels[l] != [] {
        tables := tables[l := tables[l] + [s]];
        assert View() == was.Served(l);
      } else {
        assert tables[l] + [] == tables[l];
        assert View() == was.Served(l);
        SettleTops(View(), 0, lastUpdate, ttls);
        MaybeUpdateTop();
        LeastTops(tables);
      }
      AgedAges(knew, streams);
      r := Some((e.packet, stamp));
    }

    /** EnqueuePacket, with the counters and the list of enqueue times. */
    method Enqueue(e: Entry) returns (first: bool)
      requires Loose() && e.packet.ssrc in streams && e.level < LEVELS && e.tag == nextTag && e.at == Clock()
      modifies `streams, `counters, `enqueueTimes, `arrivals, `nextTag
      ensures Loose() && Aged(old(streams), streams) && nextTag == old(nextTag) + 1
      ensures arrivals == old(arrivals) + [e] && first == (Select(old(arrivals), e.packet.ssrc, e.level) == [])
    {
      hide Indexed;
      hide Counters.Count;
      hide Select;
      IndexedMore(arrivals, streams, e);
      CountMore(counters, arrivals, e, Clock());
      CountShape(counters, arrivals, Clock());
      var s, l := e.packet.ssrc, e.level;
      QueueAt(arrivals, streams, s, l);
      counters := counters.Plus(e, 1, 0);
      first := streams[s].levels[l] == [];
      streams := streams[s := Enqueued(streams[s], l, e)];
      enqueueTimes := enqueueTimes + [Node(nextTag, e.time)];
      nextTag := nextTag + 1;
      arrivals := arrivals + [e];
    }

    /** Forget the streams long created that hold nothing, at most every 500 ms. */
    method Cull(now: int)
      requires Loose() && now == lastUpdate
      modifies `streams, `lastCulling
      ensures Loose() && Value() == old(Value()).Trimmed()
    {
      hide Counters.Count;
      hide Tagged;
      hide Nodes;
      if now - lastCulling > 500 {
        ghost var was := streams;
        var todo := streams.Keys;
        while todo != {}
          invariant todo <= streams.Keys <= was.Keys && Indexed(arrivals, was)
          invariant forall s :: s in streams ==> streams[s] == was[s]
          invariant forall s :: s in was && s !in todo ==> (s in streams <==> !Stale(was[s], now))
          decreases todo
        {
          var s :| s in todo;
          todo := todo - {s};
          if Stale(streams[s], now) {
            streams := streams - {s};
          }
        }
        assert streams == Culled(was, now);
        CulledKeeps(arrivals, was, now);
        CulledAges(arrivals, was, now);
        lastCulling := now;
      }
    }

    /** The packet joins its stream, and its stream its level's table. */
    method Join(e: Entry)
      requires Loose() && Tabled(arrivals, tables) && e.packet.ssrc in streams && e.level < LEVELS
      requires e.tag == nextTag && e.at == Clock() && ToppedBut(tables, top, e.level)
      modifies `streams, `counters, `enqueueTimes, `arrivals, `nextTag, `tables, `top
      ensures Valid() && Aged(old(streams), streams)
      ensures View() == old(View()).Joined(e) && nextTag == old(nextTag) + 1
    {
      hide Indexed;
      hide Counters.Count;
      hide Tagged;
      hide Nodes;
      hide Lists;
      hide Select;
      hide Distinct;
      var s, l := e.packet.ssrc, e.level;
      JoinedKeeps(View(), e);
      var first := Enqueue(e);
      if first {
        tables := tables[l := tables[l] + [s]];
      }
      if top < 0 || l < top {
        top := l;
      }
    }

    /** The stream of a packet, created if it is not known. */
    method Know(s: nat, time: int)
      requires Valid()
      modifies `streams
      ensures Valid() && s in streams
      ensures Ages(streams) == if s in old(Ages(streams)) then old(Ages(streams)) else old(Ages(streams))[s := time]
    {
      hide Indexed;
      hide Counters.Count;
      hide Tagged;
      hide Nodes;
      hide Tabled;
      hide NewStream;
      hide Ages;
      AgesKeys(streams);
      if s !in streams {
        IndexedNew(arrivals, streams, s, time);
        AgesMore(streams, s, time);
        streams := streams[s := NewStream(time)];
      }
    }

    /** Push up to the culling: expired packets of the level go first, and the packet joins its stream. */
    method Insert(time: int, packet: Media)
      requires Valid()
      modifies this
      ensures Valid() && Value() == old(Value()).Placed(time, packet)
    {
      hide Indexed;
      hide Counters.Count;
      hide Tagged;
      hide Nodes;
      hide Lists;
      hide Tabled;
      hide Select;
      hide Books.PurgeLevel;
      hide Books.Joined;
      hide Topped;
      hide Ages;
      hide State.Placed;
      ghost var was := Value();
      var s, l := packet.ssrc, Setup(prioritizeAudio, ttls).LevelOf(packet);
      Know(s, time);
      ghost var known := streams;
      PurgeLevelKeeps(View(), l, time, ttls[l]);
      PurgedTop(View(), top, l, time, ttls[l]);
      Purge(l, time);
      UpdateAverageQueueTime(time);
      Join(Entry(packet, l, time - pauseTimeSum, nextTag, time));
      AgedAges(known, streams);
      PlacedIs(was, time, packet, Value());
    }

    /** Push. */
    method Push(time: int, packet: Media)
      requires Valid()
      modifies this
      ensures Valid() && Value() == old(Value()).Pushed(time, packet)
    {
      hide State.Placed;
      hide State.Trimmed;
      hide Indexed;
      hide Counters.Count;
      hide Tagged;
      hide Nodes;
      hide Tabled;
      hide Topped;
      hide Ages;
      hide Books.PurgeLevel;
      hide Books.Joined;
      PlacedNow(Value(), time, packet);
      Insert(time, packet);
      Cull(time);
    }

    method SizeInPackets() returns (n: int)
      requires Valid()
      ensures n == |arrivals|
    {
      n := counters.packets;
    }

    method SizeInPacketsOf(kind: MediaType) returns (n: int)
      requires Valid()
      ensures n == Total(arrivals, Kind(kind))
    {
      n := counters.perKind[Slot(kind)];
    }

    /** The time the oldest packet was pushed at. */
    method OldestEnqueueTime() returns (r: Option<int>)
      requires Valid()
      ensures r == if arrivals == [] then None else Some(arrivals[0].time)
    {
      r := if enqueueTimes == [] then None else Some(enqueueTimes[0].time);
    }

    /** Whether a keyframe packet of the stream waits. */
    method HasKeyframePackets(s: nat) returns (has: bool)
      requires Valid()
      ensures has <==> exists i :: 0 <= i < |arrivals| && arrivals[i].packet.ssrc == s && arrivals[i].packet.keyframe
    {
      hide Total;
      hide Select;
      KeyframesCounted(arrivals, s);
      has := s in streams && streams[s].keyframes > 0;
      assert s in streams ==> Queues(arrivals, s, streams[s]);
    }

    /** The mean unpaused wait, rounded towards zero. */
    method AverageQueueTime() returns (t: int)
      requires Valid()
      ensures arrivals == [] ==> t == 0
      ensures arrivals != [] ==>
        var sum, n := Total(arrivals, Waited(Clock())), |arrivals|;
        (if sum >= 0 then 0 <= sum - t * n < n else -n < sum - t * n <= 0)
    {
      if counters.packets == 0 {
        return 0;
      }
      var sum, n := counters.waited, counters.packets;
      t := if sum >= 0 then sum / n else -(-sum / n);
    }

    /** The unpaused clock at which the packet Pop would take from a level was pushed. */
    method LeadingPacketEnqueueTime(kind: MediaType) returns (r: Option<int>)
      requires Valid()
      ensures var l := PriorityOf(kind, None);
        && |tables| == LEVELS
        && (tables[l] == [] ==> r == None)
        && (tables[l] != [] ==> Select(arrivals, tables[l][0], l) != [] && r == Some(Select(arrivals, tables[l][0], l)[0].at))
    {
      hide Indexed;
      hide Select;
      var l := PriorityOf(kind, None);
      if tables[l] == [] {
        return None;
      }
      HeadHasPackets(arrivals, tables, l);
      StreamKnown(arrivals, streams, tables[l][0], l);
      QueueAt(arrivals, streams, tables[l][0], l);
      r := Some(streams[tables[l][0]].levels[l][0].at);
    }

    /** Drop every packet of a stream at one level. */
    method EmptyLevel(s: nat, l: nat)
      requires Loose() && s in streams && l < LEVELS
      modifies `streams, `counters, `enqueueTimes, `arrivals
      ensures Loose() && Aged(old(streams), streams)
      ensures old(arrivals) == Stripped(old(arrivals), s, l) ==> arrivals == Stripped(old(arrivals), s, l + 1)
    {
      hide Counters.Count;
      hide Tagged;
      hide Select;
      hide WithoutFirst;
      hide Queues;
      QueueAt(arrivals, streams, s, l);
      ghost var was := arrivals;
      while streams[s].levels[l] != []
        invariant Loose() && Aged(old(streams), streams) && s in streams && |streams[s].levels| == LEVELS
        invariant streams[s].levels[l] == Select(arrivals, s, l)
        invariant Stripped(arrivals, s, l + 1) == Stripped(was, s, l + 1)
        invariant was == Stripped(was, s, l) ==> arrivals == Stripped(arrivals, s, l)
        decreases |arrivals|
      {
        WithoutFirstLength(arrivals, s, l);
        StrippedWithoutFirst(arrivals, s, l);
        StrippedStays(arrivals, s, l);
        var _, _ := Dequeue(s, l);
        QueueAt(arrivals, streams, s, l);
      }
      StrippedSame(arrivals, s, l);
    }

    /** Drop a stream's packets at one level, and the stream from the level's table. */
    method StripLevel(s: nat, l: nat, ghost was: Books)
      requires Loose() && was.Valid() && s in streams && l < LEVELS && |tables| == LEVELS
      requires arrivals == Stripped(was.a, s, l) && tables[l] == was.tables[l]
      modifies `streams, `counters, `enqueueTimes, `arrivals, `tables
      ensures Loose() && Aged(old(streams), streams)
      ensures arrivals == Stripped(was.a, s, l + 1) && tables == old(tables)[l := Left(was.tables[l], s)]
    {
      hide Indexed;
      hide Counters.Count;
      hide Tagged;
      hide Nodes;
      hide Lists;
      hide Select;
      hide Stripped;
      hide Left;
      QueueAt(arrivals, streams, s, l);
      SelectStripped(was.a, s, l, s, l);
      StrippedTwice(was.a, s, l);
      StrippedAgain(was.a, s, l);
      LeftOver(was.a, was.tables[l], s, l);
      if streams[s].levels[l] != [] {
        EmptyLevel(s, l);
        if |tables[l]| == 1 {
          tables := tables[l := []];
        } else {
          var filtered := FilterOut(tables[l], s);
          tables := tables[l := filtered];
        }
      } else {
        StrippedSame(arrivals, s, l);
      }
    }

    /** Drop a stream's packets level by level. */
    method StripStream(s: nat)
      requires Loose() && Tabled(arrivals, tables)
      modifies `streams, `counters, `enqueueTimes, `arrivals, `tables
      ensures Loose() && Aged(old(streams), streams) && View() == old(View()).Removed(s)
    {
      hide Indexed;
      hide Counters.Count;
      hide Tagged;
      hide Nodes;
      hide Lists;
      hide Select;
      hide Stripped;
      ghost var was := View();
      StrippedNone(arrivals, s);
      if s in streams {
        for l := 0 to LEVELS
          invariant Loose() && Aged(old(streams), streams)
          invariant arrivals == Stripped(was.a, s, l) && |tables| == LEVELS
          invariant forall l' :: 0 <= l' < LEVELS ==> tables[l'] == if l' < l then Left(was.tables[l'], s) else was.tables[l']
        {
          StripLevel(s, l, was);
        }
      } else {
        NotThere(was.a, streams, s);
        AbsentEverywhere(was.a, was.tables, s);
      }
    }

    /** RemovePacketsForSsrc. */
    method RemovePacketsForSsrc(s: nat)
      requires Valid()
      modifies `streams, `counters, `enqueueTimes, `arrivals, `tables, `top
      ensures Valid() && Value() == old(Value()).Forgotten(s)
    {
      hide Indexed;
      hide Counters.Count;
      hide Tagged;
      hide Nodes;
      hide Lists;
      hide Books.Removed;
      hide Books.Settle;
      hide Least;
      hide Ages;
      ghost var was, knew := View(), streams;
      hide State.Forgotten;
      ForgottenIs(Value(), s, top);
      StripStream(s);
      RemovedKeeps(was, s);
      RemovedTop(was, s, top);
      SettleTops(View(), 0, lastUpdate, ttls);
      MaybeUpdateTop();
      LeastTops(tables);
      AgedAges(knew, streams);
    }
  }

  /** The top level is right, or will be once a packet joins level `l`. */
  ghost predicate ToppedBut(tables: Tables, top: int, l: nat) {
    && |tables| == LEVELS && -1 <= top < LEVELS
    && (top >= 0 && top != l ==> tables[top] != [])
    && forall l' :: 0 <= l' < LEVELS && l' != l && (top == -1 || l' < top) ==> tables[l'] == []
  }

  lemma PurgedTop(b: Books, top: int, l: nat, now: int, ttl: Option<int>)
    requires l < LEVELS && Topped(b.tables, top)
    ensures ToppedBut(b.PurgeLevel(l, now, ttl).tables, top, l)
    ensures |b.PurgeLevel(l, now, ttl).tables| == LEVELS
  {
    PurgeOthers(b, l, now, ttl);
    TableGone(b.a, b.tables[l], l, now, ttl);
  }

  lemma TableGone(a: seq<Entry>, table: seq<nat>, l: nat, now: int, ttl: Option<int>)
    ensures ttl.Some? && table == [] ==> KeptTable(a, table, l, now, ttl.value) == []
  {
  }

  function NewStream(created: int): Stream {
    Stream([[], [], [], [], []], created, 0)
  }

  /** Nothing of the stream waits. */
  predicate Idle(a: seq<Entry>, s: nat) {
    forall l :: 0 <= l < LEVELS ==> Select(a, s, l) == []
  }

  predicate Stale(stream: Stream, now: int) {
    stream.Empty() && stream.created + 500 < now
  }

  function Culled(streams: map<nat, Stream>, now: int): map<nat, Stream> {
    map s | s in streams && !Stale(streams[s], now) :: streams[s]
  }

  /** No stream culled still has a packet waiting. */
  lemma CulledKeeps(a: seq<Entry>, streams: map<nat, Stream>, now: int)
    requires Indexed(a, streams)
    ensures Indexed(a, Culled(streams, now))
  {
    hide Total;
    hide Select;
    forall i | 0 <= i < |a| ensures a[i].packet.ssrc in Culled(streams, now) {
      var s, l := a[i].packet.ssrc, a[i].level;
      assert Queues(a, s, streams[s]);
      Unselected(a, s, l);
    }
  }

  lemma CullMeans(a: seq<Entry>, streams: map<nat, Stream>, now: int)
    requires Indexed(a, streams)
    ensures forall s :: s in streams ==> (s in Culled(streams, now) <==> !(streams[s].created + 500 < now && Idle(a, s)))
  {
    hide Total;
    hide Select;
    forall s | s in streams ensures streams[s].Empty() <==> Idle(a, s) {
      assert Queues(a, s, streams[s]);
      forall l | 0 <= l < LEVELS ensures streams[s].levels[l] == Select(a, s, l) {
      }
    }
  }

  /** The stream of a new packet joins the table of its level. */
  lemma JoinedKeeps(b: Books, e: Entry)
    requires b.Valid() && e.level < LEVELS
    ensures b.Joined(e).Valid()
    ensures e.packet.ssrc in b.tables[e.level] <==> Select(b.a, e.packet.ssrc, e.level) != []
  {
    hide Select;
    var c, s := b.Joined(e), e.packet.ssrc;
    assert Lists(b.a, b.tables[e.level], e.level);
    forall l | 0 <= l < LEVELS ensures Lists(c.a, c.tables[l], l) {
      assert Lists(b.a, b.tables[l], l);
      forall s' ensures s' in c.tables[l] <==> Select(c.a, s', l) != [] {
        SelectAppend(b.a, e, s', l);
      }
    }
  }

  lemma StrippedStays(a: seq<Entry>, s: nat, l: nat)
    requires Select(a, s, l) != []
    ensures a == Stripped(a, s, l) ==> WithoutFirst(a, s, l) == Stripped(WithoutFirst(a, s, l), s, l)
  {
    if a == Stripped(a, s, l) {
      var i := FirstIndex(a, s, l);
      var b := WithoutFirst(a, s, l);
      forall j | 0 <= j < |b| ensures !(b[j].packet.ssrc == s && b[j].level < l) {
        StrippedClean(a, s, l, if j < i then j else j + 1);
      }
      StrippedAll(b, s, l);
    }
  }

  lemma StrippedClean(a: seq<Entry>, s: nat, n: nat, j: nat)
    requires a == Stripped(a, s, n) && j < |a|
    ensures !(a[j].packet.ssrc == s && a[j].level < n)
  {
    if a[j].packet.ssrc == s && a[j].level < n {
      SelectStripped(a, s, n, s, a[j].level);
      Unselected(a, s, a[j].level);
    }
  }

  lemma {:induction false} StrippedAll(a: seq<Entry>, s: nat, n: nat)
    requires forall j :: 0 <= j < |a| ==> !(a[j].packet.ssrc == s && a[j].level < n)
    ensures Stripped(a, s, n) == a
  {
    if a != [] {
      StrippedAll(a[..|a| - 1], s, n);
      assert a == a[..|a| - 1] + [a[|a| - 1]];
    }
  }

  lemma {:induction false} StrippedAgain(a: seq<Entry>, s: nat, n: nat)
    ensures Stripped(Stripped(a, s, n), s, n) == Stripped(a, s, n)
  {
    if a != [] {
      var m := |a| - 1;
      StrippedAgain(a[..m], s, n);
      var b := Stripped(a[..m], s, n);
      if !(a[m].packet.ssrc == s && a[m].level < n) {
        assert (b + [a[m]])[..|b|] == b && (b + [a[m]])[|b|] == a[m];
      } else {
        assert Stripped(a, s, n) == b;
      }
    }
  }

  /** A stream's place in a table, before and after its packets of the level are gone. */
  lemma LeftOver(a: seq<Entry>, table: seq<nat>, s: nat, l: nat)
    requires Lists(a, table, l)
    ensures Select(a, s, l) == [] ==> Left(table, s) == table
    ensures Select(a, s, l) != [] && |table| == 1 ==> Left(table, s) == []
  {
    hide Select;
    LeftDistinct(table, s);
    if Select(a, s, l) != [] && |table| == 1 {
      assert table[0] == s && table[..0] == [];
    }
  }

  lemma NotThere(a: seq<Entry>, streams: map<nat, Stream>, s: nat)
    requires Indexed(a, streams) && s !in streams
    ensures Stripped(a, s, LEVELS) == a && Idle(a, s)
  {
    StrippedAll(a, s, LEVELS);
    forall l | 0 <= l < LEVELS ensures Select(a, s, l) == [] {
      Unselected(a, s, l);
    }
  }

  lemma AbsentEverywhere(a: seq<Entry>, tables: Tables, s: nat)
    requires Tabled(a, tables) && Idle(a, s)
    ensures forall l :: 0 <= l < LEVELS ==> Left(tables[l], s) == tables[l]
  {
    forall l | 0 <= l < LEVELS ensures Left(tables[l], s) == tables[l] {
      assert Lists(a, tables[l], l);
      LeftOver(a, tables[l], s, l);
    }
  }

  lemma RemovedKeeps(b: Books, s: nat)
    requires b.Valid()
    ensures b.Removed(s).Valid()
  {
    hide Select;
    hide Stripped;
    hide Left;
    var c := b.Removed(s);
    forall l | 0 <= l < LEVELS ensures Lists(c.a, c.tables[l], l) {
      assert Lists(b.a, b.tables[l], l);
      LeftDistinct(b.tables[l], s);
      forall s' ensures s' in c.tables[l] <==> Select(c.a, s', l) != [] {
        LeftHas(b.tables[l], s, s');
        SelectStripped(b.a, s, LEVELS, s', l);
      }
    }
  }

  lemma RemovedTop(b: Books, s: nat, top: int)
    requires Topped(b.tables, top)
    ensures top != -1 && b.Removed(s).tables[top] != [] ==> Topped(b.Removed(s).tables, top)
  {
  }

  lemma HeadHasPackets(a: seq<Entry>, tables: Tables, l: nat)
    requires Tabled(a, tables) && l < LEVELS && tables[l] != []
    ensures Select(a, tables[l][0], l) != []
  {
    assert Lists(a, tables[l], l);
    assert tables[l][0] in tables[l];
  }

  lemma ServedKeeps(b: Books, l: nat)
    requires b.Valid() && l < LEVELS && b.tables[l] != []
    ensures b.Served(l).Valid()
  {
    hide Select;
    hide WithoutFirst;
    var s, c := b.tables[l][0], b.Served(l);
    HeadHasPackets(b.a, b.tables, l);
    forall l' | 0 <= l' < LEVELS ensures Lists(c.a, c.tables[l'], l') {
      assert Lists(b.a, b.tables[l'], l');
      forall s' ensures s' in c.tables[l'] <==> Select(c.a, s', l') != [] {
        SelectWithoutFirst(b.a, s, l, s', l');
        if l' == l {
          RotatedMembers(b.tables[l], s', Select(c.a, s, l) != []);
        }
      }
      if l' == l {
        RotatedDistinct(b.tables[l], Select(c.a, s, l) != []);
      }
    }
  }

  lemma RotatedMembers(t: seq<nat>, s: nat, more: bool)
    requires t != [] && Distinct(t)
    ensures s in t[1..] + (if more then [t[0]] else []) <==> s in t && (s != t[0] || more)
  {
    if s in t && s != t[0] {
      var i :| 0 <= i < |t| && t[i] == s;
      assert t[1..][i - 1] == s;
    }
  }

  lemma RotatedDistinct(t: seq<nat>, more: bool)
    requires t != [] && Distinct(t)
    ensures Distinct(t[1..] + if more then [t[0]] else [])
  {
  }

  lemma ServedTop(b: Books, l: nat)
    requires b.Valid() && l < LEVELS && Topped(b.tables, l)
    ensures b.Served(l).tables[l] != [] ==> Topped(b.Served(l).tables, l)
  {
  }

  lemma TabledShape(a: seq<Entry>, tables: Tables)
    requires Tabled(a, tables)
    ensures |tables| == LEVELS
  {
  }

  lemma LooseFacts(a: seq<Entry>, streams: map<nat, Stream>, c: Counters, clock: int)
    requires Indexed(a, streams) && c.Count(a, clock)
    ensures c.packets == |a| && forall i :: 0 <= i < |a| ==> a[i].level < LEVELS
  {
  }

  lemma PurgeOthers(b: Books, l: nat, now: int, ttl: Option<int>)
    requires l < |b.tables|
    ensures forall l' :: 0 <= l' < |b.tables| && l' != l ==> b.PurgeLevel(l, now, ttl).tables[l'] == b.tables[l']
  {
  }

  lemma CountShape(c: Counters, a: seq<Entry>, clock: int)
    requires c.Count(a, clock)
    ensures |c.perKind| == 5
  {
  }

  lemma QueueAt(a: seq<Entry>, streams: map<nat, Stream>, s: nat, l: nat)
    requires Indexed(a, streams) && s in streams && l < LEVELS
    ensures |streams[s].levels| == LEVELS && streams[s].levels[l] == Select(a, s, l)
  {
    assert Queues(a, s, streams[s]);
  }

  lemma StreamKnown(a: seq<Entry>, streams: map<nat, Stream>, s: nat, l: nat)
    requires Indexed(a, streams) && Select(a, s, l) != []
    ensures s in streams
  {
    var i := FirstIndex(a, s, l);
    assert a[i].Of(s, l);
  }

  /** Passing one entry of a table being filtered in place. */
  lemma TableStep(queues: seq<nat>, kept: seq<nat>, table: seq<nat>, done: nat)
    requires done < |table| && queues == kept + table[done..]
    ensures queues[..|kept|] + queues[|kept| + 1..] == kept + table[done + 1..]
    ensures queues == (kept + [table[done]]) + table[done + 1..]
  {
  }

  lemma NothingPurged(a: seq<Entry>, table: seq<nat>, l: nat, now: int, ttl: int)
    ensures PurgeStreams(a, table[..0], l, now, ttl) == a && KeptTable(a, table[..0], l, now, ttl) == []
  {
  }

  /** The next stream of a table was not touched yet. */
  lemma NextInTable(a: seq<Entry>, table: seq<nat>, i: nat, l: nat, now: int, ttl: int)
    requires Lists(a, table, l) && i < |table|
    ensures Select(PurgeStreams(a, table[..i], l, now, ttl), table[i], l) == Select(a, table[i], l) != []
    ensures Select(PurgeStreams(a, table[..i + 1], l, now, ttl), table[i], l) == Fresh(Select(a, table[i], l), now, ttl)
    ensures PurgeStreams(a, table[..i + 1], l, now, ttl) ==
      PurgeStream(PurgeStreams(a, table[..i], l, now, ttl), table[i], l, now, ttl)
    ensures KeptTable(a, table[..i + 1], l, now, ttl) ==
      KeptTable(a, table[..i], l, now, ttl) + if Fresh(Select(a, table[i], l), now, ttl) != [] then [table[i]] else []
  {
    hide PurgeStream;
    hide Fresh;
    hide Select;
    assert table[..i + 1][..i] == table[..i];
    assert table[i] !in table[..i] && table[i] in table && table[i] in table[..i + 1];
    SelectPurgeStreams(a, table[..i], l, now, ttl, table[i], l);
    SelectPurgeStreams(a, table[..i + 1], l, now, ttl, table[i], l);
  }

  // ----- Order -----

  /**
   The packet Pop takes: none of a more urgent level waits, and of those of its
   own stream and level it was pushed first.
   */
  lemma NextPacket(b: Books, top: int) returns (i: nat)
    requires b.Valid() && Topped(b.tables, top) && b.a != [] && forall j :: 0 <= j < |b.a| ==> b.a[j].level < LEVELS
    ensures 0 <= top < LEVELS && b.tables[top] != []
    ensures Select(b.a, b.tables[top][0], top) != []
    ensures i < |b.a| && b.a[i] == Select(b.a, b.tables[top][0], top)[0]
    ensures forall j :: 0 <= j < |b.a| ==> top <= b.a[j].level
    ensures forall j :: 0 <= j < i ==> !(b.a[j].packet.ssrc == b.a[i].packet.ssrc && b.a[j].level == b.a[i].level)
  {
    NothingWaits(b.a, b.tables);
    HeadHasPackets(b.a, b.tables, top);
    i := FirstIndex(b.a, b.tables[top][0], top);
    forall j | 0 <= j < |b.a| ensures top <= b.a[j].level {
      Unselected(b.a, b.a[j].packet.ssrc, b.a[j].level);
      assert Lists(b.a, b.tables[b.a[j].level], b.a[j].level);
      assert b.a[j].packet.ssrc in b.tables[b.a[j].level];
    }
  }
}
