/**
 The time limit of src/qos/prioritized_packet_queue.h: what a purge drops, when
 a packet is dropped over a whole run, and runs that fail the limit documented.
 */
module QueueLimits {
  import opened Common
  import opened QueueBooks
  import opened PacketQueue
  import opened QueueRuns

  // ----- What a purge drops -----

  /** How long a packet has waited: by the wall clock, or by the clock that stops in pauses. */
  datatype Wait = Wall(now: int) | Unpaused(clock: int)
  {
    function Of(e: Entry): int {
      match this
      case Wall(now) => now - e.time
      case Unpaused(clock) => clock - e.at
    }
  }

  /** The packets of a queue that have not waited longer than the limit. */
  function WithinLimit(q: seq<Entry>, w: Wait, ttl: int): (r: seq<Entry>)
    ensures |r| <= |q|
    ensures (forall i :: 0 <= i < |q| ==> w.Of(q[i]) <= ttl) ==> r == q
    ensures (forall i :: 0 <= i < |q| ==> w.Of(q[i]) > ttl) ==> r == []
  {
    if q == [] then [] else (if w.Of(q[0]) <= ttl then [q[0]] else []) + WithinLimit(q[1..], w, ttl)
  }

  lemma OrderedTail(q: seq<Entry>)
    requires Ordered(q) && q != []
    ensures Ordered(q[1..])
  {
  }

  /** What a purge drops of a queue, exactly: what has waited longer than the limit, pauses before the push included. */
  lemma {:induction false} FreshMeans(q: seq<Entry>, now: int, ttl: int)
    requires Ordered(q)
    ensures Fresh(q, now, ttl) == WithinLimit(q, Unpaused(now), ttl)
  {
    if q != [] && Expired(q[0], now, ttl) {
      OrderedTail(q);
      FreshMeans(q[1..], now, ttl);
    } else {
      assert forall i :: 0 <= i < |q| ==> q[0].at <= q[i].at;
    }
  }

  lemma {:induction false} SameWaits(q: seq<Entry>, v: Wait, w: Wait, ttl: int)
    requires forall i :: 0 <= i < |q| ==> (v.Of(q[i]) <= ttl <==> w.Of(q[i]) <= ttl)
    ensures WithinLimit(q, v, ttl) == WithinLimit(q, w, ttl)
  {
    if q != [] {
      SameWaits(q[1..], v, w, ttl);
    }
  }

  /** Dropping more: a packet one measure keeps and the other drops. */
  lemma {:induction false} FewerLeft(q: seq<Entry>, v: Wait, w: Wait, ttl: int, i: nat)
    requires i < |q| && v.Of(q[i]) > ttl >= w.Of(q[i])
    requires forall j :: 0 <= j < |q| ==> v.Of(q[j]) >= w.Of(q[j])
    ensures |WithinLimit(q, v, ttl)| < |WithinLimit(q, w, ttl)|
  {
    if i == 0 {
      AtMost(q[1..], v, w, ttl);
    } else {
      FewerLeft(q[1..], v, w, ttl, i - 1);
    }
  }

  lemma {:induction false} AtMost(q: seq<Entry>, v: Wait, w: Wait, ttl: int)
    requires forall j :: 0 <= j < |q| ==> v.Of(q[j]) >= w.Of(q[j])
    ensures |WithinLimit(q, v, ttl)| <= |WithinLimit(q, w, ttl)|
  {
    if q != [] {
      AtMost(q[1..], v, w, ttl);
    }
  }

  /** A purge of this queue, whenever it comes from now on, keeps exactly the packets whose wait is within the limit. */
  ghost predicate LimitsWall(q: seq<Entry>, ttl: int, since: int) {
    forall now :: now >= since ==> Fresh(q, now, ttl) == WithinLimit(q, Wall(now), ttl)
  }

  /** And for the unpaused wait, by the clocks as they go on from this state. */
  ghost predicate LimitsUnpaused(q: seq<Entry>, s: State, ttl: int) {
    forall now :: now >= s.now ==> Fresh(q, now, ttl) == WithinLimit(q, Unpaused(s.Advanced(now).Clock()), ttl)
  }

  /** The packet is past the limit already. */
  predicate PastAlready(e: Entry, w: Wait, ttl: int) {
    w.Of(e) > ttl
  }

  /**
   A purge drops by the time since the push if and only if each packet waiting
   was pushed before any pause, or is past the limit already.
   */
  lemma WallLimit(q: seq<Entry>, ttl: int, since: int)
    requires Ordered(q)
    ensures LimitsWall(q, ttl, since)
      <==> forall i :: 0 <= i < |q| ==> q[i].at == q[i].time || PastAlready(q[i], Wall(since), ttl)
  {
    hide Fresh;
    hide WithinLimit;
    forall now ensures Fresh(q, now, ttl) == WithinLimit(q, Unpaused(now), ttl) {
      FreshMeans(q, now, ttl);
    }
    if i :| 0 <= i < |q| && q[i].at != q[i].time && !PastAlready(q[i], Wall(since), ttl) {
      var now := q[i].time + ttl;
      FewerLeft(q, Unpaused(now), Wall(now), ttl, i);
      assert now >= since && Fresh(q, now, ttl) != WithinLimit(q, Wall(now), ttl);
    } else {
      forall now | now >= since ensures WithinLimit(q, Unpaused(now), ttl) == WithinLimit(q, Wall(now), ttl) {
        SameWaits(q, Unpaused(now), Wall(now), ttl);
      }
    }
  }

  /**
   It drops by the unpaused wait if and only if the queue has never been paused
   and is not now, or each packet waiting is past the limit already.
   */
  lemma UnpausedLimit(q: seq<Entry>, s: State, ttl: int)
    requires Ordered(q) && 0 <= s.pauses
    ensures LimitsUnpaused(q, s, ttl)
      <==> (s.pauses == 0 && !s.paused) || forall i :: 0 <= i < |q| ==> PastAlready(q[i], Unpaused(s.Clock()), ttl)
  {
    hide Fresh;
    hide WithinLimit;
    hide Ordered;
    forall now ensures Fresh(q, now, ttl) == WithinLimit(q, Unpaused(now), ttl) {
      FreshMeans(q, now, ttl);
    }
    if s.pauses == 0 && !s.paused {
    } else if i :| 0 <= i < |q| && !PastAlready(q[i], Unpaused(s.Clock()), ttl) {
      PausedTooLong(q, s, ttl, i);
    } else {
      forall now | now >= s.now ensures WithinLimit(q, Unpaused(now), ttl) == WithinLimit(q, Unpaused(s.Advanced(now).Clock()), ttl) {
        SameWaits(q, Unpaused(now), Unpaused(s.Advanced(now).Clock()), ttl);
      }
    }
  }

  /** A time from which the two limits differ. */
  lemma PausedTooLong(q: seq<Entry>, s: State, ttl: int, i: nat)
    requires Ordered(q) && 0 <= s.pauses && (s.pauses != 0 || s.paused)
    requires i < |q| && !PastAlready(q[i], Unpaused(s.Clock()), ttl)
    ensures !LimitsUnpaused(q, s, ttl)
  {
    hide Fresh;
    hide WithinLimit;
    hide Ordered;
    var now := if !s.paused then q[i].at + ttl + s.pauses else Max(s.now, q[i].at + ttl + 1);
    FewerLeft(q, Unpaused(now), Unpaused(s.Advanced(now).Clock()), ttl, i);
    FreshMeans(q, now, ttl);
    assert now >= s.now && Fresh(q, now, ttl) != WithinLimit(q, Unpaused(s.Advanced(now).Clock()), ttl);
  }

  function Max(a: int, b: int): int {
    if a <= b then b else a
  }

  /** A packet waiting is stamped with its time less all the pauses there were before its push. */
  lemma {:induction false} Stamp(q: State, moves: seq<Move>, e: Entry) returns (k: nat)
    requires q.Shaped() && q.books.Valid() && q.books.a == [] && e in Run(q, moves).books.a
    ensures k < |moves| && moves[k] == Push(e.time, e.packet)
    ensures e.time - e.at == Run(q, moves[..k]).Advanced(e.time).pauses
    decreases |moves|
  {
    hide After;
    assert moves != [];
    var n := |moves| - 1;
    var r := Run(q, moves[..n]);
    RunKeeps(q, moves[..n]);
    var kept := AfterPart(r, moves[n]);
    if e in r.books.a {
      k := Stamp(q, moves[..n], e);
      assert moves[..n][..k] == moves[..k];
    } else {
      k := n;
    }
  }

  /** A purge of level `l`, whenever it comes from now on, would leave of this stream exactly the packets within the limit. */
  ghost predicate PurgesWall(q: State, s: nat, l: nat, ttl: int)
    requires l < |q.books.tables|
  {
    forall now :: now >= q.now ==>
      Select(q.books.PurgeLevel(l, now, Some(ttl)).a, s, l) == WithinLimit(Select(q.books.a, s, l), Wall(now), ttl)
  }

  /** And for the unpaused wait, if nothing is called before. */
  ghost predicate PurgesUnpaused(q: State, s: nat, l: nat, ttl: int)
    requires l < |q.books.tables|
  {
    forall now :: now >= q.now ==>
      Select(q.books.PurgeLevel(l, now, Some(ttl)).a, s, l)
      == WithinLimit(Select(q.books.a, s, l), Unpaused(q.Advanced(now).Clock()), ttl)
  }

  /** Both, of every queue after every run, for the limit the level has. */
  lemma TimeLimit(setup: Setup, creation: int, moves: seq<Move>, s: nat, l: nat, ttl: int)
    requires |setup.ttls| == LEVELS && Timely(Opened(setup, creation), moves) && l < LEVELS && setup.ttls[l] == Some(ttl)
    ensures var q := Run(Opened(setup, creation), moves);
      && (PurgesWall(q, s, l, ttl)
          <==> forall e :: e in Select(q.books.a, s, l) ==> e.at == e.time || PastAlready(e, Wall(q.now), ttl))
      && (PurgesUnpaused(q, s, l, ttl)
          <==> (q.pauses == 0 && !q.paused) || forall e :: e in Select(q.books.a, s, l) ==> PastAlready(e, Unpaused(q.Clock()), ttl))
  {
    hide PurgesWall;
    hide PurgesUnpaused;
    hide PastAlready;
    hide Run;
    OpenedInTime(setup, creation);
    RunInTime(Opened(setup, creation), moves);
    WallPurge(Run(Opened(setup, creation), moves), s, l, ttl);
    UnpausedPurge(Run(Opened(setup, creation), moves), s, l, ttl);
  }

  lemma WallPurge(q: State, s: nat, l: nat, ttl: int)
    requires InTime(q) && l < LEVELS
    ensures PurgesWall(q, s, l, ttl)
      <==> forall e :: e in Select(q.books.a, s, l) ==> e.at == e.time || PastAlready(e, Wall(q.now), ttl)
  {
    hide Select;
    hide Fresh;
    hide Books.PurgeLevel;
    hide WithinLimit;
    hide Lists;
    hide PastAlready;
    var queue := Select(q.books.a, s, l);
    forall now ensures Select(q.books.PurgeLevel(l, now, Some(ttl)).a, s, l) == Fresh(queue, now, ttl) {
      PurgeLevelMeans(q.books, l, now, Some(ttl), s, l);
    }
    PartSelect(q.books.a, s, l);
    WallLimit(queue, ttl, q.now);
  }

  lemma UnpausedPurge(q: State, s: nat, l: nat, ttl: int)
    requires InTime(q) && l < LEVELS
    ensures PurgesUnpaused(q, s, l, ttl)
      <==> (q.pauses == 0 && !q.paused) || forall e :: e in Select(q.books.a, s, l) ==> PastAlready(e, Unpaused(q.Clock()), ttl)
  {
    hide Select;
    hide Fresh;
    hide Books.PurgeLevel;
    hide WithinLimit;
    hide Lists;
    hide PastAlready;
    hide State.Advanced;
    var queue := Select(q.books.a, s, l);
    forall now ensures Select(q.books.PurgeLevel(l, now, Some(ttl)).a, s, l) == Fresh(queue, now, ttl) {
      PurgeLevelMeans(q.books, l, now, Some(ttl), s, l);
    }
    PartSelect(q.books.a, s, l);
    UnpausedLimit(queue, q, ttl);
  }

  // ----- When a packet is dropped -----

  /** What waits once the packet is popped, or the stream removed, and before anything is purged. */
  function Remaining(q: State, m: Move): seq<Entry>
    requires q.Shaped()
  {
    match m
    case Pop => if q.Top() < 0 then q.books.a else WithoutFirst(q.books.a, q.books.tables[q.Top()][0], q.Top())
    case Remove(ssrc) => Stripped(q.books.a, ssrc, LEVELS)
    case _ => q.books.a
  }

  /** The packet has waited longer than the limit, pauses before its push included. */
  predicate Exceeds(e: Entry, now: int, ttl: Option<int>) {
    ttl.Some? && Expired(e, now, ttl.value)
  }

  /** Every packet of these levels has expired. */
  predicate Spent(a: seq<Entry>, from: nat, to: nat, now: int, ttls: seq<Option<int>>)
    requires to <= |ttls|
  {
    forall e :: e in a && from <= e.level < to ==> Exceeds(e, now, ttls[e.level])
  }

  /** A pop, or a removal, that leaves nothing of the top level: the queue settles. */
  predicate Settles(q: State, m: Move)
    requires q.Shaped()
  {
    match m
    case Pop => q.Top() >= 0 && forall e :: e in Remaining(q, m) ==> e.level != q.Top()
    case Remove(_) => forall e :: e in Remaining(q, m) ==> e.level != q.Top()
    case _ => false
  }

  /**
   When the call purges level `l`, if it does: it pushes a packet of that level,
   or it leaves nothing of the top level, and nothing of a more urgent level than
   `l` that has not expired.
   */
  function Purges(q: State, m: Move, l: nat): Option<int>
    requires q.Shaped() && l < LEVELS
  {
    match m
    case Push(time, packet) => if q.setup.LevelOf(packet) == l then Some(time) else None
    case _ => if Settles(q, m) && Spent(Remaining(q, m), 0, l, q.now, q.setup.ttls) then Some(q.now) else None
  }

  /** The packet is the oldest of this stream and level. */
  predicate IsFirst(a: seq<Entry>, s: nat, l: nat, e: Entry) {
    Select(a, s, l) != [] && Select(a, s, l)[0] == e
  }

  /** The call pops the packet, or removes its stream. */
  predicate Takes(q: State, m: Move, e: Entry)
    requires q.Shaped()
  {
    match m
    case Pop => q.Top() >= 0 && IsFirst(q.books.a, q.books.tables[q.Top()][0], q.Top(), e)
    case Remove(ssrc) => ssrc == e.packet.ssrc
    case _ => false
  }

  /** The call purges the packet's level when its time, less the pauses before its push, is past the limit. */
  predicate Drops(q: State, m: Move, e: Entry)
    requires q.Shaped()
  {
    e.level < LEVELS && Purges(q, m, e.level).Some? && Exceeds(e, Purges(q, m, e.level).value, q.setup.ttls[e.level])
  }

  /** The call at `k` leaves the packet. */
  predicate Spares(q: State, moves: seq<Move>, k: nat, e: Entry)
    requires q.Shaped() && k < |moves|
  {
    !Takes(Run(q, moves[..k]), moves[k], e) && !Drops(Run(q, moves[..k]), moves[k], e)
  }

  lemma {:induction false} InSelect(a: seq<Entry>, e: Entry)
    ensures e in a <==> e in Select(a, e.packet.ssrc, e.level)
  {
    if a != [] {
      var n := |a| - 1;
      InSelect(a[..n], e);
      assert a == a[..n] + [a[n]];
    }
  }

  lemma {:induction false} InWithin(q: seq<Entry>, w: Wait, ttl: int, e: Entry)
    ensures e in WithinLimit(q, w, ttl) <==> e in q && w.Of(e) <= ttl
  {
    if q != [] {
      InWithin(q[1..], w, ttl, e);
      assert q == [q[0]] + q[1..];
    }
  }

  lemma PurgedHas(b: Books, l: nat, now: int, ttl: Option<int>, e: Entry, clock: int, later: int)
    requires b.Valid() && l < LEVELS && e.level < LEVELS && Past(b.a, clock, later)
    ensures e in b.PurgeLevel(l, now, ttl).a <==> e in b.a && !(l == e.level && Exceeds(e, now, ttl))
  {
    hide Books.PurgeLevel;
    hide Select;
    hide WithinLimit;
    hide Fresh;
    hide Lists;
    var s := e.packet.ssrc;
    InSelect(b.a, e);
    InSelect(b.PurgeLevel(l, now, ttl).a, e);
    PurgeLevelMeans(b, l, now, ttl, s, e.level);
    if l == e.level && ttl.Some? {
      PartSelect(b.a, s, l);
      FreshMeans(Select(b.a, s, l), now, ttl.value);
      InWithin(Select(b.a, s, l), Unpaused(now), ttl.value, e);
    }
  }

  /** A table is empty when no packet of its level waits. */
  lemma TableEmpty(b: Books, l: nat)
    requires b.Valid() && l < LEVELS
    ensures b.tables[l] == [] <==> forall e :: e in b.a ==> e.level != l
  {
    hide Select;
    assert Lists(b.a, b.tables[l], l);
    if b.tables[l] != [] {
      HeadHasPackets(b.a, b.tables, l);
      assert Select(b.a, b.tables[l][0], l)[0] in b.a;
    } else {
      forall e | e in b.a ensures e.level != l {
        InSelect(b.a, e);
      }
    }
  }

  /** A level purged is empty when all its packets had expired. */
  lemma PurgedEmpty(b: Books, l: nat, now: int, ttls: seq<Option<int>>, clock: int, later: int)
    requires b.Valid() && l < LEVELS == |ttls| && Past(b.a, clock, later)
    ensures b.PurgeLevel(l, now, ttls[l]).tables[l] == [] <==> Spent(b.a, l, l + 1, now, ttls)
  {
    hide Books.PurgeLevel;
    hide Past;
    hide Lists;
    hide Exceeds;
    var c := b.PurgeLevel(l, now, ttls[l]);
    PurgeLevelKeeps(b, l, now, ttls[l]);
    TableEmpty(c, l);
    forall e: Entry | e.level == l ensures e in c.a <==> e in b.a && !Exceeds(e, now, ttls[l]) {
      PurgedHas(b, l, now, ttls[l], e, clock, later);
    }
  }

  /** The levels after one purged are spent as they were. */
  lemma SpentNext(b: Books, l: nat, to: nat, now: int, ttls: seq<Option<int>>, clock: int, later: int)
    requires b.Valid() && l < to <= LEVELS == |ttls| && Past(b.a, clock, later)
    ensures Spent(b.a, l, to, now, ttls)
      <==> Spent(b.a, l, l + 1, now, ttls) && Spent(b.PurgeLevel(l, now, ttls[l]).a, l + 1, to, now, ttls)
  {
    hide Books.PurgeLevel;
    assert |b.tables| == LEVELS;
    hide Books.Valid;
    hide Past;
    hide Exceeds;
    var c := b.PurgeLevel(l, now, ttls[l]);
    forall e: Entry | l < e.level < to ensures e in c.a <==> e in b.a {
      PurgedHas(b, l, now, ttls[l], e, clock, later);
    }
  }

  /** Settling purges the levels down to the first that holds a packet not expired. */
  lemma {:induction false} SettledHas(b: Books, from: nat, now: int, ttls: seq<Option<int>>, e: Entry, clock: int, later: int)
    requires b.Valid() && |ttls| == LEVELS && from <= LEVELS && e.level < LEVELS && Past(b.a, clock, later)
    ensures e in b.Settle(from, now, ttls).a
      <==> e in b.a && !(from <= e.level && Spent(b.a, from, e.level, now, ttls) && Exceeds(e, now, ttls[e.level]))
    decreases LEVELS - from
  {
    hide Books.PurgeLevel;
    assert |b.tables| == LEVELS;
    hide Books.Valid;
    hide Past;
    hide Tagged;
    hide Exceeds;
    if from < LEVELS {
      var c := b.PurgeLevel(from, now, ttls[from]);
      PurgedHas(b, from, now, ttls[from], e, clock, later);
      PurgedEmpty(b, from, now, ttls, clock, later);
      PurgeLevelKeeps(b, from, now, ttls[from]);
      PartPurgeLevel(b, from, now, ttls[from]);
      if from < e.level {
        SpentNext(b, from, e.level, now, ttls, clock, later);
      }
      if c.tables[from] == [] {
        SettledHas(c, from + 1, now, ttls, e, clock, later);
      }
      hide Spent;
    }
  }

  lemma ServedHas(a: seq<Entry>, s: nat, l: nat, e: Entry, next: nat)
    requires Tagged(a, next) && Select(a, s, l) != []
    ensures e in WithoutFirst(a, s, l) <==> e in a && !IsFirst(a, s, l, e)
  {
    hide Select;
    hide WithoutFirst;
    var i := FirstIndex(a, s, l);
    var b := WithoutFirst(a, s, l);
    Erased(a, b, i);
    if e in b {
      var j :| 0 <= j < |b| && b[j] == e;
    }
    if e in a && e != a[i] {
      var j :| 0 <= j < |a| && a[j] == e;
      assert b[if j < i then j else j - 1] == e;
    }
  }

  lemma {:induction false} StrippedHas(a: seq<Entry>, s: nat, n: nat, e: Entry)
    ensures e in Stripped(a, s, n) <==> e in a && !(e.packet.ssrc == s && e.level < n)
  {
    if a != [] {
      var m := |a| - 1;
      StrippedHas(a[..m], s, n, e);
      assert a == a[..m] + [a[m]];
    }
  }

  lemma PushedHas(q: State, t: int, packet: Media, e: Entry)
    requires InTime(q) && e in q.books.a
    ensures e in q.Pushed(t, packet).books.a <==> !(q.setup.LevelOf(packet) == e.level && Exceeds(e, t, q.setup.ttls[e.level]))
  {
    hide Past;
    hide Books.PurgeLevel;
    hide Lists;
    hide Remembered;
    hide Exceeds;
    var l := q.setup.LevelOf(packet);
    PurgedHas(q.books, l, t, q.setup.ttls[l], e, q.Clock(), q.now);
  }

  lemma PoppedHas(q: State, e: Entry)
    requires InTime(q) && e in q.books.a
    ensures e in q.Popped().books.a <==> !Takes(q, Pop, e) && !Drops(q, Pop, e)
  {
    hide Past;
    hide Books.Settle;
    hide Lists;
    hide Select;
    hide WithoutFirst;
    hide IsFirst;
    hide Spent;
    hide Exceeds;
    var l := q.Top();
    if l >= 0 {
      var s := q.books.tables[l][0];
      HeadHasPackets(q.books.a, q.books.tables, l);
      ServedHas(q.books.a, s, l, e, q.nextTag);
      ServedKeeps(q.books, l);
      TableEmpty(q.books.Served(l), l);
      hide Tagged;
      PartWithoutFirst(q.books.a, s, l);
      SettledHas(q.books.Served(l), 0, q.now, q.setup.ttls, e, q.Clock(), q.now);
    }
  }

  lemma ForgottenHas(q: State, ssrc: nat, e: Entry)
    requires InTime(q) && e in q.books.a
    ensures e in q.Forgotten(ssrc).books.a <==> !Takes(q, Remove(ssrc), e) && !Drops(q, Remove(ssrc), e)
  {
    hide Past;
    hide Tagged;
    hide Books.Settle;
    hide Lists;
    hide Spent;
    hide Exceeds;
    StrippedHas(q.books.a, ssrc, LEVELS, e);
    RemovedKeeps(q.books, ssrc);
    PartStripped(q.books.a, ssrc, LEVELS);
    if q.Top() >= 0 {
      TableEmpty(q.books.Removed(ssrc), q.Top());
    }
    hide Stripped;
    SettledHas(q.books.Removed(ssrc), 0, q.now, q.setup.ttls, e, q.Clock(), q.now);
  }

  /**
   One call: a packet stays unless the call takes it or drops it.  One that left
   does not come back, as a packet pushed gets a tag of its own.
   */
  lemma AfterHas(q: State, m: Move, e: Entry)
    requires InTime(q) && e.level < LEVELS && e.tag < q.nextTag
    ensures e in After(q, m).books.a <==> e in q.books.a && !Takes(q, m, e) && !Drops(q, m, e)
  {
    if e in q.books.a {
      match m {
        case Push(time, packet) => PushedHas(q, time, packet, e);
        case Pop => PoppedHas(q, e);
        case Remove(ssrc) => ForgottenHas(q, ssrc, e);
        case Pause(_, _) =>
        case Update(_) =>
      }
    } else {
      hide After;
      var kept := AfterPart(q, m);
    }
  }

  lemma RunStep(q: State, moves: seq<Move>)
    requires q.Shaped()
    ensures Run(q, moves) == if moves == [] then q else After(Run(q, moves[..|moves| - 1]), moves[|moves| - 1])
  {
    hide After;
  }

  lemma {:induction false} RunHas(q: State, moves: seq<Move>, e: Entry)
    requires q.Shaped() && InTime(q) && Timely(q, moves) && e.level < LEVELS && e.tag < q.nextTag
    ensures e in Run(q, moves).books.a <==> e in q.books.a && forall k :: 0 <= k < |moves| ==> Spares(q, moves, k, e)
    decreases |moves|
  {
    hide InTime;
    hide After;
    hide Spares;
    RunStep(q, moves);
    hide Run;
    if moves != [] {
      var n := |moves| - 1;
      Sooner(q, moves);
      RunInTime(q, moves[..n]);
      RunHas(q, moves[..n], e);
      forall k | 0 <= k < n ensures Spares(q, moves[..n], k, e) <==> Spares(q, moves, k, e) {
        SparesSooner(q, moves, k, e);
      }
      SparesAt(q, moves, n, e, Run(q, moves[..n]));
      AfterHas(Run(q, moves[..n]), moves[n], e);
    }
  }

  lemma SparesAt(q: State, moves: seq<Move>, k: nat, e: Entry, r: State)
    requires q.Shaped() && r.Shaped() && k < |moves| && r == Run(q, moves[..k])
    ensures Spares(q, moves, k, e) <==> !Takes(r, moves[k], e) && !Drops(r, moves[k], e)
  {
    hide Run;
    hide Takes;
    hide Drops;
  }

  lemma SparesSooner(q: State, moves: seq<Move>, k: nat, e: Entry)
    requires q.Shaped() && k < |moves| - 1
    ensures Spares(q, moves[..|moves| - 1], k, e) <==> Spares(q, moves, k, e)
  {
    hide Run;
    assert moves[..|moves| - 1][..k] == moves[..k];
  }

  /**
   Over any run in order of time a packet waiting stays exactly until a call
   takes it, or purges its level after the packet expired.  So it waits on, or
   is popped, past its limit if and only if no purge of its level came since.
   */
  lemma StaysUntilPurged(q: State, moves: seq<Move>, e: Entry)
    requires InTime(q) && Timely(q, moves) && e in q.books.a
    ensures e in Run(q, moves).books.a <==> forall k :: 0 <= k < |moves| ==> Spares(q, moves, k, e)
  {
    RunHas(q, moves, e);
  }

  /** A run in order of time is one without its last call. */
  lemma Sooner(q: State, moves: seq<Move>)
    requires q.Shaped() && moves != []
    ensures var n := |moves| - 1;
      && (Timely(q, moves) ==> Timely(q, moves[..n]))
      && forall k :: 0 <= k < n ==> moves[..n][..k] == moves[..k] && moves[..n][k] == moves[k]
  {
    hide Run;
    assert forall k :: 0 <= k < |moves| - 1 ==> moves[..|moves| - 1][..k] == moves[..k];
  }

  /** When level `l` was last purged. */
  function LastPurge(q: State, moves: seq<Move>, l: nat): Option<int>
    requires q.Shaped() && l < LEVELS
    decreases |moves|
  {
    if moves == [] then None
    else
      var n := |moves| - 1;
      var purge := Purges(Run(q, moves[..n]), moves[n], l);
      if purge.Some? then purge else LastPurge(q, moves[..n], l)
  }

  lemma PurgeTime(q: State, m: Move, l: nat)
    requires q.Shaped() && l < LEVELS && Purges(q, m, l).Some?
    ensures Purges(q, m, l).value == TimeOf(q, m)
  {
  }

  lemma LastPurgeStep(q: State, moves: seq<Move>, l: nat)
    requires q.Shaped() && l < LEVELS && moves != []
    ensures var n := |moves| - 1;
      var purge := Purges(Run(q, moves[..n]), moves[n], l);
      LastPurge(q, moves, l) == if purge.Some? then purge else LastPurge(q, moves[..n], l)
  {
    hide Purges;
    hide Run;
  }

  lemma {:induction false} PurgedInTime(q: State, moves: seq<Move>, l: nat)
    requires q.Shaped() && InTime(q) && Timely(q, moves) && l < LEVELS && LastPurge(q, moves, l).Some?
    ensures LastPurge(q, moves, l).value <= Run(q, moves).now
    decreases |moves|
  {
    hide InTime;
    hide After;
    hide Purges;
    if moves != [] {
      var n := |moves| - 1;
      Sooner(q, moves);
      RunInTime(q, moves[..n]);
      RunStep(q, moves);
      LastPurgeStep(q, moves, l);
      AfterClocks(Run(q, moves[..n]), moves[n]);
      if Purges(Run(q, moves[..n]), moves[n], l).Some? {
        PurgeTime(Run(q, moves[..n]), moves[n], l);
      } else {
        PurgedInTime(q, moves[..n], l);
      }
    }
  }

  /** A packet no call takes stays if and only if it had not expired when its level was last purged. */
  lemma {:induction false} StaysByLastPurge(q: State, moves: seq<Move>, e: Entry)
    requires InTime(q) && Timely(q, moves) && e in q.books.a
    requires forall k :: 0 <= k < |moves| ==> !Takes(Run(q, moves[..k]), moves[k], e)
    ensures e.level < LEVELS
    ensures var purge := LastPurge(q, moves, e.level);
      e in Run(q, moves).books.a <==> purge.None? || !Exceeds(e, purge.value, q.setup.ttls[e.level])
    decreases |moves|
  {
    TagOf(q, e);
    hide InTime;
    hide After;
    hide Purges;
    hide Takes;
    if moves != [] {
      var n := |moves| - 1;
      Sooner(q, moves);
      StaysByLastPurge(q, moves[..n], e);
      RunInTime(q, moves[..n]);
      RunStep(q, moves);
      LastPurgeStep(q, moves, e.level);
      var r := Run(q, moves[..n]);
      AfterHas(r, moves[n], e);
      if Purges(r, moves[n], e.level).Some? {
        PurgeTime(r, moves[n], e.level);
        if LastPurge(q, moves[..n], e.level).Some? {
          PurgedInTime(q, moves[..n], e.level);
        }
      }
    }
  }

  /** Pushed at the time of the purge, or within the limit then. */
  predicate Within(e: Entry, purge: int, ttl: int) {
    purge == e.time || purge - e.time <= ttl
  }

  /** Every packet waiting at a level with a limit was within it when the level was last purged. */
  lemma {:induction false} WithinAtLastPurge(setup: Setup, creation: int, moves: seq<Move>, e: Entry, ttl: int)
    requires |setup.ttls| == LEVELS && Timely(Opened(setup, creation), moves)
    requires e in Run(Opened(setup, creation), moves).books.a && e.level < LEVELS && setup.ttls[e.level] == Some(ttl)
    ensures var purge := LastPurge(Opened(setup, creation), moves, e.level); purge.Some? && Within(e, purge.value, ttl)
    decreases |moves|
  {
    hide After;
    hide InTime;
    hide Takes;
    hide Purges;
    hide Within;
    var q := Opened(setup, creation);
    assert moves != [];
    var n := |moves| - 1;
    var r := Run(q, moves[..n]);
    Sooner(q, moves);
    OpenedInTime(setup, creation);
    RunInTime(q, moves[..n]);
    if e in r.books.a {
      TagOf(r, e);
      WithinAtLastPurge(setup, creation, moves[..n], e, ttl);
      AfterHas(r, moves[n], e);
      StaysWithin(r, moves[n], e, ttl);
    } else {
      EntersWithin(r, moves[n], e, ttl);
    }
  }

  lemma TagOf(q: State, e: Entry)
    requires InTime(q) && e in q.books.a
    ensures e.tag < q.nextTag && e.level < LEVELS
  {
  }

  lemma StaysWithin(q: State, m: Move, e: Entry, ttl: int)
    requires InTime(q) && e in q.books.a && q.setup.ttls[e.level] == Some(ttl) && !Drops(q, m, e)
    ensures Purges(q, m, e.level).Some? ==> Within(e, Purges(q, m, e.level).value, ttl)
  {
    hide Purges;
  }

  lemma EntersWithin(q: State, m: Move, e: Entry, ttl: int)
    requires InTime(q) && e !in q.books.a && e in After(q, m).books.a && e.level < LEVELS
    ensures Purges(q, m, e.level).Some? && Within(e, Purges(q, m, e.level).value, ttl)
  {
    hide After;
    var kept := AfterPart(q, m);
  }

  // ----- Runs that fail the limit documented -----

  /** The next packet of the stream finds it expired, and takes its place. */
  lemma Replaced(q: State, ttl: int, t: int, e: Entry, packet: Media)
    requires q.Shaped() && q.setup.ttls[3] == Some(ttl) && packet.kind == Video && t - e.at > ttl
    requires e.level == 3 && e.packet.ssrc == packet.ssrc && q.books.a == [e] && q.books.tables[3] == [packet.ssrc]
    ensures q.Pushed(t, packet).books.a == [Entry(packet, 3, q.Advanced(t).Clock(), q.nextTag, t)]
  {
    hide Remembered;
    hide KeptTable;
    Emptied(e, packet.ssrc, t, ttl);
  }

  lemma Emptied(e: Entry, s: nat, t: int, ttl: int)
    requires e.level == 3 && e.packet.ssrc == s && t - e.at > ttl
    ensures PurgeStreams([e], [s], 3, t, ttl) == []
  {
    hide Select;
    hide WithoutFirst;
    Alone(e, s, 3);
    assert [s][..0] == [];
    assert PurgeStream([], s, 3, t, ttl) == [];
    assert PurgeStream([e], s, 3, t, ttl) == [];
  }

  /**
   The limit on video drops a packet after it has waited one millisecond, if
   the queue had been paused for as long as the limit before it came.
   */
  lemma DroppedAtOnce(q: State, ttl: int, pause: int, v: Media, w: Media)
    requires Limits(q, ttl) && !q.paused && q.pauses == 0 && pause == ttl >= 0
    requires v.kind == w.kind == Video && v.ssrc == w.ssrc
    ensures var t := q.now + pause;
      var moves := [Pause(true, q.now), Pause(false, t), Push(t, v)];
      && Run(q, moves).books.a == [Entry(v, 3, q.now, q.nextTag, t)]
      && Run(q, moves + [Push(t + 1, w)]).books.a == [Entry(w, 3, q.now + 1, q.nextTag + 1, t + 1)]
  {
    hide State.Pushed;
    hide Run;
    var t := q.now + pause;
    var m0, m1, m2, m3 := Pause(true, q.now), Pause(false, t), Push(t, v), Push(t + 1, w);
    Three(q, m0, m1, m2);
    RunMore(q, [m0, m1, m2], m3);
    var r := After(After(q, m0), m1);
    FirstPacket(r, t, v);
    AfterClocks(r, m2);
    PushedPause(r, t, v);
    Replaced(After(r, m2), ttl, t + 1, Entry(v, 3, q.now, q.nextTag, t), w);
  }

  /** And one that has waited one millisecond outside pauses, if the queue is paused for that long while it waits. */
  lemma DroppedInPause(q: State, ttl: int, pause: int, v: Media, w: Media)
    requires Limits(q, ttl) && !q.paused && q.pauses == 0 && pause == ttl >= 0
    requires v.kind == w.kind == Video && v.ssrc == w.ssrc
    ensures var t := q.now + pause;
      var moves := [Push(q.now, v), Pause(true, q.now), Pause(false, t)];
      && Run(q, moves).books.a == [Entry(v, 3, q.now, q.nextTag, q.now)]
      && Run(q, moves).Advanced(t + 1).Clock() - q.now == 1
      && Run(q, moves + [Push(t + 1, w)]).books.a == [Entry(w, 3, q.now + 1, q.nextTag + 1, t + 1)]
  {
    hide State.Pushed;
    hide Run;
    var t := q.now + pause;
    var m0, m1, m2, m3 := Push(q.now, v), Pause(true, q.now), Pause(false, t), Push(t + 1, w);
    Three(q, m0, m1, m2);
    RunMore(q, [m0, m1, m2], m3);
    FirstPacket(q, q.now, v);
    AfterClocks(q, m0);
    PushedPause(q, q.now, v);
    Replaced(After(After(After(q, m0), m1), m2), ttl, t + 1, Entry(v, 3, q.now, q.nextTag, q.now), w);
  }

  /** Pop serves a packet that waited past the limit, though the queue was never paused: nothing purged its level. */
  lemma PoppedLate(q: State, ttl: int, late: int, v: Media)
    requires Limits(q, ttl) && !q.paused && q.pauses == 0 && v.kind == Video && late > ttl
    ensures var moves, e := [Push(q.now, v), Update(q.now + late)], Entry(v, 3, q.now, q.nextTag, q.now);
      && Run(q, moves).books.a == [e] && e.at == e.time && Run(q, moves).now - e.time == late
      && Takes(Run(q, moves), Pop, e)
  {
    hide State.Pushed;
    hide Run;
    var m0, m1 := Push(q.now, v), Update(q.now + late);
    Two(q, m0, m1);
    FirstPacket(q, q.now, v);
    AfterClocks(q, m0);
    PushedPause(q, q.now, v);
    var r := After(q, m0);
    Alone(Entry(v, 3, q.now, q.nextTag, q.now), v.ssrc, 3);
  }
}
