/**
 The pacer queue over whole runs: what every run keeps, round robin, and two
 promises of src/qos/prioritized_packet_queue.h that hold only under a
 condition, each with the condition and a run that fails it.
 */
module QueueRuns {
  import opened Common
  import opened QueueBooks
  import opened PacketQueue

  /** One call. */
  datatype Move = Push(time: int, packet: Media) | Pop | Remove(ssrc: nat) | Pause(pause: bool, now: int) | Update(now: int)

  function After(q: State, m: Move): (p: State)
    requires q.Shaped()
    ensures p.Shaped()
  {
    match m
    case Push(time, packet) => q.Pushed(time, packet)
    case Pop => q.Popped()
    case Remove(ssrc) => q.Forgotten(ssrc)
    case Pause(pause, now) => q.Advanced(now).(paused := pause)
    case Update(now) => q.Advanced(now)
  }

  /** The queue after a sequence of calls. */
  function Run(q: State, moves: seq<Move>): (p: State)
    requires q.Shaped()
    ensures p.Shaped()
    decreases |moves|
  {
    if moves == [] then q else After(Run(q, moves[..|moves| - 1]), moves[|moves| - 1])
  }

  /** What every call keeps. */
  lemma AfterKeeps(q: State, m: Move)
    requires q.Shaped() && q.books.Valid()
    ensures After(q, m).books.Valid()
  {
    hide Lists;
    hide Books.PurgeLevel;
    hide Books.Joined;
    hide Books.Served;
    hide Books.Removed;
    hide Remembered;
    match m {
      case Push(time, packet) =>
        var l := q.setup.LevelOf(packet);
        var b := q.books.PurgeLevel(l, time, q.setup.ttls[l]);
        PurgeLevelKeeps(q.books, l, time, q.setup.ttls[l]);
        JoinedKeeps(b, Entry(packet, l, q.Advanced(time).Clock(), q.nextTag, time));
      case Pop =>
        if q.Top() >= 0 {
          ServedKeeps(q.books, q.Top());
          SettleTops(q.books.Served(q.Top()), 0, q.now, q.setup.ttls);
        }
      case Remove(ssrc) =>
        RemovedKeeps(q.books, ssrc);
        SettleTops(q.books.Removed(ssrc), 0, q.now, q.setup.ttls);
      case Pause(_, _) =>
      case Update(_) =>
    }
  }

  lemma {:induction false} RunKeeps(q: State, moves: seq<Move>)
    requires q.Shaped() && q.books.Valid()
    ensures Run(q, moves).books.Valid()
    decreases |moves|
  {
    hide After;
    hide Books.Valid;
    if moves != [] {
      RunKeeps(q, moves[..|moves| - 1]);
      AfterKeeps(Run(q, moves[..|moves| - 1]), moves[|moves| - 1]);
    }
  }

  // ----- Round robin -----

  /** How many streams of a table are ahead of this one. */
  function Place(t: seq<nat>, s: nat): (i: nat)
    requires s in t
    ensures i < |t| && t[i] == s && forall j :: 0 <= j < i ==> t[j] != s
  {
    if t[0] == s then 0 else 1 + Place(t[1..], s)
  }

  lemma PlaceIs(t: seq<nat>, s: nat, i: nat)
    requires i < |t| && t[i] == s && forall j :: 0 <= j < i ==> t[j] != s
    ensures s in t && Place(t, s) == i
  {
  }

  lemma PlacePrefix(t: seq<nat>, u: seq<nat>, s: nat)
    requires s in t
    ensures s in t + u && Place(t + u, s) == Place(t, s)
  {
    PlaceIs(t + u, s, Place(t, s));
  }

  lemma PlaceLast(t: seq<nat>, s: nat)
    requires s !in t
    ensures Place(t + [s], s) == |t|
  {
    PlaceIs(t + [s], s, |t|);
  }

  /** No stream falls behind when others leave a table. */
  lemma {:induction false} KeptPlace(a: seq<Entry>, table: seq<nat>, l: nat, now: int, ttl: int, s: nat)
    ensures |KeptTable(a, table, l, now, ttl)| <= |table|
    ensures s in KeptTable(a, table, l, now, ttl) ==> s in table && Place(KeptTable(a, table, l, now, ttl), s) <= Place(table, s)
  {
    hide Fresh;
    hide Select;
    hide Place;
    if table != [] {
      var n := |table| - 1;
      assert table == table[..n] + [table[n]];
      var t, k := table[..n], KeptTable(a, table[..n], l, now, ttl);
      KeptPlace(a, t, l, now, ttl, s);
      KeptTableHas(a, t, l, now, ttl, s);
      KeptTableHas(a, table, l, now, ttl, s);
      Longer(t, table[n], k, KeptTable(a, table, l, now, ttl), s);
    }
  }

  lemma {:induction false} LeftPlace(table: seq<nat>, gone: nat, s: nat)
    ensures |Left(table, gone)| <= |table|
    ensures s in Left(table, gone) ==> s in table && Place(Left(table, gone), s) <= Place(table, s)
  {
    hide Place;
    if table != [] {
      var n := |table| - 1;
      assert table == table[..n] + [table[n]];
      var t := table[..n];
      LeftPlace(t, gone, s);
      LeftHas(t, gone, s);
      LeftHas(table, gone, s);
      Longer(t, table[n], Left(t, gone), Left(table, gone), s);
    }
  }

  /** One more stream at the end of a table and of what is kept of it. */
  lemma Longer(t: seq<nat>, x: nat, k: seq<nat>, more: seq<nat>, s: nat)
    requires |k| <= |t| && (more == k || more == k + [x])
    requires s in k ==> s in t && Place(k, s) <= Place(t, s)
    requires s in more && s in t ==> s in k
    ensures s in more ==> s in t + [x] && Place(more, s) <= Place(t + [x], s)
  {
    hide Place;
    if s in k {
      PlacePrefix(t, [x], s);
      PlacePrefix(k, [x], s);
      assert k + [] == k;
    } else if s in more {
      PlaceLast(k, s);
      PlaceLast(t, s);
    }
  }

  lemma PurgePlace(b: Books, p: nat, now: int, ttl: Option<int>, l: nat, s: nat)
    requires p < |b.tables| && l < |b.tables|
    ensures s in b.PurgeLevel(p, now, ttl).tables[l] ==>
      s in b.tables[l] && Place(b.PurgeLevel(p, now, ttl).tables[l], s) <= Place(b.tables[l], s)
  {
    hide Place;
    hide KeptTable;
    hide PurgeStreams;
    if ttl.Some? {
      KeptPlace(b.a, b.tables[p], p, now, ttl.value, s);
    }
  }

  lemma {:induction false} SettlePlace(b: Books, from: nat, now: int, ttls: seq<Option<int>>, l: nat, s: nat)
    requires |b.tables| == |ttls| == LEVELS && from <= LEVELS && l < LEVELS
    ensures s in b.Settle(from, now, ttls).tables[l] ==>
      s in b.tables[l] && Place(b.Settle(from, now, ttls).tables[l], s) <= Place(b.tables[l], s)
    decreases LEVELS - from
  {
    hide Place;
    hide Books.PurgeLevel;
    if from < LEVELS {
      PurgePlace(b, from, now, ttls[from], l, s);
      SettlePlace(b.PurgeLevel(from, now, ttls[from]), from + 1, now, ttls, l, s);
    }
  }

  /** This call pops at level `l`. */
  predicate Serves(q: State, m: Move, l: nat)
    requires q.Shaped()
  {
    m.Pop? && q.Top() == l
  }

  /**
   The stream still has a packet at the level that waited before the call.  (A
   push can drop all of them and have the stream join again, at the end.)
   */
  predicate Stays(q: State, m: Move, l: nat, s: nat)
    requires q.Shaped() && l < LEVELS
  {
    match m
    case Push(time, packet) =>
      var p := q.setup.LevelOf(packet);
      s in q.books.PurgeLevel(p, time, q.setup.ttls[p]).tables[l]
    case _ => s in After(q, m).books.tables[l]
  }

  /** A call moves a stream that stays up, and up by one if it serves another stream of the level. */
  lemma AfterPlace(q: State, m: Move, l: nat, s: nat)
    requires q.Shaped() && l < LEVELS && s in q.books.tables[l] && Stays(q, m, l, s)
    requires !(Serves(q, m, l) && q.books.tables[l][0] == s)
    ensures s in After(q, m).books.tables[l]
    ensures Place(After(q, m).books.tables[l], s) <= Place(q.books.tables[l], s) - (if Serves(q, m, l) then 1 else 0)
  {
    hide Place;
    hide Books.PurgeLevel;
    hide Books.Settle;
    hide Remembered;
    hide Left;
    hide Select;
    hide WithoutFirst;
    var t := q.books.tables[l];
    match m {
      case Push(time, packet) =>
        var p := q.setup.LevelOf(packet);
        PurgePlace(q.books, p, time, q.setup.ttls[p], l, s);
        PlacePrefix(q.books.PurgeLevel(p, time, q.setup.ttls[p]).tables[l], [packet.ssrc], s);
      case Pop =>
        if q.Top() >= 0 {
          var c := q.books.Served(q.Top());
          if q.Top() == l {
            PlaceServed(t, s, c.tables[l]);
          } else {
            SettlePlace(c, 0, q.now, q.setup.ttls, l, s);
          }
        }
      case Remove(ssrc) =>
        LeftPlace(t, ssrc, s);
        SettlePlace(q.books.Removed(ssrc), 0, q.now, q.setup.ttls, l, s);
      case Pause(_, _) =>
      case Update(_) =>
    }
  }

  lemma PlaceServed(t: seq<nat>, s: nat, u: seq<nat>)
    requires s in t && t[0] != s && t[1..] <= u
    ensures s in u && Place(u, s) == Place(t, s) - 1
  {
    hide Place;
    var i := Place(t, s);
    assert forall j :: 0 <= j < |t| - 1 ==> u[j] == t[1..][j] == t[j + 1];
    PlaceIs(u, s, i - 1);
  }

  /** How many other streams of level `l` these calls serve before `s` is served there, or loses what it had there. */
  function ServedBefore(q: State, moves: seq<Move>, s: nat, l: nat): nat
    requires q.Shaped() && l < LEVELS && s in q.books.tables[l]
    decreases |moves|
  {
    if moves == [] || (Serves(q, moves[0], l) && q.books.tables[l][0] == s) || !Stays(q, moves[0], l, s) then 0
    else
      AfterPlace(q, moves[0], l, s);
      (if Serves(q, moves[0], l) then 1 else 0) + ServedBefore(After(q, moves[0]), moves[1..], s, l)
  }

  /**
   Round robin is fair, whatever is pushed, popped, purged and removed
   meanwhile: a stream sees no more others of its level served before it than
   there were streams ahead of it.
   */
  lemma {:induction false} RoundRobin(q: State, moves: seq<Move>, s: nat, l: nat)
    requires q.Shaped() && l < LEVELS && s in q.books.tables[l]
    ensures ServedBefore(q, moves, s, l) <= Place(q.books.tables[l], s) < |q.books.tables[l]|
    decreases |moves|
  {
    hide After;
    hide Serves;
    hide Stays;
    if moves == [] || (Serves(q, moves[0], l) && q.books.tables[l][0] == s) || !Stays(q, moves[0], l, s) {
    } else {
      AfterPlace(q, moves[0], l, s);
      RoundRobin(After(q, moves[0]), moves[1..], s, l);
    }
  }

  // ----- Order in time -----

  /** The entries in the order pushed, each stamped with a clock no later than its time. */
  ghost predicate Ordered(a: seq<Entry>) {
    && (forall i, j :: 0 <= i < j < |a| ==> a[i].at <= a[j].at && a[i].time <= a[j].time)
    && forall i :: 0 <= i < |a| ==> a[i].at <= a[i].time
  }

  ghost predicate UpTo(a: seq<Entry>, clock: int, now: int) {
    forall i :: 0 <= i < |a| ==> a[i].at <= clock && a[i].time <= now
  }

  /** Ordered, and nothing after the clocks. */
  ghost predicate Past(a: seq<Entry>, clock: int, now: int) {
    Ordered(a) && UpTo(a, clock, now)
  }

  lemma PastMore(a: seq<Entry>, e: Entry, clock: int, now: int)
    requires Past(a, clock, now) && clock <= e.at <= e.time && now <= e.time
    ensures Past(a + [e], e.at, e.time)
  {
  }

  lemma PastLast(a: seq<Entry>, clock: int, now: int)
    requires Past(a, clock, now) && a != []
    ensures var e := a[|a| - 1]; Past(a[..|a| - 1], e.at, e.time) && e.at <= e.time && e.at <= clock && e.time <= now
  {
  }

  lemma PastLater(a: seq<Entry>, clock: int, now: int, clock': int, now': int)
    requires Past(a, clock, now) && clock <= clock' && now <= now'
    ensures Past(a, clock', now')
  {
  }

  lemma TaggedMore(a: seq<Entry>, e: Entry, tag: nat, next: nat)
    requires Tagged(a, tag) && tag <= e.tag < next
    ensures Tagged(a, next) && Tagged(a + [e], next)
  {
  }

  lemma TaggedLast(a: seq<Entry>, next: nat)
    requires Tagged(a, next) && a != []
    ensures var e := a[|a| - 1]; Tagged(a[..|a| - 1], e.tag) && e.tag < next
  {
  }

  /** Some of the entries, in the same order. */
  ghost predicate Part(b: seq<Entry>, a: seq<Entry>) {
    && (forall e :: e in b ==> e in a)
    && (forall next :: Tagged(a, next) ==> Tagged(b, next))
    && forall clock, now :: Past(a, clock, now) ==> Past(b, clock, now)
  }

  lemma PartWithoutFirst(a: seq<Entry>, s: nat, l: nat)
    requires Select(a, s, l) != []
    ensures Part(WithoutFirst(a, s, l), a)
  {
    hide Select;
    hide WithoutFirst;
    var i := FirstIndex(a, s, l);
    var b := WithoutFirst(a, s, l);
    Erased(a, b, i);
    hide Tagged;
    hide Past;
    forall next | Tagged(a, next) ensures Tagged(b, next) {
      TaggedErased(a, b, i, next);
    }
    forall clock, now | Past(a, clock, now) ensures Past(b, clock, now) {
      PastErased(a, b, i, clock, now);
    }
  }

  /** The list without its entry at `i`. */
  ghost predicate IsErased(a: seq<Entry>, b: seq<Entry>, i: nat) {
    i < |a| && |b| == |a| - 1 && forall j :: 0 <= j < |b| ==> b[j] == a[if j < i then j else j + 1]
  }

  lemma Erased(a: seq<Entry>, b: seq<Entry>, i: nat)
    requires i < |a| && b == a[..i] + a[i + 1..]
    ensures IsErased(a, b, i) && forall e :: e in b ==> e in a
  {
    forall e | e in b ensures e in a {
      var j :| 0 <= j < |b| && b[j] == e;
      assert a[if j < i then j else j + 1] == e;
    }
  }

  lemma TaggedErased(a: seq<Entry>, b: seq<Entry>, i: nat, next: nat)
    requires IsErased(a, b, i) && Tagged(a, next)
    ensures Tagged(b, next)
  {
  }

  lemma PastErased(a: seq<Entry>, b: seq<Entry>, i: nat, clock: int, now: int)
    requires IsErased(a, b, i) && Past(a, clock, now)
    ensures Past(b, clock, now)
  {
  }

  lemma {:induction false} PartPurgeStream(a: seq<Entry>, s: nat, l: nat, t: int, ttl: int)
    ensures Part(PurgeStream(a, s, l, t, ttl), a)
    decreases |a|
  {
    hide Past;
    hide Tagged;
    var q := Select(a, s, l);
    if q != [] && Expired(q[0], t, ttl) {
      WithoutFirstLength(a, s, l);
      PartWithoutFirst(a, s, l);
      PartPurgeStream(WithoutFirst(a, s, l), s, l, t, ttl);
    }
  }

  lemma {:induction false} PartPurgeStreams(a: seq<Entry>, table: seq<nat>, l: nat, t: int, ttl: int)
    ensures Part(PurgeStreams(a, table, l, t, ttl), a)
  {
    hide Past;
    hide Tagged;
    hide PurgeStream;
    if table != [] {
      var n := |table| - 1;
      PartPurgeStreams(a, table[..n], l, t, ttl);
      PartPurgeStream(PurgeStreams(a, table[..n], l, t, ttl), table[n], l, t, ttl);
    }
  }

  lemma PartPurgeLevel(b: Books, l: nat, t: int, ttl: Option<int>)
    requires l < |b.tables|
    ensures Part(b.PurgeLevel(l, t, ttl).a, b.a)
  {
    hide Past;
    hide Tagged;
    if ttl.Some? {
      PartPurgeStreams(b.a, b.tables[l], l, t, ttl.value);
    }
  }

  lemma {:induction false} PartSettle(b: Books, from: nat, t: int, ttls: seq<Option<int>>)
    requires |b.tables| == |ttls| == LEVELS && from <= LEVELS
    ensures Part(b.Settle(from, t, ttls).a, b.a)
    decreases LEVELS - from
  {
    hide Past;
    hide Tagged;
    hide Books.PurgeLevel;
    if from < LEVELS {
      PartPurgeLevel(b, from, t, ttls[from]);
      PartSettle(b.PurgeLevel(from, t, ttls[from]), from + 1, t, ttls);
    }
  }

  /** A filter that goes through a list from its end. */
  lemma PartLast(b: seq<Entry>, a: seq<Entry>, c: seq<Entry>)
    requires a != [] && Part(b, a[..|a| - 1]) && (c == b || c == b + [a[|a| - 1]])
    ensures Part(c, a)
  {
    hide Past;
    hide Tagged;
    var m := |a| - 1;
    forall clock, now | Past(a, clock, now) ensures Past(c, clock, now) {
      PastLast(a, clock, now);
      PastMore(b, a[m], a[m].at, a[m].time);
      PastLater(c, a[m].at, a[m].time, clock, now);
    }
    forall next | Tagged(a, next) ensures Tagged(c, next) {
      TaggedLast(a, next);
      TaggedMore(b, a[m], a[m].tag, next);
    }
  }

  lemma {:induction false} PartStripped(a: seq<Entry>, s: nat, n: nat)
    ensures Part(Stripped(a, s, n), a)
  {
    hide Part;
    if a != [] {
      var b := Stripped(a[..|a| - 1], s, n);
      PartStripped(a[..|a| - 1], s, n);
      assert b + [] == b;
      PartLast(b, a, Stripped(a, s, n));
    } else {
      PartSelf(a);
    }
  }

  lemma {:induction false} PartSelect(a: seq<Entry>, s: nat, l: nat)
    ensures Part(Select(a, s, l), a)
  {
    hide Part;
    if a != [] {
      var b := Select(a[..|a| - 1], s, l);
      PartSelect(a[..|a| - 1], s, l);
      assert b + [] == b;
      PartLast(b, a, Select(a, s, l));
    } else {
      PartSelf(a);
    }
  }

  lemma PartSelf(a: seq<Entry>)
    ensures Part(a, a)
  {
  }

  /** The time a call happens. */
  function TimeOf(q: State, m: Move): int {
    match m
    case Push(time, _) => time
    case Pause(_, now) => now
    case Update(now) => now
    case _ => q.now
  }

  /** No call happens before the one that came before it. */
  ghost predicate Timely(q: State, moves: seq<Move>)
    requires q.Shaped()
  {
    forall k :: 0 <= k < |moves| ==> Run(q, moves[..k]).now <= TimeOf(Run(q, moves[..k]), moves[k])
  }

  /** The packet a call adds, as it is put into the list. */
  function Entered(q: State, m: Move): Option<Entry> {
    match m
    case Push(time, packet) =>
      Some(Entry(packet, q.setup.LevelOf(packet), q.Advanced(time).Clock(), q.nextTag, time))
    case _ => None
  }

  /** What waits after a call waited before, in the same order, or is the packet just pushed. */
  lemma AfterPart(q: State, m: Move) returns (kept: seq<Entry>)
    requires q.Shaped() && q.books.Valid()
    ensures Part(kept, q.books.a)
    ensures After(q, m).books.a == kept + if Entered(q, m).Some? then [Entered(q, m).value] else []
  {
    hide Part;
    hide Books.PurgeLevel;
    hide Books.Settle;
    hide Remembered;
    hide Lists;
    PartSelf(q.books.a);
    kept := q.books.a;
    match m {
      case Push(time, packet) =>
        var l := q.setup.LevelOf(packet);
        PartPurgeLevel(q.books, l, time, q.setup.ttls[l]);
        kept := q.books.PurgeLevel(l, time, q.setup.ttls[l]).a;
      case Pop =>
        if q.Top() >= 0 {
          HeadHasPackets(q.books.a, q.books.tables, q.Top());
          PartWithoutFirst(q.books.a, q.books.tables[q.Top()][0], q.Top());
          PartSettle(q.books.Served(q.Top()), 0, q.now, q.setup.ttls);
          kept := After(q, m).books.a;
          PartTwice(kept, q.books.Served(q.Top()).a, q.books.a);
        }
      case Remove(ssrc) =>
        PartStripped(q.books.a, ssrc, LEVELS);
        PartSettle(q.books.Removed(ssrc), 0, q.now, q.setup.ttls);
        kept := After(q, m).books.a;
        PartTwice(kept, q.books.Removed(ssrc).a, q.books.a);
      case Pause(_, _) =>
      case Update(_) =>
    }
  }

  lemma PartTwice(c: seq<Entry>, b: seq<Entry>, a: seq<Entry>)
    requires Part(b, a) && (c == b || Part(c, b))
    ensures Part(c, a)
  {
    hide Past;
    hide Tagged;
  }

  /** What a timely run keeps. */
  ghost predicate InTime(q: State) {
    && q.Shaped() && q.books.Valid() && 0 <= q.pauses && Past(q.books.a, q.Clock(), q.now)
    && Tagged(q.books.a, q.nextTag) && forall e :: e in q.books.a ==> e.level < LEVELS
  }

  lemma AfterInTime(q: State, m: Move)
    requires InTime(q) && q.now <= TimeOf(q, m)
    ensures InTime(After(q, m)) && q.now <= After(q, m).now && q.pauses <= After(q, m).pauses
  {
    hide Past;
    hide Tagged;
    hide Books.Valid;
    hide State.Placed;
    hide State.Popped;
    hide State.Forgotten;
    AfterKeeps(q, m);
    AfterClocks(q, m);
    var kept := AfterPart(q, m);
    if m.Push? {
      PastMore(kept, Entered(q, m).value, q.Clock(), q.now);
      TaggedMore(kept, Entered(q, m).value, q.nextTag, q.nextTag + 1);
    } else {
      assert kept + [] == kept;
      PastLater(kept, q.Clock(), q.now, After(q, m).Clock(), After(q, m).now);
    }
  }

  lemma AfterClocks(q: State, m: Move)
    requires q.Shaped()
    ensures var p := After(q, m); p.now == TimeOf(q, m) && p.pauses == q.Advanced(TimeOf(q, m)).pauses && p.setup == q.setup
    ensures After(q, m).nextTag == q.nextTag + if m.Push? then 1 else 0
  {
  }

  lemma {:induction false} RunInTime(q: State, moves: seq<Move>)
    requires q.Shaped() && InTime(q) && Timely(q, moves)
    ensures InTime(Run(q, moves)) && q.now <= Run(q, moves).now && q.pauses <= Run(q, moves).pauses
    ensures q.nextTag <= Run(q, moves).nextTag && Run(q, moves).setup == q.setup
    decreases |moves|
  {
    hide InTime;
    hide After;
    if moves != [] {
      var n := |moves| - 1;
      assert forall k :: 0 <= k < n ==> moves[..n][..k] == moves[..k];
      RunInTime(q, moves[..n]);
      AfterInTime(Run(q, moves[..n]), moves[n]);
      AfterClocks(Run(q, moves[..n]), moves[n]);
    }
  }

  lemma OpenedInTime(setup: Setup, creation: int)
    requires |setup.ttls| == LEVELS
    ensures InTime(Opened(setup, creation))
  {
  }

  // ----- Keyframes -----

  /** What the counter of a stream counts is its flagged video packets if and only if no other flagged packet of it waits. */
  lemma {:induction false} KeyframesAreVideo(a: seq<Entry>, s: nat)
    ensures Total(a, Originals(s)) <= Total(a, Keyframes(s))
    ensures Total(a, Keyframes(s)) == Total(a, Originals(s))
      <==> forall i :: 0 <= i < |a| && a[i].packet.ssrc == s && a[i].packet.keyframe ==> a[i].packet.kind == Video
  {
    if a != [] {
      var n := |a| - 1;
      KeyframesAreVideo(a[..n], s);
      assert forall i :: 0 <= i < n ==> a[..n][i] == a[i];
    }
  }

  /** Some flagged packet of the stream waits: a video packet, or one of another kind. */
  ghost predicate Flagged(a: seq<Entry>, s: nat, video: bool) {
    exists i :: 0 <= i < |a| && a[i].packet.ssrc == s && a[i].packet.keyframe && (a[i].packet.kind == Video <==> video)
  }

  lemma {:induction false} OriginalsCounted(a: seq<Entry>, s: nat)
    ensures Total(a, Originals(s)) >= 0
    ensures Total(a, Originals(s)) > 0 <==> Flagged(a, s, true)
  {
    if a != [] {
      var n := |a| - 1;
      OriginalsCounted(a[..n], s);
      assert forall i :: 0 <= i < n ==> a[..n][i] == a[i];
    }
  }

  /**
   Whether keyframe packets wait, by the counter, is whether flagged video
   packets do if and only if one does, or no other flagged packet waits.
   */
  lemma KeyframeAnswer(a: seq<Entry>, s: nat)
    ensures (Total(a, Keyframes(s)) > 0 <==> Total(a, Originals(s)) > 0) <==> Flagged(a, s, true) || !Flagged(a, s, false)
  {
    KeyframesCounted(a, s);
    OriginalsCounted(a, s);
  }

  // ----- Forgetting streams -----

  /** When a stream got its last packet. */
  function LastPush(moves: seq<Move>, s: nat): Option<int> {
    if moves == [] then None
    else
      var m := moves[|moves| - 1];
      if m.Push? && m.packet.ssrc == s then Some(m.time) else LastPush(moves[..|moves| - 1], s)
  }

  /** Idle since before the timeout. */
  predicate Overdue(since: int, now: int) {
    since + 500 < now
  }

  lemma AfterCreated(q: State, m: Move, s: nat)
    requires q.Shaped() && s in After(q, m).created
    ensures var t := After(q, m).created[s];
      if s in q.created then t == q.created[s] else m.Push? && m.packet.ssrc == s && t == m.time
  {
    hide Books.PurgeLevel;
    hide Books.Joined;
    hide Books.Settle;
    hide Idle;
  }

  lemma {:induction false} CreatedFirst(q: State, moves: seq<Move>, s: nat)
    requires q.Shaped() && InTime(q) && q.created == map[] && Timely(q, moves) && s in Run(q, moves).created
    ensures LastPush(moves, s).Some? && Run(q, moves).created[s] <= LastPush(moves, s).value <= Run(q, moves).now
    decreases |moves|
  {
    hide After;
    hide InTime;
    assert moves != [];
    var n := |moves| - 1;
    var r := Run(q, moves[..n]);
    AfterCreated(r, moves[n], s);
    AfterClocks(r, moves[n]);
    assert forall k :: 0 <= k < n ==> moves[..n][..k] == moves[..k];
    RunInTime(q, moves[..n]);
    if s in r.created {
      CreatedFirst(q, moves[..n], s);
    }
  }

  /**
   Forgetting a stream by when it was created is forgetting it by when it last
   got a packet, for every time, if and only if it got none after it was created.
   */
  lemma CullingIsByLastPush(setup: Setup, creation: int, moves: seq<Move>, s: nat)
    requires |setup.ttls| == LEVELS && Timely(Opened(setup, creation), moves)
    requires s in Run(Opened(setup, creation), moves).created
    ensures LastPush(moves, s).Some?
    ensures var since, last := Run(Opened(setup, creation), moves).created[s], LastPush(moves, s).value;
      (forall now :: Overdue(since, now) <==> Overdue(last, now)) <==> last == since
  {
    OpenedInTime(setup, creation);
    CreatedFirst(Opened(setup, creation), moves, s);
    var since, last := Run(Opened(setup, creation), moves).created[s], LastPush(moves, s).value;
    if since < last {
      assert Overdue(since, last + 500) && !Overdue(last, last + 500);
    }
  }

  // ----- Runs that fail the promises -----

  /** A queue nothing waits in, with a limit on video only. */
  ghost predicate Limits(q: State, ttl: int) {
    && q.Shaped() && q.setup.ttls[3] == Some(ttl) && q.books.a == []
    && forall l :: 0 <= l < LEVELS ==> q.books.tables[l] == []
  }

  lemma RunMore(q: State, moves: seq<Move>, m: Move)
    requires q.Shaped()
    ensures Run(q, moves + [m]) == After(Run(q, moves), m)
  {
    assert (moves + [m])[..|moves|] == moves;
  }

  /** A packet pushed when nothing waits. */
  lemma FirstPacket(q: State, t: int, packet: Media)
    requires q.Shaped() && q.books.a == [] && forall l :: 0 <= l < LEVELS ==> q.books.tables[l] == []
    ensures var p, l := q.Pushed(t, packet), q.setup.LevelOf(packet);
      && p.books.a == [Entry(packet, l, q.Advanced(t).Clock(), q.nextTag, t)]
      && p.books.tables == q.books.tables[l := [packet.ssrc]] && p.nextTag == q.nextTag + 1
  {
    hide Remembered;
    var l := q.setup.LevelOf(packet);
    PurgeNothing(q.books, l, t, q.setup.ttls[l]);
    hide Books.PurgeLevel;
    assert [] + [packet.ssrc] == [packet.ssrc];
  }

  lemma PurgeNothing(b: Books, l: nat, now: int, ttl: Option<int>)
    requires l < |b.tables| && b.a == [] && b.tables[l] == []
    ensures b.PurgeLevel(l, now, ttl) == b
  {
    if ttl.Some? {
      assert PurgeStreams(b.a, [], l, now, ttl.value) == [] && KeptTable(b.a, [], l, now, ttl.value) == [];
      assert b.tables[l := []] == b.tables;
    }
  }

  lemma Alone(e: Entry, s: nat, l: nat)
    requires e.Of(s, l)
    ensures Select([], s, l) == [] && Select([e], s, l) == [e] && WithoutFirst([e], s, l) == []
    ensures forall m: Measure :: Total([e], m) == m.Value(e)
  {
    assert [e][..0] == [];
    forall m: Measure ensures Total([e], m) == m.Value(e) {
      assert Total([e][..0], m) == 0;
    }
  }

  lemma Two(q: State, m0: Move, m1: Move)
    requires q.Shaped()
    ensures Run(q, [m0, m1]) == After(After(q, m0), m1)
  {
    hide After;
    assert Run(q, []) == q;
    hide Run;
    RunMore(q, [], m0);
    RunMore(q, [m0], m1);
    assert [] + [m0] == [m0] && [m0] + [m1] == [m0, m1];
  }

  lemma Three(q: State, m0: Move, m1: Move, m2: Move)
    requires q.Shaped()
    ensures Run(q, [m0, m1, m2]) == After(After(After(q, m0), m1), m2)
  {
    hide After;
    hide Run;
    Two(q, m0, m1);
    RunMore(q, [m0, m1], m2);
    assert [m0, m1] + [m2] == [m0, m1, m2];
  }

  lemma PushedPause(q: State, t: int, packet: Media)
    requires q.Shaped()
    ensures q.Pushed(t, packet).paused == q.paused
  {
  }

  /** A flagged retransmission alone makes the queue report keyframe packets. */
  lemma RetransmissionCounts(q: State, v: Media)
    requires q.Shaped() && q.books.a == [] && v.kind == Retransmission && v.keyframe && q.now == 0
    requires forall l :: 0 <= l < LEVELS ==> q.books.tables[l] == []
    ensures var a := After(q, Push(0, v)).books.a; Total(a, Keyframes(v.ssrc)) == 1 && Total(a, Originals(v.ssrc)) == 0
  {
    FirstPacket(q, 0, v);
    hide Total;
    hide State.Pushed;
    Alone(q.Pushed(0, v).books.a[0], v.ssrc, q.setup.LevelOf(v));
  }

  /** Pushed and popped, a packet leaves the queue empty, and its stream known. */
  lemma {:induction false} SettleNothing(b: Books, from: nat, now: int, ttls: seq<Option<int>>)
    requires |b.tables| == |ttls| == LEVELS && from <= LEVELS && b.a == []
    requires forall l :: 0 <= l < LEVELS ==> b.tables[l] == []
    ensures b.Settle(from, now, ttls) == b
    decreases LEVELS - from
  {
    hide Books.PurgeLevel;
    if from < LEVELS {
      PurgeNothing(b, from, now, ttls[from]);
      SettleNothing(b, from + 1, now, ttls);
    }
  }

  lemma InAndOut(q: State, ttl: int, t: int, packet: Media)
    requires Limits(q, ttl) && packet.kind == Video && t - q.culled <= 500
    ensures var p := After(After(q, Push(t, packet)), Pop);
      && Limits(p, ttl) && p.culled == q.culled && p.setup == q.setup
      && p.created == if packet.ssrc in q.created then q.created else q.created[packet.ssrc := t]
  {
    hide Books.PurgeLevel;
    FirstPacket(q, t, packet);
    var p := q.Pushed(t, packet);
    assert forall l :: 0 <= l < LEVELS && l != 3 ==> p.books.tables[l] == [];
    assert p.culled == q.culled && p.setup == q.setup;
    assert p.created == if packet.ssrc in q.created then q.created else q.created[packet.ssrc := t];
    assert p.Shaped() && p.books.a[0].level == 3 && p.books.a[0].packet == packet;
    hide State.Pushed;
    hide State.Popped;
    Out(p, p.books.a[0]);
  }

  lemma Out(q: State, e: Entry)
    requires q.Shaped() && q.books.a == [e] && e.level == 3 && q.books.tables[3] == [e.packet.ssrc]
    requires forall l :: 0 <= l < LEVELS && l != 3 ==> q.books.tables[l] == []
    ensures var p := q.Popped();
      p == q.(books := p.books) && p.books.a == [] && forall l :: 0 <= l < LEVELS ==> p.books.tables[l] == []
  {
    hide Books.Settle;
    hide Select;
    hide WithoutFirst;
    Alone(e, e.packet.ssrc, 3);
    assert q.Top() == 3;
    SettleNothing(q.books.Served(3), 0, q.now, q.setup.ttls);
  }

  /** A stream that holds nothing is forgotten 200 ms after its last packet, though the timeout is 500 ms. */
  lemma ForgottenEarly(q: State, ttl: int, v: Media, w: Media)
    requires Limits(q, ttl) && q.created == map[] && q.culled == q.now
    requires v.kind == w.kind == Video && v.ssrc != w.ssrc
    ensures var t, moves := q.now, [Push(q.now, v), Pop, Push(q.now + 400, v), Pop, Push(q.now + 600, w)];
      LastPush(moves, v.ssrc) == Some(t + 400) && !Overdue(t + 400, t + 600) && v.ssrc !in Run(q, moves).created
  {
    hide After;
    var m0, m1, m2, m4 := Push(q.now, v), Pop, Push(q.now + 400, v), Push(q.now + 600, w);
    assert [m0, m1, m2, m1, m4] == ([m0, m1, m2] + [m1]) + [m4];
    assert ([m0, m1, m2] + [m1])[..3] == [m0, m1, m2];
    assert ([m0, m1, m2, m1] + [m4])[..4] == [m0, m1, m2, m1];
    assert LastPush([m0, m1, m2], v.ssrc) == Some(q.now + 400);
    Three(q, m0, m1, m2);
    hide Run;
    RunMore(q, [m0, m1, m2], m1);
    RunMore(q, [m0, m1, m2] + [m1], m4);
    var r := After(After(q, m0), m1);
    InAndOut(q, ttl, q.now, v);
    InAndOut(r, ttl, q.now + 400, v);
    Lost(After(After(r, m2), m1), ttl, q.now + 600, w, v.ssrc);
  }

  lemma Lost(q: State, ttl: int, t: int, packet: Media, s: nat)
    requires Limits(q, ttl) && packet.kind == Video && t - q.culled > 500 && packet.ssrc != s
    requires s in q.created && q.created[s] + 500 < t
    ensures s !in After(q, Push(t, packet)).created
  {
    FirstPacket(q, t, packet);
    var e := q.Pushed(t, packet).books.a[0];
    assert [e][..0] == [];
    assert forall l :: 0 <= l < LEVELS ==> Select([e][..0], s, l) == [];
    assert Idle([e], s);
  }

  /** A new queue is one of those above. */
  lemma OpenedLimits(prioritizeAudio: bool, ttl: int, creation: int)
    ensures var q := Opened(Setup(prioritizeAudio, TimeToLive(None, None, Some(ttl)).PerLevel()), creation);
      Limits(q, ttl) && !q.paused && q.pauses == 0 && q.created == map[] && q.culled == q.now
  {
  }
}
