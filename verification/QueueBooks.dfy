/**
 The pacer queue as a simple list: every packet waiting, in the order pushed.
 What the indexes of src/qos/prioritized_packet_queue.cc must agree with.
 */
module QueueBooks {
  import opened Common

  const LEVELS := 5

  datatype MediaType = Audio | Video | Retransmission | ForwardErrorCorrection | Padding

  datatype Original = OriginalAudio | OriginalVideo

  /** What the queue reads of a packet. */
  datatype Media = Media(ssrc: nat, kind: MediaType, original: Option<Original>, keyframe: bool, payload: nat, padding: nat, id: nat)

  function PriorityOf(kind: MediaType, original: Option<Original>): (l: nat)
    ensures l < LEVELS
  {
    match kind
    case Audio => 0
    case Retransmission => if original == Some(OriginalVideo) then 2 else 1
    case Video => 3
    case ForwardErrorCorrection => 3
    case Padding => 4
  }

  /**
   A packet waiting: its level, the unpaused clock when it was pushed, and its
   node in the list of enqueue times, a tag and the wall clock.
   */
  datatype Entry = Entry(packet: Media, level: nat, at: int, tag: nat, time: int)
  {
    predicate Of(s: nat, l: nat) {
      packet.ssrc == s && level == l
    }
  }

  // ----- One stream at one level -----

  /** The packets of stream `s` at level `l`, oldest first. */
  function Select(a: seq<Entry>, s: nat, l: nat): (q: seq<Entry>)
    ensures forall i :: 0 <= i < |q| ==> q[i].Of(s, l) && q[i] in a
  {
    if a == [] then []
    else
      var n := |a| - 1;
      Select(a[..n], s, l) + if a[n].Of(s, l) then [a[n]] else []
  }

  /** Without the oldest packet of stream `s` at level `l`. */
  function WithoutFirst(a: seq<Entry>, s: nat, l: nat): (b: seq<Entry>) {
    if a == [] then []
    else
      var n := |a| - 1;
      if Select(a[..n], s, l) != [] then WithoutFirst(a[..n], s, l) + [a[n]]
      else if a[n].Of(s, l) then a[..n]
      else a
  }

  lemma SelectAppend(a: seq<Entry>, e: Entry, s: nat, l: nat)
    ensures Select(a + [e], s, l) == Select(a, s, l) + if e.Of(s, l) then [e] else []
  {
    assert (a + [e])[..|a|] == a;
  }

  /** Dropping the oldest packet of one queue leaves the others alone. */
  lemma {:induction false} SelectWithoutFirst(a: seq<Entry>, s: nat, l: nat, s': nat, l': nat)
    requires Select(a, s, l) != []
    ensures Select(WithoutFirst(a, s, l), s', l') ==
      if s' == s && l' == l then Select(a, s, l)[1..] else Select(a, s', l')
  {
    var n := |a| - 1;
    if Select(a[..n], s, l) != [] {
      SelectWithoutFirst(a[..n], s, l, s', l');
      SelectAppend(WithoutFirst(a[..n], s, l), a[n], s', l');
    }
  }

  lemma {:induction false} WithoutFirstLength(a: seq<Entry>, s: nat, l: nat)
    requires Select(a, s, l) != []
    ensures |WithoutFirst(a, s, l)| == |a| - 1
  {
    var n := |a| - 1;
    if Select(a[..n], s, l) != [] {
      WithoutFirstLength(a[..n], s, l);
    }
  }

  // ----- Totals -----

  /** What the counters count. */
  datatype Measure = Kind(kind: MediaType) | Bytes | Waited(clock: int) | Keyframes(ssrc: nat) | Originals(ssrc: nat)
  {
    function Value(e: Entry): int {
      match this
      case Kind(kind) => if e.packet.kind == kind then 1 else 0
      case Bytes => e.packet.payload + e.packet.padding
      case Waited(clock) => clock - e.at
      case Keyframes(ssrc) => if e.packet.ssrc == ssrc && e.packet.keyframe then 1 else 0
      case Originals(ssrc) => if e.packet.ssrc == ssrc && e.packet.keyframe && e.packet.kind == Video then 1 else 0
    }
  }

  function Total(a: seq<Entry>, m: Measure): int {
    if a == [] then 0 else Total(a[..|a| - 1], m) + m.Value(a[|a| - 1])
  }

  lemma TotalAppend(a: seq<Entry>, e: Entry, m: Measure)
    ensures Total(a + [e], m) == Total(a, m) + m.Value(e)
  {
    assert (a + [e])[..|a|] == a;
  }

  lemma {:induction false} TotalWithoutFirst(a: seq<Entry>, s: nat, l: nat, m: Measure)
    requires Select(a, s, l) != []
    ensures Total(WithoutFirst(a, s, l), m) == Total(a, m) - m.Value(Select(a, s, l)[0])
  {
    var n := |a| - 1;
    if Select(a[..n], s, l) != [] {
      TotalWithoutFirst(a[..n], s, l, m);
      TotalAppend(WithoutFirst(a[..n], s, l), a[n], m);
    }
  }

  /** When the clock moves on, every packet has waited that much longer. */
  lemma {:induction false} WaitedLonger(a: seq<Entry>, clock: int, more: int)
    ensures Total(a, Waited(clock + more)) == Total(a, Waited(clock)) + more * |a|
  {
    if a != [] {
      WaitedLonger(a[..|a| - 1], clock, more);
    }
  }

  lemma {:induction false} KeyframesCounted(a: seq<Entry>, s: nat)
    ensures Total(a, Keyframes(s)) >= 0
    ensures Total(a, Keyframes(s)) > 0 <==> exists i :: 0 <= i < |a| && a[i].packet.ssrc == s && a[i].packet.keyframe
  {
    if a != [] {
      var n := |a| - 1;
      KeyframesCounted(a[..n], s);
      assert forall i :: 0 <= i < n ==> a[..n][i] == a[i];
    }
  }

  // ----- The list of enqueue times -----

  datatype Node = Node(tag: nat, time: int)

  function Nodes(a: seq<Entry>): (t: seq<Node>)
    ensures |t| == |a| && forall i :: 0 <= i < |a| ==> t[i] == Node(a[i].tag, a[i].time)
  {
    seq(|a|, i requires 0 <= i < |a| => Node(a[i].tag, a[i].time))
  }

  /** Tags grow along the list and stay below `next`. */
  ghost predicate Tagged(a: seq<Entry>, next: nat) {
    && (forall i, j :: 0 <= i < j < |a| ==> a[i].tag < a[j].tag)
    && forall i :: 0 <= i < |a| ==> a[i].tag < next
  }

  /** Erase the node a queued packet points to. */
  method Erase(times: seq<Node>, ghost a: seq<Entry>, ghost s: nat, ghost l: nat, ghost next: nat, tag: nat) returns (fewer: seq<Node>)
    requires times == Nodes(a) && Tagged(a, next) && Select(a, s, l) != [] && tag == Select(a, s, l)[0].tag
    ensures fewer == Nodes(WithoutFirst(a, s, l)) && Tagged(WithoutFirst(a, s, l), next)
  {
    ghost var at := FirstIndex(a, s, l);
    var i := 0;
    while times[i].tag != tag
      invariant 0 <= i <= at
      decreases at - i
    {
      i := i + 1;
    }
    fewer := times[..i] + times[i + 1..];
  }

  /** Where the oldest packet of a queue is in the list. */
  lemma {:induction false} FirstIndex(a: seq<Entry>, s: nat, l: nat) returns (i: nat)
    requires Select(a, s, l) != []
    ensures i < |a| && a[i] == Select(a, s, l)[0] && WithoutFirst(a, s, l) == a[..i] + a[i + 1..]
    ensures forall j :: 0 <= j < i ==> !a[j].Of(s, l)
  {
    var n := |a| - 1;
    if Select(a[..n], s, l) != [] {
      i := FirstIndex(a[..n], s, l);
    } else {
      i := n;
      Unselected(a[..n], s, l);
    }
  }

  lemma {:induction false} Unselected(a: seq<Entry>, s: nat, l: nat)
    ensures Select(a, s, l) == [] <==> forall i :: 0 <= i < |a| ==> !a[i].Of(s, l)
  {
    if a != [] {
      var n := |a| - 1;
      Unselected(a[..n], s, l);
      assert forall i :: 0 <= i < n ==> a[..n][i] == a[i];
    }
  }

  // ----- Expiry -----

  predicate Expired(e: Entry, now: int, ttl: int) {
    now - e.at > ttl
  }

  /** What is left of a queue once its expired head is gone. */
  function Fresh(q: seq<Entry>, now: int, ttl: int): (r: seq<Entry>)
    ensures r != [] ==> !Expired(r[0], now, ttl)
    ensures |r| <= |q| && r == q[|q| - |r|..] && forall i :: 0 <= i < |q| - |r| ==> Expired(q[i], now, ttl)
  {
    if q != [] && Expired(q[0], now, ttl) then Fresh(q[1..], now, ttl) else q
  }

  /** The list once one stream's expired head is gone. */
  function PurgeStream(a: seq<Entry>, s: nat, l: nat, now: int, ttl: int): (b: seq<Entry>)
    decreases |a|
  {
    var q := Select(a, s, l);
    if q != [] && Expired(q[0], now, ttl) then
      WithoutFirstLength(a, s, l);
      PurgeStream(WithoutFirst(a, s, l), s, l, now, ttl)
    else a
  }

  lemma {:induction false} SelectPurgeStream(a: seq<Entry>, s: nat, l: nat, now: int, ttl: int, s': nat, l': nat)
    ensures Select(PurgeStream(a, s, l, now, ttl), s', l') ==
      if s' == s && l' == l then Fresh(Select(a, s, l), now, ttl) else Select(a, s', l')
    decreases |a|
  {
    var q := Select(a, s, l);
    if q != [] && Expired(q[0], now, ttl) {
      WithoutFirstLength(a, s, l);
      SelectWithoutFirst(a, s, l, s, l);
      SelectWithoutFirst(a, s, l, s', l');
      SelectPurgeStream(WithoutFirst(a, s, l), s, l, now, ttl, s', l');
    }
  }

  /** The list once the expired heads of these streams are gone. */
  function PurgeStreams(a: seq<Entry>, table: seq<nat>, l: nat, now: int, ttl: int): (b: seq<Entry>) {
    if table == [] then a
    else PurgeStream(PurgeStreams(a, table[..|table| - 1], l, now, ttl), table[|table| - 1], l, now, ttl)
  }

  /** Each stream named loses exactly its expired head; nothing else changes. */
  lemma {:induction false} SelectPurgeStreams(a: seq<Entry>, table: seq<nat>, l: nat, now: int, ttl: int, s': nat, l': nat)
    ensures Select(PurgeStreams(a, table, l, now, ttl), s', l') ==
      if s' in table && l' == l then Fresh(Select(a, s', l), now, ttl) else Select(a, s', l')
  {
    hide Select;
    hide Fresh;
    hide PurgeStream;
    if table != [] {
      var n := |table| - 1;
      SelectPurgeStreams(a, table[..n], l, now, ttl, s', l');
      SelectPurgeStreams(a, table[..n], l, now, ttl, table[n], l);
      SelectPurgeStream(PurgeStreams(a, table[..n], l, now, ttl), table[n], l, now, ttl, s', l');
      assert s' in table <==> s' in table[..n] || s' == table[n];
      FreshTwice(Select(a, s', l), now, ttl);
    }
  }

  lemma FreshTwice(q: seq<Entry>, now: int, ttl: int)
    ensures Fresh(Fresh(q, now, ttl), now, ttl) == Fresh(q, now, ttl)
  {
  }

  // ----- Removing a stream -----

  /** Without the packets of stream `s` at levels below `n`. */
  function Stripped(a: seq<Entry>, s: nat, n: nat): (b: seq<Entry>) {
    if a == [] then []
    else
      var m := |a| - 1;
      Stripped(a[..m], s, n) + if a[m].packet.ssrc == s && a[m].level < n then [] else [a[m]]
  }

  lemma {:induction false} SelectStripped(a: seq<Entry>, s: nat, n: nat, s': nat, l: nat)
    ensures Select(Stripped(a, s, n), s', l) == if s' == s && l < n then [] else Select(a, s', l)
  {
    if a != [] {
      var m := |a| - 1;
      SelectStripped(a[..m], s, n, s', l);
      if !(a[m].packet.ssrc == s && a[m].level < n) {
        SelectAppend(Stripped(a[..m], s, n), a[m], s', l);
      } else {
        assert Stripped(a, s, n) == Stripped(a[..m], s, n);
      }
    }
  }

  lemma {:induction false} StrippedNone(a: seq<Entry>, s: nat)
    ensures Stripped(a, s, 0) == a
  {
    if a != [] {
      StrippedNone(a[..|a| - 1], s);
      assert a == a[..|a| - 1] + [a[|a| - 1]];
    }
  }

  /** Stripping a level already empty changes nothing. */
  lemma {:induction false} StrippedSame(a: seq<Entry>, s: nat, n: nat)
    requires Select(a, s, n) == []
    ensures Stripped(a, s, n + 1) == Stripped(a, s, n)
  {
    if a != [] {
      StrippedSame(a[..|a| - 1], s, n);
    }
  }

  /** Dropping the oldest packet of a level changes nothing about what is left once the level is stripped. */
  lemma {:induction false} StrippedWithoutFirst(a: seq<Entry>, s: nat, n: nat)
    requires Select(a, s, n) != []
    ensures Stripped(WithoutFirst(a, s, n), s, n + 1) == Stripped(a, s, n + 1)
  {
    var m := |a| - 1;
    if Select(a[..m], s, n) != [] {
      StrippedWithoutFirst(a[..m], s, n);
      assert WithoutFirst(a, s, n)[..|WithoutFirst(a, s, n)| - 1] == WithoutFirst(a[..m], s, n);
    }
  }

  lemma {:induction false} StrippedTwice(a: seq<Entry>, s: nat, n: nat)
    ensures Stripped(Stripped(a, s, n), s, n + 1) == Stripped(a, s, n + 1)
  {
    if a != [] {
      var m := |a| - 1;
      StrippedTwice(a[..m], s, n);
      var b := Stripped(a[..m], s, n);
      if !(a[m].packet.ssrc == s && a[m].level < n) {
        assert (b + [a[m]])[..|b|] == b && (b + [a[m]])[|b|] == a[m];
      } else {
        assert Stripped(a, s, n) == b && Stripped(a, s, n + 1) == Stripped(a[..m], s, n + 1);
      }
    }
  }
}
