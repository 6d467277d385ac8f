/**
 CongestionControlFeedbackTracker of
 src/qos/congestion_control_feedback_tracker.cc: the per-packet reports of
 section 3.1 of RFC 8888 for one stream.  Sequence numbers come unwrapped.
 */
module FeedbackTracker {
  import opened Common

  datatype Marking = NotEct | Ect1 | Ect0 | Ce

  datatype Info = Info(ssrc: nat, number: int, arrival: int, ecn: Marking)

  /** One report; no offset when the packet has not been received. */
  datatype Report = Report(ssrc: nat, number: nat, offset: Option<int>, ecn: Marking)

  const MAX_HISTORY := 16384

  // ----- Sorting by sequence number, then arrival -----

  predicate NotAfter(a: Info, b: Info) {
    a.number < b.number || (a.number == b.number && a.arrival <= b.arrival)
  }

  ghost predicate Sorted(s: seq<Info>) {
    forall i, j :: 0 <= i < j < |s| ==> NotAfter(s[i], s[j])
  }

  function Insert(s: seq<Info>, p: Info): (t: seq<Info>)
    ensures |t| == |s| + 1
  {
    if s == [] || NotAfter(p, s[0]) then [p] + s else [s[0]] + Insert(s[1..], p)
  }

  lemma {:induction false} InsertHas(s: seq<Info>, p: Info, q: Info)
    ensures q in Insert(s, p) <==> q == p || q in s
  {
    if s != [] && !NotAfter(p, s[0]) {
      InsertHas(s[1..], p, q);
      assert q in s <==> q == s[0] || q in s[1..];
    }
  }

  lemma {:induction false} InsertSorts(s: seq<Info>, p: Info)
    requires Sorted(s)
    ensures Sorted(Insert(s, p))
  {
    if s != [] && !NotAfter(p, s[0]) {
      InsertSorts(s[1..], p);
      var t := Insert(s[1..], p);
      forall j | 0 <= j < |t| ensures NotAfter(s[0], t[j]) {
        InsertHas(s[1..], p, t[j]);
      }
    }
  }

  method Sort(s: seq<Info>) returns (t: seq<Info>)
    ensures Sorted(t) && |t| == |s| && forall q :: q in t <==> q in s
  {
    t := [];
    for i := 0 to |s|
      invariant |t| == i && Sorted(t) && forall q :: q in t <==> q in s[..i]
    {
      InsertSorts(t, s[i]);
      forall q ensures q in Insert(t, s[i]) <==> q == s[i] || q in t {
        InsertHas(t, s[i], q);
      }
      t := Insert(t, s[i]);
      assert s[..i + 1] == s[..i] + [s[i]];
    }
    assert s[..|s|] == s;
  }

  // ----- What a report must say -----

  /** A copy received since the last report. */
  ghost predicate Copy(batch: seq<Info>, n: int, p: Info) {
    p in batch && p.number == n
  }

  ghost predicate Received(batch: seq<Info>, n: int) {
    exists p :: Copy(batch, n, p)
  }

  /** A copy of this packet, received since the last report or remembered, arrived then. */
  ghost predicate Arrived(batch: seq<Info>, history: map<int, Info>, n: int, t: int) {
    || (exists p :: Copy(batch, n, p) && p.arrival == t)
    || (n in history && history[n].arrival == t)
  }

  /** No copy known arrived later. */
  ghost predicate Latest(batch: seq<Info>, history: map<int, Info>, n: int, t: int) {
    Arrived(batch, history, n, t) && forall u :: Arrived(batch, history, n, u) ==> u <= t
  }

  /** A copy was marked congestion-experienced, in the batch or as far as history goes back. */
  ghost predicate Congested(batch: seq<Info>, history: map<int, Info>, n: int) {
    || (exists p :: Copy(batch, n, p) && p.ecn == Ce)
    || (n in history && history[n].ecn == Ce)
  }

  /** The mark of a copy of the batch none of its copies arrived before. */
  ghost predicate EarliestMark(batch: seq<Info>, n: int, ecn: Marking) {
    exists p :: Copy(batch, n, p) && p.ecn == ecn && forall q :: Copy(batch, n, q) ==> p.arrival <= q.arrival
  }

  /** The mark reported when no copy was marked congestion-experienced. */
  ghost predicate PlainMark(batch: seq<Info>, history: map<int, Info>, n: int, ecn: Marking) {
    if n in history && history[n].ecn != NotEct then ecn == history[n].ecn
    else if Received(batch, n) then EarliestMark(batch, n, ecn)
    else ecn == NotEct
  }

  /** A mark that may be reported; of copies of the batch that arrived at once, any may come first. */
  ghost predicate MayShow(batch: seq<Info>, history: map<int, Info>, n: int, ecn: Marking) {
    if Congested(batch, history, n) then ecn == Ce else PlainMark(batch, history, n, ecn)
  }

  ghost predicate Reports(batch: seq<Info>, history: map<int, Info>, n: int, time: int, r: Report) {
    && r.number == n % 0x1_0000
    && (r.offset.Some? <==> Received(batch, n) || n in history)
    && (r.offset.Some? ==> Latest(batch, history, n, time - r.offset.value))
    && MayShow(batch, history, n, r.ecn)
  }

  /** The reports for `count` numbers on end, from `first`. */
  ghost predicate Covers(batch: seq<Info>, history: map<int, Info>, first: int, time: int, reports: seq<Report>) {
    forall i :: 0 <= i < |reports| ==> Reports(batch, history, first + i, time, reports[i])
  }

  /** What is remembered after one more copy: the earliest arrival, and any congestion mark. */
  function Merged(history: map<int, Info>, p: Info): Info {
    if p.number !in history then p
    else
      var known := history[p.number];
      known.(arrival := if p.arrival < known.arrival then p.arrival else known.arrival,
             ecn := if p.ecn == Ce then Ce else known.ecn)
  }

  /** The packets remembered after one more copy; when there are too many, the one remembered first goes. */
  function Kept(history: map<int, Info>, order: seq<int>, p: Info): map<int, Info> {
    var h := history[p.number := Merged(history, p)];
    if p.number !in history && |order| >= MAX_HISTORY then h - {order[0]} else h
  }

  function KeptOrder(history: map<int, Info>, order: seq<int>, p: Info): seq<int> {
    if p.number in history then order
    else (order + [p.number])[if |order| >= MAX_HISTORY then 1 else 0..]
  }

  /** The packets remembered, in the order they came. */
  ghost predicate Listed(history: map<int, Info>, order: seq<int>) {
    && (forall n :: n in history <==> n in order)
    && (forall i, j :: 0 <= i < j < |order| ==> order[i] != order[j])
    && |order| <= MAX_HISTORY
    && (forall n :: n in history ==> history[n].number == n)
  }

  function Earlier(a: Option<int>, b: int): Option<int> {
    if a.None? || b < a.value then Some(b) else a
  }

  /** The highest number received. */
  function Highest(s: seq<Info>): (n: int)
    requires s != []
    ensures Received(s, n) && forall i :: 0 <= i < |s| ==> s[i].number <= n
  {
    var m := |s| - 1;
    assert Copy(s, s[m].number, s[m]);
    if m == 0 then s[0].number
    else
      var n := Highest(s[..m]);
      assert forall p :: p in s[..m] ==> p in s;
      assert forall p :: Copy(s[..m], n, p) ==> Copy(s, n, p);
      assert forall i :: 0 <= i < m ==> s[..m][i] == s[i];
      if n < s[m].number then s[m].number else n
  }

  lemma HighestIs(s: seq<Info>, n: int)
    requires s != [] && Received(s, n) && forall i :: 0 <= i < |s| ==> s[i].number <= n
    ensures Highest(s) == n
  {
  }

  /** The tracker as a value. */
  datatype Tracker = Tracker(last: Option<int>, packets: seq<Info>, history: map<int, Info>, order: seq<int>)
  {
    /** A copy comes; one older than the last report makes the next report start there. */
    function Heard(p: Info): Tracker {
      Tracker(if last.Some? && p.number <= last.value then Some(p.number - 1) else last, packets + [p],
              Kept(history, order, p), KeptOrder(history, order, p))
    }

    /** Everything received is reported. */
    function Told(): Tracker {
      if packets == [] then this else this.(last := Some(Highest(packets)), packets := [])
    }
  }

  class CongestionControlFeedbackTracker {
    var last: Option<int>
    var packets: seq<Info>
    var history: map<int, Info>
    var order: seq<int>

    /** Everything received since the last report comes after it. */
    ghost predicate Valid()
      reads this
    {
      && (forall i :: 0 <= i < |packets| && last.Some? ==> last.value < packets[i].number)
      && Listed(history, order)
    }

    ghost function Value(): Tracker
      reads this
    {
      Tracker(last, packets, history, order)
    }

    constructor ()
      ensures Valid() && Value() == Tracker(None, [], map[], [])
    {
      last, packets, history, order := None, [], map[], [];
    }

    /** Remember a copy; when there are too many, forget the packet remembered first. */
    method Remember(p: Info)
      requires Listed(history, order)
      modifies `history, `order
      ensures history == Kept(old(history), old(order), p) && order == KeptOrder(old(history), old(order), p)
    {
      if p.number !in history {
        history := history[p.number := p];
        order := order + [p.number];
        if |order| > MAX_HISTORY {
          history := history - {order[0]};
          order := order[1..];
        }
      } else {
        var known := history[p.number];
        if p.arrival < known.arrival {
          known := known.(arrival := p.arrival);
        }
        if p.ecn == Ce {
          known := known.(ecn := Ce);
        }
        history := history[p.number := known];
      }
    }

    /** ReceivedPacket: a packet older than the last report makes the next one start there. */
    method ReceivedPacket(p: Info)
      requires Valid()
      modifies this
      ensures Valid() && Value() == old(Value()).Heard(p)
    {
      if last.Some? && p.number < last.value + 1 {
        last := Some(p.number - 1);
      }
      hide Kept;
      hide KeptOrder;
      hide Listed;
      KeptListed(history, order, p);
      Remember(p);
      packets := packets + [p];
    }

    /**
     AddPacketsToFeedback.  The report runs without a gap from one past the last
     number reported to the highest received, and says of each number whether
     and when it was received and how it was marked.
     */
    method AddPacketsToFeedback(time: int) returns (reports: seq<Report>)
      requires Valid()
      modifies `last, `packets
      ensures Valid() && Value() == old(Value()).Told()
      ensures old(packets) == [] ==> reports == []
      ensures old(packets) != [] ==>
        && last.Some? && Received(old(packets), last.value)
        && (forall i :: 0 <= i < |old(packets)| ==> last.value - |reports| < old(packets)[i].number <= last.value)
        && (old(last).Some? ==> last.value - |reports| == old(last).value)
        && (old(last).None? ==> Received(old(packets), last.value - |reports| + 1))
        && Covers(old(packets), history, last.value - |reports| + 1, time, reports)
        && exists p :: p in old(packets) && (forall q :: q in old(packets) ==> NotAfter(p, q)) && forall r :: r in reports ==> r.ssrc == p.ssrc
    {
      hide Covers;
      hide Sorted;
      hide Received;
      hide Listed;
      reports := [];
      if packets == [] {
        return;
      }
      var sorted := Sort(packets);
      SortedEnds(packets, sorted);
      var from := if last.Some? then last.value else sorted[0].number - 1;
      AllAfter(packets, sorted, from);
      reports := Walk(sorted, from, time);
      CoversSame(packets, sorted, history, from + 1, time, reports);
      last := Some(sorted[|sorted| - 1].number);
      packets := [];
    }

    /** The reports on every number after `from`, up to the highest received. */
    method Walk(sorted: seq<Info>, from: int, time: int) returns (reports: seq<Report>)
      requires Valid() && sorted != [] && Sorted(sorted) && forall i :: 0 <= i < |sorted| ==> from < sorted[i].number
      ensures |reports| == sorted[|sorted| - 1].number - from && Covers(sorted, history, from + 1, time, reports)
      ensures forall r :: r in reports ==> r.ssrc == sorted[0].ssrc
    {
      hide Reports;
      reports := [];
      var at, number := 0, from + 1;
      while number <= sorted[|sorted| - 1].number
        invariant from + 1 <= number <= sorted[|sorted| - 1].number + 1 && |reports| == number - from - 1
        invariant 0 <= at <= |sorted|
        invariant forall i :: 0 <= i < |sorted| ==> (i < at <==> sorted[i].number < number)
        invariant Covers(sorted, history, from + 1, time, reports) && forall r :: r in reports ==> r.ssrc == sorted[0].ssrc
        decreases sorted[|sorted| - 1].number - number
      {
        var r;
        r, at := ReportOn(sorted, at, number, time, sorted[0].ssrc);
        reports := reports + [r];
        number := number + 1;
      }
    }

    /** The report on one number, and the packets it takes up. */
    method ReportOn(sorted: seq<Info>, start: nat, number: int, time: int, ssrc: nat) returns (r: Report, at: nat)
      requires Valid() && Sorted(sorted) && start < |sorted| && number <= sorted[|sorted| - 1].number
      requires forall i :: 0 <= i < |sorted| ==> (i < start <==> sorted[i].number < number)
      ensures at <= |sorted| && forall i :: 0 <= i < |sorted| ==> (i < at <==> sorted[i].number <= number)
      ensures Reports(sorted, history, number, time, r) && r.ssrc == ssrc
    {
      hide Listed;
      hide Reports;
      hide TakenUp;
      ghost var known := if number in history then Some(history[number]) else None;
      var ecn, offset := NotEct, None;
      if number in history {
        offset := Some(time - history[number].arrival);
        ecn := history[number].ecn;
      }
      at := start;
      if number == sorted[at].number {
        offset := Earlier(offset, time - sorted[at].arrival);
        if sorted[at].ecn == Ce {
          ecn := Ce;
        } else if ecn == NotEct {
          ecn := sorted[at].ecn;
        }
        TakenFirst(sorted[at], known, time, offset, ecn);
        assert sorted[start..start + 1] == [sorted[start]];
        at := at + 1;
        while at < |sorted| && sorted[at].number == number
          invariant start < at <= |sorted|
          invariant forall i :: start <= i < at ==> sorted[i].number == number
          invariant TakenUp(sorted[start..at], known, time, offset, ecn)
        {
          TakenMore(sorted[start..at], known, time, offset, ecn, sorted[at]);
          offset := Earlier(offset, time - sorted[at].arrival);
          if sorted[at].ecn == Ce {
            ecn := Ce;
          }
          assert sorted[start..at + 1] == sorted[start..at] + [sorted[at]];
          at := at + 1;
        }
      }
      if at == start {
        assert sorted[start..at] == [];
        TakenNone(known, time, offset, ecn);
      }
      r := Report(ssrc, number % 0x1_0000, offset, ecn);
      ReportedRight(sorted, history, start, at, number, time, r);
    }
  }

  /** The offset and mark that the copies taken up so far, and the one remembered, lead to. */
  ghost predicate TakenUp(copies: seq<Info>, known: Option<Info>, time: int, offset: Option<int>, ecn: Marking) {
    && (offset.None? <==> copies == [] && known.None?)
    && (offset.Some? ==> (forall i :: 0 <= i < |copies| ==> copies[i].arrival <= time - offset.value)
                         && (known.Some? ==> known.value.arrival <= time - offset.value)
                         && ((exists i :: 0 <= i < |copies| && copies[i].arrival == time - offset.value)
                             || (known.Some? && known.value.arrival == time - offset.value)))
    && (if (exists i :: 0 <= i < |copies| && copies[i].ecn == Ce) || (known.Some? && known.value.ecn == Ce) then ecn == Ce
        else if known.Some? && known.value.ecn != NotEct then ecn == known.value.ecn
        else if copies != [] then ecn == copies[0].ecn
        else ecn == NotEct)
  }

  lemma TakenNone(known: Option<Info>, time: int, offset: Option<int>, ecn: Marking)
    requires if known.Some? then offset == Some(time - known.value.arrival) && ecn == known.value.ecn else offset.None? && ecn == NotEct
    ensures TakenUp([], known, time, offset, ecn)
  {
  }

  lemma TakenFirst(p: Info, known: Option<Info>, time: int, offset: Option<int>, ecn: Marking)
    requires offset == Earlier(if known.Some? then Some(time - known.value.arrival) else None, time - p.arrival)
    requires var mark := if known.Some? then known.value.ecn else NotEct;
      ecn == if p.ecn == Ce then Ce else if mark == NotEct then p.ecn else mark
    ensures TakenUp([p], known, time, offset, ecn)
  {
    assert [p][0] == p;
  }

  lemma TakenMore(copies: seq<Info>, known: Option<Info>, time: int, offset: Option<int>, ecn: Marking, p: Info)
    requires TakenUp(copies, known, time, offset, ecn) && copies != []
    ensures TakenUp(copies + [p], known, time, Earlier(offset, time - p.arrival), if p.ecn == Ce then Ce else ecn)
  {
    var more := copies + [p];
    assert more[|copies|] == p && forall i :: 0 <= i < |copies| ==> more[i] == copies[i];
  }

  lemma ReportedRight(sorted: seq<Info>, history: map<int, Info>, start: nat, at: nat, n: int, time: int, r: Report)
    requires Sorted(sorted) && start <= at <= |sorted| && r.number == n % 0x1_0000
    requires forall i :: 0 <= i < |sorted| ==> (start <= i < at <==> sorted[i].number == n)
    requires TakenUp(sorted[start..at], if n in history then Some(history[n]) else None, time, r.offset, r.ecn)
    ensures Reports(sorted, history, n, time, r)
  {
    hide TakenUp;
    var copies := sorted[start..at];
    forall p ensures Copy(sorted, n, p) <==> p in copies {
      if Copy(sorted, n, p) {
        var i :| 0 <= i < |sorted| && sorted[i] == p;
        assert copies[i - start] == p;
      }
    }
    forall p | copies != [] && p in copies ensures copies[0].arrival <= p.arrival {
      var i :| 0 <= i < |copies| && copies[i] == p;
      assert copies[i] == sorted[start + i] && copies[0] == sorted[start];
    }
    hide Sorted;
    OffsetRight(copies, sorted, history, n, time, r);
    MarkRight(copies, sorted, history, n, time, r);
  }

  lemma OffsetRight(copies: seq<Info>, sorted: seq<Info>, history: map<int, Info>, n: int, time: int, r: Report)
    requires forall p :: Copy(sorted, n, p) <==> p in copies
    requires TakenUp(copies, if n in history then Some(history[n]) else None, time, r.offset, r.ecn)
    ensures r.offset.Some? <==> Received(sorted, n) || n in history
    ensures r.offset.Some? ==> Latest(sorted, history, n, time - r.offset.value)
  {
    if copies != [] {
      assert Copy(sorted, n, copies[0]);
    }
    if r.offset.Some? {
      var t := time - r.offset.value;
      if i :| 0 <= i < |copies| && copies[i].arrival == t {
        assert Copy(sorted, n, copies[i]);
      }
      forall u | Arrived(sorted, history, n, u) ensures u <= t {
        if p :| Copy(sorted, n, p) && p.arrival == u {
          assert p in copies;
        }
      }
    }
  }

  lemma MarkRight(copies: seq<Info>, sorted: seq<Info>, history: map<int, Info>, n: int, time: int, r: Report)
    requires forall p :: Copy(sorted, n, p) <==> p in copies
    requires copies != [] ==> forall p :: p in copies ==> copies[0].arrival <= p.arrival
    requires TakenUp(copies, if n in history then Some(history[n]) else None, time, r.offset, r.ecn)
    ensures if Congested(sorted, history, n) then r.ecn == Ce else PlainMark(sorted, history, n, r.ecn)
  {
    if copies != [] {
      assert Copy(sorted, n, copies[0]);
    }
    if p :| Copy(sorted, n, p) && p.ecn == Ce {
      assert p in copies;
    }
    if i :| 0 <= i < |copies| && copies[i].ecn == Ce {
      assert Copy(sorted, n, copies[i]);
    }
  }

  /** What is first and last once sorted. */
  lemma SortedEnds(batch: seq<Info>, sorted: seq<Info>)
    requires Sorted(sorted) && |sorted| == |batch| > 0 && forall q :: q in sorted <==> q in batch
    ensures sorted[0] in batch && forall q :: q in batch ==> NotAfter(sorted[0], q)
    ensures Received(batch, sorted[0].number) && Highest(batch) == sorted[|sorted| - 1].number
    ensures forall i :: 0 <= i < |batch| ==> sorted[0].number <= batch[i].number <= sorted[|sorted| - 1].number
  {
    var last := sorted[|sorted| - 1];
    assert Copy(batch, sorted[0].number, sorted[0]) && Copy(batch, last.number, last);
    forall q | q in batch ensures NotAfter(sorted[0], q) && q.number <= last.number {
      var i :| 0 <= i < |sorted| && sorted[i] == q;
    }
    HighestIs(batch, last.number);
  }

  lemma AllAfter(batch: seq<Info>, sorted: seq<Info>, from: int)
    requires (forall q :: q in sorted <==> q in batch) && forall i :: 0 <= i < |batch| ==> from < batch[i].number
    ensures forall i :: 0 <= i < |sorted| ==> from < sorted[i].number
  {
    forall i | 0 <= i < |sorted| ensures from < sorted[i].number {
      assert sorted[i] in batch;
    }
  }

  lemma CoversSame(batch: seq<Info>, sorted: seq<Info>, history: map<int, Info>, first: int, time: int, reports: seq<Report>)
    requires (forall q :: q in sorted <==> q in batch) && Covers(sorted, history, first, time, reports)
    ensures Covers(batch, history, first, time, reports)
  {
    forall i | 0 <= i < |reports| ensures Reports(batch, history, first + i, time, reports[i]) {
      SameBatch(batch, sorted, history, first + i, time, reports[i]);
    }
  }

  lemma SameBatch(batch: seq<Info>, sorted: seq<Info>, history: map<int, Info>, n: int, time: int, r: Report)
    requires (forall q :: q in sorted <==> q in batch) && Reports(sorted, history, n, time, r)
    ensures Reports(batch, history, n, time, r)
  {
    assert forall p :: Copy(batch, n, p) <==> Copy(sorted, n, p);
    assert forall t :: Arrived(batch, history, n, t) <==> Arrived(sorted, history, n, t);
  }

  lemma KeptListed(history: map<int, Info>, order: seq<int>, p: Info)
    requires Listed(history, order)
    ensures Listed(Kept(history, order, p), KeptOrder(history, order, p))
  {
    if p.number !in history {
      var more := order + [p.number];
      assert forall n :: n in more <==> n in order || n == p.number;
      if |order| >= MAX_HISTORY {
        OldestGoes(more);
      } else {
        assert more[0..] == more;
      }
    }
  }

  lemma OldestGoes(order: seq<int>)
    requires order != [] && forall i, j :: 0 <= i < j < |order| ==> order[i] != order[j]
    ensures forall n :: n in order[1..] <==> n in order && n != order[0]
  {
    assert order == [order[0]] + order[1..];
  }

  // ----- Over a run -----

  datatype Event = Arrive(p: Info) | Feedback

  /** A new tracker after these events. */
  function Run(events: seq<Event>): Tracker {
    if events == [] then Tracker(None, [], map[], [])
    else
      match events[|events| - 1]
      case Arrive(p) => Run(events[..|events| - 1]).Heard(p)
      case Feedback => Run(events[..|events| - 1]).Told()
  }

  /** Every copy that came. */
  function Log(events: seq<Event>): seq<Info> {
    if events == [] then []
    else Log(events[..|events| - 1]) + match events[|events| - 1] case Arrive(p) => [p] case Feedback => []
  }

  /** The copies of this packet that came since the tracker last forgot it. */
  function Since(events: seq<Event>, n: int): seq<Info> {
    if events == [] || n !in Run(events).history then []
    else Since(events[..|events| - 1], n) + match events[|events| - 1]
      case Arrive(p) => if p.number == n then [p] else []
      case Feedback => []
  }

  /** No copy of this packet arrived earlier. */
  ghost predicate First(log: seq<Info>, n: int, t: int) {
    (exists p :: Copy(log, n, p) && p.arrival == t) && forall p :: Copy(log, n, p) ==> t <= p.arrival
  }

  ghost predicate Marked(log: seq<Info>, n: int) {
    exists p :: Copy(log, n, p) && p.ecn == Ce
  }

  /** What is remembered of a packet: the first arrival of its copies, whether one was marked, and otherwise how the first to come was. */
  ghost predicate Summary(copies: seq<Info>, n: int, known: Info) {
    && copies != [] && First(copies, n, known.arrival) && (known.ecn == Ce <==> Marked(copies, n))
    && (known.ecn != Ce ==> known.ecn == copies[0].ecn)
  }

  lemma LogAppend(log: seq<Info>, p: Info, n: int)
    ensures forall q :: Copy(log + [p], n, q) <==> Copy(log, n, q) || (q == p && p.number == n)
  {
  }

  lemma SummaryMore(copies: seq<Info>, n: int, known: Info, p: Info)
    requires Summary(copies, n, known) && p.number == n
    ensures Summary(copies + [p], n,
      known.(arrival := if p.arrival < known.arrival then p.arrival else known.arrival, ecn := if p.ecn == Ce then Ce else known.ecn))
  {
    LogAppend(copies, p, n);
    assert Copy(copies + [p], n, p);
  }

  lemma SummaryOne(p: Info)
    ensures Summary([p], p.number, p)
  {
    assert Copy([p], p.number, p);
  }

  /** Over every run, the tracker remembers of a packet exactly what its copies since it last forgot it say. */
  lemma {:induction false} Remembers(events: seq<Event>, n: int)
    ensures n in Run(events).history ==> Summary(Since(events, n), n, Run(events).history[n])
  {
    hide Summary;
    hide Kept;
    hide Merged;
    if events != [] && n in Run(events).history {
      var m := |events| - 1;
      Remembers(events[..m], n);
      var r, c := Run(events[..m]), Since(events[..m], n);
      if events[m].Arrive? {
        var p := events[m].p;
        KeptHas(r.history, r.order, p, n);
        if p.number != n {
          assert c + [] == c;
        } else if n in r.history {
          MergedIs(r.history, p);
          SummaryMore(c, n, r.history[n], p);
        } else {
          MergedIs(r.history, p);
          SummaryOne(p);
          assert c + [p] == [p];
        }
      } else {
        assert c + [] == c;
      }
    }
  }

  lemma KeptHas(history: map<int, Info>, order: seq<int>, p: Info, n: int)
    requires n in Kept(history, order, p)
    ensures n == p.number || n in history
    ensures Kept(history, order, p)[n] == if n == p.number then Merged(history, p) else history[n]
  {
  }

  lemma MergedIs(history: map<int, Info>, p: Info)
    ensures p.number !in history ==> Merged(history, p) == p
    ensures p.number in history ==>
      var known := history[p.number];
      Merged(history, p) == known.(arrival := if p.arrival < known.arrival then p.arrival else known.arrival,
                                   ecn := if p.ecn == Ce then Ce else known.ecn)
  {
  }

  /** What waits to be reported, and what came since the packet was last forgotten, came. */
  lemma {:induction false} Logged(events: seq<Event>, n: int)
    ensures forall p :: p in Run(events).packets ==> p in Log(events)
    ensures forall p :: p in Since(events, n) ==> Copy(Log(events), n, p)
  {
    hide Kept;
    hide KeptOrder;
    if events != [] {
      Logged(events[..|events| - 1], n);
    }
  }

  lemma {:induction false} FirstExists(log: seq<Info>, n: int) returns (t: int)
    requires Received(log, n)
    ensures First(log, n, t)
  {
    var m := |log| - 1;
    assert log == log[..m] + [log[m]];
    LogAppend(log[..m], log[m], n);
    if Received(log[..m], n) {
      t := FirstExists(log[..m], n);
      if log[m].number == n && log[m].arrival < t {
        t := log[m].arrival;
      }
    } else {
      t := log[m].arrival;
    }
  }

  /**
   Section 3.1 of RFC 8888 wants the arrival of the first copy reported.  That
   is what a report does if and only if the packet is in the batch or remembered,
   no copy in the batch arrived after the first, and a first copy came since the
   tracker last forgot the packet, if it remembers one.
   */
  lemma FirstCopyReported(events: seq<Event>, n: int, time: int, r: Report, first: int)
    requires Reports(Run(events).packets, Run(events).history, n, time, r) && First(Log(events), n, first)
    ensures r.offset == Some(time - first)
      <==> (Received(Run(events).packets, n) || n in Run(events).history)
           && (forall p :: Copy(Run(events).packets, n, p) ==> p.arrival <= first)
           && (n in Run(events).history ==> exists p :: Copy(Since(events, n), n, p) && p.arrival <= first)
  {
    Logged(events, n);
    Remembers(events, n);
    hide Run;
    hide Log;
    hide Since;
    var t := Run(events);
    assert forall p :: Copy(t.packets, n, p) ==> Copy(Log(events), n, p) && Arrived(t.packets, t.history, n, p.arrival);
    if n in t.history {
      assert Arrived(t.packets, t.history, n, t.history[n].arrival);
      var q :| Copy(Since(events, n), n, q) && q.arrival == t.history[n].arrival;
      assert Copy(Log(events), n, q);
    }
  }

  /** It shows congestion exactly when a copy of the batch was marked, or one that came since the packet was last forgotten. */
  lemma CongestionReported(events: seq<Event>, n: int, time: int, r: Report)
    requires Reports(Run(events).packets, Run(events).history, n, time, r)
    ensures r.ecn == Ce <==> Marked(Run(events).packets, n) || Marked(Since(events, n), n)
  {
    Remembers(events, n);
    SinceHas(events, n);
    hide Run;
    hide Since;
  }

  lemma {:induction false} SinceHas(events: seq<Event>, n: int)
    ensures n !in Run(events).history ==> Since(events, n) == []
  {
  }

  /**
   The mark section 3.1 wants of a packet that came: congestion if any copy was
   so marked, else that of a copy none arrived before.
   */
  ghost predicate RightMark(log: seq<Info>, n: int, ecn: Marking) {
    if Marked(log, n) then ecn == Ce else Received(log, n) ==> EarliestMark(log, n, ecn)
  }

  /** When the mark reported is that one. */
  ghost predicate MarkKnown(log: seq<Info>, batch: seq<Info>, since: seq<Info>, n: int) {
    if Marked(log, n) then
      // A copy so marked is in the batch, or came since the packet was last forgotten.
      Marked(batch, n) || Marked(since, n)
    else if since != [] && since[0].ecn != NotEct then
      // The first to come since then was ECN-capable: it must be marked as a first copy was.
      EarliestMark(log, n, since[0].ecn)
    else if Received(batch, n) then
      // It gives way to the earliest copies of the batch.
      forall ecn :: EarliestMark(batch, n, ecn) ==> EarliestMark(log, n, ecn)
    else
      Received(log, n) ==> EarliestMark(log, n, NotEct)
  }

  /**
   What is reported, however the code orders copies that arrived at once, is the
   mark section 3.1 wants if and only if that mark is known in this way.
   */
  lemma FirstMarkReported(events: seq<Event>, n: int, time: int)
    ensures (forall r :: Reports(Run(events).packets, Run(events).history, n, time, r) ==> RightMark(Log(events), n, r.ecn))
      <==> MarkKnown(Log(events), Run(events).packets, Since(events, n), n)
  {
    Remembers(events, n);
    SinceHas(events, n);
    Logged(events, n);
    var log, batch, history, since := Log(events), Run(events).packets, Run(events).history, Since(events, n);
    hide Run;
    hide Log;
    hide Since;
    KnownMarks(log, batch, history, since, n);
    forall ecn | MayShow(batch, history, n, ecn) ensures exists r :: Reports(batch, history, n, time, r) && r.ecn == ecn {
      var r := ReportWith(batch, history, n, time, ecn);
    }
    hide MayShow;
    hide RightMark;
    hide MarkKnown;
  }

  /** The marks that may be reported are all right if and only if the right one is known. */
  lemma KnownMarks(log: seq<Info>, batch: seq<Info>, history: map<int, Info>, since: seq<Info>, n: int)
    requires (forall p :: Copy(batch, n, p) ==> Copy(log, n, p)) && forall p :: p in since ==> Copy(log, n, p)
    requires if n in history then Summary(since, n, history[n]) else since == []
    ensures (forall ecn :: MayShow(batch, history, n, ecn) ==> RightMark(log, n, ecn)) <==> MarkKnown(log, batch, since, n)
  {
    assert Congested(batch, history, n) <==> Marked(batch, n) || Marked(since, n);
    assert Marked(batch, n) || Marked(since, n) ==> Marked(log, n);
    var plain := n in history && history[n].ecn != NotEct;
    if Congested(batch, history, n) {
      assert MarkKnown(log, batch, since, n);
    } else if Marked(log, n) {
      var ecn := PlainExists(batch, history, n);
      assert MayShow(batch, history, n, ecn) && !RightMark(log, n, ecn);
    } else {
      assert Received(batch, n) || n in history ==> Received(log, n);
      hide EarliestMark;
      hide Marked;
      hide Received;
      if plain {
        assert MayShow(batch, history, n, since[0].ecn);
      } else if Received(batch, n) {
        assert forall ecn :: MayShow(batch, history, n, ecn) <==> EarliestMark(batch, n, ecn);
      } else {
        assert MayShow(batch, history, n, NotEct);
      }
    }
  }

  lemma PlainExists(batch: seq<Info>, history: map<int, Info>, n: int) returns (ecn: Marking)
    requires !Congested(batch, history, n)
    ensures MayShow(batch, history, n, ecn) && ecn != Ce
  {
    if n in history && history[n].ecn != NotEct {
      ecn := history[n].ecn;
    } else if Received(batch, n) {
      var t := FirstExists(batch, n);
      var p :| Copy(batch, n, p) && p.arrival == t;
      ecn := p.ecn;
    } else {
      ecn := NotEct;
    }
  }

  /** A report with a mark that may be reported. */
  lemma ReportWith(batch: seq<Info>, history: map<int, Info>, n: int, time: int, ecn: Marking) returns (r: Report)
    requires MayShow(batch, history, n, ecn)
    ensures Reports(batch, history, n, time, r) && r.ecn == ecn
  {
    if Received(batch, n) || n in history {
      var late := LatestExists(batch, history, n);
      r := Report(0, n % 0x1_0000, Some(time - late), ecn);
    } else {
      r := Report(0, n % 0x1_0000, None, ecn);
    }
  }

  lemma {:induction false} LatestExists(batch: seq<Info>, history: map<int, Info>, n: int) returns (t: int)
    requires Received(batch, n) || n in history
    ensures Latest(batch, history, n, t)
  {
    if batch == [] {
      t := history[n].arrival;
    } else {
      var m := |batch| - 1;
      var less := batch[..m];
      assert batch == less + [batch[m]];
      LogAppend(less, batch[m], n);
      assert forall u :: Arrived(batch, history, n, u) <==> Arrived(less, history, n, u) || (batch[m].number == n && batch[m].arrival == u);
      if Received(less, n) || n in history {
        t := LatestExists(less, history, n);
        if batch[m].number == n && batch[m].arrival > t {
          t := batch[m].arrival;
        }
      } else {
        t := batch[m].arrival;
      }
    }
  }

  // ----- Where the next report starts -----

  /** The highest number of the last report that had any. */
  function LastReported(events: seq<Event>): Option<int> {
    if events == [] then None
    else
      var n := |events| - 1;
      if events[n].Feedback? && Run(events[..n]).packets != [] then Some(Highest(Run(events[..n]).packets))
      else LastReported(events[..n])
  }

  /**
   The next report starts one past the last one, or at the lowest number that has
   come since, if that is lower; so it covers every packet that has come since.
   */
  lemma {:induction false} NextReport(events: seq<Event>)
    ensures var t, r := Run(events), LastReported(events);
      && (t.last.Some? <==> r.Some?)
      && (t.last.Some? ==>
        && t.last.value <= r.value && (forall p :: p in t.packets ==> t.last.value < p.number)
        && (t.last.value == r.value || exists p :: p in t.packets && p.number == t.last.value + 1))
  {
    hide Kept;
    hide KeptOrder;
    hide Highest;
    if events != [] {
      var n := |events| - 1;
      NextReport(events[..n]);
      if events[n].Arrive? {
        var was, t, q := Run(events[..n]), Run(events), events[n].p;
        assert t.packets == was.packets + [q];
        assert q in t.packets && forall p :: p in was.packets ==> p in t.packets;
      }
    }
  }

  // ----- A packet never forgotten -----

  /** Once remembered, the packet stays so. */
  ghost predicate NeverForgotten(events: seq<Event>, n: int) {
    forall k :: 0 <= k < |events| && n in Run(events[..k]).history ==> n in Run(events[..k + 1]).history
  }

  lemma {:induction false} RunListed(events: seq<Event>)
    ensures Listed(Run(events).history, Run(events).order)
  {
    hide Listed;
    if events != [] {
      var r := Run(events[..|events| - 1]);
      RunListed(events[..|events| - 1]);
      if events[|events| - 1].Arrive? {
        KeptListed(r.history, r.order, events[|events| - 1].p);
      }
    } else {
      NothingListed();
    }
  }

  lemma NothingListed()
    ensures Listed(map[], [])
  {
  }

  lemma KeptComes(history: map<int, Info>, order: seq<int>, p: Info)
    requires Listed(history, order)
    ensures p.number in Kept(history, order, p)
  {
    if p.number !in history && |order| >= MAX_HISTORY {
      assert order[0] in order;
    }
  }

  /** The numbers of the packets that came. */
  function Numbers(log: seq<Info>): set<int> {
    set p | p in log :: p.number
  }

  lemma Distinct(order: seq<int>, s: set<int>)
    requires (forall i, j :: 0 <= i < j < |order| ==> order[i] != order[j]) && forall n :: n in order <==> n in s
    ensures |order| == |s|
    decreases |order|
  {
    if order == [] {
      assert forall n :: n in s ==> n in order;
      assert s == {};
    } else {
      var m := |order| - 1;
      assert order == order[..m] + [order[m]];
      assert order[m] !in order[..m];
      Distinct(order[..m], s - {order[m]});
    }
  }

  /** While no more than 16384 different packets have come, none is forgotten. */
  lemma {:induction false} FewRemembered(events: seq<Event>)
    requires |Numbers(Log(events))| <= 16384
    ensures forall n :: n in Run(events).history <==> n in Numbers(Log(events))
  {
    hide Merged;
    if events != [] {
      var m := |events| - 1;
      var less := events[..m];
      var r := Run(less);
      RunListed(less);
      match events[m] {
        case Arrive(p) =>
          NumbersMore(Log(less), p);
          FewRemembered(less);
          Distinct(r.order, Numbers(Log(less)));
          hide Numbers;
          hide Log;
        case Feedback =>
          assert Log(less) + [] == Log(less);
          FewRemembered(less);
      }
    }
  }

  lemma NumbersMore(log: seq<Info>, p: Info)
    ensures Numbers(log + [p]) == Numbers(log) + {p.number}
    ensures |Numbers(log)| <= |Numbers(log + [p])|
    ensures p.number !in Numbers(log) ==> |Numbers(log + [p])| == |Numbers(log)| + 1
  {
    assert forall q :: q in log + [p] <==> q in log || q == p;
    forall n ensures n in Numbers(log + [p]) <==> n in Numbers(log) || n == p.number {
      if n in Numbers(log) {
        var q :| q in log && q.number == n;
        assert q in log + [p];
      }
      assert p in log + [p];
    }
    assert Numbers(log + [p]) == Numbers(log) + {p.number};
    hide Numbers;
    if p.number in Numbers(log) {
      assert Numbers(log) + {p.number} == Numbers(log);
    }
  }

  /** Then all its copies came since it was last forgotten. */
  lemma {:induction false} SinceEver(events: seq<Event>, n: int)
    requires NeverForgotten(events, n)
    ensures forall p :: Copy(Log(events), n, p) ==> p in Since(events, n)
    ensures Received(Log(events), n) ==> n in Run(events).history
  {
    hide Kept;
    if events != [] {
      var m := |events| - 1;
      var less := events[..m];
      assert forall k :: 0 <= k <= m ==> less[..k] == events[..k];
      assert events[..m + 1] == events;
      SinceEver(less, n);
      RunListed(less);
      var r := Run(less);
      if events[m].Arrive? {
        KeptComes(r.history, r.order, events[m].p);
        LogAppend(Log(less), events[m].p, n);
      } else {
        assert Log(less) + [] == Log(less);
      }
    }
  }

  /** What is remembered of it is the first arrival of all its copies, and whether any was marked. */
  lemma RememberedWhole(events: seq<Event>, n: int)
    requires NeverForgotten(events, n) && Received(Log(events), n)
    ensures n in Run(events).history
    ensures First(Log(events), n, Run(events).history[n].arrival)
    ensures Run(events).history[n].ecn == Ce <==> Marked(Log(events), n)
  {
    SinceEver(events, n);
    Logged(events, n);
    Remembers(events, n);
    hide Run;
    hide Log;
    hide Since;
    hide NeverForgotten;
    assert forall p :: Copy(Log(events), n, p) <==> Copy(Since(events, n), n, p);
  }

  /** And the report is of the first copy if and only if no copy in the batch arrived after it; it shows congestion exactly when a copy did. */
  lemma RememberedReported(events: seq<Event>, n: int, time: int, r: Report, first: int)
    requires NeverForgotten(events, n) && First(Log(events), n, first)
    requires Reports(Run(events).packets, Run(events).history, n, time, r)
    ensures r.offset.Some?
    ensures r.offset.value == time - first <==> forall p :: Copy(Run(events).packets, n, p) ==> p.arrival <= first
    ensures r.ecn == Ce <==> Marked(Log(events), n)
  {
    RememberedWhole(events, n);
    Logged(events, n);
    hide Run;
    hide Log;
    hide NeverForgotten;
    var t := Run(events);
    assert t.history[n].arrival == first;
    assert Arrived(t.packets, t.history, n, first);
    assert forall p :: Copy(t.packets, n, p) ==> Copy(Log(events), n, p) && Arrived(t.packets, t.history, n, p.arrival);
  }

  // ----- Runs that fail section 3.1 -----

  /** A packet and its duplicate 40 ms later, reported 60 ms after that: the offset is the duplicate's. */
  method DuplicateReported(p: Info) returns (reports: seq<Report>)
    ensures |reports| == 1 && reports[0].number == p.number % 0x1_0000 && reports[0].offset == Some(60)
  {
    hide Reports;
    hide CongestionControlFeedbackTracker.Valid;
    var tracker := new CongestionControlFeedbackTracker();
    var again := p.(arrival := p.arrival + 40);
    tracker.ReceivedPacket(p);
    tracker.ReceivedPacket(again);
    assert tracker.packets == [p, again];
    ghost var history := tracker.history;
    reports := tracker.AddPacketsToFeedback(p.arrival + 100);
    Duplicated(p, again, history, reports[0]);
  }

  lemma Duplicated(p: Info, again: Info, history: map<int, Info>, r: Report)
    requires again == p.(arrival := p.arrival + 40) && p.number in history && history[p.number].arrival == p.arrival
    requires Reports([p, again], history, p.number, p.arrival + 100, r)
    ensures r.number == p.number % 0x1_0000 && r.offset == Some(60)
  {
    var batch := [p, again];
    assert forall q :: Copy(batch, p.number, q) <==> q == p || q == again;
    assert Arrived(batch, history, p.number, again.arrival);
  }

  /** Packets on end from number `n`, all arriving at once and marked alike. */
  function Burst(n: int, count: nat, ecn: Marking): seq<Event> {
    if count == 0 then [] else Burst(n, count - 1, ecn) + [Arrive(Info(0, n + count - 1, 0, ecn))]
  }

  lemma {:induction false} AfterBurst(n: int, count: nat, ecn: Marking)
    ensures var order := Run(Burst(n, count, ecn)).order;
      && (count <= MAX_HISTORY ==> |order| == count) && (count >= MAX_HISTORY ==> |order| == MAX_HISTORY)
      && (forall i :: 0 <= i < |order| ==> order[i] == n + count - |order| + i)
  {
    hide Listed;
    hide Run;
    NothingYet(n);
    if count > 0 {
      AfterBurst(n, count - 1, ecn);
      var less, p := Burst(n, count - 1, ecn), Info(0, n + count - 1, 0, ecn);
      RunMore(less, Arrive(p), n);
      RunListed(less);
      hide Tracker.Heard;
      hide Burst;
      NextOrder(Run(less), p);
    }
  }

  lemma NextOrder(t: Tracker, p: Info)
    requires Listed(t.history, t.order) && forall i :: 0 <= i < |t.order| ==> t.order[i] == p.number - |t.order| + i
    ensures var more := t.Heard(p).order;
      && |more| == (if |t.order| < MAX_HISTORY then |t.order| + 1 else MAX_HISTORY)
      && forall i :: 0 <= i < |more| ==> more[i] == p.number + 1 - |more| + i
  {
  }

  /** A packet, more others after it than the tracker remembers, and a report. */
  lemma Forgotten(n: int, count: nat, ecn: Marking)
    requires count > MAX_HISTORY
    ensures var log, t := Log(Burst(n, count, ecn)), Run(Burst(n, count, ecn) + [Feedback]);
      && Log(Burst(n, count, ecn) + [Feedback]) == log && (forall p :: p in log ==> p.arrival == 0 && p.ecn == ecn)
      && Info(0, n, 0, ecn) in log && t.packets == [] && t.last.Some? && n <= t.last.value < n + count
      && Listed(t.history, t.order) && n !in t.history && n !in t.order && |t.order| == MAX_HISTORY
  {
    var burst := Burst(n, count, ecn);
    hide Run;
    hide Log;
    hide Listed;
    AfterBurst(n, count, ecn);
    BurstLog(n, count, ecn);
    RunListed(burst);
    RunMore(burst, Feedback, n);
    LogMore(burst, Feedback);
    assert Log(burst) + [] == Log(burst);
    var t := Run(burst);
    ListedIs(t, n);
    assert Copy(t.packets, n, Info(0, n, 0, ecn));
    hide Burst;
  }

  lemma ListedIs(t: Tracker, n: int)
    requires Listed(t.history, t.order)
    ensures n in t.history <==> n in t.order
  {
  }

  lemma {:induction false} BurstLog(n: int, count: nat, ecn: Marking)
    ensures var log := Log(Burst(n, count, ecn));
      && Run(Burst(n, count, ecn)).packets == log && (count > 0 ==> Info(0, n, 0, ecn) in log)
      && forall p :: p in log ==> p.number < n + count && p.arrival == 0 && p.ecn == ecn
  {
    hide Log;
    hide Run;
    NothingYet(n);
    if count > 0 {
      BurstLog(n, count - 1, ecn);
      var less, p := Burst(n, count - 1, ecn), Info(0, n + count - 1, 0, ecn);
      RunMore(less, Arrive(p), n);
      LogMore(less, Arrive(p));
      assert p in Log(less) + [p];
    }
  }

  /** And a duplicate of it later: everything known of the packet is the duplicate. */
  lemma Again(n: int, count: nat, ecn: Marking, again: Info)
    requires count > MAX_HISTORY && again.number == n
    ensures var events := Burst(n, count, ecn) + [Feedback, Arrive(again)];
      && Log(events) == Log(Burst(n, count, ecn)) + [again] && Since(events, n) == [again]
      && Run(events).packets == [again] && n in Run(events).history && Run(events).history[n] == again
  {
    var less := Burst(n, count, ecn) + [Feedback];
    hide Burst;
    hide Run;
    hide Log;
    hide Listed;
    Forgotten(n, count, ecn);
    SinceHas(less, n);
    RunMore(less, Arrive(again), n);
    LogMore(less, Arrive(again));
    assert less + [Arrive(again)] == Burst(n, count, ecn) + [Feedback, Arrive(again)];
    Afresh(Run(less), again);
    hide Since;
    hide Tracker.Heard;
    assert [] + [again] == [again];
  }

  /** A copy of a packet forgotten, when nothing waits to be reported. */
  lemma Afresh(t: Tracker, p: Info)
    requires Listed(t.history, t.order) && p.number !in t.order && |t.order| == MAX_HISTORY && t.packets == []
    ensures var after := t.Heard(p); after.packets == [p] && p.number in after.history && after.history[p.number] == p
  {
    assert t.order[0] in t.order;
  }

  /** The duplicate is reported as the first copy, however late it comes. */
  lemma ForgottenReported(n: int, count: nat, late: int, r: Report)
    requires count > MAX_HISTORY && late >= 0
    ensures var again := Info(0, n, late, NotEct);
      var events := Burst(n, count, NotEct) + [Feedback, Arrive(again)];
      && First(Log(events), n, 0)
      && (forall t :: Arrived(Run(events).packets, Run(events).history, n, t) <==> t == late)
      && (Reports(Run(events).packets, Run(events).history, n, late + 100, r) ==> r.offset == Some(100))
  {
    var again := Info(0, n, late, NotEct);
    var events := Burst(n, count, NotEct) + [Feedback, Arrive(again)];
    hide Burst;
    hide Run;
    hide Log;
    hide First;
    hide Reports;
    hide Arrived;
    Forgotten(n, count, NotEct);
    Again(n, count, NotEct, again);
    FirstOfAll(Log(Burst(n, count, NotEct)), Info(0, n, 0, NotEct), again);
    OnlyKnown(again, Run(events).history, late + 100, r);
  }

  /** And its mark is reported as the first copy's, even if that was marked congestion-experienced. */
  lemma ForgottenMarked(n: int, count: nat, late: int, ecn: Marking, other: Marking, time: int, r: Report)
    requires count > MAX_HISTORY && late > 0 && other != Ce && other != ecn
    ensures var again := Info(0, n, late, other);
      var events := Burst(n, count, ecn) + [Feedback, Arrive(again)];
      && Since(events, n) == [again] && (forall m :: RightMark(Log(events), n, m) <==> m == ecn)
      && (Reports(Run(events).packets, Run(events).history, n, time, r) ==> r.ecn == other)
  {
    var again := Info(0, n, late, other);
    var events := Burst(n, count, ecn) + [Feedback, Arrive(again)];
    hide Burst;
    hide Run;
    hide Log;
    hide RightMark;
    hide Reports;
    Forgotten(n, count, ecn);
    Again(n, count, ecn, again);
    FirstMarks(Log(Burst(n, count, ecn)), Info(0, n, 0, ecn), again);
    OnlyMark(again, Run(events).history, time, r);
  }

  /** A packet received and forgotten, between an older and a newer one that come after the report, is reported as not received. */
  lemma ForgottenMissing(n: int, count: nat, older: Info, newer: Info, time: int, r: Report)
    requires count > MAX_HISTORY && older.number == n - 1 && newer.number == n + count
    ensures var events := Burst(n, count, NotEct) + [Feedback, Arrive(older), Arrive(newer)];
      && Copy(Log(events), n, Info(0, n, 0, NotEct))
      && Run(events).last == Some(n - 2) && Run(events).packets == [older, newer]
      && (Reports(Run(events).packets, Run(events).history, n, time, r) ==> r.offset == None)
  {
    var less := Burst(n, count, NotEct) + [Feedback];
    hide Burst;
    hide Run;
    hide Log;
    hide Listed;
    Forgotten(n, count, NotEct);
    RunMore(less, Arrive(older), n);
    LogMore(less, Arrive(older));
    RunMore(less + [Arrive(older)], Arrive(newer), n);
    LogMore(less + [Arrive(older)], Arrive(newer));
    assert less + [Arrive(older)] + [Arrive(newer)] == Burst(n, count, NotEct) + [Feedback, Arrive(older), Arrive(newer)];
    NotHeard(Run(less), older, newer, n);
  }

  lemma NotHeard(t: Tracker, older: Info, newer: Info, n: int)
    requires t.packets == [] && t.last.Some? && older.number < n <= t.last.value < newer.number && n !in t.history
    ensures var after := t.Heard(older).Heard(newer);
      after.last == Some(older.number - 1) && after.packets == [older, newer] && n !in after.history
  {
  }

  lemma FirstOfAll(log: seq<Info>, p: Info, again: Info)
    requires p in log && p.arrival == 0 <= again.arrival && forall q :: q in log ==> q.arrival == 0
    ensures First(log + [again], p.number, 0)
  {
    LogAppend(log, again, p.number);
    assert Copy(log, p.number, p);
  }

  lemma FirstMarks(log: seq<Info>, p: Info, again: Info)
    requires p in log && p.arrival < again.arrival && again.ecn != Ce
    requires forall q :: q in log ==> q.arrival == p.arrival && q.ecn == p.ecn
    ensures forall m :: RightMark(log + [again], p.number, m) <==> m == p.ecn
  {
    LogAppend(log, again, p.number);
    assert Copy(log, p.number, p);
  }

  lemma OnlyKnown(p: Info, history: map<int, Info>, time: int, r: Report)
    requires p.number in history && history[p.number] == p
    ensures forall t :: Arrived([p], history, p.number, t) <==> t == p.arrival
    ensures Reports([p], history, p.number, time, r) ==> r.offset == Some(time - p.arrival)
  {
    assert Copy([p], p.number, p);
  }

  lemma OnlyMark(p: Info, history: map<int, Info>, time: int, r: Report)
    requires p.number in history && history[p.number] == p
    ensures Reports([p], history, p.number, time, r) ==> r.ecn == p.ecn
  {
    assert Copy([p], p.number, p);
  }

  /** Two copies, the second to come the first to have arrived: the mark is that of the first to come. */
  lemma OvertakenMarked(p: Info, q: Info, time: int, r: Report)
    requires p.ecn == Ect0 && q.ecn == Ect1 && q.number == p.number && q.arrival < p.arrival
    ensures var events := [Arrive(p), Arrive(q)];
      && Since(events, p.number) == [p, q] && (forall m :: RightMark(Log(events), p.number, m) <==> m == Ect1)
      && (Reports(Run(events).packets, Run(events).history, p.number, time, r) ==> r.ecn == Ect0)
  {
    var n, t := p.number, Tracker(None, [p], map[p.number := p], [p.number]);
    hide Run;
    hide Since;
    hide Log;
    Alone(p);
    RunMore([Arrive(p)], Arrive(q), n);
    LogMore([Arrive(p)], Arrive(q));
    assert [Arrive(p)] + [Arrive(q)] == [Arrive(p), Arrive(q)] && [p] + [q] == [p, q];
    OvertakenHeard(t, p, q);
    hide Tracker.Heard;
    hide Reports;
    hide RightMark;
    Overtaken(p, q, t.Heard(q).history, time, r);
  }

  lemma OvertakenHeard(t: Tracker, p: Info, q: Info)
    requires t == Tracker(None, [p], map[p.number := p], [p.number]) && q.number == p.number && q.ecn != Ce && q.arrival < p.arrival
    ensures var after := t.Heard(q);
      after.packets == [p, q] && q.number in after.history && after.history[q.number] == p.(arrival := q.arrival)
  {
  }

  lemma Overtaken(p: Info, q: Info, history: map<int, Info>, time: int, r: Report)
    requires p.ecn == Ect0 && q.ecn == Ect1 && q.number == p.number && q.arrival < p.arrival
    requires q.number in history && history[q.number] == p.(arrival := q.arrival)
    ensures forall m :: RightMark([p, q], p.number, m) <==> m == Ect1
    ensures Reports([p, q], history, p.number, time, r) ==> r.ecn == Ect0
  {
    assert forall c :: Copy([p, q], p.number, c) <==> c == p || c == q;
    assert Copy([p, q], p.number, q);
  }

  /** A packet off ECN-capable transport, and its duplicate on it after the report: the mark is the duplicate's. */
  lemma DuplicateMarked(p: Info, again: Info, time: int, r: Report)
    requires p.ecn == NotEct && again == p.(arrival := again.arrival, ecn := Ect0) && p.arrival < again.arrival
    ensures var events := [Arrive(p), Feedback, Arrive(again)];
      && Since(events, p.number) == [p, again] && (forall m :: RightMark(Log(events), p.number, m) <==> m == NotEct)
      && (Reports(Run(events).packets, Run(events).history, p.number, time, r) ==> r.ecn == Ect0)
  {
    var t, n := Tracker(None, [p], map[p.number := p], [p.number]), p.number;
    hide Run;
    hide Since;
    hide Log;
    hide RightMark;
    hide Reports;
    Alone(p);
    RunMore([Arrive(p)], Feedback, n);
    LogMore([Arrive(p)], Feedback);
    RunMore([Arrive(p), Feedback], Arrive(again), n);
    LogMore([Arrive(p), Feedback], Arrive(again));
    assert [Arrive(p)] + [Feedback] == [Arrive(p), Feedback];
    assert [Arrive(p), Feedback] + [Arrive(again)] == [Arrive(p), Feedback, Arrive(again)];
    assert [p] + [] == [p] && [p] + [again] == [p, again];
    ToldAlone(t);
    HeardAgain(t.Told(), p, again);
    hide Tracker.Heard;
    hide Tracker.Told;
    FirstMarks([p], p, again);
    OneCopy(p, again, t.Told().Heard(again).history, time, r);
  }

  /** After one packet. */
  lemma Alone(p: Info)
    ensures Run([Arrive(p)]) == Tracker(None, [p], map[p.number := p], [p.number])
    ensures Log([Arrive(p)]) == [p] && Since([Arrive(p)], p.number) == [p]
  {
    NothingYet(p.number);
    hide Run;
    hide Since;
    hide Log;
    RunMore([], Arrive(p), p.number);
    LogMore([], Arrive(p));
    FirstHeard(p);
    assert [] + [Arrive(p)] == [Arrive(p)] && [] + [p] == [p];
  }

  lemma ToldAlone(t: Tracker)
    ensures t.Told().packets == [] && t.Told().history == t.history
  {
  }

  lemma NothingYet(n: int)
    ensures Run([]) == Tracker(None, [], map[], []) && Since([], n) == [] && Log([]) == []
  {
  }

  lemma RunMore(events: seq<Event>, e: Event, n: int)
    ensures Run(events + [e]) == match e case Arrive(p) => Run(events).Heard(p) case Feedback => Run(events).Told()
    ensures var more := match e case Arrive(p) => (if p.number == n then [p] else []) case Feedback => [];
      n in Run(events + [e]).history ==> Since(events + [e], n) == Since(events, n) + more
  {
    assert (events + [e])[..|events|] == events;
  }

  lemma LogMore(events: seq<Event>, e: Event)
    ensures Log(events + [e]) == Log(events) + match e case Arrive(p) => [p] case Feedback => []
  {
    assert (events + [e])[..|events|] == events;
  }

  lemma FirstHeard(p: Info)
    ensures Tracker(None, [], map[], []).Heard(p) == Tracker(None, [p], map[p.number := p], [p.number])
  {
    assert [] + [p] == [p] && [] + [p.number] == [p.number] && [p.number][0..] == [p.number];
  }

  lemma HeardAgain(t: Tracker, p: Info, again: Info)
    requires t.packets == [] && again == p.(arrival := again.arrival, ecn := Ect0) && p.arrival < again.arrival
    requires p.number in t.history && t.history[p.number] == p
    ensures t.Heard(again).packets == [again] && p.number in t.Heard(again).history && t.Heard(again).history[p.number] == p
  {
  }

  lemma OneCopy(p: Info, again: Info, history: map<int, Info>, time: int, r: Report)
    requires p.ecn == NotEct && again == p.(arrival := again.arrival, ecn := Ect0) && p.number in history && history[p.number] == p
    ensures Reports([again], history, p.number, time, r) ==> r.ecn == Ect0
  {
    assert Copy([again], p.number, again);
  }
}
