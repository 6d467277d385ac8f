/**
 The rate limits of src/ice/punch_scheduler.cpp, src/ice/punch_scheduler.h and
 src/ice/punch_budget.cpp: the token bucket, the budget of one round, and the
 budget all rounds of the process share.
 */
module PunchBudgets {
  import opened Common

  function MinOf(a: int, b: int): int {
    if a <= b then a else b
  }

  // ----- The token bucket -----

  /** A thousand tokens buy one packet. */
  datatype Bucket = Bucket(rate: nat, burst: nat, tokens: int, last: int)
  {
    predicate Valid() {
      0 <= tokens <= 1000 * burst
    }

    function Refilled(now: int): Bucket {
      if now < last then this
      else this.(tokens := MinOf(burst * 1000, tokens + MinOf(now - last, 1000 * burst) * rate), last := now)
    }

    predicate Grants(now: int) {
      now >= last && Refilled(now).tokens >= 1000
    }

    function Taken(now: int): Bucket {
      var b := Refilled(now);
      if Grants(now) then b.(tokens := b.tokens - 1000) else b
    }

    /** What the bucket earns up to `now`, were there no cap on the time counted. */
    function Earned(now: int): int {
      MinOf(burst * 1000, tokens + (now - last) * rate)
    }
  }

  lemma Product(a: int, b: int, c: int)
    requires 0 <= a <= b && 0 <= c
    ensures 0 <= a * c <= b * c
  {
    assert (b - a) * c >= 0;
  }

  /** Counting at most a burst's worth of seconds loses no token. */
  lemma CapIsHarmless(b: Bucket, now: int)
    requires b.Valid() && now >= b.last
    ensures b.Refilled(now).tokens == b.Earned(now) && b.Refilled(now).Valid()
  {
    var e, m := now - b.last, 1000 * b.burst;
    if e > m && b.rate >= 1 {
      Product(m, e, b.rate);
      assert m * b.rate >= m by {
        Product(1, b.rate, m);
      }
    } else if b.rate == 0 {
      assert e * b.rate == 0 && MinOf(e, m) * b.rate == 0;
    } else {
      Product(0, MinOf(e, m), b.rate);
    }
  }

  /** Asking twice at one time is asking once. */
  lemma RefilledTwice(b: Bucket, now: int)
    requires b.Valid()
    ensures b.Refilled(now).Refilled(now) == b.Refilled(now)
    ensures b.Refilled(now).Taken(now) == b.Taken(now)
    ensures b.Refilled(now).Grants(now) ==> now >= b.last || b.Refilled(now) == b
  {
    if now >= b.last {
      CapIsHarmless(b, now);
    }
  }

  /** How many of these requests are granted, one after the other. */
  function Granted(b: Bucket, times: seq<int>): nat
    decreases |times|
  {
    if times == [] then 0 else (if b.Grants(times[0]) then 1 else 0) + Granted(b.Taken(times[0]), times[1..])
  }

  /** The bucket after these requests. */
  function Spent(b: Bucket, times: seq<int>): Bucket
    decreases |times|
  {
    if times == [] then b else Spent(b.Taken(times[0]), times[1..])
  }

  lemma {:induction false} SpentValid(b: Bucket, times: seq<int>)
    requires b.Valid()
    ensures Spent(b, times).Valid() && Spent(b, times).rate == b.rate && Spent(b, times).burst == b.burst
    decreases |times|
  {
    if times != [] {
      if times[0] >= b.last {
        CapIsHarmless(b, times[0]);
      }
      SpentValid(b.Taken(times[0]), times[1..]);
    }
  }

  lemma {:induction false} OneMoreRequest(b: Bucket, times: seq<int>, now: int)
    ensures Spent(b, times + [now]) == Spent(b, times).Taken(now)
    ensures Granted(b, times + [now]) == Granted(b, times) + if Spent(b, times).Grants(now) then 1 else 0
    decreases |times|
  {
    if times == [] {
      assert [now][1..] == [];
    } else {
      OneMoreRequest(b.Taken(times[0]), times[1..], now);
      assert (times + [now])[1..] == times[1..] + [now];
    }
  }

  /** The tokens that could still be spent between `from` and `until`. */
  function Purse(b: Bucket, from: int, until: int): int {
    if b.last < from then 1000 * b.burst + (until - from) * b.rate
    else if b.last <= until then b.tokens + (until - b.last) * b.rate
    else 0
  }

  lemma {:induction false} GrantedWithin(b: Bucket, times: seq<int>, from: int, until: int)
    requires b.Valid() && from <= until && forall i :: 0 <= i < |times| ==> from <= times[i] <= until
    ensures 1000 * Granted(b, times) <= Purse(b, from, until)
    decreases |times|
  {
    if times == [] {
      Product(0, until - from, b.rate);
      if b.last <= until {
        Product(0, until - b.last, b.rate);
      }
    } else {
      var now, c := times[0], b.Taken(times[0]);
      if now >= b.last {
        CapIsHarmless(b, now);
        assert (until - b.last) * b.rate == (until - now) * b.rate + (now - b.last) * b.rate;
        Product(until - now, until - from, b.rate);
      }
      GrantedWithin(c, times[1..], from, until);
    }
  }

  /** In any interval whatever, a bucket grants at most its burst and its rate times the seconds elapsed. */
  lemma RateBound(b: Bucket, times: seq<int>, from: int, until: int)
    requires b.Valid() && from <= until && forall i :: 0 <= i < |times| ==> from <= times[i] <= until
    ensures 1000 * Granted(b, times) <= 1000 * b.burst + (until - from) * b.rate
  {
    GrantedWithin(b, times, from, until);
    if from <= b.last <= until {
      Product(until - b.last, until - from, b.rate);
    }
    Product(0, until - from, b.rate);
  }

  /** A packet is granted exactly when a thousand tokens are there or have come since, and it takes a thousand. */
  lemma GrantsExactly(b: Bucket, now: int)
    requires b.Valid()
    ensures b.Grants(now) <==> b.burst >= 1 && now >= b.last && b.tokens + (now - b.last) * b.rate >= 1000
    ensures now < b.last ==> b.Taken(now) == b
    ensures now >= b.last ==>
      b.Taken(now) == b.(last := now, tokens :=
        MinOf(1000 * b.burst, b.tokens + (now - b.last) * b.rate) - if b.Grants(now) then 1000 else 0)
  {
    if now >= b.last {
      CapIsHarmless(b, now);
    }
  }

  /** Asked so often at one time: with the tokens for it every packet is granted, up to the burst. */
  lemma {:induction false} BurstGranted(b: Bucket, now: int, n: nat)
    requires b.Valid() && now >= b.last && n <= b.burst && b.tokens + (now - b.last) * b.rate >= 1000 * n
    ensures Granted(b, seq(n, _ => now)) == n
    decreases n
  {
    if n > 0 {
      GrantsExactly(b, now);
      assert seq(n, _ => now)[1..] == seq(n - 1, _ => now);
      BurstGranted(b.Taken(now), now, n - 1);
    }
  }

  class PunchTokenBucket {
    const rate: nat
    const burst: nat
    var tokens: int
    var last: int

    function View(): Bucket
      reads this
    {
      Bucket(rate, burst, tokens, last)
    }

    constructor (rate: nat, burst: nat, now: int)
      ensures View() == Bucket(rate, burst, 1000 * burst, now) && View().Valid()
    {
      this.rate, this.burst, tokens, last := rate, burst, burst * 1000, now;
    }

    method Available(now: int) returns (ok: bool)
      requires View().Valid()
      modifies this
      ensures View() == old(View()).Refilled(now) && View().Valid() && ok == old(View()).Grants(now)
    {
      if now < last {
        return false;
      }
      CapIsHarmless(View(), now);
      var elapsed := MinOf(now - last, 1000 * burst);
      tokens := MinOf(burst * 1000, tokens + elapsed * rate);
      last := now;
      return tokens >= 1000;
    }

    method Take(now: int) returns (ok: bool)
      requires View().Valid()
      modifies this
      ensures View() == old(View()).Taken(now) && View().Valid() && ok == old(View()).Grants(now)
    {
      ok := Available(now);
      if ok {
        tokens := tokens - 1000;
      }
    }
  }

  // ----- One round -----

  /**
   The packets left for probes once the acknowledgements have their reserve: as
   much as they ask for, but no more than an eighth of the budget.
   */
  function ProbeLimit(budget: nat, ackReserve: nat): (limit: nat)
    ensures limit <= budget
    ensures var reserve := budget - limit;
      && reserve <= ackReserve && 8 * reserve <= budget
      && (reserve == ackReserve || 8 * (reserve + 1) > budget)
    ensures budget > 0 ==> limit > 0
  {
    budget - MinOf(ackReserve, budget / 8)
  }

  class PunchProbeBudget {
    const bucket: PunchTokenBucket
    const limit: nat
    const probeLimit: nat
    const maxRounds: nat
    var attempts: nat
    var probes: nat
    var round: nat
    /** Everything granted, over all attempts. */
    ghost var total: nat

    ghost predicate Valid()
      reads this, bucket
    {
      && bucket.View().Valid() && probes <= attempts <= limit && probes <= probeLimit <= limit
      && 1 <= round <= maxRounds <= 2 && total <= (round - 1) * limit + attempts
    }

    constructor (pps: nat, burst: nat, budget: nat, now: int, retry: bool, ackReserve: nat)
      ensures Valid() && fresh(bucket) && limit == budget && probeLimit == ProbeLimit(budget, ackReserve)
      ensures maxRounds == (if retry then 2 else 1) && total == 0
      ensures bucket.View() == Bucket(pps, burst, 1000 * burst, now)
    {
      bucket := new PunchTokenBucket(pps, burst, now);
      limit, probeLimit, maxRounds := budget, ProbeLimit(budget, ackReserve), if retry then 2 else 1;
      attempts, probes, round, total := 0, 0, 1, 0;
    }

    /** Over its whole life a round is granted at most two limits. */
    lemma NeverExceedsTwoLimits()
      requires Valid()
      ensures total <= 2 * limit
    {
      assert (round - 1) * limit <= limit;
    }

    /** Acknowledgements always have their reserve: probes alone cannot use up the limit. */
    lemma AcksKeepReserve()
      requires Valid() && attempts - probes < limit - probeLimit
      ensures attempts < limit
    {
    }

    method Ready(now: int, ack: bool) returns (ok: bool)
      requires Valid()
      modifies bucket
      ensures Valid()
      ensures ok == (attempts < limit && (ack || probes < probeLimit) && old(bucket.View()).Grants(now))
      ensures bucket.View() == if attempts < limit && (ack || probes < probeLimit) then old(bucket.View()).Refilled(now)
                               else old(bucket.View())
    {
      ok := attempts < limit && (ack || probes < probeLimit);
      if ok {
        ok := bucket.Available(now);
      }
    }

    /** Take: a grant costs one token, one attempt, and one probe unless it is an acknowledgement. */
    method Take(now: int, ack: bool) returns (ok: bool)
      requires Valid()
      modifies this, bucket
      ensures Valid() && round == old(round)
      ensures ok == (old(attempts) < limit && (ack || old(probes) < probeLimit) && old(bucket.View()).Grants(now))
      ensures attempts == old(attempts) + (if ok then 1 else 0) && total == old(total) + (if ok then 1 else 0)
      ensures probes == old(probes) + if ok && !ack then 1 else 0
      ensures bucket.View() == if ok then old(bucket.View()).Taken(now)
                               else if old(attempts) < limit && (ack || old(probes) < probeLimit) then old(bucket.View()).Refilled(now)
                               else old(bucket.View())
    {
      RefilledTwice(bucket.View(), now);
      ok := Ready(now, ack);
      if ok {
        ok := bucket.Take(now);
      }
      if ok {
        attempts := attempts + 1;
        total := total + 1;
        if !ack {
          probes := probes + 1;
        }
      }
    }

    /** NextAttempt: the counts start over once, the rate tokens never do. */
    method NextAttempt() returns (ok: bool)
      requires Valid()
      modifies this
      ensures Valid() && ok == (old(round) < maxRounds) && total == old(total)
      ensures ok ==> attempts == probes == 0 && round == old(round) + 1
      ensures !ok ==> attempts == old(attempts) && probes == old(probes) && round == old(round)
      ensures bucket.View() == old(bucket.View())
    {
      if round >= maxRounds {
        return false;
      }
      assert (round - 1) * limit + attempts <= round * limit;
      round := round + 1;
      attempts, probes := 0, 0;
      return true;
    }
  }

  // ----- The process -----

  datatype Waiter = Waiter(id: nat, ack: bool)

  const NO_ROUND := 0
  const LAST_ROUND := 0xFFFF_FFFF_FFFF_FFFF

  ghost predicate OneEach(waiting: seq<Waiter>) {
    forall i, j :: 0 <= i < j < |waiting| ==> waiting[i].id != waiting[j].id
  }

  /** The queue once a round has asked: it keeps its place, or joins at the end. */
  function Asked(waiting: seq<Waiter>, id: nat, ack: bool): (w: seq<Waiter>) {
    if waiting == [] then [Waiter(id, ack)]
    else if waiting[0].id == id then [Waiter(id, ack)] + waiting[1..]
    else [waiting[0]] + Asked(waiting[1..], id, ack)
  }

  /** The first acknowledgement waiting, or the length of the queue. */
  function FirstAck(waiting: seq<Waiter>): (i: nat)
    ensures i <= |waiting| && (i < |waiting| ==> waiting[i].ack)
    ensures forall j :: 0 <= j < i ==> !waiting[j].ack
  {
    if waiting == [] || waiting[0].ack then 0 else 1 + FirstAck(waiting[1..])
  }

  /** Whose turn it is: the first acknowledgement, or else the first of all. */
  function Turn(waiting: seq<Waiter>): (i: nat)
    requires waiting != []
    ensures i < |waiting| && (forall j :: 0 <= j < |waiting| && waiting[j].ack ==> waiting[i].ack && i <= j)
    ensures !waiting[i].ack ==> i == 0
  {
    if FirstAck(waiting) == |waiting| then 0 else FirstAck(waiting)
  }

  ghost predicate Waits(waiting: seq<Waiter>, id: nat) {
    exists i :: 0 <= i < |waiting| && waiting[i].id == id
  }

  lemma {:induction false} AskedWaits(waiting: seq<Waiter>, id: nat, ack: bool, other: nat)
    ensures Waits(Asked(waiting, id, ack), other) <==> other == id || Waits(waiting, other)
  {
    var w := Asked(waiting, id, ack);
    if waiting == [] {
      assert w[0].id == id;
    } else {
      HeadWaits(waiting, other);
      HeadWaits(w, other);
      if waiting[0].id != id {
        AskedWaits(waiting[1..], id, ack, other);
      }
    }
  }

  lemma HeadWaits(w: seq<Waiter>, id: nat)
    requires w != []
    ensures Waits(w, id) <==> w[0].id == id || Waits(w[1..], id)
  {
    if Waits(w, id) && w[0].id != id {
      var i :| 0 <= i < |w| && w[i].id == id;
      assert w[1..][i - 1].id == id;
    }
    if Waits(w[1..], id) {
      var i :| 0 <= i < |w[1..]| && w[1..][i].id == id;
      assert w[i + 1].id == id;
    }
  }

  /** Asking keeps one waiter a round, and nobody's place. */
  lemma {:induction false} AskedKeeps(waiting: seq<Waiter>, id: nat, ack: bool)
    requires OneEach(waiting)
    ensures var w := Asked(waiting, id, ack);
      && OneEach(w) && |waiting| <= |w| && w != []
      && forall i :: 0 <= i < |waiting| && waiting[i].id != id ==> w[i] == waiting[i]
  {
    if waiting != [] && waiting[0].id != id {
      AskedKeeps(waiting[1..], id, ack);
      var tail := Asked(waiting[1..], id, ack);
      AskedWaits(waiting[1..], id, ack, waiting[0].id);
      forall j | 0 <= j < |tail| ensures tail[j].id != waiting[0].id {
        assert tail[j].id == waiting[0].id ==> Waits(tail, waiting[0].id);
      }
    }
  }

  class PunchProcessBudget {
    var next: nat
    var active: set<nat>
    var waiting: seq<Waiter>
    const bucket: PunchTokenBucket
    /** The shared bucket at the start, the times it was asked at, and the packets granted in all. */
    ghost const first: Bucket
    ghost var asked: seq<int>
    ghost var granted: nat

    /** At most two rounds are active; only they wait, once each. */
    ghost predicate Valid()
      reads this, bucket
    {
      && bucket.View().Valid() && bucket.rate == 200 && bucket.burst == 8
      && |active| <= 2 && next <= LAST_ROUND && (forall id :: id in active ==> 1 <= id <= next)
      && OneEach(waiting) && (forall id :: Waits(waiting, id) ==> id in active)
      && first.Valid() && first.rate == 200 && first.burst == 8
      && bucket.View() == Spent(first, asked) && granted == Granted(first, asked)
    }

    /** In any stretch of requests, all rounds together are granted at most 8 packets and 200 a second. */
    lemma ProcessRate(i: nat, j: nat, from: int, until: int)
      requires Valid() && i <= j <= |asked| && from <= until && forall k :: i <= k < j ==> from <= asked[k] <= until
      ensures 1000 * Granted(Spent(first, asked[..i]), asked[i..j]) <= 8000 + 200 * (until - from)
    {
      SpentValid(first, asked[..i]);
      RateBound(Spent(first, asked[..i]), asked[i..j], from, until);
    }

    constructor (now: int)
      ensures Valid() && fresh(bucket) && active == {} && waiting == [] && bucket.View() == Bucket(200, 8, 8000, now)
    {
      next, active, waiting := 0, {}, [];
      bucket := new PunchTokenBucket(200, 8, now);
      first, asked, granted := Bucket(200, 8, 8000, now), [], 0;
    }

    /** Acquire: a number never used before, or none when two rounds are active. */
    method Acquire() returns (id: nat)
      requires Valid()
      modifies `next, `active
      ensures Valid() && (id == NO_ROUND <==> |old(active)| >= 2 || old(next) == LAST_ROUND)
      ensures id == NO_ROUND ==> active == old(active) && next == old(next)
      ensures id != NO_ROUND ==> active == old(active) + {id} && id == next == old(next) + 1
    {
      if |active| >= 2 || next == LAST_ROUND {
        return NO_ROUND;
      }
      next := next + 1;
      id := next;
      active := active + {id};
    }

    /** Release: the round is no longer active and waits for nothing. */
    method Release(id: nat)
      requires Valid()
      modifies `active, `waiting
      ensures Valid() && active == old(active) - {id} && !Waits(waiting, id)
      ensures waiting == Dropped(old(waiting), id)
    {
      SmallerActive(active, id);
      DroppedKeeps(waiting, id);
      forall other | Waits(Dropped(waiting, id), other) ensures Waits(waiting, other) && other != id {
        DroppedWaits(waiting, id, other);
      }
      DroppedWaits(waiting, id, id);
      active := active - {id};
      waiting := Dropped(waiting, id);
    }

    /**
     Take: the round asks, and is served if it is its turn and the shared
     bucket grants; then it leaves the queue.
     */
    method Take(id: nat, ack: bool, now: int) returns (ok: bool)
      requires Valid()
      modifies `waiting, `asked, `granted, bucket
      ensures Valid() && active == old(active) && granted == old(granted) + if ok then 1 else 0
      ensures id !in active ==> !ok && waiting == old(waiting) && bucket.View() == old(bucket.View()) && asked == old(asked)
      ensures id in active ==>
        var w := Asked(old(waiting), id, ack); var i := Turn(w);
        && ok == (w[i].id == id && old(bucket.View()).Grants(now))
        && waiting == (if ok then w[..i] + w[i + 1..] else w)
        && bucket.View() == (if w[i].id == id then old(bucket.View()).Taken(now) else old(bucket.View()))
        && asked == old(asked) + if w[i].id == id then [now] else []
    {
      hide Spent;
      hide Granted;
      hide Asked;
      hide Bucket.Taken;
      hide Bucket.Grants;
      if id !in active {
        return false;
      }
      ghost var was := waiting;
      waiting := Join(waiting, id, ack);
      AskedKeeps(was, id, ack);
      forall other | Waits(waiting, other) ensures other in active {
        AskedWaits(was, id, ack, other);
      }
      var i := FirstAck(waiting);
      if i == |waiting| {
        i := 0;
      }
      ok := waiting[i].id == id;
      if ok {
        OneMoreRequest(first, asked, now);
        ok := bucket.Take(now);
        asked := asked + [now];
        granted := granted + if ok then 1 else 0;
      }
      if ok {
        forall other | Waits(waiting[..i] + waiting[i + 1..], other) ensures Waits(waiting, other) {
          RestWaits(waiting, i, other);
        }
        waiting := waiting[..i] + waiting[i + 1..];
      }
    }
  }

  /** The queue without a round's waiter. */
  function Dropped(waiting: seq<Waiter>, id: nat): (w: seq<Waiter>) {
    if waiting == [] then []
    else (if waiting[0].id == id then [] else [waiting[0]]) + Dropped(waiting[1..], id)
  }

  lemma {:induction false} DroppedWaits(waiting: seq<Waiter>, id: nat, other: nat)
    ensures Waits(Dropped(waiting, id), other) <==> other != id && Waits(waiting, other)
  {
    if waiting != [] {
      DroppedWaits(waiting[1..], id, other);
      HeadWaits(waiting, other);
      if waiting[0].id != id {
        HeadWaits(Dropped(waiting, id), other);
      } else {
        assert Dropped(waiting, id) == Dropped(waiting[1..], id);
      }
    }
  }

  lemma {:induction false} DroppedKeeps(waiting: seq<Waiter>, id: nat)
    requires OneEach(waiting)
    ensures OneEach(Dropped(waiting, id))
  {
    if waiting != [] {
      DroppedKeeps(waiting[1..], id);
      DroppedWaits(waiting[1..], id, waiting[0].id);
      HeadOnce(waiting);
      NoneWaits(Dropped(waiting[1..], id), waiting[0].id);
    }
  }

  /** The others keep their order. */
  lemma {:induction false} DroppedIs(waiting: seq<Waiter>, id: nat, i: nat)
    requires OneEach(waiting) && i <= |waiting| && (if i < |waiting| then waiting[i].id == id else !Waits(waiting, id))
    ensures Dropped(waiting, id) == if i < |waiting| then waiting[..i] + waiting[i + 1..] else waiting
  {
    if waiting != [] {
      HeadWaits(waiting, id);
      if i == 0 {
        HeadOnce(waiting);
        DroppedIs(waiting[1..], id, |waiting| - 1);
      } else {
        DroppedIs(waiting[1..], id, i - 1);
      }
    }
  }

  lemma HeadOnce(waiting: seq<Waiter>)
    requires OneEach(waiting) && waiting != []
    ensures !Waits(waiting[1..], waiting[0].id)
  {
  }

  lemma NoneWaits(waiting: seq<Waiter>, id: nat)
    ensures !Waits(waiting, id) <==> forall j :: 0 <= j < |waiting| ==> waiting[j].id != id
  {
  }

  lemma RestWaits(w: seq<Waiter>, i: nat, id: nat)
    requires i < |w| && Waits(w[..i] + w[i + 1..], id)
    ensures Waits(w, id)
  {
    var r := w[..i] + w[i + 1..];
    var j :| 0 <= j < |r| && r[j].id == id;
    assert r[j] == w[if j < i then j else j + 1];
  }

  lemma SmallerActive(active: set<nat>, id: nat)
    ensures |active - {id}| <= |active|
  {
    if id !in active {
      assert active - {id} == active;
    }
  }

  lemma {:induction false} AskedFrom(waiting: seq<Waiter>, id: nat, ack: bool, i: nat)
    requires i <= |waiting| && forall j :: 0 <= j < i ==> waiting[j].id != id
    ensures i == |waiting| ==> Asked(waiting, id, ack) == waiting + [Waiter(id, ack)]
    ensures i < |waiting| && waiting[i].id == id ==> Asked(waiting, id, ack) == waiting[i := Waiter(id, ack)]
  {
    if i > 0 {
      AskedFrom(waiting[1..], id, ack, i - 1);
    }
  }

  /** Find the round's waiter and renew it, or add one at the end. */
  method Join(waiting: seq<Waiter>, id: nat, ack: bool) returns (w: seq<Waiter>)
    ensures w == Asked(waiting, id, ack)
  {
    var i := 0;
    while i < |waiting| && waiting[i].id != id
      invariant i <= |waiting| && forall j :: 0 <= j < i ==> waiting[j].id != id
    {
      i := i + 1;
    }
    AskedFrom(waiting, id, ack, i);
    w := if i == |waiting| then waiting + [Waiter(id, ack)] else waiting[i := Waiter(id, ack)];
  }

  /** An acknowledgement is served before any probe, and a probe only from the head of the queue. */
  lemma ServedInTurn(waiting: seq<Waiter>, id: nat, ack: bool)
    requires OneEach(waiting)
    ensures var w := Asked(waiting, id, ack); w[Turn(w)].id == id ==>
      (if ack then forall j :: 0 <= j < Turn(w) ==> !w[j].ack
       else (forall j :: 0 <= j < |w| ==> !w[j].ack) && (waiting == [] || waiting[0].id == id))
  {
    AskedKeeps(waiting, id, ack);
    var w := Asked(waiting, id, ack);
    if w[Turn(w)].id == id {
      AskedAck(waiting, id, ack, Turn(w));
    }
  }

  lemma {:induction false} AskedAck(waiting: seq<Waiter>, id: nat, ack: bool, i: nat)
    requires OneEach(waiting) && i < |Asked(waiting, id, ack)| && Asked(waiting, id, ack)[i].id == id
    ensures Asked(waiting, id, ack)[i].ack == ack
  {
    if waiting == [] {
    } else if waiting[0].id == id {
      AskedKeeps(waiting, id, ack);
    } else {
      AskedAck(waiting[1..], id, ack, i - 1);
    }
  }
}
