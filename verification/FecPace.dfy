/**
 The sender of src/fec/rtp_fec.cpp under the rate budget of
 src/fec/fec_adaptation_controller.cpp: what its repairs cost over a time.
 */
module FecPace {
  import opened Common
  import opened RateBudget
  import opened RsCode
  import opened RtpWire
  import opened FecTranscript
  import opened RtpSender
  import opened RtpReceiver
  import opened FecLink

  // ----- The budget -----

  /** A rate is set, and none above `most`. */
  ghost predicate InForce(s: RateState, most: nat) {
    s.Valid() && 0 <= s.rate <= most
  }

  /**
   Between the two states the budget was asked at this time, if at all.  What was
   spent is out of the credit there was and what the rate in force accrued.
   */
  ghost predicate Paid(s: RateState, r: RateState, cost: int, now: int, most: nat) {
    && InForce(r, most) && (r == s || r.last == now)
    && cost as real + r.credit <= s.credit + s.Earned(r.last)
  }

  lemma PaidNothing(s: RateState, now: int, most: nat)
    requires InForce(s, most)
    ensures Paid(s, s, 0, now, most)
  {
  }

  lemma PaidTwice(s: RateState, t: RateState, r: RateState, cost: int, more: int, now: int, most: nat)
    requires Paid(s, t, cost, now, most) && Paid(t, r, more, now, most)
    ensures Paid(s, r, cost + more, now, most)
  {
    if t != s {
      NoTime(t, r.last);
    }
    hide RateState.Earned;
  }

  /** No time, no bytes. */
  lemma NoTime(s: RateState, now: int)
    requires now == s.last
    ensures s.Earned(now) == 0.0
  {
  }

  lemma PaidStep(s: RateState, e: RateBudget.Event, most: nat)
    requires InForce(s, most) && (e.SetRate? ==> Clamp(e.bps, 0, MAX_RATE) <= most)
    ensures Paid(s, Step(s, e), if e.Consume? && s.Grants(e.bytes, e.now) then e.bytes else 0, e.now, most)
  {
    StepBalance(s, e);
    StepSets(s, e, most);
    hide Step;
    hide RateState.Earned;
  }

  lemma {:induction false} PaidAffording(s: RateState, cost: nat, now: int, wanted: nat, most: nat)
    requires InForce(s, most)
    ensures Paid(s, AfterAffording(s, cost, now, wanted), Charge(Affordable(s, cost, now, wanted), cost), now, most)
    decreases wanted
  {
    hide Paid;
    hide InForce;
    if wanted == 0 {
      PaidNothing(s, now, most);
    } else {
      var t := s.Consumed(cost, now);
      PaidStep(s, RateBudget.Consume(cost, now), most);
      PaidFacts(s, t, if s.Grants(cost, now) then cost else 0, now, most);
      if s.Grants(cost, now) {
        PaidAffording(t, cost, now, wanted - 1, most);
        var n := Affordable(t, cost, now, wanted - 1);
        PaidTwice(s, t, AfterAffording(t, cost, now, wanted - 1), cost, Charge(n, cost), now, most);
        RtpSender.OneMore(n, cost);
      }
    }
  }

  lemma PaidFacts(s: RateState, r: RateState, cost: int, now: int, most: nat)
    requires Paid(s, r, cost, now, most)
    ensures InForce(r, most)
  {
  }

  // ----- The sender -----

  /** A rate is set, and the configuration sets none above `most`. */
  ghost predicate Ready(s: Sender, most: nat) {
    InForce(s.rate, most) && Clamp(s.config.fecBps, 0, MAX_RATE) <= most
  }

  /** The repairs emitted since were paid for, at this time. */
  ghost predicate Paces(s: Sender, r: Sender, now: int, most: nat) {
    && Ready(r, most) && s.emitted <= r.emitted
    && Paid(s.rate, r.rate, TotalCost(r.emitted) - TotalCost(s.emitted), now, most)
  }

  /** The budget moved on and nothing was emitted. */
  lemma PacesQuietly(s: Sender, r: Sender, now: int, most: nat)
    requires Ready(s, most) && r.emitted == s.emitted && Clamp(r.config.fecBps, 0, MAX_RATE) <= most
    requires r.rate == s.rate || Paid(s.rate, r.rate, 0, now, most)
    ensures Paces(s, r, now, most)
  {
    hide TotalCost;
    PaidNothing(s.rate, now, most);
  }

  lemma PacesTwice(s: Sender, t: Sender, r: Sender, now: int, most: nat)
    requires Paces(s, t, now, most) && Paces(t, r, now, most)
    ensures Paces(s, r, now, most)
  {
    hide TotalCost;
    PaidTwice(s.rate, t.rate, r.rate, TotalCost(t.emitted) - TotalCost(s.emitted), TotalCost(r.emitted) - TotalCost(t.emitted), now, most);
    hide Paid;
  }

  /** What a block's repairs add to the cost of everything emitted. */
  lemma RecordedCosts(t: Sender, b: SentBlock, matrix: Matrices)
    requires Shared(matrix) && b.Valid() && t.pending != [] && b.packets == t.pending
    ensures TotalCost(t.Recorded(b, matrix).emitted) == TotalCost(t.emitted) + Charge(b.r, t.Cost())
    ensures t.emitted <= t.Recorded(b, matrix).emitted
  {
    hide RepairPacket;
    hide Codeword;
    hide TotalCost;
    hide HeaderSize;
    hide BlockSize;
    hide Consecutive;
    var packets := b.Repairs(matrix);
    forall i | 0 <= i < |packets| ensures |packets[i]| == b.WireSize() {
      RepairFields(b, i, matrix);
    }
    TotalCostAppend(t.emitted, packets, b.WireSize());
  }

  /** A flush asks the budget for every repair it emits. */
  lemma FlushedPaces(s: Sender, matrix: Matrices, repairSsrc: nat, now: int, codec: bool, most: nat)
    requires s.Valid(matrix) && repairSsrc < 0x1_0000_0000 && Ready(s, most)
    ensures Paces(s, s.Flushed(matrix, repairSsrc, now, codec), now, most)
  {
    hide AfterAffording;
    hide Affordable;
    hide Wanted;
    hide HeaderSize;
    hide BlockSize;
    hide Charge;
    hide TotalCost;
    hide Paid;
    hide SentBlock.Valid;
    hide Sender.Flushed;
    FlushedIs(s, matrix, repairSsrc, now, codec);
    assert Shared(matrix) && s.config.Valid() && s.blockConfig.Valid();
    hide Sender.Valid;
    hide Shared;
    if !s.Attempts(now) {
      PacesQuietly(s, s.(pending := []), now, most);
    } else {
      var n := s.RepairCount(now);
      var t := s.(rate := AfterAffording(s.rate, s.Cost(), now, s.RepairsWanted()));
      PaidAffording(s.rate, s.Cost(), now, s.RepairsWanted(), most);
      if n == 0 || !codec {
        PaidForNothing(s.rate, t.rate, Charge(n, s.Cost()), now, most);
        PacesQuietly(s, t.(pending := []), now, most);
      } else {
        RecordedCosts(t, s.PendingBlock(repairSsrc, n), matrix);
        PacesPaid(s, t.Recorded(s.PendingBlock(repairSsrc, n), matrix), Charge(n, s.Cost()), now, most);
      }
    }
  }

  lemma PaidForNothing(s: RateState, r: RateState, cost: nat, now: int, most: nat)
    requires Paid(s, r, cost, now, most)
    ensures Paid(s, r, 0, now, most)
  {
    hide RateState.Earned;
  }

  lemma PacesPaid(s: Sender, r: Sender, cost: nat, now: int, most: nat)
    requires Ready(s, most) && s.emitted <= r.emitted && r.config == s.config
    requires TotalCost(r.emitted) == TotalCost(s.emitted) + cost && Paid(s.rate, r.rate, cost, now, most)
    ensures Paces(s, r, now, most)
  {
    hide TotalCost;
    hide RateState.Earned;
  }

  lemma ExpiredPaces(s: Sender, matrix: Matrices, repairSsrc: nat, now: int, codec: bool, most: nat)
    requires s.Open(matrix) && repairSsrc < 0x1_0000_0000 && Ready(s, most)
    ensures Paces(s, s.Expired(matrix, repairSsrc, now, codec), now, most)
  {
    hide Sender.Valid;
    hide Sender.Flushed;
    DeadlineFree(s, matrix, -1);
    var t := s.(repairDeadlineMs := -1);
    PacesQuietly(s, t, now, most);
    if s.pending != [] && now - s.firstMs >= 20 {
      FlushedPaces(t, matrix, repairSsrc, now, codec, most);
      PacesTwice(s, t, t.Flushed(matrix, repairSsrc, now, codec), now, most);
    }
  }

  lemma AdmittedPaces(s: Sender, size: nat, now: int, most: nat)
    requires Ready(s, most)
    ensures Paces(s, s.Admitted(size, now), now, most)
  {
    hide Topped;
    hide TotalCost;
    if s.lastPacketMs < 0 && s.config.fecBps >= 0 {
      PaidStep(s.rate, RateBudget.SetRate(s.config.fecBps, now), most);
    }
    hide Paid;
    PacesQuietly(s, s.Admitted(size, now), now, most);
  }

  lemma RoomyPaces(s: Sender, matrix: Matrices, p: Packet, repairSsrc: nat, now: int, codec: bool, most: nat)
    requires s.Valid(matrix) && repairSsrc < 0x1_0000_0000 && Ready(s, most)
    ensures Paces(s, s.Roomy(matrix, p, repairSsrc, now, codec), now, most)
  {
    hide Sender.Valid;
    hide Sender.Flushed;
    hide Sender.Continues;
    hide Paces;
    PacesQuietly(s, s, now, most);
    FlushedPaces(s, matrix, repairSsrc, now, codec, most);
  }

  lemma CompletedPaces(s: Sender, matrix: Matrices, p: Packet, repairSsrc: nat, now: int, codec: bool, most: nat)
    requires s.Valid(matrix) && repairSsrc < 0x1_0000_0000 && |p| >= 12 && Ready(s, most)
    ensures Paces(s, s.Completed(matrix, p, repairSsrc, now, codec), now, most)
  {
    hide Sender.Valid;
    hide Sender.Flushed;
    hide Marker;
    hide Paces;
    PacesQuietly(s, s, now, most);
    FlushedPaces(s, matrix, repairSsrc, now, codec, most);
  }

  lemma AddedPaces(s: Sender, matrix: Matrices, p: Packet, repairSsrc: nat, now: int, isKeyframe: bool, codec: bool, most: nat)
    requires s.Open(matrix) && repairSsrc < 0x1_0000_0000 && Ready(s, most)
    ensures Paces(s, s.Added(matrix, p, repairSsrc, now, isKeyframe, codec), now, most)
  {
    hide Sender.Valid;
    hide Protectable;
    hide Ssrc;
    hide Sender.Continues;
    hide Sender.Admitted;
    hide Sender.Roomy;
    hide Sender.Completed;
    hide Paid;
    hide InForce;
    hide TotalCost;
    DeadlineFree(s, matrix, -1);
    var t := s.(repairDeadlineMs := -1);
    if !Takes(p, repairSsrc) || s.config.Off() {
      PacesQuietly(s, t.Refused(p), now, most);
    } else {
      PacesQuietly(s, t, now, most);
      AdmittedKeeps(t, matrix, |p|, now);
      AdmittedPaces(t, |p|, now, most);
      AdmittedFrame(t, |p|, now);
      var a := t.Admitted(|p|, now);
      RoomyKeeps(a, matrix, p, repairSsrc, now, codec);
      RoomyPaces(a, matrix, p, repairSsrc, now, codec, most);
      var b := a.Roomy(matrix, p, repairSsrc, now, codec);
      AppendedKeeps(b, matrix, p, now, isKeyframe);
      var c := b.Appended(p, now, isKeyframe);
      PacesQuietly(b, c, now, most);
      ProtectableSize(p);
      CompletedPaces(c, matrix, p, repairSsrc, now, codec, most);
      PacesTwice(s, t, a, now, most);
      PacesTwice(s, a, b, now, most);
      PacesTwice(s, b, c, now, most);
      PacesTwice(s, c, c.Completed(matrix, p, repairSsrc, now, codec), now, most);
    }
  }

  lemma ConfiguredPaces(s: Sender, c: Protection, now: int, most: nat)
    requires s.config.Valid() && 0.0 <= s.credit && Ready(s, most) && Clamp(c.fecBps, 0, MAX_RATE) <= most
    ensures Paces(s, s.Configured(c, now), now, most)
  {
    hide Scaled;
    hide TotalCost;
    if c.version >= s.config.version && Clamped(c).fecBps >= 0 {
      PaidStep(s.rate, RateBudget.SetRate(Clamped(c).fecBps, now), most);
    }
    hide Paid;
    PacesQuietly(s, s.Configured(c, now), now, most);
  }

  // ----- Every run of the link -----

  /** No reset, and no rate above `most` asked for. */
  ghost predicate Steady(events: seq<FecLink.Event>, most: nat) {
    forall k :: 0 <= k < |events| ==> !events[k].Forget? && (events[k].Protect? ==> Clamp(events[k].config.fecBps, 0, MAX_RATE) <= most)
  }

  /** When the sender is called, if the event is a call of it that reads the time. */
  function Called(e: FecLink.Event): Option<int> {
    match e
    case Send(_, _, now, _) => Some(now)
    case Flush(now, _) => Some(now)
    case Protect(_, now) => Some(now)
    case _ => None
  }

  function CalledAt(e: FecLink.Event, otherwise: int): int {
    if Called(e).Some? then Called(e).value else otherwise
  }

  lemma StepPaces(x: Setup, e: FecLink.Event, w: World, v: World, most: nat)
    requires x.Valid() && Happens(x, e, w, v) && Ready(w.sender, most) && Steady([e], most)
    ensures Paces(w.sender, v.sender, CalledAt(e, w.sender.rate.last), most)
  {
    assert [e][0] == e;
    hide Shared;
    hide Sender.Open;
    hide Sender.Added;
    hide Sender.Expired;
    hide Sender.Configured;
    hide Hears;
    hide Paces;
    hide InForce;
    match e {
      case Send(p, isKeyframe, now, codec) =>
        AddedPaces(w.sender, x.matrix, p, x.repairSsrc, now, isKeyframe, codec, most);
      case Flush(now, codec) =>
        ExpiredPaces(w.sender, x.matrix, x.repairSsrc, now, codec, most);
      case Protect(config, now) =>
        ConfiguredPaces(w.sender, config, now, most);
      case Deliver(_, _, _) =>
        PacesQuietly(w.sender, w.sender, w.sender.rate.last, most);
    }
  }

  /** The bytes the rates in force accrue from event `i` to event `m`: at each event, by the rate set before it. */
  function Accrued(run: seq<World>, i: nat, m: nat): real
    requires i <= m < |run|
  {
    if m == i then 0.0 else Accrued(run, i, m - 1) + run[m - 1].sender.rate.Earned(run[m].sender.rate.last)
  }

  /** From event `i` to event `m` the repairs cost no more than the credit there was and what the rates in force accrued. */
  ghost predicate Balances(run: seq<World>, i: nat, m: nat, most: nat)
    requires i <= m < |run|
  {
    var s, r := run[i].sender, run[m].sender;
    && Ready(r, most) && s.emitted <= r.emitted
    && (TotalCost(r.emitted) - TotalCost(s.emitted)) as real + r.rate.credit <= s.rate.credit + Accrued(run, i, m)
  }

  /** A stretch of a run: a rate is set, and from then on there is no reset and no rate above `most`. */
  ghost predicate Going(x: Setup, script: seq<FecLink.Event>, run: seq<World>, i: nat, most: nat) {
    && x.Valid() && IsRun(x, script, run) && |run| == |script| + 1 && i <= |script|
    && Ready(run[i].sender, most) && Steady(script[i..], most)
  }

  lemma {:induction false} RunBalances(x: Setup, script: seq<FecLink.Event>, run: seq<World>, i: nat, m: nat, most: nat)
    requires Going(x, script, run, i, most) && |run| == |script| + 1 && i <= m <= |script|
    ensures Balances(run, i, m, most)
    decreases m
  {
    hide Going;
    hide Balances;
    if i == m {
      BalancesFirst(x, script, run, i, most);
    } else {
      RunBalances(x, script, run, i, m - 1, most);
      BalancesNext(x, script, run, i, m - 1, most);
    }
  }

  lemma BalancesFirst(x: Setup, script: seq<FecLink.Event>, run: seq<World>, i: nat, most: nat)
    requires Going(x, script, run, i, most)
    ensures Balances(run, i, i, most)
  {
    hide IsRun;
    hide Steady;
    hide TotalCost;
  }

  lemma BalancesNext(x: Setup, script: seq<FecLink.Event>, run: seq<World>, i: nat, m: nat, most: nat)
    requires Going(x, script, run, i, most) && |run| == |script| + 1 && i <= m < |script| && Balances(run, i, m, most)
    ensures Balances(run, i, m + 1, most)
  {
    hide IsRun;
    hide Happens;
    hide Ready;
    hide Steady;
    hide Linked;
    hide Paces;
    SteadyAt(script, i, m, most);
    RunStepAt(x, script, run, m);
    BalancesReady(run, i, m, most);
    hide Balances;
    StepPaces(x, script[m], run[m], run[m + 1], most);
    PacesBalances(run, i, m + 1, CalledAt(script[m], run[m].sender.rate.last), most);
  }

  lemma PacesBalances(run: seq<World>, i: nat, m: nat, now: int, most: nat)
    requires i < m < |run| && Balances(run, i, m - 1, most) && Paces(run[m - 1].sender, run[m].sender, now, most)
    ensures Balances(run, i, m, most)
  {
    hide TotalCost;
    hide InForce;
    hide RateState.Earned;
  }

  lemma {:induction false} TotalCostSplits(a: seq<Packet>, b: seq<Packet>)
    ensures TotalCost(a + b) == TotalCost(a) + TotalCost(b)
  {
    if b == [] {
      assert a + b == a;
    } else {
      var n := |b| - 1;
      TotalCostSplits(a, b[..n]);
      assert (a + b)[..|a + b| - 1] == a + b[..n];
    }
  }

  /**
   Whatever a link has been through and in whatever order of times, once a rate is
   set and until the sender is reset, the repairs it emits cost no more, with 64
   bytes of overhead each, than a burst of 4800 bytes and what the rates in force
   accrue.
   */
  lemma RepairsPaid(x: Setup, script: seq<FecLink.Event>, run: seq<World>, i: nat)
    requires x.Valid() && IsRun(x, script, run) && i <= |script| && |run| == |script| + 1
    requires run[i].sender.rate.Valid() && 0 <= run[i].sender.rate.rate
    requires forall k :: i <= k < |script| ==> !script[k].Forget?
    ensures run[i].sender.emitted <= run[|script|].sender.emitted
    ensures TotalCost(run[|script|].sender.emitted[|run[i].sender.emitted|..]) as real <= 4800.0 + Accrued(run, i, |script|)
  {
    hide IsRun;
    hide TotalCost;
    hide Accrued;
    var s, r := run[i].sender, run[|script|].sender;
    assert forall k :: 0 <= k < |script[i..]| ==> script[i..][k] == script[i + k];
    assert Going(x, script, run, i, MAX_RATE);
    RunBalances(x, script, run, i, |script|, MAX_RATE);
    var more := r.emitted[|s.emitted|..];
    TotalCostSplits(s.emitted, more);
    assert s.emitted + more == r.emitted;
  }

  // ----- In order of time -----

  /** When the sender was last called. */
  function Latest(from: int, events: seq<FecLink.Event>): int {
    if events == [] then from
    else
      var n := |events| - 1;
      CalledAt(events[n], Latest(from, events[..n]))
  }

  /** The sender is called in order of time. */
  ghost predicate Orderly(from: int, events: seq<FecLink.Event>) {
    events == [] ||
    var n := |events| - 1;
    Orderly(from, events[..n]) && (Called(events[n]).Some? ==> Latest(from, events[..n]) <= Called(events[n]).value)
  }

  /** Until event `m` the rates in force accrue no more than the greatest does. */
  ghost predicate Bounded(script: seq<FecLink.Event>, run: seq<World>, i: nat, m: nat, most: nat)
    requires |run| == |script| + 1 && i <= m <= |script|
  {
    var from, last := run[i].sender.rate.last, run[m].sender.rate.last;
    last <= Latest(from, script[i..m]) && Accrued(run, i, m) <= Yield(most, last - from)
  }

  lemma {:induction false} AccruedInTime(x: Setup, script: seq<FecLink.Event>, run: seq<World>, i: nat, m: nat, most: nat)
    requires Going(x, script, run, i, most) && |run| == |script| + 1 && i <= m <= |script|
    requires Orderly(run[i].sender.rate.last, script[i..m])
    ensures Bounded(script, run, i, m, most)
    decreases m
  {
    hide Going;
    hide Orderly;
    hide Bounded;
    if i == m {
      BoundedFirst(script, run, i, most);
    } else {
      OrderlyStep(run[i].sender.rate.last, script, i, m - 1);
      AccruedInTime(x, script, run, i, m - 1, most);
      BoundedNext(x, script, run, i, m - 1, most);
    }
  }

  lemma BoundedFirst(script: seq<FecLink.Event>, run: seq<World>, i: nat, most: nat)
    requires |run| == |script| + 1 && i <= |script|
    ensures Bounded(script, run, i, i, most)
  {
    YieldNothing(most);
    LatestNone(run[i].sender.rate.last, script, i);
  }

  lemma BoundedNext(x: Setup, script: seq<FecLink.Event>, run: seq<World>, i: nat, m: nat, most: nat)
    requires Going(x, script, run, i, most) && |run| == |script| + 1 && i <= m < |script|
    requires Orderly(run[i].sender.rate.last, script[i..m + 1]) && Bounded(script, run, i, m, most)
    ensures Bounded(script, run, i, m + 1, most)
  {
    hide IsRun;
    hide Happens;
    hide Ready;
    hide Steady;
    hide Orderly;
    hide Latest;
    hide Balances;
    hide Yield;
    hide RateState.Earned;
    hide Linked;
    hide Paces;
    var from, w, v, e := run[i].sender.rate.last, run[m].sender, run[m + 1].sender, script[m];
    OrderlyStep(from, script, i, m);
    SteadyAt(script, i, m, most);
    RunBalances(x, script, run, i, m, most);
    RunStepAt(x, script, run, m);
    BalancesReady(run, i, m, most);
    StepPaces(x, e, run[m], run[m + 1], most);
    StepInTime(w, v, e, from, Latest(from, script[i..m]), Accrued(run, i, m), most);
  }

  lemma StepInTime(s: Sender, r: Sender, e: FecLink.Event, from: int, last: int, accrued: real, most: nat)
    requires Ready(s, most) && Paces(s, r, CalledAt(e, s.rate.last), most) && s.rate.last <= last
    requires (Called(e).Some? ==> last <= Called(e).value) && accrued <= Yield(most, s.rate.last - from)
    ensures r.rate.last <= CalledAt(e, last) && accrued + s.rate.Earned(r.rate.last) <= Yield(most, r.rate.last - from)
  {
    hide TotalCost;
    EarnedAtMost(s.rate, r.rate.last, most);
    YieldAdds(most, s.rate.last - from, r.rate.last - s.rate.last);
    hide Yield;
    hide RateState.Earned;
  }

  lemma BalancesReady(run: seq<World>, i: nat, m: nat, most: nat)
    requires i <= m < |run| && Balances(run, i, m, most)
    ensures Ready(run[m].sender, most)
  {
    hide Ready;
    hide TotalCost;
    hide Accrued;
  }

  lemma SteadyAt(script: seq<FecLink.Event>, i: nat, m: nat, most: nat)
    requires i <= m < |script| && Steady(script[i..], most)
    ensures Steady([script[m]], most)
  {
    assert script[i..][m - i] == script[m];
  }

  lemma LatestNone(from: int, script: seq<FecLink.Event>, i: nat)
    requires i <= |script|
    ensures Latest(from, script[i..i]) == from
  {
  }

  lemma OrderlyStep(from: int, script: seq<FecLink.Event>, i: nat, m: nat)
    requires i <= m < |script| && Orderly(from, script[i..m + 1])
    ensures Orderly(from, script[i..m]) && Latest(from, script[i..m + 1]) == CalledAt(script[m], Latest(from, script[i..m]))
    ensures Called(script[m]).Some? ==> Latest(from, script[i..m]) <= Called(script[m]).value
  {
    assert script[i..m + 1][..m - i] == script[i..m];
  }

  lemma YieldNothing(rate: nat)
    ensures Yield(rate, 0) == 0.0
  {
  }

  /** So in order of time that is at most what the greatest rate yields over the time. */
  lemma RepairsInTime(x: Setup, script: seq<FecLink.Event>, run: seq<World>, i: nat, most: nat)
    requires Going(x, script, run, i, most) && Orderly(run[i].sender.rate.last, script[i..])
    ensures run[i].sender.emitted <= run[|script|].sender.emitted
    ensures var s, r := run[i].sender, run[|script|].sender;
      TotalCost(r.emitted[|s.emitted|..]) as real <= 4800.0 + Yield(most, Latest(s.rate.last, script[i..]) - s.rate.last)
  {
    hide IsRun;
    hide Orderly;
    hide Latest;
    hide TotalCost;
    hide Accrued;
    var s, r, n := run[i].sender, run[|script|].sender, |script|;
    assert script[i..n] == script[i..];
    assert forall k :: i <= k < n ==> script[k] == script[i..][k - i];
    RepairsPaid(x, script, run, i);
    AccruedInTime(x, script, run, i, n, most);
    YieldGrows(most, r.rate.last - s.rate.last, Latest(s.rate.last, script[i..]) - s.rate.last);
    hide Yield;
  }

  lemma YieldGrows(rate: nat, a: int, b: int)
    requires a <= b
    ensures Yield(rate, a) <= Yield(rate, b)
  {
    assert (b - a) as real * rate as real >= 0.0;
    assert b as real * rate as real == a as real * rate as real + (b - a) as real * rate as real;
  }
}
