/**
 FecRateBudget of src/fec/fec_adaptation_controller.cpp: a time-based byte
 budget for repairs.  Times are milliseconds, credit is in bytes.
 */
module RateBudget {

  const MAX_CREDIT := 4800.0
  const MAX_RATE := 1000000000

  function Min(a: real, b: real): real {
    if a <= b then a else b
  }

  function Clamp(x: int, lo: int, hi: int): int
    requires lo <= hi
  {
    if x < lo then lo else if x > hi then hi else x
  }

  /** Credit in proportion to a lower rate. */
  function Share(x: real, a: int, b: int): (y: real)
    requires 0 < b
    ensures 0.0 <= x && 0 <= a <= b ==> 0.0 <= y <= x
  {
    var f := a as real / b as real;
    assert 0 <= a <= b ==> 0.0 <= f <= 1.0;
    assert 0.0 <= x && 0.0 <= f <= 1.0 ==> 0.0 <= x * f <= x * 1.0;
    x * f
  }

  /** The fields of the object; a negative rate or time means "never set". */
  datatype RateState = RateState(rate: int, last: int, credit: real)
  {
    predicate Valid() {
      0.0 <= credit <= MAX_CREDIT && -1 <= rate <= MAX_RATE
    }

    /** Bytes that accrue between the last update and `now`. */
    function Earned(now: int): (e: real)
      ensures e >= 0.0
      ensures last >= 0 && now >= last && rate > 0 ==> e <= (now - last) as real * rate as real / 8000.0
    {
      if last >= 0 && now >= last && rate > 0 then
        var elapsed := if now - last < 1000 then now - last else 1000;
        assert elapsed as real * rate as real <= (now - last) as real * rate as real;
        elapsed as real * rate as real / 8000.0
      else 0.0
    }

    function Refilled(now: int): RateState {
      RateState(rate, now, if now < last then 0.0 else if last >= 0 && rate > 0 then Min(MAX_CREDIT, credit + Earned(now)) else credit)
    }

    function WithRate(bps: int, now: int): RateState {
      var s := Refilled(now);
      var b := Clamp(bps, 0, MAX_RATE);
      RateState(b, now,
        if b == 0 then 0.0
        else if s.rate > 0 && b < s.rate then Share(s.credit, b, s.rate)
        else s.credit)
    }

    predicate Grants(bytes: nat, now: int) {
      rate < 0 || bytes as real <= Refilled(now).credit
    }

    function Consumed(bytes: nat, now: int): RateState {
      if rate < 0 then this
      else if Grants(bytes, now) then Refilled(now).(credit := Refilled(now).credit - bytes as real)
      else Refilled(now)
    }
  }

  class FecRateBudget {
    var rate: int
    var last: int
    var credit: real

    function View(): RateState
      reads this
    {
      RateState(rate, last, credit)
    }

    constructor ()
      ensures View() == RateState(-1, -1, 0.0)
    {
      rate, last, credit := -1, -1, 0.0;
    }

    /** Back to the state of a new object. */
    method Clear()
      modifies this
      ensures View() == RateState(-1, -1, 0.0)
    {
      rate, last, credit := -1, -1, 0.0;
    }

    method Refill(now: int)
      modifies this
      ensures View() == old(View()).Refilled(now)
    {
      if last >= 0 && now >= last && rate > 0 {
        var elapsed := if now - last < 1000 then now - last else 1000;
        credit := Min(MAX_CREDIT, credit + elapsed as real * rate as real / 8000.0);
      }
      if now < last {
        credit := 0.0;
      }
      last := now;
    }

    method SetRate(bps: int, now: int)
      modifies this
      ensures View() == old(View()).WithRate(bps, now)
    {
      Refill(now);
      var b := Clamp(bps, 0, MAX_RATE);
      if rate > 0 && b < rate {
        credit := Share(credit, b, rate);
      }
      if b == 0 {
        credit := 0.0;
      }
      rate := b;
    }

    method Consume(bytes: nat, now: int) returns (ok: bool)
      modifies this
      ensures ok == old(View()).Grants(bytes, now)
      ensures View() == old(View()).Consumed(bytes, now)
    {
      if rate < 0 {
        return true;
      }
      Refill(now);
      if bytes as real > credit {
        return false;
      }
      credit := credit - bytes as real;
      ok := true;
    }
  }

  // ----- Every run -----

  datatype Event = SetRate(bps: int, now: int) | Consume(bytes: nat, now: int)

  function Step(s: RateState, e: Event): RateState {
    match e
    case SetRate(bps, now) => s.WithRate(bps, now)
    case Consume(bytes, now) => s.Consumed(bytes, now)
  }

  function Run(s: RateState, events: seq<Event>): RateState
    decreases |events|
  {
    if events == [] then s else Run(Step(s, events[0]), events[1..])
  }

  /** Bytes granted over a run. */
  function Granted(s: RateState, events: seq<Event>): nat
    decreases |events|
  {
    if events == [] then 0 else
      (if events[0].Consume? && s.Grants(events[0].bytes, events[0].now) then events[0].bytes else 0)
      + Granted(Step(s, events[0]), events[1..])
  }

  /** The rate integrated over the run. */
  function Accrued(s: RateState, events: seq<Event>): (e: real)
    ensures e >= 0.0
    decreases |events|
  {
    if events == [] then 0.0 else s.Earned(events[0].now) + Accrued(Step(s, events[0]), events[1..])
  }

  /** One step never creates credit beyond what accrued, and spends what it grants. */
  lemma StepBalance(s: RateState, e: Event)
    requires s.Valid()
    ensures Step(s, e).Valid()
    ensures s.rate >= 0 ==> Step(s, e).rate >= 0
    ensures s.rate >= 0 ==>
      (if e.Consume? && s.Grants(e.bytes, e.now) then e.bytes else 0) as real + Step(s, e).credit <= s.credit + s.Earned(e.now)
  {
    match e {
      case SetRate(bps, now) =>
        SetBalance(s, bps, now);
        hide RateState.WithRate;
        hide RateState.Earned;
      case Consume(bytes, now) =>
        RefillBalance(s, now);
        hide RateState.Refilled;
        hide RateState.Earned;
    }
  }

  lemma SetBalance(s: RateState, bps: int, now: int)
    requires s.Valid()
    ensures var w := s.WithRate(bps, now); w.Valid() && w.rate >= 0 && w.credit <= s.credit + s.Earned(now)
  {
    RefillBalance(s, now);
    hide RateState.Refilled;
    hide RateState.Earned;
    hide Share;
  }

  lemma RefillBalance(s: RateState, now: int)
    requires s.Valid()
    ensures var r := s.Refilled(now);
      r.Valid() && r.rate == s.rate && r.last == now && r.credit <= s.credit + s.Earned(now)
  {
    var earned := s.Earned(now);
    hide RateState.Earned;
  }

  /**
   From any state with a rate set, the bytes granted over a run are at most the
   burst of 4800 plus the rate integrated over the run.
   */
  lemma {:induction false} GrantedBound(s: RateState, events: seq<Event>)
    requires s.Valid() && s.rate >= 0
    ensures Run(s, events).Valid()
    ensures Granted(s, events) as real + Run(s, events).credit <= s.credit + Accrued(s, events)
    ensures Granted(s, events) as real <= MAX_CREDIT + Accrued(s, events)
    decreases |events|
  {
    if events != [] {
      StepBalance(s, events[0]);
      GrantedBound(Step(s, events[0]), events[1..]);
    }
  }

  // ----- In order of time -----

  /** Bytes a rate yields in so many milliseconds. */
  function Yield(rate: nat, elapsed: int): real {
    elapsed as real * rate as real / 8000.0
  }

  /** The events happen one after the other, the first not before `from`. */
  ghost predicate Timely(from: int, events: seq<Event>)
    decreases |events|
  {
    events == [] || (from <= events[0].now && Timely(events[0].now, events[1..]))
  }

  /** No event sets a rate above this. */
  ghost predicate Capped(events: seq<Event>, most: nat) {
    forall i :: 0 <= i < |events| && events[i].SetRate? ==> Clamp(events[i].bps, 0, MAX_RATE) <= most
  }

  function End(from: int, events: seq<Event>): int {
    if events == [] then from else events[|events| - 1].now
  }

  lemma YieldAdds(rate: nat, a: int, b: int)
    ensures Yield(rate, a) + Yield(rate, b) == Yield(rate, a + b)
  {
    assert (a + b) as real * rate as real == a as real * rate as real + b as real * rate as real;
  }

  lemma EarnedAtMost(s: RateState, now: int, most: nat)
    requires s.rate <= most && s.last <= now
    ensures s.Earned(now) <= Yield(most, now - s.last)
  {
    if s.rate > 0 && s.last >= 0 {
      var t := (now - s.last) as real;
      assert t * (most as real - s.rate as real) >= 0.0;
      assert t * most as real == t * s.rate as real + t * (most as real - s.rate as real);
    } else {
      assert (now - s.last) as real * most as real >= 0.0;
    }
  }

  lemma {:induction false} AccruedAtMost(s: RateState, events: seq<Event>, most: nat)
    requires s.Valid() && 0 <= s.rate <= most && 0 <= s.last && Timely(s.last, events) && Capped(events, most)
    ensures Accrued(s, events) <= Yield(most, End(s.last, events) - s.last)
    decreases |events|
  {
    if events != [] {
      var n := Step(s, events[0]);
      StepBalance(s, events[0]);
      EarnedAtMost(s, events[0].now, most);
      StepSets(s, events[0], most);
      assert End(s.last, events) == End(n.last, events[1..]);
      AccruedAtMost(n, events[1..], most);
      YieldAdds(most, events[0].now - s.last, End(s.last, events) - events[0].now);
    }
  }

  lemma StepSets(s: RateState, e: Event, most: nat)
    requires 0 <= s.rate <= most && (e.SetRate? ==> Clamp(e.bps, 0, MAX_RATE) <= most)
    ensures Step(s, e).last == e.now && 0 <= Step(s, e).rate <= most
  {
  }

  /** Over any time in order, what is granted is within the burst and the greatest rate times the time. */
  lemma GrantedInTime(s: RateState, events: seq<Event>, most: nat)
    requires s.Valid() && 0 <= s.rate <= most && 0 <= s.last && Timely(s.last, events) && Capped(events, most)
    ensures Granted(s, events) as real <= MAX_CREDIT + Yield(most, End(s.last, events) - s.last)
  {
    GrantedBound(s, events);
    AccruedAtMost(s, events, most);
  }

  // ----- What accrues -----

  /** Requests one after the other, no two of them more than a second apart. */
  ghost predicate Steady(from: int, events: seq<Event>)
    decreases |events|
  {
    events == [] || (events[0].Consume? && from <= events[0].now <= from + 1000 && Steady(events[0].now, events[1..]))
  }

  lemma YieldPositive(rate: nat, elapsed: nat)
    ensures 0.0 <= Yield(rate, elapsed)
  {
  }

  lemma CapTwice(credit: real, x: real, y: real)
    requires 0.0 <= y
    ensures Min(4800.0, Min(4800.0, credit + x) + y) == Min(4800.0, credit + x + y)
  {
  }

  lemma RequestAccrues(s: RateState, bytes: nat, now: int)
    requires s.Valid() && 0 <= s.rate && 0 <= s.last <= now <= s.last + 1000
    ensures s.Grants(bytes, now) <==> bytes as real <= Min(4800.0, s.credit + Yield(s.rate, now - s.last))
    ensures var n := s.Consumed(bytes, now);
      && n.rate == s.rate && n.last == now
      && (bytes == 0 || !s.Grants(bytes, now) ==> n.credit == Min(4800.0, s.credit + Yield(s.rate, now - s.last)))
  {
    assert Yield(s.rate, now - s.last) >= 0.0;
    assert s.rate == 0 ==> Yield(s.rate, now - s.last) == 0.0;
  }

  /** While nothing is granted the credit grows at an eighth of the rate a second, up to the burst. */
  lemma {:induction false} CreditAccrues(s: RateState, events: seq<Event>)
    requires s.Valid() && 0 <= s.rate && 0 <= s.last && Steady(s.last, events) && Granted(s, events) == 0
    ensures var n := Run(s, events);
      && n.rate == s.rate && n.last == End(s.last, events) >= s.last
      && n.credit == Min(4800.0, s.credit + Yield(s.rate, n.last - s.last))
    decreases |events|
  {
    if events == [] {
      assert Yield(s.rate, 0) == 0.0;
    } else {
      var e := events[0];
      var t := Step(s, e);
      StepBalance(s, e);
      RequestAccrues(s, e.bytes, e.now);
      hide RateState.Consumed;
      hide RateState.Grants;
      hide RateState.Valid;
      hide RateState.Earned;
      hide Yield;
      hide Min;
      assert End(s.last, events) == End(t.last, events[1..]);
      CreditAccrues(t, events[1..]);
      var end := End(s.last, events);
      YieldAdds(s.rate, e.now - s.last, end - e.now);
      YieldPositive(s.rate, end - e.now);
      CapTwice(s.credit, Yield(s.rate, e.now - s.last), Yield(s.rate, end - e.now));
    }
  }

  /**
   After requests that were granted nothing, the next is granted exactly when
   its bytes are within the burst and within what was there and has accrued.
   */
  lemma GrantedOnceAccrued(s: RateState, events: seq<Event>, bytes: nat, now: int)
    requires s.Valid() && 0 <= s.rate && 0 <= s.last && Steady(s.last, events) && Granted(s, events) == 0
    requires End(s.last, events) <= now <= End(s.last, events) + 1000
    ensures Run(s, events).Grants(bytes, now) <==>
      bytes as real <= 4800.0 && bytes as real <= s.credit + Yield(s.rate, now - s.last)
  {
    CreditAccrues(s, events);
    GrantedBound(s, events);
    var n := Run(s, events);
    RequestAccrues(n, bytes, now);
    YieldAdds(s.rate, n.last - s.last, now - n.last);
    hide RateState.Grants;
    hide RateState.Earned;
    hide Granted;
    hide Accrued;
    hide Steady;
    hide Run;
    YieldPositive(s.rate, now - n.last);
    hide Yield;
    CapTwice(s.credit, Yield(s.rate, n.last - s.last), Yield(s.rate, now - n.last));
  }

  /** However long nobody asked, one request accrues a second at most; and time running backwards forfeits the credit. */
  lemma LongPause(s: RateState, bytes: nat, now: int)
    requires s.Valid() && 0 <= s.rate && 0 <= s.last
    ensures now > s.last + 1000 ==> (s.Grants(bytes, now) <==> s.Grants(bytes, s.last + 1000))
    ensures now > s.last + 1000 ==> s.Consumed(bytes, now).credit == s.Consumed(bytes, s.last + 1000).credit
    ensures now < s.last ==> (s.Grants(bytes, now) <==> bytes == 0) && s.Consumed(bytes, now).credit == 0.0
  {
  }

  /** A new rate: what accrued under the old one is kept, in proportion when the rate falls, and lost when it is zero. */
  lemma RateSet(s: RateState, bps: int, now: int)
    requires s.Valid()
    ensures var w := s.WithRate(bps, now);
      var left := s.Refilled(now).credit;
      && w.last == now && 0 <= w.rate <= 1000000000
      && (0 <= bps <= 1000000000 ==> w.rate == bps)
      && (bps < 0 ==> w.rate == 0) && (bps > 1000000000 ==> w.rate == 1000000000)
      && (w.rate == 0 ==> w.credit == 0.0)
      && (0 < w.rate < s.rate ==> w.credit * s.rate as real == left * w.rate as real)
      && (0 < w.rate && s.rate <= w.rate ==> w.credit == left)
    ensures s.rate >= 0 ==> s.Refilled(now) == s.Consumed(0, now)
  {
    RefillBalance(s, now);
    var left := s.Refilled(now).credit;
    hide RateState.Refilled;
    var b := Clamp(bps, 0, MAX_RATE);
    if 0 < b < s.rate {
      SharePart(left, b, s.rate);
    }
  }

  lemma SharePart(x: real, a: int, b: int)
    requires 0 < b
    ensures Share(x, a, b) * b as real == x * a as real
  {
    var f := a as real / b as real;
    assert f * b as real == a as real;
    assert (x * f) * b as real == x * (f * b as real);
  }
}
