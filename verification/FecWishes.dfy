/**
 What FecAdaptationController of src/fec/fec_adaptation_controller.cpp wants, in
 terms of the updates it was given: loss, freshness, and congestion that lingers.
 */
module FecWishes {
  import opened Common
  import RateBudget
  import opened FecAdaptation

  // ----- The loss bands -----

  /** At least so many in a thousand were lost. */
  predicate Lost(n: Network, perMille: nat) {
    1000 * n.lost >= perMille * n.samples
  }

  /** How many of the five loss bands are reached. */
  function Reached(n: Network): (k: nat)
    ensures k <= 5
  {
    (if Lost(n, 5) then 1 else 0) + (if Lost(n, 15) then 1 else 0) + (if Lost(n, 30) then 1 else 0)
    + (if Lost(n, 50) then 1 else 0) + (if Lost(n, 80) then 1 else 0)
  }

  /** One step more of protection: retransmissions take long, or losses come in runs. */
  predicate Harder(n: Network) {
    n.rtt >= 100 || n.lossRun >= 3
  }

  /** Nothing bad but loss: adaptive, with at least 40 samples of fresh feedback. */
  predicate Informed(n: Network) {
    && n.samples >= 40 && 0 <= n.lastFeedback <= n.now
    && (n.now - n.lastFeedback <= 2000 || (n.now - n.lastFeedback <= 3 * n.rtt && n.now - n.lastFeedback <= 6000))
  }

  /** Congestion or an empty budget, now. */
  predicate Choked(n: Network) {
    n.congested || n.queue >= 100 || n.transport <= 0
  }

  lemma RateReaches(n: Network, perMille: nat, p: real)
    requires n.samples > 0 && p == perMille as real / 1000.0
    ensures LossRate(n) >= p <==> Lost(n, perMille)
  {
    var q, s := LossRate(n), n.samples as real;
    assert q * s == n.lost as real;
    if q >= p {
      assert (q - p) * s >= 0.0;
    } else {
      assert (p - q) * s > 0.0;
    }
    assert p * s * 1000.0 == perMille as real * s;
  }

  /**
   The wish for a loss rate: a twentieth for every band reached, and another, up
   to a quarter, if there is loss and it is harder to repair.
   */
  lemma LossWish(c: Control, n: Network)
    requires c.mode == Adaptive && Informed(n) && !Choked(n) && n.now >= c.Observed(n).congestedUntil
    ensures c.WishFor(n).ratio == RateBudget.Min(0.25, 0.05 * Reached(n) as real + if Lost(n, 5) && Harder(n) then 0.05 else 0.0)
    ensures c.WishFor(n).reason == if Lost(n, 5) then Loss else Healthy
    ensures !AtOnce(Adaptive, n, c.WishFor(n))
  {
    RateReaches(n, 5, 0.005);
    RateReaches(n, 15, 0.015);
    RateReaches(n, 30, 0.03);
    RateReaches(n, 50, 0.05);
    RateReaches(n, 80, 0.08);
    hide LossRate;
    BandsNest(n);
    hide Lost;
  }

  lemma BandsNest(n: Network)
    ensures Lost(n, 80) ==> Lost(n, 50)
    ensures Lost(n, 50) ==> Lost(n, 30)
    ensures Lost(n, 30) ==> Lost(n, 15)
    ensures Lost(n, 15) ==> Lost(n, 5)
  {
  }

  /** What is wanted is nothing exactly below half a percent, and otherwise the loss rate or a quarter at least. */
  lemma WishCovers(c: Control, n: Network)
    requires c.mode == Adaptive && Informed(n) && !Choked(n) && n.now >= c.Observed(n).congestedUntil
    ensures c.WishFor(n).ratio == 0.0 <==> 1000 * n.lost < 5 * n.samples
    ensures c.WishFor(n).ratio == 0.0 || c.WishFor(n).ratio == 0.25 || c.WishFor(n).ratio * n.samples as real >= n.lost as real
  {
    LossWish(c, n);
    BandsNest(n);
    var w, s := c.WishFor(n).ratio, n.samples as real;
    hide Control.WishFor;
    hide Informed;
    if Lost(n, 5) && w < 0.25 {
      var k := Reached(n);
      assert w >= 0.05 * k as real;
      BelowNext(n);
      AtLeast(w, 0.05 * k as real, s);
    }
  }

  lemma AtLeast(w: real, x: real, s: real)
    requires w >= x && s >= 0.0
    ensures w * s >= x * s
  {
    assert (w - x) * s >= 0.0;
  }

  /** Below the last band, the loss rate is within a twentieth for every band reached. */
  lemma BelowNext(n: Network)
    requires Lost(n, 5) && Reached(n) < 5
    ensures 0.05 * Reached(n) as real * n.samples as real >= n.lost as real
  {
    BandsNest(n);
    assert 100 * n.lost <= 5 * Reached(n) * n.samples;
  }

  /** More loss never lowers what is wanted. */
  lemma WishGrows(c: Control, n: Network, m: Network)
    requires c.mode == Adaptive && Informed(n) && !Choked(n) && n.now >= c.Observed(n).congestedUntil
    requires m.lost >= n.lost && m.lossRun >= n.lossRun && m == n.(lost := m.lost, lossRun := m.lossRun)
    ensures c.WishFor(m).ratio >= c.WishFor(n).ratio
  {
    LossWish(c, n);
    LossWish(c, m);
    hide Control.WishFor;
  }

  // ----- Congestion, over runs -----

  /** The last update before `k` that counted, if the controller has not started over since. */
  function Last(inputs: seq<Input>, k: nat): (j: Option<nat>)
    requires k <= |inputs|
    ensures j.Some? ==> j.value < k
    decreases k, 0
  {
    if k == 0 then None
    else if Counts(inputs, k - 1) then Some(k - 1)
    else Before(inputs, k - 1)
  }

  /** The same, for the update itself: none if it starts over, with a new mode or a clock run backwards. */
  function Before(inputs: seq<Input>, k: nat): (j: Option<nat>)
    requires k < |inputs|
    ensures j.Some? ==> j.value < k
    decreases k, 1
  {
    var j := Last(inputs, k);
    if j.Some? && (inputs[k].mode != inputs[k - 1].mode || inputs[k].net.now < inputs[j.value].net.now) then None else j
  }

  /** An update counts if it is urgent, the first, or 200 ms after the last that did. */
  predicate Counts(inputs: seq<Input>, k: nat)
    requires k < |inputs|
    decreases k, 2
  {
    var j := Before(inputs, k);
    Choked(inputs[k].net) || j.None? || inputs[k].net.now - inputs[j.value].net.now >= 200
  }

  /** A sign of congestion: urgency, a bit rate more than a fifth lower, or a queue past 40 ms and over 10 ms longer. */
  predicate Sign(inputs: seq<Input>, k: nat)
    requires k < |inputs|
  {
    var n, j := inputs[k].net, Before(inputs, k);
    || Choked(n)
    || (j.Some? && inputs[j.value].net.transport > 0 && 10 * (n.transport + 1) <= 8 * inputs[j.value].net.transport)
    || (n.queue >= 40 && n.queue > (if j.Some? then inputs[j.value].net.queue else 0) + 10)
  }

  /** At an update that counted, a sign less than a second ago, and no start-over since. */
  ghost predicate Lingers(inputs: seq<Input>, k: nat)
    requires k < |inputs|
  {
    Lasts(inputs, k + 1, inputs[k].net.now)
  }

  /** What the fields of the controller say of the updates so far. */
  ghost predicate Knows(c: Control, inputs: seq<Input>, j: Option<nat>)
    requires j.Some? ==> j.value < |inputs|
  {
    && (j.None? ==> c.lastUpdate == -1 && c.previousBitrate == 0 && c.previousQueue == 0 && c.lastGeneration == 0)
    && (j.Some? ==>
      var n := inputs[j.value].net;
      c.lastUpdate == n.now && c.previousBitrate == n.transport && c.previousQueue == n.queue && c.lastGeneration == n.generation)
  }

  /** A sign in the updates so far that lasts past this time. */
  ghost predicate Lasts(inputs: seq<Input>, k: nat, now: int)
    requires k <= |inputs|
  {
    exists j: nat :: j < k && Counts(inputs, j) && Sign(inputs, j) && now < inputs[j].net.now + 1000 && Steady(inputs, j, k)
  }

  /** No start-over after update `j` and before `k`. */
  ghost predicate Steady(inputs: seq<Input>, j: nat, k: nat)
    requires k <= |inputs|
  {
    forall i :: j < i < k ==> Before(inputs, i).Some?
  }

  /** The times of the updates that count grow, as long as nothing starts over. */
  lemma {:induction false} LastIsLatest(inputs: seq<Input>, j: nat, k: nat)
    requires j < k <= |inputs| && Counts(inputs, j) && Steady(inputs, j, k)
    ensures Last(inputs, k).Some? && j <= Last(inputs, k).value
    ensures inputs[j].net.now <= inputs[Last(inputs, k).value].net.now
    decreases k
  {
    if j < k - 1 {
      assert Before(inputs, k - 1).Some?;
      LastIsLatest(inputs, j, k - 1);
    }
  }

  /** The mode of the controller is that of the last update, adaptive before any. */
  lemma {:induction false} RunMode(inputs: seq<Input>, k: nat)
    requires k <= |inputs|
    ensures Run(inputs[..k]).mode == if k == 0 then Adaptive else inputs[k - 1].mode
  {
    if k > 0 {
      RunTo(inputs, k - 1);
      StepMode(Run(inputs[..k - 1]), inputs[k - 1].mode, inputs[k - 1].net);
    }
  }

  lemma StepMode(c: Control, next: Mode, n: Network)
    ensures c.Step(next, n).mode == next
  {
    hide Control.WishFor;
  }

  /** The controller holds congestion to last exactly as long as a sign does. */
  ghost predicate Tracks(until: int, inputs: seq<Input>, k: nat)
    requires k <= |inputs|
  {
    forall now :: now >= 0 ==> (Lasts(inputs, k, now) <==> now < until)
  }

  /** What the controller knows before each update. */
  lemma {:induction false} RunKnows(inputs: seq<Input>, k: nat)
    requires Clocked(inputs) && k <= |inputs|
    ensures Knows(Run(inputs[..k]), inputs, Last(inputs, k)) && Tracks(Run(inputs[..k]).congestedUntil, inputs, k)
    decreases k
  {
    hide Tracks;
    hide Knows;
    if k == 0 {
      NothingKnown(inputs);
    } else {
      RunKnows(inputs, k - 1);
      ReadyKnows(inputs, k - 1);
      StepKnows(inputs, k - 1);
      StepTracks(inputs, k - 1);
    }
  }

  lemma NothingKnown(inputs: seq<Input>)
    ensures Knows(Run(inputs[..0]), inputs, Last(inputs, 0)) && Tracks(Run(inputs[..0]).congestedUntil, inputs, 0)
  {
  }

  /** Starting over forgets. */
  lemma ReadyKnows(inputs: seq<Input>, k: nat)
    requires Clocked(inputs) && k < |inputs| && Knows(Run(inputs[..k]), inputs, Last(inputs, k))
    ensures var c := ReadyAt(inputs, k);
      && Knows(c, inputs, Before(inputs, k)) && c.mode == inputs[k].mode
      && (Before(inputs, k).Some? ==> c == Run(inputs[..k]))
      && (Before(inputs, k).None? ==> c.congestedUntil == -1 && c.ratio == 0.10)
  {
    RunMode(inputs, k);
    LastFirst(inputs, k);
    hide Run;
    hide Last;
  }

  lemma LastFirst(inputs: seq<Input>, k: nat)
    requires k <= |inputs|
    ensures Last(inputs, k).None? <==> k == 0
    ensures k == 0 ==> Run(inputs[..k]) == FRESH
  {
  }

  /** The controller at an update: too soon exactly if it does not count, and congested exactly at a sign. */
  lemma StepSees(inputs: seq<Input>, k: nat)
    requires Clocked(inputs) && k < |inputs| && Knows(ReadyAt(inputs, k), inputs, Before(inputs, k))
    ensures var c, n := ReadyAt(inputs, k), inputs[k].net;
      && (c.TooSoon(n) <==> !Counts(inputs, k))
      && (Sign(inputs, k) <==> Urgent(n) || c.Falling(n) || c.Growing(n))
  {
    var c, n := ReadyAt(inputs, k), inputs[k].net;
    hide Before;
    hide Counts;
    assert Counts(inputs, k) <==> Choked(n) || Before(inputs, k).None? || n.now - inputs[Before(inputs, k).value].net.now >= 200 by {
      CountsIs(inputs, k);
    }
    if c.previousBitrate > 0 {
      Fifth(c.previousBitrate, n.transport);
    }
    hide ReadyAt;
  }

  lemma CountsIs(inputs: seq<Input>, k: nat)
    requires k < |inputs|
    ensures var j := Before(inputs, k);
      Counts(inputs, k) <==> Choked(inputs[k].net) || j.None? || inputs[k].net.now - inputs[j.value].net.now >= 200
  {
  }

  lemma Fifth(was: int, now: int)
    requires was > 0
    ensures now < was * 8 / 10 <==> 10 * (now + 1) <= 8 * was
  {
  }

  /** One update more. */
  lemma StepKnows(inputs: seq<Input>, k: nat)
    requires Clocked(inputs) && k < |inputs| && Knows(ReadyAt(inputs, k), inputs, Before(inputs, k))
    ensures Knows(Run(inputs[..k + 1]), inputs, Last(inputs, k + 1))
  {
    RunTo(inputs, k);
    StepSees(inputs, k);
    LastNext(inputs, k);
    StepFields(Run(inputs[..k]), inputs[k].mode, inputs[k].net);
    hide Sign;
    hide Counts;
    hide Last;
    hide Before;
    hide Run;
    hide Control.Step;
    hide Control.TooSoon;
    hide Control.Falling;
    hide Control.Growing;
  }

  lemma StepTracks(inputs: seq<Input>, k: nat)
    requires Clocked(inputs) && k < |inputs| && Knows(ReadyAt(inputs, k), inputs, Before(inputs, k))
    requires Before(inputs, k).Some? ==> Tracks(ReadyAt(inputs, k).congestedUntil, inputs, k)
    requires Before(inputs, k).None? ==> ReadyAt(inputs, k).congestedUntil == -1
    ensures Tracks(Run(inputs[..k + 1]).congestedUntil, inputs, k + 1)
  {
    RunTo(inputs, k);
    StepSees(inputs, k);
    var c, n := ReadyAt(inputs, k), inputs[k].net;
    StepFields(Run(inputs[..k]), inputs[k].mode, n);
    hide Lasts;
    hide Sign;
    hide Counts;
    hide Before;
    hide Control.Step;
    hide Control.TooSoon;
    hide Control.Falling;
    hide Control.Growing;
    hide Knows;
    var next, until := k + 1, Run(inputs[..k + 1]).congestedUntil;
    forall now | now >= 0 ensures Lasts(inputs, next, now) <==> now < until {
      LastsNext(inputs, k, now);
      if Before(inputs, k).Some? && Lasts(inputs, k, now) {
        LastsEarlier(inputs, k, now);
      }
      hide Run;
    }
  }

  lemma LastNext(inputs: seq<Input>, k: nat)
    requires k < |inputs|
    ensures Last(inputs, k + 1) == if Counts(inputs, k) then Some(k) else Before(inputs, k)
  {
  }

  lemma LastsNext(inputs: seq<Input>, k: nat, now: int)
    requires k < |inputs|
    ensures Lasts(inputs, k + 1, now)
      <==> (Before(inputs, k).Some? && Lasts(inputs, k, now)) || (Counts(inputs, k) && Sign(inputs, k) && now < inputs[k].net.now + 1000)
  {
    hide Before;
    hide Counts;
    hide Sign;
    if Lasts(inputs, k + 1, now) {
      var j: nat :| j < k + 1 && Counts(inputs, j) && Sign(inputs, j) && now < inputs[j].net.now + 1000 && Steady(inputs, j, k + 1);
      if j < k {
        assert Steady(inputs, j, k);
      }
    }
    if Before(inputs, k).Some? && Lasts(inputs, k, now) {
      var j: nat :| j < k && Counts(inputs, j) && Sign(inputs, j) && now < inputs[j].net.now + 1000 && Steady(inputs, j, k);
      assert Steady(inputs, j, k + 1);
    }
    if Counts(inputs, k) && Sign(inputs, k) && now < inputs[k].net.now + 1000 {
      assert Steady(inputs, k, k + 1);
    }
  }

  /** An earlier sign is over before a later one. */
  lemma LastsEarlier(inputs: seq<Input>, k: nat, now: int)
    requires k < |inputs| && Before(inputs, k).Some? && Lasts(inputs, k, now)
    ensures now < inputs[k].net.now + 1000
  {
    var j: nat :| j < k && Counts(inputs, j) && Sign(inputs, j) && now < inputs[j].net.now + 1000 && Steady(inputs, j, k);
    hide Sign;
    LastIsLatest(inputs, j, k);
    BeforeIs(inputs, k);
    hide Before;
    hide Counts;
    hide Last;
  }

  lemma BeforeIs(inputs: seq<Input>, k: nat)
    requires k < |inputs| && Before(inputs, k).Some?
    ensures Last(inputs, k) == Before(inputs, k) && inputs[k].net.now >= inputs[Before(inputs, k).value].net.now
  {
  }

  lemma StepFields(was: Control, next: Mode, n: Network)
    ensures var c, d := was.Ready(next, n), was.Step(next, n);
      && (c.TooSoon(n) ==> d == c)
      && (!c.TooSoon(n) ==>
        && d.lastUpdate == n.now && d.previousBitrate == n.transport && d.previousQueue == n.queue
        && d.lastGeneration == n.generation && d.version == c.version + 1
        && d.congestedUntil == if Urgent(n) || c.Falling(n) || c.Growing(n) then n.now + 1000 else c.congestedUntil)
  {
    hide Control.WishFor;
    hide Control.Ready;
  }

  /** The controller at an update that counts. */
  lemma Settled(inputs: seq<Input>, k: nat)
    requires Clocked(inputs) && k < |inputs| && Counts(inputs, k)
    ensures var c, n := ReadyAt(inputs, k), inputs[k].net;
      && c.mode == inputs[k].mode && !c.TooSoon(n) && (n.now < c.Observed(n).congestedUntil <==> Lingers(inputs, k))
      && c.ratio == (if Before(inputs, k).Some? then Run(inputs[..k]).ratio else 0.10)
      && Run(inputs[..k + 1]).ratio == c.Observed(n).Followed(n, c.WishFor(n)).ratio
  {
    RunKnows(inputs, k);
    ReadyKnows(inputs, k);
    StepSees(inputs, k);
    RunKnows(inputs, k + 1);
    RunTo(inputs, k);
    StepFields(Run(inputs[..k]), inputs[k].mode, inputs[k].net);
    hide Lasts;
    hide Counts;
    hide Before;
    hide Sign;
    hide Run;
    hide Control.WishFor;
    hide Control.Ready;
  }

  /** A controller at an update that counts. */
  lemma StepWish(c: Control, n: Network)
    ensures var ratio, lingers := c.Observed(n).Followed(n, c.WishFor(n)).ratio, n.now < c.Observed(n).congestedUntil;
      && (c.mode == Off || Choked(n) ==> ratio == 0.0)
      && (c.mode != Off && !Choked(n) && lingers ==> ratio == RateBudget.Min(c.ratio, 0.05))
      && (c.mode == Fixed && !Choked(n) && !lingers ==> ratio == 0.25)
      && (c.mode == Adaptive && !Choked(n) && !lingers && !Informed(n) ==> ratio == RateBudget.Min(c.ratio, 0.10))
  {
  }

  // ----- What is decided -----

  /**
   Over every run, what an update that counts makes of the ratio there was, which
   is a tenth when the controller starts over.  Off wants nothing, and urgency
   nothing in any mode; congestion that lingers never raises it and leaves a
   twentieth at most; a fixed mode wants a quarter; without fresh and sufficient
   feedback it is not raised, and a tenth is left at most.
   */
  lemma Decides(inputs: seq<Input>, k: nat)
    requires Clocked(inputs) && k < |inputs| && Counts(inputs, k)
    ensures var was := if Before(inputs, k).Some? then Run(inputs[..k]).ratio else 0.10;
      var mode, n, ratio := inputs[k].mode, inputs[k].net, Run(inputs[..k + 1]).ratio;
      && (mode == Off || Choked(n) ==> ratio == 0.0)
      && (mode != Off && !Choked(n) && Lingers(inputs, k) ==> ratio == RateBudget.Min(was, 0.05))
      && (mode == Fixed && !Lingers(inputs, k) ==> ratio == 0.25)
      && (mode == Adaptive && !Lingers(inputs, k) && !Informed(n) ==> ratio == RateBudget.Min(was, 0.10))
  {
    Settled(inputs, k);
    var c, n := ReadyAt(inputs, k), inputs[k].net;
    if Choked(n) {
      ChokedLingers(inputs, k);
    }
    hide ReadyAt;
    StepWish(c, n);
    hide Control.Followed;
    hide Control.Observed;
    hide Lingers;
    hide Before;
  }

  /** With fresh and sufficient feedback and no congestion, what an update that counts wants is what the loss asks for. */
  lemma WantsForLoss(inputs: seq<Input>, k: nat)
    requires Clocked(inputs) && k < |inputs| && Counts(inputs, k)
    requires inputs[k].mode == Adaptive && Informed(inputs[k].net) && !Lingers(inputs, k)
    ensures var n := inputs[k].net;
      Wants(inputs, k, RateBudget.Min(0.25, 0.05 * Reached(n) as real + if Lost(n, 5) && Harder(n) then 0.05 else 0.0))
  {
    Settled(inputs, k);
    var c, n := ReadyAt(inputs, k), inputs[k].net;
    if Choked(n) {
      ChokedLingers(inputs, k);
    }
    LossWish(c, n);
    hide Control.WishFor;
    hide Control.Observed;
  }

  lemma ChokedLingers(inputs: seq<Input>, k: nat)
    requires k < |inputs| && Choked(inputs[k].net) && Counts(inputs, k)
    ensures Lingers(inputs, k)
  {
    assert Steady(inputs, k, k + 1);
  }

  /** The generation of feedback that update saw, none before any. */
  function GenerationAt(inputs: seq<Input>, j: Option<nat>): nat
    requires j.Some? ==> j.value < |inputs|
  {
    if j.Some? then inputs[j.value].net.generation else 0
  }

  /** What counts, and what is new, to the laws of hysteresis. */
  lemma Reads(inputs: seq<Input>, k: nat)
    requires Clocked(inputs) && k < |inputs|
    ensures Skipped(inputs, k) <==> !Counts(inputs, k)
    ensures var j := Before(inputs, k);
      NewFeedback(inputs, k) <==> Counts(inputs, k) && inputs[k].net.generation != GenerationAt(inputs, j)
  {
    RunKnows(inputs, k);
    ReadyKnows(inputs, k);
    StepSees(inputs, k);
    hide Counts;
    hide Before;
    hide Run;
    hide Control.TooSoon;
  }

  /** How many of the first updates counted. */
  function Counted(inputs: seq<Input>, k: nat): nat
    requires k <= |inputs|
  {
    if k == 0 then 0 else Counted(inputs, k - 1) + if Counts(inputs, k - 1) then 1 else 0
  }

  /** The version is one more for every update that counts, and a start-over keeps it. */
  lemma {:induction false} VersionCounts(inputs: seq<Input>, k: nat)
    requires Clocked(inputs) && k <= |inputs|
    ensures Run(inputs[..k]).version == Counted(inputs, k)
  {
    if k > 0 {
      VersionCounts(inputs, k - 1);
      Reads(inputs, k - 1);
      RunTo(inputs, k - 1);
      StepFields(Run(inputs[..k - 1]), inputs[k - 1].mode, inputs[k - 1].net);
      hide Counts;
      hide Run;
      hide Control.Step;
      hide Control.TooSoon;
    }
  }
}
