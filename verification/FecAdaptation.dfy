/**
 FecAdaptationController and AllocateFecBudget of
 src/fec/fec_adaptation_controller.cpp, over real arithmetic.
 */
module FecAdaptation {
  import opened Common
  import opened RateBudget

  datatype Mode = Off | Fixed | Adaptive

  datatype Decision = DecidedOff | DecidedFixed | Startup | Healthy | Loss | Congested | Stale | InsufficientSamples

  /** What the controller reads of the network. */
  datatype Network = Network(samples: nat, lost: nat, lossRun: nat, lastFeedback: int, generation: nat,
                             now: int, rtt: int, queue: int, transport: int, congested: bool)

  function Larger(a: int, b: int): int {
    if a >= b then a else b
  }

  function LossRate(n: Network): real {
    if n.samples == 0 then 0.0 else n.lost as real / n.samples as real
  }

  /** Congestion that cannot wait for the next regular update. */
  predicate Urgent(n: Network) {
    n.congested || n.queue >= 100 || n.transport <= 0
  }

  predicate Recent(n: Network) {
    0 <= n.lastFeedback <= n.now && n.now - n.lastFeedback <= Larger(2000, 3 * Clamp(n.rtt, 0, 2000))
  }

  /** The protection a loss rate asks for. */
  function Band(n: Network): (x: real)
    ensures 0.0 <= x <= 0.25
  {
    var p := LossRate(n);
    var x := if p < 0.005 then 0.0 else if p < 0.015 then 0.05 else if p < 0.03 then 0.10
             else if p < 0.05 then 0.15 else if p < 0.08 then 0.20 else 0.25;
    if p >= 0.005 && (n.rtt >= 100 || n.lossRun >= 3) then Min(0.25, x + 0.05) else x
  }

  /** What one update wants. */
  datatype Wish = Wish(ratio: real, reason: Decision)

  function Wanted(mode: Mode, n: Network, ratio: real, congestedUntil: int): (w: Wish) {
    if mode == Off then Wish(0.0, DecidedOff)
    else if Urgent(n) || n.now < congestedUntil then Wish(if Urgent(n) then 0.0 else Min(ratio, 0.05), Congested)
    else if mode == Fixed then Wish(0.25, DecidedFixed)
    else if !Recent(n) || n.samples < 40 then Wish(Min(ratio, 0.10), if !Recent(n) then Stale else InsufficientSamples)
    else Wish(Band(n), if Band(n) == 0.0 then Healthy else Loss)
  }

  /** The ratio follows at once: not adaptive, congested, or without enough fresh feedback. */
  predicate AtOnce(mode: Mode, n: Network, w: Wish) {
    mode != Adaptive || !Recent(n) || n.samples < 40 || w.reason == Congested
  }

  // ----- One update -----

  /** The fields of the controller; no candidate is -1. */
  datatype Control = Control(ratio: real, candidate: real, since: int, lastUpdate: int, previousBitrate: int,
                             previousQueue: int, congestedUntil: int, lastGeneration: nat, confirmations: nat,
                             version: nat, mode: Mode)
  {
    predicate Valid() {
      0.0 <= ratio <= 0.25
    }

    /** The controller starts over: the mode changed, or the clock ran backwards. */
    predicate Restarts(next: Mode, n: Network) {
      next != mode || (lastUpdate >= 0 && n.now < lastUpdate)
    }

    /** The controller the update works on. */
    function Ready(next: Mode, n: Network): Control {
      if Restarts(next, n) then FRESH.(mode := next, version := version) else this
    }

    /** A regular update that comes too soon changes nothing. */
    predicate TooSoon(n: Network) {
      !Urgent(n) && lastUpdate >= 0 && n.now - lastUpdate < 200
    }

    /** The bit rate dropped by more than a fifth. */
    predicate Falling(n: Network) {
      previousBitrate > 0 && n.transport < previousBitrate * 8 / 10
    }

    predicate Growing(n: Network) {
      n.queue >= 40 && n.queue > previousQueue + 10
    }

    /** Note congestion, and when it will be over. */
    function Observed(n: Network): Control {
      this.(congestedUntil := if Urgent(n) || Falling(n) || Growing(n) then n.now + 1000 else congestedUntil,
            previousBitrate := n.transport, previousQueue := n.queue, lastUpdate := n.now)
    }

    function WishFor(n: Network): Wish {
      Wanted(mode, n, ratio, Observed(n).congestedUntil)
    }

    /** One more update wants the candidate, or a new one. */
    function Voted(n: Network, desired: real): Control {
      var c := if candidate != desired then this.(candidate := desired, since := n.now, confirmations := 0) else this;
      c.(confirmations := c.confirmations + if n.generation != lastGeneration then 1 else 0)
    }

    /** Follow a wish at once, or once it is confirmed. */
    function Followed(n: Network, wish: Wish): Control {
      if AtOnce(mode, n, wish) then this.(ratio := wish.ratio, candidate := -1.0, confirmations := 0)
      else if wish.ratio == ratio then this.(candidate := -1.0, confirmations := 0)
      else
        var c := Voted(n, wish.ratio);
        if c.confirmations >= 2 && (wish.ratio > ratio || n.now - c.since >= 3000) then
          c.(ratio := wish.ratio, candidate := -1.0)
        else c
    }

    /** One update. */
    function Step(next: Mode, n: Network): Control {
      var c := Ready(next, n);
      if c.TooSoon(n) then c
      else c.Observed(n).Followed(n, c.WishFor(n)).(lastGeneration := n.generation, version := c.version + 1)
    }
  }

  const FRESH := Control(0.10, -1.0, -1, -1, 0, 0, -1, 0, 0, 0, Adaptive)

  class FecAdaptationController {
    var ratio: real
    var candidate: real
    var candidateSince: int
    var lastUpdate: int
    var previousBitrate: int
    var previousQueue: int
    var congestedUntil: int
    var lastGeneration: nat
    var confirmations: nat
    var version: nat
    var mode: Mode

    function View(): Control
      reads this
    {
      Control(ratio, candidate, candidateSince, lastUpdate, previousBitrate, previousQueue, congestedUntil,
        lastGeneration, confirmations, version, mode)
    }

    constructor ()
      ensures View() == FRESH && ratio == 0.10 && mode == Adaptive
    {
      ratio, candidate, candidateSince, lastUpdate := 0.10, -1.0, -1, -1;
      previousBitrate, previousQueue, congestedUntil := 0, 0, -1;
      lastGeneration, confirmations, version, mode := 0, 0, 0, Adaptive;
    }

    /** Reset, keeping the version. */
    method Restart(next: Mode)
      modifies this
      ensures View() == FRESH.(mode := next, version := old(version))
    {
      ratio, candidate, candidateSince, lastUpdate := 0.10, -1.0, -1, -1;
      previousBitrate, previousQueue, congestedUntil := 0, 0, -1;
      lastGeneration, confirmations, mode := 0, 0, next;
    }

    method Observe(n: Network)
      modifies `congestedUntil, `previousBitrate, `previousQueue, `lastUpdate
      ensures View() == old(View()).Observed(n)
    {
      var falling := previousBitrate > 0 && n.transport < previousBitrate * 8 / 10;
      var growing := n.queue >= 40 && n.queue > previousQueue + 10;
      if Urgent(n) || falling || growing {
        congestedUntil := n.now + 1000;
      }
      previousBitrate, previousQueue, lastUpdate := n.transport, n.queue, n.now;
    }

    method Vote(n: Network, desired: real)
      modifies `candidate, `candidateSince, `confirmations
      ensures View() == old(View()).Voted(n, desired)
    {
      if candidate != desired {
        candidate, candidateSince, confirmations := desired, n.now, 0;
      }
      if n.generation != lastGeneration {
        confirmations := confirmations + 1;
      }
    }

    method Follow(n: Network, wish: Wish)
      modifies `ratio, `candidate, `candidateSince, `confirmations
      ensures View() == old(View()).Followed(n, wish)
    {
      var desired := wish.ratio;
      if AtOnce(mode, n, wish) {
        ratio, candidate, confirmations := desired, -1.0, 0;
      } else if desired != ratio {
        Vote(n, desired);
        if (desired > ratio && confirmations >= 2)
           || (desired < ratio && n.now - candidateSince >= 3000 && confirmations >= 2) {
          ratio, candidate := desired, -1.0;
        }
      } else {
        candidate, confirmations := -1.0, 0;
      }
    }

    /** Update, as the step above. */
    method Update(next: Mode, n: Network) returns (r: real, reason: Option<Decision>)
      modifies this
      ensures View() == old(View()).Step(next, n) && r == ratio
      ensures var c := old(View()).Ready(next, n); reason == if c.TooSoon(n) then None else Some(c.WishFor(n).reason)
    {
      hide Wanted;
      if next != mode || (lastUpdate >= 0 && n.now < lastUpdate) {
        Restart(next);
      }
      if !Urgent(n) && lastUpdate >= 0 && n.now - lastUpdate < 200 {
        return ratio, None;
      }
      Observe(n);
      var wish := Wanted(mode, n, ratio, congestedUntil);
      Follow(n, wish);
      lastGeneration := n.generation;
      version := version + 1;
      return ratio, Some(wish.reason);
    }
  }

  // ----- Whole runs -----

  datatype Input = Input(mode: Mode, net: Network)

  /** The controller after any sequence of updates. */
  function Run(inputs: seq<Input>): Control {
    if inputs == [] then FRESH
    else
      var n := |inputs| - 1;
      Run(inputs[..n]).Step(inputs[n].mode, inputs[n].net)
  }

  /** The controller update `k` works on. */
  function ReadyAt(inputs: seq<Input>, k: nat): Control
    requires k < |inputs|
  {
    Run(inputs[..k]).Ready(inputs[k].mode, inputs[k].net)
  }

  /** Update `k` comes too soon to count. */
  predicate Skipped(inputs: seq<Input>, k: nat)
    requires k < |inputs|
  {
    ReadyAt(inputs, k).TooSoon(inputs[k].net)
  }

  /** The ratio update `k` wants, from fresh and sufficient feedback without congestion. */
  ghost predicate Wants(inputs: seq<Input>, k: nat, ratio: real)
    requires k < |inputs|
  {
    var c := ReadyAt(inputs, k);
    c.mode == Adaptive && c.WishFor(inputs[k].net).ratio == ratio && !AtOnce(Adaptive, inputs[k].net, c.WishFor(inputs[k].net))
  }

  /** Update `k` brings feedback the controller has not seen. */
  predicate NewFeedback(inputs: seq<Input>, k: nat)
    requires k < |inputs|
  {
    !Skipped(inputs, k) && inputs[k].net.generation != ReadyAt(inputs, k).lastGeneration
  }

  /** How many of the updates from `j` up to `i` bring new feedback. */
  function Fresh(inputs: seq<Input>, j: nat, i: nat): (n: nat)
    requires j <= i <= |inputs|
    decreases i
  {
    if i == j then 0 else Fresh(inputs, j, i - 1) + if NewFeedback(inputs, i - 1) then 1 else 0
  }

  /** From `j` up to `i` every update that counts wanted this ratio, the first of them is `j`, and none starts over after it. */
  ghost predicate Streak(inputs: seq<Input>, j: nat, i: nat, ratio: real)
    requires i <= |inputs|
  {
    && j < i && !Skipped(inputs, j)
    && (forall k :: j <= k < i && !Skipped(inputs, k) ==> Wants(inputs, k, ratio))
    && forall k :: j < k < i ==> ReadyAt(inputs, k) == Run(inputs[..k])
  }

  lemma RatioInRange(inputs: seq<Input>)
    ensures Run(inputs).Valid()
  {
    hide Wanted;
    if inputs != [] {
      var n := |inputs| - 1;
      RatioInRange(inputs[..n]);
      WishInRange(Run(inputs[..n]).Ready(inputs[n].mode, inputs[n].net), inputs[n].net);
    }
  }

  lemma WishInRange(c: Control, n: Network)
    requires c.Valid()
    ensures 0.0 <= c.WishFor(n).ratio <= 0.25
  {
  }

  /** Update `k` starts nothing over if the controller had a candidate and still knows it. */
  lemma NoRestart(inputs: seq<Input>, k: nat)
    requires k < |inputs| && ReadyAt(inputs, k).candidate != -1.0
    ensures ReadyAt(inputs, k) == Run(inputs[..k])
  {
  }

  /** One update of a prefix. */
  lemma RunTo(inputs: seq<Input>, k: nat)
    requires k < |inputs|
    ensures Run(inputs[..k + 1]) == Run(inputs[..k]).Step(inputs[k].mode, inputs[k].net)
  {
    assert inputs[..k + 1][..k] == inputs[..k];
  }

  /** A streak goes on with one more update that wants the same, or does not count. */
  lemma StreakGoesOn(inputs: seq<Input>, j: nat, k: nat, ratio: real)
    requires k < |inputs| && Streak(inputs, j, k, ratio) && ReadyAt(inputs, k) == Run(inputs[..k])
    requires Skipped(inputs, k) || Wants(inputs, k, ratio)
    ensures Streak(inputs, j, k + 1, ratio)
  {
    hide Wants;
    hide Skipped;
    hide ReadyAt;
  }

  /** A vote for a ratio ends a streak of updates that wanted it. */
  lemma {:induction false} VoteStreak(inputs: seq<Input>, k: nat, ratio: real) returns (j: nat)
    requires k < |inputs| && !Skipped(inputs, k) && Wants(inputs, k, ratio)
    ensures Streak(inputs, j, k + 1, ratio)
    ensures var v := ReadyAt(inputs, k).Voted(inputs[k].net, ratio);
      Fresh(inputs, j, k + 1) == v.confirmations && inputs[j].net.now == v.since
    decreases k, 1
  {
    var c := ReadyAt(inputs, k);
    if c.candidate == ratio {
      hide Wanted;
      WantsInRange(inputs, k, ratio);
      NoRestart(inputs, k);
      j := CandidateStreak(inputs, k);
      StreakGoesOn(inputs, j, k, ratio);
    } else {
      j := k;
    }
  }

  lemma WantsInRange(inputs: seq<Input>, k: nat, ratio: real)
    requires k < |inputs| && Wants(inputs, k, ratio)
    ensures 0.0 <= ratio <= 0.25
  {
    RatioInRange(inputs[..k]);
  }

  /** The candidate stands for a streak of updates that wanted it, confirmed as often as they brought new feedback. */
  lemma {:induction false} CandidateStreak(inputs: seq<Input>, i: nat) returns (j: nat)
    requires i <= |inputs| && Run(inputs[..i]).candidate != -1.0
    ensures Streak(inputs, j, i, Run(inputs[..i]).candidate)
    ensures Fresh(inputs, j, i) == Run(inputs[..i]).confirmations && inputs[j].net.now == Run(inputs[..i]).since
    decreases i, 0
  {
    assert i > 0 by {
      assert inputs[..0] == [];
    }
    var k := i - 1;
    RunTo(inputs, k);
    var c, n := ReadyAt(inputs, k), inputs[k].net;
    if Skipped(inputs, k) {
      NoRestart(inputs, k);
      j := CandidateStreak(inputs, k);
      StreakGoesOn(inputs, j, k, c.candidate);
    } else {
      CandidateVoted(c, n);
      j := VoteStreak(inputs, k, c.WishFor(n).ratio);
    }
  }

  /** A candidate after an update that counts is what the update voted for. */
  lemma CandidateVoted(c: Control, n: Network)
    requires c.Observed(n).Followed(n, c.WishFor(n)).candidate != -1.0
    ensures !AtOnce(c.mode, n, c.WishFor(n)) && c.mode == Adaptive
    ensures var v := c.Voted(n, c.WishFor(n).ratio); var f := c.Observed(n).Followed(n, c.WishFor(n));
      f.candidate == v.candidate == c.WishFor(n).ratio && f.confirmations == v.confirmations && f.since == v.since
  {
    hide Wanted;
  }

  /** What changes the ratio, at an update that counts. */
  lemma Changes(c: Control, n: Network)
    requires c.Valid()
    ensures var w, d := c.WishFor(n), c.Observed(n).Followed(n, c.WishFor(n));
      && (AtOnce(c.mode, n, w) ==> d.ratio == w.ratio && (d.ratio > c.ratio ==> c.mode == Fixed))
      && (!AtOnce(c.mode, n, w) ==>
        var v := c.Voted(n, w.ratio);
        d.ratio == if w.ratio != c.ratio && v.confirmations >= 2 && (w.ratio > c.ratio || n.now - v.since >= 3000)
                   then w.ratio else c.ratio)
  {
  }

  /**
   Hysteresis, over every run.  Unless the mode is fixed, an update that raises
   the ratio ends a run of updates that, every one that counts, wanted exactly
   the new ratio, from fresh and sufficient feedback without congestion; the
   controller did not start over in between, and at least two of them brought
   new feedback.
   */
  lemma Rises(inputs: seq<Input>, i: nat) returns (j: nat)
    requires i < |inputs| && inputs[i].mode != Fixed && Run(inputs[..i + 1]).ratio > ReadyAt(inputs, i).ratio
    ensures Streak(inputs, j, i + 1, Run(inputs[..i + 1]).ratio) && Fresh(inputs, j, i + 1) >= 2
  {
    RunTo(inputs, i);
    RatioInRange(inputs[..i]);
    var c, n := ReadyAt(inputs, i), inputs[i].net;
    Changes(c, n);
    NotAtOnce(c, n);
    j := VoteStreak(inputs, i, c.WishFor(n).ratio);
  }

  lemma NotAtOnce(c: Control, n: Network)
    ensures !AtOnce(c.mode, n, c.WishFor(n)) ==> c.mode == Adaptive
  {
  }

  /**
   And in adaptive mode, with fresh and sufficient feedback and no congestion,
   an update that lowers the ratio ends such a run, and the run has besides
   lasted 3000 ms.
   */
  lemma Falls(inputs: seq<Input>, i: nat) returns (j: nat)
    requires i < |inputs| && Run(inputs[..i + 1]).ratio < ReadyAt(inputs, i).ratio
    requires var c, n := ReadyAt(inputs, i), inputs[i].net; !AtOnce(inputs[i].mode, n, c.WishFor(n))
    ensures Streak(inputs, j, i + 1, Run(inputs[..i + 1]).ratio) && Fresh(inputs, j, i + 1) >= 2
    ensures inputs[i].net.now - inputs[j].net.now >= 3000
  {
    RunTo(inputs, i);
    RatioInRange(inputs[..i]);
    var c, n := ReadyAt(inputs, i), inputs[i].net;
    Changes(c, n);
    NotAtOnce(c, n);
    j := VoteStreak(inputs, i, c.WishFor(n).ratio);
  }

  /** No update happens before the start of the clock. */
  ghost predicate Clocked(inputs: seq<Input>) {
    forall k :: 0 <= k < |inputs| ==> 0 <= inputs[k].net.now
  }

  /** The candidate was first wanted no later than the last update. */
  lemma CandidateTime(inputs: seq<Input>)
    requires Clocked(inputs)
    ensures var c := Run(inputs); c.candidate != -1.0 ==> c.since <= c.lastUpdate && 0 <= c.lastUpdate
  {
    hide Wanted;
    if inputs != [] {
      CandidateTime(inputs[..|inputs| - 1]);
    }
  }

  /** Along a streak the ratio is reached, or the candidate has a vote for every new feedback. */
  lemma {:induction false} StreakVotes(inputs: seq<Input>, j: nat, k: nat, ratio: real)
    requires k < |inputs| && Streak(inputs, j, k + 1, ratio)
    ensures var c := Run(inputs[..k + 1]);
      c.ratio == ratio || (c.candidate == ratio && c.confirmations >= Fresh(inputs, j, k + 1)
                           && (Clocked(inputs) ==> c.since <= inputs[j].net.now))
    decreases k
  {
    hide Wanted;
    RunTo(inputs, k);
    var c, n := ReadyAt(inputs, k), inputs[k].net;
    if k == j {
      VotesFirst(inputs, j, ratio);
    } else {
      assert Streak(inputs, j, k, ratio);
      StreakVotes(inputs, j, k - 1, ratio);
      if !Skipped(inputs, k) {
        VotesOn(c, n, ratio);
      }
    }
  }

  lemma VotesOn(c: Control, n: Network, ratio: real)
    requires c.WishFor(n).ratio == ratio && !AtOnce(c.mode, n, c.WishFor(n))
    ensures var d := c.Observed(n).Followed(n, c.WishFor(n)); var v := c.Voted(n, ratio);
      d.ratio == ratio || (d.candidate == ratio && d.confirmations == v.confirmations && d.since == v.since)
    ensures c.ratio == ratio ==> c.Observed(n).Followed(n, c.WishFor(n)).ratio == ratio
  {
    hide Wanted;
  }

  lemma VotesFirst(inputs: seq<Input>, j: nat, ratio: real)
    requires j < |inputs| && !Skipped(inputs, j) && Wants(inputs, j, ratio)
    ensures var c := Run(inputs[..j + 1]);
      c.ratio == ratio || (c.candidate == ratio && c.confirmations >= Fresh(inputs, j, j + 1)
                           && (Clocked(inputs) ==> c.since <= inputs[j].net.now))
  {
    hide Wanted;
    RunTo(inputs, j);
    var c, n := ReadyAt(inputs, j), inputs[j].net;
    VotesOn(c, n, ratio);
    WantsInRange(inputs, j, ratio);
    if c.candidate == ratio && Clocked(inputs) {
      NoRestart(inputs, j);
      CandidateTime(inputs[..j]);
    }
  }

  /**
   And such a run is enough: once two of its updates brought new feedback the
   ratio rises at the next update that counts, and falls there if the run has
   lasted 3000 ms.
   */
  lemma Follows(inputs: seq<Input>, j: nat, i: nat, ratio: real)
    requires i < |inputs| && !Skipped(inputs, i) && Streak(inputs, j, i + 1, ratio) && Fresh(inputs, j, i + 1) >= 2
    requires ratio > ReadyAt(inputs, i).ratio
             || (Clocked(inputs) && inputs[i].net.now - inputs[j].net.now >= 3000)
    ensures Run(inputs[..i + 1]).ratio == ratio
  {
    RunTo(inputs, i);
    var c, n := ReadyAt(inputs, i), inputs[i].net;
    RatioInRange(inputs[..i]);
    Changes(c, n);
    NotAtOnce(c, n);
    assert i != j by {
      assert Fresh(inputs, j, j) == 0;
    }
    assert Streak(inputs, j, i, ratio);
    StreakVotes(inputs, j, i - 1, ratio);
  }

  // ----- The split of the bit rate -----

  datatype Split = Split(ratio: real, fec: int, media: int)

  /**
   Shares out the rate.  What is not for protection is the greatest amount that
   leaves room for its own protection at the given ratio; media payload is the
   given part of it.  Both are rounded down.
   */
  function AllocateFecBudget(ratio: real, available: int, fraction: real): (s: Split)
    ensures 0.0 <= s.ratio <= 0.25 && (0.0 <= ratio <= 0.25 ==> s.ratio == ratio)
            && (ratio < 0.0 ==> s.ratio == 0.0) && (ratio > 0.25 ==> s.ratio == 0.25)
    ensures var bps := Clamp(available, 0, MAX_RATE);
      && 0 <= s.fec <= bps && 0 <= s.media <= bps - s.fec
      && Within(bps - s.fec, s.ratio, bps) && !Within(bps - s.fec + 1, s.ratio, bps)
      && RoundsDown(s.media, bps - s.fec, if fraction < 0.05 then 0.05 else Min(fraction, 1.0))
    ensures s.ratio == 0.0 ==> s.fec == 0
  {
    hide Within;
    hide RoundsDown;
    var bps := Clamp(available, 0, MAX_RATE);
    var x := if ratio < 0.0 then 0.0 else Min(ratio, 0.25);
    var f := if fraction < 0.05 then 0.05 else Min(fraction, 1.0);
    var share := bps as real / (1.0 + x);
    var media := share.Floor;
    ShareFits(bps, x, share, media);
    PartFits(media, f);
    Split(x, bps - media, (media as real * f).Floor)
  }

  /** A media rate and its protection together are within the rate. */
  predicate Within(media: int, ratio: real, bps: int) {
    media as real + media as real * ratio <= bps as real
  }

  /** A part of a whole, rounded down. */
  predicate RoundsDown(part: int, whole: int, fraction: real) {
    part as real <= whole as real * fraction < part as real + 1.0
  }

  lemma ShareFits(bps: nat, x: real, share: real, media: int)
    requires 0.0 <= x <= 0.25 && share == bps as real / (1.0 + x) && media == share.Floor
    ensures 0 <= media <= bps && (x == 0.0 ==> media == bps)
    ensures Within(media, x, bps) && !Within(media + 1, x, bps)
  {
    var one := 1.0 + x;
    assert share * one == bps as real;
    assert share == (1.0 / one) * bps as real && 1.0 / one >= 0.0;
    NonNegative(1.0 / one, bps as real);
    NonNegative(share, x);
    assert share * one == share + share * x;
    NonNegative((media + 1) as real - share, x);
    assert ((media + 1) as real - share) * x == (media + 1) as real * x - share * x;
    NonNegative(share - media as real, x);
    assert (share - media as real) * x == share * x - media as real * x;
  }

  lemma NonNegative(a: real, b: real)
    requires 0.0 <= a && 0.0 <= b
    ensures 0.0 <= a * b
  {
  }

  lemma PartFits(media: nat, f: real)
    requires 0.05 <= f <= 1.0
    ensures 0 <= (media as real * f).Floor <= media && RoundsDown((media as real * f).Floor, media, f)
  {
    NonNegative(media as real, 1.0 - f);
    NonNegative(media as real, f);
    assert media as real * (1.0 - f) == media as real - media as real * f;
  }
}
