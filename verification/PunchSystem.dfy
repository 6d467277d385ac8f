/**
 Two endpoints and a channel that may lose, duplicate, delay and reorder, and
 inject whatever does not pass for the other side's packets.
 */
module PunchSystem {
  import opened Common
  import opened PunchValues
  import opened PunchProtocol
  import opened Replay
  import opened PunchMachine
  import opened PunchInvariant
  import opened PunchEffects

  /** The two ends of one negotiation: the same generation and suite, each sending under the key the other receives under. */
  datatype Pair = Pair(offer: Party, answer: Party)
  {
    ghost predicate Valid() {
      && offer.offer && !answer.offer && offer.generation == answer.generation && offer.suite == answer.suite
      && offer.tx == answer.rx && offer.rx == answer.tx && offer.suite.ReadsBack()
    }
  }

  datatype World = World(offer: Endpoint, answer: Endpoint)

  /** One call on one of the two endpoints. */
  datatype Move = Move(byOffer: bool, action: Action)

  ghost predicate Standing(ps: Pair, w: World) {
    Stable(ps.offer, w.offer) && Stable(ps.answer, w.answer)
  }

  ghost function After(ps: Pair, w: World, m: Move): (v: World)
    requires Standing(ps, w)
    ensures Standing(ps, v)
  {
    ActKeeps(ps.offer, w.offer, m.action);
    ActKeeps(ps.answer, w.answer, m.action);
    if m.byOffer then w.(offer := Act(ps.offer, w.offer, m.action)) else w.(answer := Act(ps.answer, w.answer, m.action))
  }

  /** The world after any sequence of calls. */
  ghost function Play(ps: Pair, script: seq<Move>): (w: World)
    ensures Standing(ps, w)
  {
    if script == [] then
      InitialStable(ps.offer);
      InitialStable(ps.answer);
      World(Initial(ps.offer), Initial(ps.answer))
    else
      After(ps, Play(ps, script[..|script| - 1]), script[|script| - 1])
  }

  /** `data` was handed to the send hook. */
  ghost predicate WasSent(s: Endpoint, data: Bytes) {
    exists i :: 0 <= i < |s.trace| && s.trace[i] == Sent(data)
  }

  /** A datagram that passes for one of the other side's packets is one it sent. */
  ghost predicate Genuine(ps: Pair, w: World, m: Move) {
    if m.byOffer then Delivered(ps.offer, w.offer, m.action).Some? ==> WasSent(w.answer, m.action.data)
    else Delivered(ps.answer, w.answer, m.action).Some? ==> WasSent(w.offer, m.action.data)
  }

  ghost predicate Unforged(ps: Pair, script: seq<Move>) {
    forall i :: 0 <= i < |script| ==> Genuine(ps, Play(ps, script[..i]), script[i])
  }

  // ----- What arrives was made by the other side -----

  /** A datagram sent by one side opens, at the other, as a packet that side made. */
  lemma SentIsMade(p: Party, s: Endpoint, q: Party, t: Endpoint, data: Bytes) returns (i: nat)
    requires Stable(p, s) && Stable(q, t) && !t.Over() && WasSent(s, data) && Opened(q, t, data).Some?
    requires p.generation == q.generation && p.suite == q.suite && p.tx == q.rx
    ensures i < |s.made| && Opened(q, t, data) == Some(s.made[i]) && data == Encode(s.made[i], p.tx, p.suite)
    ensures s.made[i].sequence == i + 1 && Describes(p, FactsOf(s), s.made[i])
  {
    hide Encode;
    hide Decode;
    hide Fits;
    hide Counted;
    hide Describes;
    var j :| 0 <= j < |s.trace| && s.trace[j] == Sent(data);
    assert Known(p, s.made, s.trace[j].data) && data != [];
    i :| 0 <= i < |s.made| && data == Encode(s.made[i], p.tx, p.suite);
    CoreKeys(q, t);
    DecodeEncode(s.made[i], p.tx, p.suite);
    OpenedDomain(q, t, data);
    assert Describes(p, FactsOf(s), s.made[i]);
    DescribedDomain(p, FactsOf(s), s.made[i]);
  }

  lemma OpenedDomain(q: Party, t: Endpoint, data: Bytes)
    requires Opened(q, t, data).Some?
    ensures DomainOf(Opened(q, t, data).value.kind) == Control
  {
  }

  lemma DescribedDomain(p: Party, f: Facts, m: Packet)
    requires Describes(p, f, m)
    ensures DomainOf(m.kind) == Control
  {
  }

  // ----- Agreement and ordering -----

  /** Numbers accepted stand for the packets the other side made under them. */
  ghost predicate Echoes(memory: Memory, p: Party, made: seq<Packet>) {
    forall n :: n in memory.accepted ==>
      1 <= n <= |made| && memory.accepted[n] == p.suite.sha(Encode(made[n - 1], p.tx, p.suite))
  }

  /** A HELLO held is the one the other side sent. */
  ghost predicate Heard(s: Endpoint, q: Party, t: Endpoint) {
    s.remoteHello.Some? ==>
      t.localHello == s.remoteHello && s.remotePayload == ControlPayload(Kind.Hello, HelloBody(s.remoteHello.value), q.suite)
  }

  /** What holds of the two ends together. */
  ghost predicate Joint(ps: Pair, w: World) {
    && (w.answer.plan.Some? ==> w.offer.plan == w.answer.plan && w.offer.round == w.answer.round)
    && (Begun(w.offer) ==> w.answer.plan.Some? && w.answer.digest != "")
    && (Begun(w.answer) ==> Begun(w.offer))
    && Heard(w.offer, ps.answer, w.answer) && Heard(w.answer, ps.offer, w.offer)
    && Echoes(w.offer.replay, ps.answer, w.answer.made) && Echoes(w.answer.replay, ps.offer, w.offer.made)
  }

  /** A start packet is made only as the start hook is called. */
  lemma StartMeansBegun(p: Party, s: Endpoint, i: nat)
    requires Stable(p, s) && i < |s.made| && s.made[i].kind in {Kind.Start, Kind.Started}
    ensures Begun(s)
  {
    hide Fits;
    hide Counted;
    hide AllKnown;
    hide Begun;
    assert Placed(p, i, s.made[i].kind) && Describes(p, FactsOf(s), s.made[i]);
  }

  /** What one side hears by a HELLO is what the other said. */
  lemma HeardRight(p: Party, s: Endpoint, m: Packet, t: Endpoint)
    requires p.suite.ReadsBack() && Describes(p, FactsOf(s), m) && GreetedBy(p, Some(m), t)
    ensures Heard(t, p, s)
  {
    PayloadReadsBack(Kind.Hello, HelloBody(s.localHello.value), p.suite);
  }

  lemma EchoesGrow(memory: Memory, p: Party, made: seq<Packet>, more: seq<Packet>)
    requires Echoes(memory, p, made) && made <= more
    ensures Echoes(memory, p, more)
  {
    hide Encode;
    forall n | n in memory.accepted ensures 1 <= n <= |more| && more[n - 1] == made[n - 1] {
    }
  }

  /** A move of the offer. */
  lemma OfferMoves(ps: Pair, w: World, m: Move)
    requires ps.Valid() && Standing(ps, w) && Joint(ps, w) && Genuine(ps, w, m) && m.byOffer && !w.offer.Over()
    ensures Joint(ps, After(ps, w, m))
  {
    hide Stable;
    hide Act;
    hide Opened;
    hide Encode;
    hide ControlPayload;
    hide ParseControl;
    hide Begun;
    hide Describes;
    hide Launched;
    ActKeeps(ps.offer, w.offer, m.action);
    ActEffects(ps.offer, w.offer, m.action);
    var t := Act(ps.offer, w.offer, m.action);
    EchoesGrow(w.answer.replay, ps.offer, w.offer.made, t.made);
    if Begun(w.offer) {
      BegunGrows(w.offer, t);
    }
    OfferPlanned(ps, w);
    if Delivered(ps.offer, w.offer, m.action).Some? {
      var i := SentIsMade(ps.answer, w.answer, ps.offer, w.offer, m.action.data);
      var packet := w.answer.made[i];
      OfferHears(ps, w, packet, t);
      AfterEchoes(w.offer.replay, ps.answer, w.answer.made, i);
      ReadySays(ps.answer, w.answer, packet);
    }
  }

  lemma OfferPlanned(ps: Pair, w: World)
    requires Joint(ps, w) && Standing(ps, w)
    ensures w.answer.plan.Some? ==> w.offer.plan.Some? && w.offer.localHello.Some?
    ensures w.offer.remoteHello.Some? ==> w.answer.localHello.Some?
  {
  }

  lemma OfferHears(ps: Pair, w: World, packet: Packet, t: Endpoint)
    requires ps.Valid() && Describes(ps.answer, FactsOf(w.answer), packet) && Heard(w.offer, ps.answer, w.answer)
    requires Effects(ps.offer, w.offer, Some(packet), t)
    ensures Heard(t, ps.answer, w.answer)
  {
    hide Describes;
    hide ControlPayload;
    hide ParseControl;
    hide Begun;
    if t.remoteHello != w.offer.remoteHello || t.remotePayload != w.offer.remotePayload {
      HeardRight(ps.answer, w.answer, packet, t);
    }
  }

  lemma ReadySays(p: Party, s: Endpoint, m: Packet)
    requires Describes(p, FactsOf(s), m)
    ensures m.kind == Kind.Ready ==> s.plan.Some? && s.digest != "" && m.round == s.round
    ensures m.kind == Kind.Prepare ==> s.plan.Some? && m.round == s.round
  {
    hide ControlPayload;
  }

  lemma AfterEchoes(memory: Memory, p: Party, made: seq<Packet>, i: nat)
    requires Echoes(memory, p, made) && i < |made| && made[i].sequence == i + 1
    ensures Echoes(memory.After(i + 1, p.suite.sha(Encode(made[i], p.tx, p.suite))), p, made)
  {
    hide Encode;
  }

  lemma BegunGrows(s: Endpoint, t: Endpoint)
    requires s.trace <= t.trace && Begun(s)
    ensures Begun(t)
  {
    var i :| 0 <= i < |s.trace| && s.trace[i].Began?;
    assert t.trace[i] == s.trace[i];
  }

  /** A move of the answer. */
  lemma AnswerMoves(ps: Pair, w: World, m: Move)
    requires ps.Valid() && Standing(ps, w) && Joint(ps, w) && Genuine(ps, w, m) && !m.byOffer && !w.answer.Over()
    ensures Joint(ps, After(ps, w, m))
  {
    hide Stable;
    hide Act;
    hide Opened;
    hide Encode;
    hide ControlPayload;
    hide ParseControl;
    hide Begun;
    hide Describes;
    hide Launched;
    ActKeeps(ps.answer, w.answer, m.action);
    ActEffects(ps.answer, w.answer, m.action);
    var t := Act(ps.answer, w.answer, m.action);
    EchoesGrow(w.offer.replay, ps.answer, w.answer.made, t.made);
    if Begun(w.answer) {
      BegunGrows(w.answer, t);
    }
    if Delivered(ps.answer, w.answer, m.action).Some? {
      var i := SentIsMade(ps.offer, w.offer, ps.answer, w.answer, m.action.data);
      var packet := w.offer.made[i];
      AnswerHears(ps, w, packet, t);
      AfterEchoes(w.answer.replay, ps.offer, w.offer.made, i);
      if w.answer.plan.None? && t.plan.Some? {
        AnswerPlans(ps, w, packet, t);
      }
      if packet.kind == Kind.Start {
        StartMeansBegun(ps.offer, w.offer, i);
      }
    }
  }

  lemma AnswerHears(ps: Pair, w: World, packet: Packet, t: Endpoint)
    requires ps.Valid() && Describes(ps.offer, FactsOf(w.offer), packet) && Heard(w.answer, ps.offer, w.offer)
    requires Effects(ps.answer, w.answer, Some(packet), t)
    ensures Heard(t, ps.offer, w.offer)
  {
    hide Describes;
    hide ControlPayload;
    hide ParseControl;
    hide Begun;
    if t.remoteHello != w.answer.remoteHello || t.remotePayload != w.answer.remotePayload {
      HeardRight(ps.offer, w.offer, packet, t);
    }
  }

  /** The plan the answer adopts is the offer's, for the offer's round. */
  lemma AnswerPlans(ps: Pair, w: World, packet: Packet, t: Endpoint)
    requires ps.Valid() && Describes(ps.offer, FactsOf(w.offer), packet)
    requires Effects(ps.answer, w.answer, Some(packet), t) && w.answer.plan.None? && t.plan.Some?
    ensures w.offer.plan == t.plan && w.offer.round == t.round
  {
    hide ControlPayload;
    hide ParseControl;
    hide Begun;
    hide Launched;
    PayloadReadsBack(Kind.Prepare, PlanBody(w.offer.plan.value), ps.offer.suite);
  }

  /** Every round begun is of the plan and number held. */
  ghost predicate Marked(s: Endpoint) {
    Marks([], s.trace, s.plan, s.round)
  }

  lemma MarkedStays(p: Party, s: Endpoint, m: Option<Packet>, t: Endpoint)
    requires Effects(p, s, m, t) && Marked(s)
    ensures Marked(t)
  {
    hide Begun;
    hide GreetedBy;
    hide PlannedBy;
    hide BegunBy;
    forall i | 0 <= i < |t.trace| && t.trace[i].Began?
      ensures t.plan == Some(t.trace[i].plan) && t.round == t.trace[i].round
    {
      if i < |s.trace| {
        assert s.trace[i] == t.trace[i];
      }
    }
  }

  ghost predicate Agreed(ps: Pair, w: World) {
    Joint(ps, w) && Marked(w.offer) && Marked(w.answer)
  }

  lemma MoveKeeps(ps: Pair, w: World, m: Move)
    requires ps.Valid() && Standing(ps, w) && Agreed(ps, w) && Genuine(ps, w, m)
    ensures Agreed(ps, After(ps, w, m))
  {
    hide Stable;
    hide Act;
    hide Joint;
    hide Effects;
    hide Marked;
    hide Genuine;
    StableForms(ps.offer, w.offer);
    StableForms(ps.answer, w.answer);
    if m.byOffer {
      if w.offer.Over() {
        OverStays(ps.offer, w.offer, m.action);
      } else {
        OfferMoves(ps, w, m);
        ActEffects(ps.offer, w.offer, m.action);
        MarkedStays(ps.offer, w.offer, Delivered(ps.offer, w.offer, m.action), Act(ps.offer, w.offer, m.action));
      }
    } else {
      if w.answer.Over() {
        OverStays(ps.answer, w.answer, m.action);
      } else {
        AnswerMoves(ps, w, m);
        ActEffects(ps.answer, w.answer, m.action);
        MarkedStays(ps.answer, w.answer, Delivered(ps.answer, w.answer, m.action), Act(ps.answer, w.answer, m.action));
      }
    }
  }

  lemma {:induction false} PlayAgrees(ps: Pair, script: seq<Move>)
    requires ps.Valid() && Unforged(ps, script)
    ensures Agreed(ps, Play(ps, script))
  {
    hide Stable;
    hide After;
    hide Agreed;
    hide Genuine;
    if script == [] {
      NothingAgreed(ps);
    } else {
      var n := |script| - 1;
      assert forall i :: 0 <= i < n ==> script[..n][..i] == script[..i] && script[..n][i] == script[i];
      PlayAgrees(ps, script[..n]);
      MoveKeeps(ps, Play(ps, script[..n]), script[n]);
    }
  }

  lemma NothingAgreed(ps: Pair)
    ensures Agreed(ps, Play(ps, []))
  {
  }

  /**
   Agreement and ordering, in every reachable world: the answer has begun its
   round only if the offer had; the offer has begun only once the answer
   finished preparing; and whatever rounds begin, at either end, are of one
   number and one plan.
   */
  lemma Agreement(ps: Pair, script: seq<Move>)
    requires ps.Valid() && Unforged(ps, script)
    ensures var w := Play(ps, script);
      && (Begun(w.answer) ==> Begun(w.offer))
      && (Begun(w.offer) ==> w.answer.digest != "" && w.answer.plan.Some?)
      && (forall i, j :: 0 <= i < |w.offer.trace| && 0 <= j < |w.answer.trace| && w.offer.trace[i].Began? && w.answer.trace[j].Began? ==>
        w.offer.trace[i].round == w.answer.trace[j].round && w.offer.trace[i].plan == w.answer.trace[j].plan)
      && (w.answer.plan.Some? ==> w.offer.plan == w.answer.plan && w.offer.round == w.answer.round)
  {
    hide Stable;
    hide After;
    PlayAgrees(ps, script);
    var w := Play(ps, script);
    forall i, j | 0 <= i < |w.offer.trace| && 0 <= j < |w.answer.trace| && w.offer.trace[i].Began? && w.answer.trace[j].Began?
      ensures w.offer.trace[i].round == w.answer.trace[j].round && w.offer.trace[i].plan == w.answer.trace[j].plan
    {
      assert w.offer.plan == Some(w.offer.trace[i].plan);
      assert w.answer.plan == Some(w.answer.trace[j].plan);
    }
  }
}
