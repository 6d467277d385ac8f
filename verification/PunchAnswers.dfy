/**
 What an endpoint of src/ice/punch_coordinator.cpp does about each message it
 hears and each tick of its timer, said in what it sends and in what becomes of
 it; and what follows over whole runs.
 */
module PunchAnswers {
  import opened Common
  import opened PunchValues
  import opened PunchProtocol
  import opened Replay
  import opened PunchMachine
  import opened PunchInvariant
  import opened PunchRuns

  // ----- Messages heard -----

  predicate Running(s: Endpoint) {
    s.state != State.Idle && !s.Over()
  }

  /** A running endpoint is in time to hear `m`, and has heard it before or nothing else of its number. */
  predicate Hears(p: Party, s: Endpoint, a: Action, m: Packet) {
    && a.Arrive? && Running(s) && a.now < s.deadline && Opened(p, s, a.data) == Some(m)
    && (m.kind == Kind.Hello || m.round == s.round || Opening(p, s, m))
    && s.replay.Judge(m.sequence, p.suite.sha(a.data)) in {Fresh, Duplicate}
  }

  /** A PREPARE may open the round of an answer that has none. */
  predicate Opening(p: Party, s: Endpoint, m: Packet) {
    m.kind == Kind.Prepare && !p.offer && IsZero(s.round) && s.state == State.Hello
  }

  predicate IsCopy(p: Party, s: Endpoint, a: Action, m: Packet)
    requires a.Arrive?
  {
    s.replay.Judge(m.sequence, p.suite.sha(a.data)) == Duplicate
  }

  /** The endpoint with the packet in its replay memory, and nothing else. */
  function Noted(p: Party, s: Endpoint, a: Action, m: Packet): Endpoint
    requires a.Arrive?
  {
    s.(replay := s.replay.After(m.sequence, p.suite.sha(a.data)))
  }

  /** These messages are sent and nothing else happens; or the budget for packets is used up and that stops the endpoint. */
  ghost predicate Says(s: Endpoint, t: Endpoint, messages: seq<Bytes>) {
    if s.attempts + |messages| <= s.limit then
      t == s.(attempts := s.attempts + |messages|,
              trace := s.trace + seq(|messages|, i requires 0 <= i < |messages| => Sent(messages[i])))
    else
      t.Over() && t.trace != [] && t.trace[|t.trace| - 1] == Ended("budget")
  }

  predicate StopsWith(t: Endpoint, reason: string) {
    t.Over() && t.pending == [] && t.trace != [] && t.trace[|t.trace| - 1] == Ended(reason)
  }

  /** Stopped, with the keys zeroed, nothing sent and the stop hook told why. */
  predicate EndsQuietly(s: Endpoint, t: Endpoint, reason: string) {
    && t.Over() && t.pending == [] && IsZero(t.tx) && IsZero(t.rx) && t.attempts == s.attempts
    && t.trace == s.trace + [Ended(reason)]
  }

  /** What the message says. */
  function BodyOf(p: Party, m: Packet): Option<Value> {
    ParseControl(m.kind, m.payload, p.suite)
  }

  lemma Dispatched(p: Party, s: Endpoint, a: Action, m: Packet)
    requires Formed(p, s) && Hears(p, s, a, m)
    ensures RoundOk(m.kind, m.round) && BodyOf(p, m).Some?
    ensures Formed(p, Noted(p, s, a, m)) && s.localHello.Some?
    ensures Act(p, s, a) == Dispatch(p, Noted(p, s, a, m), m, IsCopy(p, s, a, m), a.now, a.answers)
  {
    hide Dispatch;
    hide Opened;
    hide Stop;
    hide Memory.After;
    hide Memory.Judge;
  }

  lemma SaysOne(s: Endpoint, data: Bytes)
    requires !s.Over() && data != [] && s.attempts <= s.limit
    ensures Says(s, Emit(s, data).s, [data])
  {
    assert seq(1, i requires 0 <= i < 1 => Sent([data][i])) == [Sent(data)];
  }

  lemma SaysTwo(s: Endpoint, one: Bytes, two: Bytes)
    requires !s.Over() && one != [] && two != [] && s.attempts <= s.limit
    ensures Says(s, Emit(Emit(s, one).s, two).s, [one, two])
  {
    assert seq(2, i requires 0 <= i < 2 => Sent([one, two][i])) == [Sent(one), Sent(two)];
  }

  lemma StopEnds(p: Party, s: Endpoint, reason: string, notify: bool)
    requires !s.Over()
    ensures StopsWith(Stop(p, s, reason, notify), reason)
  {
    hide Make;
    hide Emit;
  }

  lemma WithinLimit(p: Party, s: Endpoint)
    requires Stable(p, s)
    ensures s.attempts <= s.limit
  {
    hide Numbered;
    hide AllKnown;
    hide Fits;
    hide TallyOf;
  }

  /** STARTED of this round and digest: the offer waits for nothing any more. */
  lemma HearsStarted(p: Party, s: Endpoint, a: Action, m: Packet)
    requires Formed(p, s) && Hears(p, s, a, m) && m.kind == Kind.Started && p.offer && s.state == State.Probing
    ensures BodyOf(p, m).Some? && BodyOf(p, m).value.DigestBody?
    ensures Act(p, s, a) == if BodyOf(p, m).value.digest == s.digest then Noted(p, s, a, m).(pending := []) else Noted(p, s, a, m)
  {
    Dispatched(p, s, a, m);
    hide Act;
    hide ParseControl;
    hide Noted;
  }

  /** A Cancel of this round stops the endpoint, saying nothing, with the reason it gives; a copy is ignored. */
  lemma HearsCancel(p: Party, s: Endpoint, a: Action, m: Packet)
    requires Formed(p, s) && Hears(p, s, a, m) && m.kind == Cancel
    ensures BodyOf(p, m).Some? && BodyOf(p, m).value.ReasonBody?
    ensures var t := Act(p, s, a);
      && (IsCopy(p, s, a, m) ==> t == Noted(p, s, a, m))
      && (!IsCopy(p, s, a, m) ==> EndsQuietly(s, t, BodyOf(p, m).value.reason))
  {
    Dispatched(p, s, a, m);
    hide Act;
    hide ParseControl;
    hide Memory.After;
    hide Memory.Judge;
  }

  /** The offer is asked for its plan by a copy of the answer's HELLO; otherwise copies of a HELLO are ignored. */
  lemma HearsHelloAgain(p: Party, s: Endpoint, a: Action, m: Packet)
    requires Stable(p, s) && Formed(p, s) && Hears(p, s, a, m) && m.kind == Kind.Hello && s.remoteHello.Some?
    ensures BodyOf(p, m).Some? && BodyOf(p, m).value.HelloBody?
    ensures var t, n := Act(p, s, a), Noted(p, s, a, m);
      var same := BodyOf(p, m).value.hello == s.remoteHello.value && m.payload == s.remotePayload;
      && (!same ==> StopsWith(t, "conflict"))
      && (same && p.offer && s.state == Preparing && s.prepare != [] && s.hello != [] ==> Says(n, t, [s.hello, s.prepare]))
      && (same && !(p.offer && s.state == Preparing && s.prepare != []) ==> t == n)
  {
    hide Stable;
    WithinLimit(p, s);
    Dispatched(p, s, a, m);
    hide Act;
    hide ParseControl;
    hide Memory.After;
    hide Memory.Judge;
    hide Opened;
    hide Stop;
    hide StopsWith;
    hide Says;
    hide Emit;
    var n := Noted(p, s, a, m);
    StopEnds(p, n, "conflict", true);
    if s.prepare != [] && s.hello != [] {
      SaysTwo(n, s.hello, s.prepare);
      EmitKeepsMessages(n, n.hello);
    }
  }

  lemma EmitKeepsMessages(s: Endpoint, data: Bytes)
    ensures Emit(s, data).s.prepare == s.prepare
  {
  }

  /** Another PREPARE of this round is a conflict; the same again is answered with READY, once there is one. */
  lemma HearsPrepareAgain(p: Party, s: Endpoint, a: Action, m: Packet)
    requires Stable(p, s) && Formed(p, s) && Hears(p, s, a, m) && m.kind == Kind.Prepare && !p.offer && s.plan.Some?
    ensures BodyOf(p, m).Some? && BodyOf(p, m).value.PlanBody?
    ensures var t, n, same := Act(p, s, a), Noted(p, s, a, m), BodyOf(p, m).value.plan == s.plan.value;
      && (!same ==> StopsWith(t, "conflict"))
      && (same && s.ready != [] ==> Says(n, t, [s.ready]))
      && (same && s.ready == [] ==> t == n)
  {
    hide Stable;
    WithinLimit(p, s);
    Dispatched(p, s, a, m);
    hide Act;
    hide ParseControl;
    hide Memory.After;
    hide Memory.Judge;
    hide Opened;
    hide Stop;
    hide StopsWith;
    hide Says;
    hide Emit;
    var n := Noted(p, s, a, m);
    StopEnds(p, n, "conflict", true);
    if s.ready != [] {
      SaysOne(n, s.ready);
    }
  }

  /** A READY for another plan is ignored; once probing, READY again is answered with START. */
  lemma HearsReadyAgain(p: Party, s: Endpoint, a: Action, m: Packet)
    requires Stable(p, s) && Formed(p, s) && Hears(p, s, a, m) && m.kind == Kind.Ready && p.offer && s.plan.Some?
    ensures BodyOf(p, m).Some? && BodyOf(p, m).value.ReadyBody?
    ensures var t, n, v := Act(p, s, a), Noted(p, s, a, m), BodyOf(p, m).value;
      var same := v.digest == s.digest && v.budget == s.plan.value.budget;
      && (!same || s.state !in {Preparing, State.Probing} ==> t == n)
      && (same && s.state == State.Probing && s.start != [] ==> Says(n, t, [s.start]))
  {
    hide Stable;
    WithinLimit(p, s);
    Dispatched(p, s, a, m);
    hide Act;
    hide ParseControl;
    hide Memory.After;
    hide Memory.Judge;
    hide Opened;
    hide Says;
    hide Emit;
    hide Make;
    hide StartRound;
    var n := Noted(p, s, a, m);
    if s.start != [] {
      SaysOne(n, s.start);
    }
  }

  /** A START for another plan is ignored; once probing, START again is answered with STARTED. */
  lemma HearsStartAgain(p: Party, s: Endpoint, a: Action, m: Packet)
    requires Stable(p, s) && Formed(p, s) && Hears(p, s, a, m) && m.kind == Kind.Start && !p.offer && s.plan.Some?
    ensures BodyOf(p, m).Some? && BodyOf(p, m).value.DigestBody?
    ensures var t, n := Act(p, s, a), Noted(p, s, a, m);
      var same := BodyOf(p, m).value.digest == s.digest;
      && (!same || s.state !in {State.Ready, State.Probing} ==> t == n)
      && (same && s.state == State.Probing && s.started != [] ==> Says(n, t, [s.started]))
  {
    hide Stable;
    WithinLimit(p, s);
    Dispatched(p, s, a, m);
    hide Act;
    hide ParseControl;
    hide Memory.After;
    hide Memory.Judge;
    hide Opened;
    hide Says;
    hide Emit;
    hide Make;
    hide StartRound;
    var n := Noted(p, s, a, m);
    if s.started != [] {
      SaysOne(n, s.started);
    }
  }

  /** The message an endpoint of this round makes next. */
  function NextMessage(p: Party, s: Endpoint, kind: Kind): Bytes {
    Encode(Packet(kind, p.generation, s.round, s.next, ControlPayload(kind, DigestBody(s.digest), p.suite)), s.tx, p.suite)
  }

  /** The round begins, and this message is sent. */
  ghost predicate Begins(s: Endpoint, t: Endpoint, now: int, data: Bytes)
    requires s.plan.Some?
  {
    t.state == State.Probing && t.trace == s.trace + [Began(s.round, s.plan.value, now), Sent(data)]
  }

  /** The message was just sent, and is sent again in 200 ms. */
  predicate Waits(t: Endpoint, kind: Kind, data: Bytes, now: int) {
    t.pending == data && t.pendingKind == kind && t.retries == 0 && t.retryAt == now + 200
  }

  lemma ReadyAnswered(p: Party, n: Endpoint, now: int, a: Answers)
    requires n.state == Preparing && n.plan.Some? && n.next != 0 && a.startHalt.None? && n.attempts < n.limit
    requires NextMessage(p, n, Kind.Start) != []
    ensures var t, data := OnReady(p, n, n.digest, n.plan.value.budget, now, a), NextMessage(p, n, Kind.Start);
      Begins(n, t, now, data) && t.start == data && t.attempts == n.attempts + 1 && Waits(t, Kind.Start, data, now)
  {
    hide Encode;
    hide ControlPayload;
    assert Make(p, n, Kind.Start, DigestBody(n.digest)).data == NextMessage(p, n, Kind.Start);
    assert n.trace + [Began(n.round, n.plan.value, now)] + [Sent(NextMessage(p, n, Kind.Start))]
      == n.trace + [Began(n.round, n.plan.value, now), Sent(NextMessage(p, n, Kind.Start))];
  }

  lemma StartAnswered(p: Party, n: Endpoint, now: int, a: Answers)
    requires n.state == State.Ready && n.plan.Some? && n.next != 0 && a.startHalt.None? && n.attempts < n.limit
    requires NextMessage(p, n, Kind.Started) != []
    ensures var t, data := OnStart(p, n, n.digest, now, a), NextMessage(p, n, Kind.Started);
      Begins(n, t, now, data) && t.started == data && t.attempts == n.attempts + 1 && t.pending == []
  {
    hide Encode;
    hide ControlPayload;
    assert Make(p, n.(pending := []), Kind.Started, DigestBody(n.digest)).data == NextMessage(p, n, Kind.Started);
    assert n.trace + [Began(n.round, n.plan.value, now)] + [Sent(NextMessage(p, n, Kind.Started))]
      == n.trace + [Began(n.round, n.plan.value, now), Sent(NextMessage(p, n, Kind.Started))];
  }

  lemma MayMake(p: Party, s: Endpoint)
    requires Stable(p, s) && Running(s)
    ensures s.next != 0
  {
  }

  /**
   The first READY for the plan begins the round at the offer, which says START
   and waits 200 ms for STARTED before it says so again.
   */
  lemma HearsReady(p: Party, s: Endpoint, a: Action, m: Packet)
    requires Stable(p, s) && Formed(p, s) && Hears(p, s, a, m) && m.kind == Kind.Ready && p.offer && s.state == Preparing
    requires s.plan.Some? && BodyOf(p, m) == Some(ReadyBody(s.digest, s.plan.value.budget))
    requires a.answers.startHalt.None? && s.attempts < s.limit && NextMessage(p, s, Kind.Start) != []
    ensures var t, data := Act(p, s, a), NextMessage(p, s, Kind.Start);
      Begins(s, t, a.now, data) && t.start == data && t.attempts == s.attempts + 1 && Waits(t, Kind.Start, data, a.now)
  {
    MayMake(p, s);
    hide Stable;
    Dispatched(p, s, a, m);
    hide Act;
    hide ParseControl;
    hide Memory.After;
    hide Memory.Judge;
    hide Encode;
    hide OnReady;
    hide Opened;
    ReadyAnswered(p, Noted(p, s, a, m), a.now, a.answers);
  }

  /** The first START for the plan begins the round at the answer, which says STARTED and waits for nothing. */
  lemma HearsStart(p: Party, s: Endpoint, a: Action, m: Packet)
    requires Stable(p, s) && Formed(p, s) && Hears(p, s, a, m) && m.kind == Kind.Start && !p.offer && s.state == State.Ready
    requires s.plan.Some? && BodyOf(p, m) == Some(DigestBody(s.digest))
    requires a.answers.startHalt.None? && s.attempts < s.limit && NextMessage(p, s, Kind.Started) != []
    ensures var t, data := Act(p, s, a), NextMessage(p, s, Kind.Started);
      Begins(s, t, a.now, data) && t.started == data && t.attempts == s.attempts + 1 && t.pending == []
  {
    MayMake(p, s);
    hide Stable;
    Dispatched(p, s, a, m);
    hide Act;
    hide ParseControl;
    hide Memory.After;
    hide Memory.Judge;
    hide Encode;
    hide OnStart;
    hide Opened;
    StartAnswered(p, Noted(p, s, a, m), a.now, a.answers);
  }

  // ----- Opening and preparing -----

  /** The first HELLO at the answer: the other end is met, and one's own HELLO said again. */
  lemma HearsHello(p: Party, s: Endpoint, a: Action, m: Packet)
    requires Stable(p, s) && Formed(p, s) && Hears(p, s, a, m) && m.kind == Kind.Hello && s.remoteHello.None? && !p.offer
    requires s.hello != [] && s.attempts < s.limit
    ensures BodyOf(p, m).Some? && BodyOf(p, m).value.HelloBody?
    ensures var t, hello := Act(p, s, a), BodyOf(p, m).value.hello;
      && t.remoteHello == Some(hello) && t.remotePayload == m.payload && t.state == s.state
      && t.trace == s.trace + [Greeted(hello, a.now), Sent(s.hello)] && t.pending == s.pending && t.attempts == s.attempts + 1
  {
    hide Stable;
    Dispatched(p, s, a, m);
    hide Act;
    hide ParseControl;
    hide Memory.After;
    hide Memory.Judge;
    hide Opened;
    assert s.trace + [Greeted(BodyOf(p, m).value.hello, a.now)] + [Sent(s.hello)]
      == s.trace + [Greeted(BodyOf(p, m).value.hello, a.now), Sent(s.hello)];
  }

  /** The plan of two HELLOs, with the digests of their texts. */
  function Agreed(p: Party, offer: Offer, answer: Offer, offerText: Bytes, answerText: Bytes): Option<Plan> {
    match p.agree(offer, answer)
    case None => None
    case Some(plan) => Some(plan.(offerHello := Digest(offerText, p.suite), answerHello := Digest(answerText, p.suite)))
  }

  function HelloText(p: Party, hello: Offer): Bytes {
    ControlPayload(Kind.Hello, HelloBody(hello), p.suite)
  }

  predicate Printable(p: Party, plan: Plan) {
    ControlPayload(Kind.Prepare, PlanBody(plan), p.suite) != []
  }

  /**
   The first HELLO at the offer: with no printable plan, or no round drawn, it
   stops at once and says nothing; otherwise it settles both and asks for its
   resources.
   */
  lemma HearsAnswer(p: Party, s: Endpoint, a: Action, m: Packet)
    requires Stable(p, s) && Formed(p, s) && Hears(p, s, a, m) && m.kind == Kind.Hello && s.remoteHello.None? && p.offer
    requires a.answers.prepareHalt.None? && p.polls
    ensures BodyOf(p, m).Some? && BodyOf(p, m).value.HelloBody? && s.localHello.Some?
    ensures var t, mine, hello := Act(p, s, a), s.localHello.value, BodyOf(p, m).value.hello;
      var plan, met := Agreed(p, mine, hello, HelloText(p, mine), m.payload), s.Log(Greeted(hello, a.now));
      if plan.None? || !Printable(p, plan.value) then EndsQuietly(met, t, "ineligible")
      else if !a.answers.drawn || IsZero(a.answers.random) then EndsQuietly(met, t, "resources")
      else
        && t.plan == plan && t.round == a.answers.random
        && (a.answers.prepared ==> t.state == Allocating && t.pending == [] && t.trace == met.trace + [Prepared(plan.value)])
        && (!a.answers.prepared ==> StopsWith(t, "resources"))
  {
    hide Stable;
    Dispatched(p, s, a, m);
    hide Act;
    hide ParseControl;
    hide Memory.After;
    hide Memory.Judge;
    hide Opened;
    hide ControlPayload;
    hide Digest;
    hide BeginPreparation;
    var hello := BodyOf(p, m).value.hello;
    var greeted := Noted(p, s, a, m).(remoteHello := Some(hello), remotePayload := m.payload).Log(Greeted(hello, a.now));
    Proposes(p, greeted, a.now, a.answers);
  }

  lemma Proposes(p: Party, s: Endpoint, now: int, a: Answers)
    requires s.localHello.Some? && s.remoteHello.Some? && p.offer && a.prepareHalt.None? && p.polls && !s.Over()
    ensures var t, mine := Propose(p, s, now, a), s.localHello.value;
      var plan := Agreed(p, mine, s.remoteHello.value, HelloText(p, mine), s.remotePayload);
      if plan.None? || !Printable(p, plan.value) then EndsQuietly(s, t, "ineligible")
      else if !a.drawn || IsZero(a.random) then EndsQuietly(s, t, "resources")
      else
        && t.plan == plan && t.round == a.random
        && (a.prepared ==> t.state == Allocating && t.pending == [] && t.trace == s.trace + [Prepared(plan.value)])
        && (!a.prepared ==> StopsWith(t, "resources"))
  {
    hide ControlPayload;
    hide Digest;
    hide Make;
    hide Emit;
    var mine := s.localHello.value;
    var plan := Agreed(p, mine, s.remoteHello.value, HelloText(p, mine), s.remotePayload);
    assert Proposal(p, s) == plan;
    if plan.Some? {
      var asking := s.(plan := plan, round := a.random, state := Allocating, pending := []).Log(Prepared(plan.value));
      StopEnds(p, asking, "resources", true);
      StopPlan(p, asking, "resources", true);
    }
    hide Proposal;
    hide Agreed;
  }

  lemma StopPlan(p: Party, s: Endpoint, reason: string, notify: bool)
    ensures var t := Stop(p, s, reason, notify); t.plan == s.plan && t.round == s.round
  {
  }

  /** The answer adopts the round of a PREPARE only with the plan it expects itself. */
  lemma HearsPrepare(p: Party, s: Endpoint, a: Action, m: Packet)
    requires Stable(p, s) && Formed(p, s) && Hears(p, s, a, m) && m.kind == Kind.Prepare && !p.offer && s.plan.None?
    requires a.answers.prepareHalt.None? && p.polls
    ensures BodyOf(p, m).Some? && BodyOf(p, m).value.PlanBody? && s.localHello.Some?
    ensures var t, n, mine, plan := Act(p, s, a), Noted(p, s, a, m), s.localHello.value, BodyOf(p, m).value.plan;
      if s.state != State.Hello || s.remoteHello.None?
         || Agreed(p, s.remoteHello.value, mine, s.remotePayload, HelloText(p, mine)) != Some(plan) then t == n
      else
        && t.plan == Some(plan) && t.round == m.round
        && (a.answers.prepared ==> t.state == Allocating && t.pending == [] && t.trace == s.trace + [Prepared(plan)])
        && (!a.answers.prepared ==> StopsWith(t, "resources"))
  {
    hide Stable;
    Dispatched(p, s, a, m);
    hide Act;
    hide ParseControl;
    hide Memory.After;
    hide Memory.Judge;
    hide Opened;
    hide ControlPayload;
    hide Digest;
    hide Make;
    hide Emit;
    var n, mine := Noted(p, s, a, m), s.localHello.value;
    if s.remoteHello.Some? {
      assert Proposal(p, n) == Agreed(p, s.remoteHello.value, mine, s.remotePayload, HelloText(p, mine));
      var plan := BodyOf(p, m).value.plan;
      var asking := n.(plan := Some(plan), round := m.round, state := Allocating, pending := []).Log(Prepared(plan));
      StopEnds(p, asking, "resources", true);
      StopPlan(p, asking, "resources", true);
    }
    hide Proposal;
    hide Agreed;
  }

  /** What does not open, belongs to another round, came too late or was not meant for this end or state changes nothing but the memory. */
  lemma HearsNothing(p: Party, s: Endpoint, a: Action)
    requires Stable(p, s) && Formed(p, s) && a.Arrive? && Running(s) && a.now < s.deadline
    ensures var m := Opened(p, s, a.data);
      m.None? || (m.value.kind != Kind.Hello && m.value.round != s.round && !Opening(p, s, m.value)) ==> Act(p, s, a) == s
    ensures forall m :: Opened(p, s, a.data) == Some(m) && (m.kind == Kind.Hello || m.round == s.round || Opening(p, s, m)) ==>
      match s.replay.Judge(m.sequence, p.suite.sha(a.data))
      case TooOld => Act(p, s, a) == Noted(p, s, a, m)
      case Conflict => StopsWith(Act(p, s, a), "conflict")
      case _ =>
        || m.kind in {Kind.Hello, Cancel} || m.kind in (if p.offer then {Kind.Ready, Kind.Started} else {Kind.Prepare, Kind.Start})
        || Act(p, s, a) == Noted(p, s, a, m)
  {
    hide Stable;
    hide OnHello;
    hide OnPrepare;
    hide OnReady;
    hide OnStart;
    hide Opened;
    hide Memory.After;
    hide Memory.Judge;
    hide Stop;
    hide StopsWith;
    var o := Opened(p, s, a.data);
    if o.Some? {
      var n := Noted(p, s, a, o.value);
      StopEnds(p, n, "conflict", true);
    }
  }

  // ----- The timer -----

  /** Past its deadline an endpoint stops, whether a datagram or the timer wakes it. */
  lemma DeadlinePasses(p: Party, s: Endpoint, a: Action)
    requires Formed(p, s) && Running(s) && (a.Arrive? || a.Timer?) && a.now >= s.deadline
    ensures StopsWith(Act(p, s, a), "timeout")
  {
    StopEnds(p, s, "timeout", true);
    hide Stop;
  }

  /** With a round under way the other end is told why, if there is a packet left to do it. */
  lemma StopTells(p: Party, s: Endpoint, reason: string)
    requires Running(s) && s.next != 0
    ensures var t := Stop(p, s, reason, true);
      var data := Encode(Packet(Cancel, p.generation, s.round, s.next, ControlPayload(Cancel, ReasonBody(reason), p.suite)), s.tx, p.suite);
      && t.Over() && t.pending == [] && IsZero(t.tx) && IsZero(t.rx)
      && t.trace == s.trace + (if !IsZero(s.round) && s.attempts < s.limit && data != [] then [Sent(data)] else []) + [Ended(reason)]
    ensures EndsQuietly(s, Stop(p, s, reason, false), reason)
  {
    hide Encode;
    hide ControlPayload;
  }

  /** Nothing is due: between the retries, or with no message waiting. */
  lemma NothingDue(p: Party, s: Endpoint, now: int, a: Answers)
    requires Formed(p, s) && Running(s) && now < s.deadline && s.state != Allocating
    requires s.pending == [] || now < s.retryAt
    ensures Act(p, s, Timer(now, a)) == s
  {
  }

  /** A message is due: it is sent again, a PREPARE behind the HELLO. */
  lemma DueAgain(p: Party, s: Endpoint, now: int, a: Answers)
    requires Formed(p, s) && Running(s) && s.retryAt <= now < s.deadline && s.state != Allocating
    requires s.pending != [] && s.hello != [] && s.retries < 3
    requires s.attempts + (if s.pendingKind == Kind.Prepare then 2 else 1) <= s.limit
    ensures var out := if s.pendingKind == Kind.Prepare then [Sent(s.hello), Sent(s.pending)] else [Sent(s.pending)];
      Act(p, s, Timer(now, a)) == s.(attempts := s.attempts + |out|, trace := s.trace + out, retries := s.retries + 1,
                                     retryAt := now + if s.retries == 0 then 400 else 800)
  {
    assert s.trace + [Sent(s.hello)] + [Sent(s.pending)] == s.trace + [Sent(s.hello), Sent(s.pending)];
  }

  /** After the third retry a HELLO falls silent, and any other message gives the negotiation up. */
  lemma DueNoMore(p: Party, s: Endpoint, now: int, a: Answers)
    requires Formed(p, s) && Running(s) && s.retryAt <= now < s.deadline && s.state != Allocating && s.pending != [] && s.retries == 3
    ensures var t := Act(p, s, Timer(now, a));
      if s.pendingKind == Kind.Hello then t == s.(pending := []) else StopsWith(t, "timeout")
  {
    StopEnds(p, s, "timeout", true);
    hide Stop;
  }

  /** Opening: within 30 s of the deadline and with a printable HELLO, it is sent and sent again in 200 ms. */
  lemma BeginSays(p: Party, s: Endpoint, hello: Offer, now: int, deadline: int)
    requires Stable(p, s)
    ensures var t, text := Act(p, s, Open(hello, now, deadline)), HelloText(p, hello);
      var data := Encode(Packet(Kind.Hello, p.generation, Zeros(16), 1, text), p.tx, p.suite);
      if s.state == State.Idle && now < deadline <= now + 30000 && p.hooked && text != [] then
        && t.state == State.Hello && t.localHello == Some(hello) && t.deadline == deadline && t.limit == hello.budget.controlPackets
        && t.hello == data && Waits(t, Kind.Hello, data, now)
        && t.trace == s.trace + (if data == [] then [] else [Sent(data)])
      else t == s
  {
    hide Encode;
    FreshFields(p, s);
    if ControlPayload(Kind.Hello, HelloBody(hello), p.suite) != [] {
      assert Schema(Kind.Hello, HelloBody(hello));
    }
    hide ControlPayload;
    hide Stable;
  }

  lemma FreshFields(p: Party, s: Endpoint)
    requires Stable(p, s)
    ensures s.state == State.Idle ==> s.next == 1 && s.tx == p.tx && s.attempts == 0
  {
    hide Known;
    hide Numbered;
    if s.state == State.Idle {
      Unheard(p, s);
    }
  }

  /** What an endpoint with its resources ready says. */
  function ClosingMessage(p: Party, s: Endpoint, plan: Plan): Bytes {
    var text := ControlPayload(Kind.Prepare, PlanBody(plan), p.suite);
    if p.offer then Encode(Packet(Kind.Prepare, p.generation, s.round, s.next, text), s.tx, p.suite)
    else
      var ready := ControlPayload(Kind.Ready, ReadyBody(Digest(text, p.suite), plan.budget), p.suite);
      Encode(Packet(Kind.Ready, p.generation, s.round, s.next, ready), s.tx, p.suite)
  }

  /** The offer says its HELLO and the plan, the answer that it is ready, and each waits. */
  ghost predicate Closes(p: Party, s: Endpoint, t: Endpoint, now: int)
    requires s.plan.Some?
  {
    var data := ClosingMessage(p, s, s.plan.value);
    && t.plan == s.plan && t.digest == Digest(ControlPayload(Kind.Prepare, PlanBody(s.plan.value), p.suite), p.suite)
    && t.trace == s.trace + (if p.offer then [Sent(s.hello), Sent(data)] else [Sent(data)])
    && if p.offer then t.state == Preparing && t.prepare == data && Waits(t, Kind.Prepare, data, now)
       else t.state == State.Ready && t.ready == data && Waits(t, Kind.Ready, data, now)
  }

  lemma FinishCloses(p: Party, s: Endpoint, now: int)
    requires s.state == Allocating && s.plan.Some? && s.next != 0
    requires s.hello != [] && ClosingMessage(p, s, s.plan.value) != [] && s.attempts + 2 <= s.limit
    ensures Closes(p, s, FinishPreparation(p, s, now), now)
  {
    hide Encode;
    hide ControlPayload;
    hide Digest;
    var data := ClosingMessage(p, s, s.plan.value);
    assert s.trace + [Sent(s.hello)] + [Sent(data)] == s.trace + [Sent(s.hello), Sent(data)];
  }

  /** While the resources are being prepared each tick asks for them. */
  lemma Polls(p: Party, s: Endpoint, now: int, a: Answers)
    requires Stable(p, s) && Formed(p, s) && s.state == Allocating && now < s.deadline
    ensures s.plan.Some?
    ensures var t := Act(p, s, Timer(now, a));
      match a.pollHalt
      case Some(halt) => StopsWith(t, halt.reason)
      case None =>
        && (a.poll == Failed ==> StopsWith(t, "resources"))
        && (a.poll == Pending ==> t == s)
        && (a.poll == Done && s.hello != [] && ClosingMessage(p, s, s.plan.value) != [] && s.attempts + 2 <= s.limit ==>
          Closes(p, s, t, now))
  {
    hide Stable;
    hide FinishPreparation;
    hide ClosingMessage;
    hide Closes;
    hide StopsWith;
    hide Stop;
    hide Act;
    PollFacts(p, s);
    TickPolls(p, s, now, a);
    StopEnds(p, s, "resources", true);
    if a.pollHalt.Some? {
      StopEnds(p, s, a.pollHalt.value.reason, a.pollHalt.value.notify);
      StopOver(p, s, a.pollHalt.value.reason, a.pollHalt.value.notify);
    } else if s.hello != [] && ClosingMessage(p, s, s.plan.value) != [] && s.attempts + 2 <= s.limit {
      FinishCloses(p, s, now);
    }
  }

  lemma PollFacts(p: Party, s: Endpoint)
    requires Stable(p, s) && s.state == Allocating
    ensures s.plan.Some? && s.next != 0
  {
  }

  lemma TickPolls(p: Party, s: Endpoint, now: int, a: Answers)
    requires Formed(p, s) && s.state == Allocating && now < s.deadline
    ensures s.plan.Some? && Act(p, s, Timer(now, a)) == Poll(p, s, now, a)
  {
    hide Poll;
  }

  // ----- Over whole runs -----

  /** An endpoint that probes and waits for no message goes on so until it stops. */
  lemma ProbingStays(p: Party, s: Endpoint, a: Action)
    requires Stable(p, s) && Formed(p, s) && s.state == State.Probing && s.pending == []
    ensures var t := Act(p, s, a); t.Over() || (t.state == State.Probing && t.pending == [] && t.deadline == s.deadline)
  {
    ProbingFacts(p, s);
    hide Stable;
    hide Stop;
    hide Begin;
    hide Receive;
    hide Poll;
    hide Resend;
    match a {
      case Open(hello, now, deadline) => OpensOnce(p, s, hello, now, deadline);
      case Arrive(data, now, answers) =>
        ProbingHears(p, s, a);
      case Timer(now, answers) => StopOver(p, s, "timeout", true);
      case Quit(reason, notify) => StopOver(p, s, reason, notify);
    }
  }

  lemma OpensOnce(p: Party, s: Endpoint, hello: Offer, now: int, deadline: int)
    requires s.state != State.Idle
    ensures Begin(p, s, hello, now, deadline) == s
  {
  }

  lemma ProbingFacts(p: Party, s: Endpoint)
    requires Stable(p, s) && s.state == State.Probing
    ensures s.remoteHello.Some? && s.plan.Some? && s.localHello.Some?
  {
  }

  lemma ProbingHears(p: Party, s: Endpoint, a: Action)
    requires Formed(p, s) && s.state == State.Probing && s.pending == [] && s.remoteHello.Some? && s.plan.Some? && s.localHello.Some?
    requires a.Arrive?
    ensures var t := Act(p, s, a); t.Over() || (t.state == State.Probing && t.pending == [] && t.deadline == s.deadline)
  {
    hide Opened;
    hide Memory.After;
    hide Memory.Judge;
    hide Stop;
    hide Emit;
    hide Make;
    hide BeginPreparation;
    hide Propose;
    hide Proposal;
    hide StartRound;
    StopOver(p, s, "timeout", true);
    var o := Opened(p, s, a.data);
    if o.Some? && a.now < s.deadline {
      var n := Noted(p, s, a, o.value);
      StopOver(p, n, "conflict", true);
      EmitStays(n, n.ready);
      EmitStays(n, n.start);
      EmitStays(n, n.started);
      if o.value.kind == Cancel {
        StopOver(p, n, BodyOf(p, o.value).value.reason, false);
      }
    }
  }

  lemma EmitStays(s: Endpoint, data: Bytes)
    ensures var t := Emit(s, data).s; t.Over() || (t.state == s.state && t.pending == s.pending && t.deadline == s.deadline)
  {
  }

  lemma LifeStep(p: Party, script: seq<Action>, a: Action)
    ensures Formed(p, Life(p, script)) && Life(p, script + [a]) == Act(p, Life(p, script), a)
  {
    hide Act;
    hide Stable;
    StableForms(p, Life(p, script));
    assert (script + [a])[..|script|] == script;
  }

  lemma {:induction false} StaysProbing(p: Party, script: seq<Action>, more: seq<Action>)
    requires Life(p, script).state == State.Probing && Life(p, script).pending == []
    ensures var s, t := Life(p, script), Life(p, script + more);
      t.Over() || (t.state == State.Probing && t.pending == [] && t.deadline == s.deadline)
  {
    hide Act;
    hide Stable;
    hide Life;
    if more == [] {
      assert script + more == script;
    } else {
      var n := |more| - 1;
      StaysProbing(p, script, more[..n]);
      assert script + more == (script + more[..n]) + [more[n]];
      LifeStep(p, script + more[..n], more[n]);
      var t := Life(p, script + more[..n]);
      if t.Over() {
        OverStays(p, t, more[n]);
      } else {
        ProbingStays(p, t, more[n]);
      }
    }
  }

  /**
   Over every run: once an offer that probes has heard STARTED of its round and
   digest, it probes until something stops it, and no tick of the timer before
   the deadline changes it or sends anything.
   */
  lemma StartedSettles(p: Party, script: seq<Action>, a: Action, m: Packet, more: seq<Action>, now: int, answers: Answers)
    requires p.offer && Life(p, script).state == State.Probing
    requires Hears(p, Life(p, script), a, m) && m.kind == Kind.Started
    requires BodyOf(p, m) == Some(DigestBody(Life(p, script).digest))
    ensures var t := Life(p, script + [a] + more);
      t.Over() || (t.state == State.Probing && (now < t.deadline ==> Life(p, script + [a] + more + [Timer(now, answers)]) == t))
  {
    hide Act;
    hide Stable;
    hide Hears;
    LifeStep(p, script, a);
    HearsStarted(p, Life(p, script), a, m);
    StaysProbing(p, script + [a], more);
    var t := Life(p, script + [a] + more);
    LifeStep(p, script + [a] + more, Timer(now, answers));
    if !t.Over() && now < t.deadline {
      NothingDue(p, t, now, answers);
    }
  }

  /** Ticks none of which is past the deadline or finds a message due. */
  ghost predicate Early(s: Endpoint, ticks: seq<Action>) {
    forall i :: 0 <= i < |ticks| ==> ticks[i].Timer? && ticks[i].now < s.deadline && (s.pending == [] || ticks[i].now < s.retryAt)
  }

  /** However many ticks come early, nothing happens. */
  lemma {:induction false} EarlyTicks(p: Party, script: seq<Action>, ticks: seq<Action>)
    requires Running(Life(p, script)) && Life(p, script).state != Allocating && Early(Life(p, script), ticks)
    ensures Life(p, script + ticks) == Life(p, script)
  {
    hide Act;
    hide Stable;
    hide Life;
    if ticks == [] {
      assert script + ticks == script;
    } else {
      var n := |ticks| - 1;
      EarlyTicks(p, script, ticks[..n]);
      assert script + ticks == (script + ticks[..n]) + [ticks[n]];
      LifeStep(p, script + ticks[..n], ticks[n]);
      NothingDue(p, Life(p, script), ticks[n].now, ticks[n].answers);
    }
  }

  /** Any number of ticks before `until`, and a tick at or after it. */
  datatype Wait = Wait(early: seq<Action>, due: Action)
  {
    ghost predicate Until(until: int, deadline: int) {
      && (forall i :: 0 <= i < |early| ==> early[i].Timer? && early[i].now < until && early[i].now < deadline)
      && due.Timer? && until <= due.now < deadline
    }

    function All(): seq<Action> {
      early + [due]
    }
  }

  /** What is sent each time: the message, behind the HELLO when it is a PREPARE. */
  function Round(s: Endpoint): seq<Event> {
    if s.pendingKind == Kind.Prepare then [Sent(s.hello), Sent(s.pending)] else [Sent(s.pending)]
  }

  /** The endpoint when the message has been sent `n` more times, the last time by a tick at `now`. */
  function SentAgain(s: Endpoint, n: nat, now: int): Endpoint {
    s.(attempts := s.attempts + n * |Round(s)|, trace := s.trace + Times(Round(s), n), retries := n,
       retryAt := now + if n <= 1 then 400 else 800)
  }

  function Times(events: seq<Event>, n: nat): seq<Event> {
    if n == 0 then [] else Times(events, n - 1) + events
  }

  /** One more retry, after any early ticks. */
  lemma OnceMore(p: Party, script: seq<Action>, s: Endpoint, n: nat, now: int, w: Wait)
    requires Formed(p, s) && Running(s) && s.state != Allocating && s.pending != [] && s.hello != [] && n < 3
    requires s.attempts + 3 * |Round(s)| <= s.limit && s.retries == 0
    requires Life(p, script) == (if n == 0 then s else SentAgain(s, n, now))
    requires w.Until(Life(p, script).retryAt, s.deadline)
    ensures Life(p, script + w.All()) == SentAgain(s, n + 1, w.due.now)
  {
    hide Act;
    hide Stable;
    hide Life;
    hide Formed;
    var t := Life(p, script);
    EarlyTicks(p, script, w.early);
    LifeStep(p, script + w.early, w.due);
    assert script + w.All() == script + w.early + [w.due];
    assert n * |Round(s)| + |Round(s)| <= 3 * |Round(s)|;
    DueAgain(p, t, w.due.now, w.due.answers);
    assert Times(Round(s), n + 1) == Times(Round(s), n) + Round(s);
    assert t.trace + Round(s) == s.trace + Times(Round(s), n + 1);
  }

  /**
   Left alone with packets to spend, an endpoint says its message again 200 ms
   after the first time, then 400, 800 and 800 ms later at the earliest, whatever
   other ticks there are: three times in all, and the fourth time a HELLO falls
   silent and any other message gives up.
   */
  lemma RetrySchedule(p: Party, script: seq<Action>, w: seq<Wait>)
    requires var s := Life(p, script);
      && Running(s) && s.state != Allocating && s.pending != [] && s.hello != [] && s.retries == 0
      && s.attempts + 3 * |Round(s)| <= s.limit
      && |w| == 4 && w[0].Until(s.retryAt, s.deadline) && w[1].Until(w[0].due.now + 400, s.deadline)
      && w[2].Until(w[1].due.now + 800, s.deadline) && w[3].Until(w[2].due.now + 800, s.deadline)
    ensures var s, all := Life(p, script), script + w[0].All() + w[1].All() + w[2].All();
      && Life(p, script + w[0].All()) == SentAgain(s, 1, w[0].due.now)
      && Life(p, script + w[0].All() + w[1].All()) == SentAgain(s, 2, w[1].due.now)
      && Life(p, all) == SentAgain(s, 3, w[2].due.now)
      && var t := Life(p, all + w[3].All());
        if s.pendingKind == Kind.Hello then t == SentAgain(s, 3, w[2].due.now).(pending := []) else StopsWith(t, "timeout")
  {
    hide Act;
    hide Stable;
    hide Life;
    hide Formed;
    hide Times;
    hide StopsWith;
    var s := Life(p, script);
    StableForms(p, s);
    OnceMore(p, script, s, 0, 0, w[0]);
    OnceMore(p, script + w[0].All(), s, 1, w[0].due.now, w[1]);
    OnceMore(p, script + w[0].All() + w[1].All(), s, 2, w[1].due.now, w[2]);
    var all := script + w[0].All() + w[1].All() + w[2].All();
    LastTime(p, all, w[3]);
  }

  /** The fourth time. */
  lemma LastTime(p: Party, script: seq<Action>, w: Wait)
    requires var s := Life(p, script);
      && Running(s) && s.state != Allocating && s.pending != [] && s.retries == 3 && w.Until(s.retryAt, s.deadline)
    ensures var s, t := Life(p, script), Life(p, script + w.All());
      if s.pendingKind == Kind.Hello then t == s.(pending := []) else StopsWith(t, "timeout")
  {
    hide Act;
    hide Stable;
    hide Life;
    hide Formed;
    EarlyTicks(p, script, w.early);
    LifeStep(p, script + w.early, w.due);
    assert script + w.All() == script + w.early + [w.due];
    DueNoMore(p, Life(p, script), w.due.now, w.due.answers);
  }
}
