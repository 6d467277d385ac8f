/**
 The negotiation can succeed: one schedule, in which nothing is lost and no
 hook refuses, takes both ends to probing the same plan.
 */
module PunchProgress {
  import opened Common
  import opened PunchValues
  import opened PunchProtocol
  import opened Replay
  import opened PunchMachine
  import opened PunchInvariant
  import opened PunchEffects
  import opened PunchSystem
  import PunchAnswers

  /** Two HELLOs both ends can agree on, and the round the offer draws. */
  datatype Deal = Deal(h: Offer, g: Offer, terms: Plan, round: Id, deadline: int)

  function HelloText(ps: Pair, o: Offer): Bytes {
    ControlPayload(Kind.Hello, HelloBody(o), ps.offer.suite)
  }

  /** The plan with the digests of the two HELLOs. */
  function Terms(ps: Pair, d: Deal): Plan {
    d.terms.(offerHello := Digest(HelloText(ps, d.h), ps.offer.suite), answerHello := Digest(HelloText(ps, d.g), ps.offer.suite))
  }

  function TermsDigest(ps: Pair, d: Deal): string {
    DigestOf(ps.offer, Terms(ps, d))
  }

  ghost predicate Workable(ps: Pair, d: Deal) {
    && ps.Valid() && ps.offer.hooked && ps.answer.hooked && !IsZero(ps.offer.generation) && !IsZero(d.round)
    && 0 < d.deadline <= 30000
    && HelloText(ps, d.h) != [] && HelloText(ps, d.g) != []
    && d.h.budget.controlPackets >= 4 && d.g.budget.controlPackets >= 4
    && ps.offer.agree(d.h, d.g) == Some(d.terms) && ps.answer.agree(d.h, d.g) == Some(d.terms)
    && ControlPayload(Kind.Prepare, PlanBody(Terms(ps, d)), ps.offer.suite) != []
    && ControlPayload(Kind.Ready, ReadyBody(TermsDigest(ps, d), d.terms.budget), ps.offer.suite) != []
    && ControlPayload(Kind.Start, DigestBody(TermsDigest(ps, d)), ps.offer.suite) != []
  }

  /** The hooks agree to everything. */
  function Willing(d: Deal): Answers {
    Answers(true, None, Done, None, None, true, d.round)
  }

  // ----- The packets -----

  function Message(p: Party, kind: Kind, round: Id, n: Sequence, v: Value): Packet {
    Packet(kind, p.generation, round, n, ControlPayload(kind, v, p.suite))
  }

  function HelloPacket(p: Party, o: Offer): Packet {
    Message(p, Kind.Hello, Zeros(16), 1, HelloBody(o))
  }

  function PreparePacket(ps: Pair, d: Deal): Packet {
    Message(ps.offer, Kind.Prepare, d.round, 2, PlanBody(Terms(ps, d)))
  }

  function ReadyPacket(ps: Pair, d: Deal): Packet {
    Message(ps.answer, Kind.Ready, d.round, 2, ReadyBody(TermsDigest(ps, d), d.terms.budget))
  }

  function StartPacket(ps: Pair, d: Deal): Packet {
    Message(ps.offer, Kind.Start, d.round, 3, DigestBody(TermsDigest(ps, d)))
  }

  function StartedPacket(ps: Pair, d: Deal): Packet {
    Message(ps.answer, Kind.Started, d.round, 3, DigestBody(TermsDigest(ps, d)))
  }

  function Wire(p: Party, m: Packet): Bytes {
    Encode(m, p.tx, p.suite)
  }

  /** A message with a printable body goes on the wire, and opens at the other end. */
  lemma Opens(p: Party, q: Party, s: Endpoint, kind: Kind, round: Id, n: Sequence, v: Value)
    requires p.suite == q.suite && p.generation == q.generation && p.tx == q.rx && s.rx == q.rx && p.suite.ReadsBack()
    requires n != 0 && !IsZero(p.generation) && RoundOk(kind, round) && DomainOf(kind) == Control
    requires ControlPayload(kind, v, p.suite) != []
    ensures var m := Message(p, kind, round, n, v);
      Wire(p, m) != [] && Opened(q, s, Wire(p, m)) == Some(m) && ParseControl(kind, m.payload, p.suite) == Some(v)
  {
    hide Body;
    hide ControlPayload;
    hide Decode;
    var m := Message(p, kind, round, n, v);
    PayloadReadsBack(kind, v, p.suite);
    BodyLength(m);
    DecodeEncode(m, p.tx, p.suite);
  }

  lemma BodyLength(m: Packet)
    ensures |Body(m)| >= HEADER_SIZE
  {
  }

  // ----- Where an endpoint stands -----

  /** Running, with these numbers of packets made and sent. */
  ghost predicate Stands(p: Party, s: Endpoint, own: Offer, state: State, made: nat, sent: nat, until: int) {
    && s.state == state && s.tx == p.tx && s.rx == p.rx && s.localHello == Some(own) && s.limit == own.budget.controlPackets
    && s.next == made + 1 && s.attempts == sent && s.deadline == until && s.hello == Wire(p, HelloPacket(p, own))
    && WasSent(s, s.hello)
  }

  /** Nothing heard yet. */
  ghost predicate Unmet(s: Endpoint) {
    s.remoteHello == None && s.plan == None && IsZero(s.round) && s.digest == "" && s.replay == FORGETFUL
  }

  /** The other HELLO heard, and this many packets in all. */
  ghost predicate Met(ps: Pair, s: Endpoint, other: Offer, heard: nat) {
    && s.remoteHello == Some(other) && s.remotePayload == HelloText(ps, other)
    && forall n: Sequence :: n in s.replay.accepted ==> n <= heard
  }

  lemma SentLast(s: Endpoint, data: Bytes)
    requires s.attempts < s.limit && data != [] && !s.Over()
    ensures WasSent(Emit(s, data).s, data)
  {
    var t := Emit(s, data).s;
    assert t.trace[|s.trace|] == Sent(data);
  }

  lemma SentStays(s: Endpoint, t: Endpoint, data: Bytes)
    requires s.trace <= t.trace && WasSent(s, data)
    ensures WasSent(t, data)
  {
    var i :| 0 <= i < |s.trace| && s.trace[i] == Sent(data);
    assert t.trace[i] == Sent(data);
  }

  /** Opening: the HELLO goes out. */
  lemma OpenStep(p: Party, own: Offer, until: int)
    requires p.hooked && 0 < until <= 30000 && ControlPayload(Kind.Hello, HelloBody(own), p.suite) != []
    requires p.suite.ReadsBack() && !IsZero(p.generation) && own.budget.controlPackets >= 4
    ensures var t := Begin(p, Initial(p), own, 0, until);
      Stands(p, t, own, State.Hello, 1, 1, until) && Unmet(t) && t.pending != [] && t.pendingKind == Kind.Hello && t.retryAt == 200
  {
    hide ControlPayload;
    hide Encode;
    var open := Initial(p).(state := State.Hello, deadline := until, localHello := Some(own), limit := own.budget.controlPackets);
    var m := Make(p, open, Kind.Hello, HelloBody(own));
    PayloadOk1(p, own);
    assert m.data == Wire(p, HelloPacket(p, own));
    var waiting := m.s.(hello := m.data, pending := m.data, pendingKind := Kind.Hello, retries := 0, retryAt := 200);
    SentLast(waiting, m.data);
  }

  lemma PayloadOk1(p: Party, own: Offer)
    requires p.suite.ReadsBack() && !IsZero(p.generation) && ControlPayload(Kind.Hello, HelloBody(own), p.suite) != []
    ensures Wire(p, HelloPacket(p, own)) != []
  {
    hide Body;
    hide ControlPayload;
    PayloadReadsBack(Kind.Hello, HelloBody(own), p.suite);
    BodyLength(HelloPacket(p, own));
  }

  /** The replay memory takes a number above all it heard. */
  lemma NewNumber(memory: Memory, heard: nat, n: Sequence, digest: Key)
    requires heard < n < 256 && memory.high <= heard && forall k: Sequence :: k in memory.accepted ==> k <= heard
    ensures memory.Judge(n, digest) == Verdict.Fresh
    ensures var after := memory.After(n, digest); after.high <= n && forall k: Sequence :: k in after.accepted ==> k <= n
  {
  }

  /** An endpoint that has met the other and this many of its packets. */
  ghost predicate Listening(ps: Pair, s: Endpoint, other: Offer, heard: nat) {
    Met(ps, s, other, heard) && s.replay.high <= heard < 200
  }

  /** The answer hears the offer's HELLO, and says its own again. */
  lemma AnswerHears(ps: Pair, d: Deal, s: Endpoint)
    requires Workable(ps, d) && Formed(ps.answer, s) && Stands(ps.answer, s, d.g, State.Hello, 1, 1, d.deadline) && Unmet(s)
    ensures var t := Receive(ps.answer, s, Wire(ps.offer, HelloPacket(ps.offer, d.h)), 0, Willing(d));
      Stands(ps.answer, t, d.g, State.Hello, 1, 2, d.deadline) && Listening(ps, t, d.h, 1)
      && t.plan == None && IsZero(t.round) && t.digest == ""
  {
    hide Encode;
    hide Decode;
    hide Opened;
    hide ControlPayload;
    hide ParseControl;
    hide WasSent;
    var data := Wire(ps.offer, HelloPacket(ps.offer, d.h));
    Opens(ps.offer, ps.answer, s, Kind.Hello, Zeros(16), 1, HelloBody(d.h));
    NewNumber(s.replay, 0, 1, ps.answer.suite.sha(data));
    var t := Receive(ps.answer, s, data, 0, Willing(d));
    PayloadOk1(ps.answer, d.g);
    assert s.trace <= t.trace;
    SentStays(s, t, s.hello);
  }

  /** Preparing a plan for a round: the hook was asked, nothing more was sent. */
  ghost predicate Planned(ps: Pair, d: Deal, s: Endpoint, other: Offer, heard: nat) {
    Listening(ps, s, other, heard) && s.plan == Some(Terms(ps, d)) && s.round == d.round
  }

  /** The endpoint once its plan is being prepared. */
  function Asked(s: Endpoint, plan: Plan, round: Id): Endpoint {
    s.(plan := Some(plan), round := round, state := Allocating, pending := []).Log(Prepared(plan))
  }

  lemma AskedPrepares(p: Party, s: Endpoint, plan: Plan, round: Id, d: Deal)
    ensures BeginPreparation(p, s.(plan := Some(plan), round := round), 0, Willing(d)) ==
      if p.polls then Asked(s, plan, round) else FinishPreparation(p, Asked(s, plan, round), 0)
  {
    hide FinishPreparation;
  }

  lemma ProposalIs(ps: Pair, d: Deal, p: Party, s: Endpoint)
    requires Workable(ps, d) && (p == ps.offer || p == ps.answer) && s.localHello.Some? && s.remoteHello.Some?
    requires s.localHello.value == (if p.offer then d.h else d.g) && s.remoteHello.value == (if p.offer then d.g else d.h)
    requires s.remotePayload == HelloText(ps, s.remoteHello.value)
    ensures Proposal(p, s) == Some(Terms(ps, d))
  {
    hide ControlPayload;
    hide Digest;
  }

  /** The offer hears the answer's HELLO, draws the round and asks for its resources. */
  lemma OfferHears(ps: Pair, d: Deal, s: Endpoint) returns (asked: Endpoint)
    requires Workable(ps, d) && Formed(ps.offer, s) && Stands(ps.offer, s, d.h, State.Hello, 1, 1, d.deadline) && Unmet(s)
    ensures Stands(ps.offer, asked, d.h, Allocating, 1, 1, d.deadline) && Planned(ps, d, asked, d.g, 1) && asked.digest == ""
    ensures Receive(ps.offer, s, Wire(ps.answer, HelloPacket(ps.answer, d.g)), 0, Willing(d)) ==
      if ps.offer.polls then asked else FinishPreparation(ps.offer, asked, 0)
  {
    hide Encode;
    hide Decode;
    hide Opened;
    hide ControlPayload;
    hide ParseControl;
    hide WasSent;
    hide FinishPreparation;
    hide BeginPreparation;
    hide Proposal;
    hide Digest;
    hide DigestOf;
    var data := Wire(ps.answer, HelloPacket(ps.answer, d.g));
    Opens(ps.answer, ps.offer, s, Kind.Hello, Zeros(16), 1, HelloBody(d.g));
    NewNumber(s.replay, 0, 1, ps.offer.suite.sha(data));
    var greeted := s.(replay := s.replay.After(1, ps.offer.suite.sha(data)), remoteHello := Some(d.g),
                      remotePayload := HelloText(ps, d.g)).Log(Greeted(d.g, 0));
    ProposalIs(ps, d, ps.offer, greeted);
    AskedPrepares(ps.offer, greeted, Terms(ps, d), d.round, d);
    asked := Asked(greeted, Terms(ps, d), d.round);
    SentStays(s, asked, s.hello);
  }

  /** The answer hears the offer's plan, finds it is the one it expects, and asks for its resources. */
  lemma AnswerPlans(ps: Pair, d: Deal, s: Endpoint) returns (asked: Endpoint)
    requires Workable(ps, d) && Formed(ps.answer, s) && Stands(ps.answer, s, d.g, State.Hello, 1, 2, d.deadline)
    requires Listening(ps, s, d.h, 1) && s.plan == None && IsZero(s.round) && s.digest == ""
    ensures Stands(ps.answer, asked, d.g, Allocating, 1, 2, d.deadline) && Planned(ps, d, asked, d.h, 2) && asked.digest == ""
    ensures Receive(ps.answer, s, Wire(ps.offer, PreparePacket(ps, d)), 0, Willing(d)) ==
      if ps.answer.polls then asked else FinishPreparation(ps.answer, asked, 0)
  {
    hide Encode;
    hide Decode;
    hide Opened;
    hide ControlPayload;
    hide ParseControl;
    hide WasSent;
    hide FinishPreparation;
    hide BeginPreparation;
    hide Proposal;
    hide Digest;
    hide DigestOf;
    var data := Wire(ps.offer, PreparePacket(ps, d));
    Opens(ps.offer, ps.answer, s, Kind.Prepare, d.round, 2, PlanBody(Terms(ps, d)));
    NewNumber(s.replay, 1, 2, ps.answer.suite.sha(data));
    var t := s.(replay := s.replay.After(2, ps.answer.suite.sha(data)));
    ProposalIs(ps, d, ps.answer, t);
    AskedPrepares(ps.answer, t, Terms(ps, d), d.round, d);
    asked := Asked(t, Terms(ps, d), d.round);
    SentStays(s, asked, s.hello);
  }

  /** What a message needs to be made and sent. */
  lemma Sends(p: Party, s: Endpoint, kind: Kind, v: Value)
    requires !s.Over() && s.tx == p.tx && 0 < s.next < 200 && p.suite.ReadsBack() && !IsZero(p.generation) && !IsZero(s.round)
    requires kind != Kind.Hello && DomainOf(kind) == Control && ControlPayload(kind, v, p.suite) != []
    ensures var m := Make(p, s, kind, v);
      && m.data == Wire(p, Message(p, kind, s.round, s.next, v)) != []
      && m.s == s.(made := m.s.made, next := s.next + 1)
  {
    hide Body;
    hide ControlPayload;
    PayloadReadsBack(kind, v, p.suite);
    BodyLength(Message(p, kind, s.round, s.next, v));
  }

  /** With its resources ready, the offer sends its HELLO again and the plan. */
  lemma OfferFinishes(ps: Pair, d: Deal, s: Endpoint)
    requires Workable(ps, d) && Stands(ps.offer, s, d.h, Allocating, 1, 1, d.deadline) && Planned(ps, d, s, d.g, 1) && s.digest == ""
    ensures var t := FinishPreparation(ps.offer, s, 0);
      && Stands(ps.offer, t, d.h, Preparing, 2, 3, d.deadline) && Planned(ps, d, t, d.g, 1) && t.digest == TermsDigest(ps, d)
      && WasSent(t, Wire(ps.offer, PreparePacket(ps, d))) && t.retryAt == 200
  {
    hide Encode;
    hide ControlPayload;
    hide WasSent;
    hide Make;
    hide Digest;
    hide DigestOf;
    var p := ps.offer;
    var settled := s.(digest := TermsDigest(ps, d));
    Sends(p, settled, Kind.Prepare, PlanBody(Terms(ps, d)));
    var m := Make(p, settled, Kind.Prepare, PlanBody(Terms(ps, d)));
    var ready := m.s.(prepare := m.data, state := Preparing);
    PayloadOk1(p, d.h);
    var again := Emit(ready, ready.hello).s;
    var waiting := again.(pending := m.data, pendingKind := Kind.Prepare, retries := 0, retryAt := 200);
    SentLast(waiting, m.data);
    var t := Emit(waiting, m.data).s;
    SettledDigest(ps, d, p, s);
    assert t == FinishPreparation(p, s, 0);
    SentStays(s, t, s.hello);
  }

  lemma SettledDigest(ps: Pair, d: Deal, p: Party, s: Endpoint)
    requires Workable(ps, d) && (p == ps.offer || p == ps.answer) && s.plan == Some(Terms(ps, d))
    ensures Digest(ControlPayload(Kind.Prepare, PlanBody(s.plan.value), p.suite), p.suite) == TermsDigest(ps, d)
  {
  }

  /** With its resources ready, the answer says so. */
  lemma AnswerFinishes(ps: Pair, d: Deal, s: Endpoint)
    requires Workable(ps, d) && Stands(ps.answer, s, d.g, Allocating, 1, 2, d.deadline) && Planned(ps, d, s, d.h, 2) && s.digest == ""
    ensures var t := FinishPreparation(ps.answer, s, 0);
      && Stands(ps.answer, t, d.g, State.Ready, 2, 3, d.deadline) && Planned(ps, d, t, d.h, 2) && t.digest == TermsDigest(ps, d)
      && WasSent(t, Wire(ps.answer, ReadyPacket(ps, d))) && t.retryAt == 200
  {
    hide Encode;
    hide ControlPayload;
    hide WasSent;
    hide Make;
    hide Digest;
    hide DigestOf;
    var p := ps.answer;
    var settled := s.(digest := TermsDigest(ps, d));
    var v := ReadyBody(TermsDigest(ps, d), d.terms.budget);
    Sends(p, settled, Kind.Ready, v);
    var m := Make(p, settled, Kind.Ready, v);
    var waiting := m.s.(ready := m.data, state := State.Ready, pending := m.data, pendingKind := Kind.Ready, retries := 0, retryAt := 200);
    SentLast(waiting, m.data);
    var t := Emit(waiting, m.data).s;
    SettledDigest(ps, d, p, s);
    assert t == FinishPreparation(p, s, 0);
    SentStays(s, t, s.hello);
  }

  /** A timer tick finds the resources ready, or nothing to do. */
  lemma TickFinishes(p: Party, asked: Endpoint, d: Deal, until: int)
    requires asked.state == Allocating && asked.plan.Some? && asked.deadline == until > 0
    requires Formed(p, if p.polls then asked else FinishPreparation(p, asked, 0))
    requires var done := FinishPreparation(p, asked, 0);
      done.state in {Preparing, State.Ready} && done.retryAt == 200 && done.deadline == until
    ensures Tick(p, if p.polls then asked else FinishPreparation(p, asked, 0), 0, Willing(d)) == FinishPreparation(p, asked, 0)
  {
    hide FinishPreparation;
  }

  /** Probing the plan, with this many packets of the other end heard. */
  ghost predicate Probes(ps: Pair, d: Deal, p: Party, s: Endpoint, other: Offer, heard: nat) {
    s.state == State.Probing && s.rx == p.rx && s.deadline == d.deadline && Planned(ps, d, s, other, heard) && s.digest == TermsDigest(ps, d)
  }

  /** The offer hears that the answer is ready, begins the round and says so. */
  lemma OfferStarts(ps: Pair, d: Deal, s: Endpoint)
    requires Workable(ps, d) && Formed(ps.offer, s) && Stands(ps.offer, s, d.h, Preparing, 2, 3, d.deadline)
    requires Planned(ps, d, s, d.g, 1) && s.digest == TermsDigest(ps, d)
    ensures var t := Receive(ps.offer, s, Wire(ps.answer, ReadyPacket(ps, d)), 0, Willing(d));
      Probes(ps, d, ps.offer, t, d.g, 2) && WasSent(t, Wire(ps.offer, StartPacket(ps, d)))
  {
    hide Encode;
    hide Decode;
    hide Opened;
    hide ControlPayload;
    hide ParseControl;
    hide WasSent;
    hide Make;
    hide Digest;
    hide DigestOf;
    var p, data := ps.offer, Wire(ps.answer, ReadyPacket(ps, d));
    Opens(ps.answer, p, s, Kind.Ready, d.round, 2, ReadyBody(TermsDigest(ps, d), d.terms.budget));
    NewNumber(s.replay, 1, 2, p.suite.sha(data));
    var heard := s.(replay := s.replay.After(2, p.suite.sha(data)));
    Sends(p, heard, Kind.Start, DigestBody(TermsDigest(ps, d)));
    var m := Make(p, heard, Kind.Start, DigestBody(TermsDigest(ps, d)));
    var begun := m.s.(start := m.data, state := State.Probing).Log(Began(d.round, Terms(ps, d), 0));
    var waiting := begun.(pending := m.data, pendingKind := Kind.Start, retries := 0, retryAt := 200);
    SentLast(waiting, m.data);
  }

  /** The answer hears that the round has begun, and begins it too. */
  lemma AnswerStarts(ps: Pair, d: Deal, s: Endpoint)
    requires Workable(ps, d) && Formed(ps.answer, s) && Stands(ps.answer, s, d.g, State.Ready, 2, 3, d.deadline)
    requires Planned(ps, d, s, d.h, 2) && s.digest == TermsDigest(ps, d)
    ensures var t := Receive(ps.answer, s, Wire(ps.offer, StartPacket(ps, d)), 0, Willing(d));
      Probes(ps, d, ps.answer, t, d.h, 3) && t.pending == [] && WasSent(t, Wire(ps.answer, StartedPacket(ps, d)))
  {
    hide Encode;
    hide Decode;
    hide Opened;
    hide ControlPayload;
    hide ParseControl;
    hide WasSent;
    hide Make;
    hide Digest;
    hide DigestOf;
    var p, data := ps.answer, Wire(ps.offer, StartPacket(ps, d));
    Opens(ps.offer, p, s, Kind.Start, d.round, 3, DigestBody(TermsDigest(ps, d)));
    NewNumber(s.replay, 2, 3, p.suite.sha(data));
    var heard := s.(replay := s.replay.After(3, p.suite.sha(data)), pending := []);
    StartedPrints(ps, d);
    Sends(p, heard, Kind.Started, DigestBody(TermsDigest(ps, d)));
    var m := Make(p, heard, Kind.Started, DigestBody(TermsDigest(ps, d)));
    SentLast(m.s.(started := m.data, state := State.Probing).Log(Began(d.round, Terms(ps, d), 0)), m.data);
  }

  /** The offer hears that the answer has begun too, and waits for nothing any more. */
  lemma OfferSettles(ps: Pair, d: Deal, s: Endpoint)
    requires Workable(ps, d) && Formed(ps.offer, s) && Probes(ps, d, ps.offer, s, d.g, 2)
    ensures var t := Receive(ps.offer, s, Wire(ps.answer, StartedPacket(ps, d)), 0, Willing(d));
      Probes(ps, d, ps.offer, t, d.g, 3) && t.pending == []
  {
    hide Encode;
    hide Decode;
    hide Opened;
    hide ControlPayload;
    hide ParseControl;
    hide Digest;
    hide DigestOf;
    var p, data := ps.offer, Wire(ps.answer, StartedPacket(ps, d));
    StartedPrints(ps, d);
    Opens(ps.answer, p, s, Kind.Started, d.round, 3, DigestBody(TermsDigest(ps, d)));
    NewNumber(s.replay, 2, 3, p.suite.sha(data));
  }

  lemma StartedPrints(ps: Pair, d: Deal)
    requires Workable(ps, d)
    ensures ControlPayload(Kind.Started, DigestBody(TermsDigest(ps, d)), ps.answer.suite) != []
  {
  }

  // ----- The whole schedule -----

  lemma Extend(ps: Pair, script: seq<Move>, m: Move)
    requires Unforged(ps, script) && Genuine(ps, Play(ps, script), m)
    ensures Unforged(ps, script + [m]) && Play(ps, script + [m]) == After(ps, Play(ps, script), m)
  {
    hide Stable;
    hide Genuine;
    hide After;
    var longer := script + [m];
    assert longer[..|script|] == script;
    forall i | 0 <= i < |longer| ensures Genuine(ps, Play(ps, longer[..i]), longer[i]) {
      if i < |script| {
        assert longer[..i] == script[..i] && longer[i] == script[i];
      }
    }
  }

  /** One move of one end, the other standing still. */
  lemma Moves(ps: Pair, script: seq<Move>, byOffer: bool, a: Action) returns (longer: seq<Move>)
    requires Unforged(ps, script)
    requires a.Arrive? ==> WasSent(if byOffer then Play(ps, script).answer else Play(ps, script).offer, a.data)
    ensures Unforged(ps, longer)
    ensures var w, v := Play(ps, script), Play(ps, longer);
      && Formed(ps.offer, w.offer) && Formed(ps.answer, w.answer) && Formed(ps.offer, v.offer) && Formed(ps.answer, v.answer)
      && v == if byOffer then World(Act(ps.offer, w.offer, a), w.answer) else World(w.offer, Act(ps.answer, w.answer, a))
  {
    hide Stable;
    hide Act;
    hide Opened;
    hide WasSent;
    Extend(ps, script, Move(byOffer, a));
    longer := script + [Move(byOffer, a)];
    StandingForms(ps, Play(ps, script));
    StandingForms(ps, Play(ps, longer));
  }

  lemma StandingForms(ps: Pair, w: World)
    requires Standing(ps, w)
    ensures Formed(ps.offer, w.offer) && Formed(ps.answer, w.answer)
  {
    hide Core;
    StableForms(ps.offer, w.offer);
    StableForms(ps.answer, w.answer);
  }

  /** The two HELLOs cross, and the offer prepares. */
  lemma Greet(ps: Pair, d: Deal) returns (script: seq<Move>)
    requires Workable(ps, d)
    ensures Unforged(ps, script)
    ensures var w := Play(ps, script);
      && Stands(ps.offer, w.offer, d.h, Preparing, 2, 3, d.deadline) && Planned(ps, d, w.offer, d.g, 1)
      && w.offer.digest == TermsDigest(ps, d) && WasSent(w.offer, Wire(ps.offer, PreparePacket(ps, d)))
      && Stands(ps.answer, w.answer, d.g, State.Hello, 1, 2, d.deadline) && Listening(ps, w.answer, d.h, 1)
      && w.answer.plan == None && IsZero(w.answer.round) && w.answer.digest == ""
  {
    hide Stable;
    hide Play;
    hide Unforged;
    hide Begin;
    hide Receive;
    hide Tick;
    hide WasSent;
    hide Wire;
    hide Terms;
    hide FinishPreparation;
    hide ControlPayload;
    hide Listening;
    hide Formed;
    hide Proposal;
    hide DigestOf;
    script := [];
    NothingPlayed(ps);
    script := Moves(ps, script, true, Open(d.h, 0, d.deadline));
    OpenStep(ps.offer, d.h, d.deadline);
    script := Moves(ps, script, false, Open(d.g, 0, d.deadline));
    OpenStep(ps.answer, d.g, d.deadline);
    var o, s := Play(ps, script).offer, Play(ps, script).answer;
    script := Moves(ps, script, false, Arrive(o.hello, 0, Willing(d)));
    AnswerHears(ps, d, s);
    script := Moves(ps, script, true, Arrive(s.hello, 0, Willing(d)));
    var asked := OfferHears(ps, d, o);
    OfferFinishes(ps, d, asked);
    TickFinishes(ps.offer, asked, d, d.deadline);
    script := Moves(ps, script, true, Timer(0, Willing(d)));
  }

  /**
   Whenever both ends can agree on a plan and print it, and allow themselves
   four control packets, some schedule takes both to probing that plan; and no
   number of ticks before the deadline changes either end after that.
   */
  lemma Completes(ps: Pair, d: Deal) returns (script: seq<Move>)
    requires Workable(ps, d)
    ensures Unforged(ps, script)
    ensures var w := Play(ps, script);
      && w.offer.state == State.Probing && w.answer.state == State.Probing
      && w.offer.plan == w.answer.plan == Some(Terms(ps, d)) && w.offer.round == w.answer.round == d.round
      && forall ticks :: Ticks(ticks, d.deadline) ==> Play(ps, script + ticks) == w
  {
    hide Stable;
    hide Play;
    hide Unforged;
    hide Receive;
    hide Tick;
    hide WasSent;
    hide Wire;
    hide Terms;
    hide FinishPreparation;
    hide ControlPayload;
    hide Listening;
    hide Formed;
    hide Workable;
    hide TermsDigest;
    script := Greet(ps, d);
    DealLasts(ps, d);
    var o, s := Play(ps, script).offer, Play(ps, script).answer;
    StandingForms(ps, Play(ps, script));
    script := Moves(ps, script, false, Arrive(Wire(ps.offer, PreparePacket(ps, d)), 0, Willing(d)));
    var asked := AnswerPlans(ps, d, s);
    AnswerFinishes(ps, d, asked);
    TickFinishes(ps.answer, asked, d, d.deadline);
    script := Moves(ps, script, false, Timer(0, Willing(d)));
    s := Play(ps, script).answer;
    script := Moves(ps, script, true, Arrive(Wire(ps.answer, ReadyPacket(ps, d)), 0, Willing(d)));
    OfferStarts(ps, d, o);
    script := Moves(ps, script, false, Arrive(Wire(ps.offer, StartPacket(ps, d)), 0, Willing(d)));
    AnswerStarts(ps, d, s);
    o := Play(ps, script).offer;
    script := Moves(ps, script, true, Arrive(Wire(ps.answer, StartedPacket(ps, d)), 0, Willing(d)));
    OfferSettles(ps, d, o);
    forall ticks | Ticks(ticks, d.deadline)
      ensures Play(ps, script + ticks) == Play(ps, script)
    {
      TicksChangeNothing(ps, script, ticks, d.deadline);
    }
  }

  /** Any ticks of either end's timer before this time. */
  ghost predicate Ticks(ticks: seq<Move>, until: int) {
    forall i :: 0 <= i < |ticks| ==> ticks[i].action.Timer? && ticks[i].action.now < until
  }

  lemma {:induction false} TicksChangeNothing(ps: Pair, script: seq<Move>, ticks: seq<Move>, until: int)
    requires var w := Play(ps, script);
      && w.offer.state == State.Probing && w.offer.pending == [] && w.offer.deadline == until
      && w.answer.state == State.Probing && w.answer.pending == [] && w.answer.deadline == until
    requires Ticks(ticks, until)
    ensures Play(ps, script + ticks) == Play(ps, script)
  {
    hide Stable;
    hide Act;
    hide Formed;
    if ticks == [] {
      assert script + ticks == script;
    } else {
      var n := |ticks| - 1;
      TicksChangeNothing(ps, script, ticks[..n], until);
      assert (script + ticks)[..|script| + n] == script + ticks[..n];
      var w, a := Play(ps, script), ticks[n].action;
      StandingForms(ps, w);
      PunchAnswers.NothingDue(ps.offer, w.offer, a.now, a.answers);
      PunchAnswers.NothingDue(ps.answer, w.answer, a.now, a.answers);
    }
  }

  lemma DealLasts(ps: Pair, d: Deal)
    requires Workable(ps, d)
    ensures d.deadline > 0
  {
  }

  lemma NothingPlayed(ps: Pair)
    ensures Unforged(ps, []) && Play(ps, []) == World(Initial(ps.offer), Initial(ps.answer))
  {
  }
}
