/**
 The negotiation of src/ice/punch_coordinator.cpp as functions on the state of
 one endpoint.  The hooks' answers are arguments; what the machine does to the
 outside world is appended to a trace.
 */
module PunchMachine {
  import opened Common
  import opened PunchValues
  import opened PunchProtocol
  import opened Replay

  datatype State = Idle | Hello | Allocating | Preparing | Ready | Probing | Stopped

  datatype Preparation = Pending | Done | Failed

  /** A call of Stop from inside a hook. */
  datatype Halt = Halt(reason: string, notify: bool)

  /** What the hooks answer during one call. */
  datatype Answers = Answers(prepared: bool, prepareHalt: Option<Halt>, poll: Preparation, pollHalt: Option<Halt>,
                             startHalt: Option<Halt>, drawn: bool, random: Id)

  /** The hooks called, in order: send, remote_hello, prepare, start and stop. */
  datatype Event =
    | Sent(data: Bytes)
    | Greeted(hello: Offer, now: int)
    | Prepared(plan: Plan)
    | Began(round: Id, plan: Plan, now: int)
    | Ended(reason: string)

  /** What an endpoint is constructed with.  `agree` is the plan made of the offer's and the answer's HELLO. */
  datatype Party = Party(offer: bool, generation: Id, tx: Key, rx: Key, suite: Suite,
                         agree: (Offer, Offer) -> Option<Plan>, polls: bool, hooked: bool)

  datatype Endpoint = Endpoint(
    state: State, replay: Memory, tx: Key, rx: Key,
    localHello: Option<Offer>, remoteHello: Option<Offer>, remotePayload: Bytes, plan: Option<Plan>,
    hello: Bytes, prepare: Bytes, ready: Bytes, start: Bytes, started: Bytes, pending: Bytes, pendingKind: Kind,
    digest: string, round: Id, next: Sequence, attempts: nat, limit: nat, retries: nat, deadline: int, retryAt: int,
    made: seq<Packet>, trace: seq<Event>)
  {
    predicate Over() {
      state == State.Stopped
    }

    function Log(e: Event): Endpoint {
      this.(trace := trace + [e])
    }
  }

  datatype Emission = Emission(s: Endpoint, ok: bool)

  datatype Making = Making(s: Endpoint, data: Bytes)

  function Initial(p: Party): Endpoint {
    Endpoint(Idle, FORGETFUL, p.tx, p.rx, None, None, [], None, [], [], [], [], [], [], Kind.Hello,
      "", Zeros(16), 1, 0, 48, 0, 0, 0, [], [])
  }

  // ----- Sending -----

  function Halted(s: Endpoint, reason: string): Endpoint {
    s.(state := State.Stopped, pending := [], tx := Zeros(32), rx := Zeros(32)).Log(Ended(reason))
  }

  function Emit(s: Endpoint, data: Bytes): Emission {
    if data == [] || s.Over() then Emission(s, false)
    else if s.attempts >= s.limit then Emission(Halted(s, "budget"), false)
    else Emission(s.(attempts := s.attempts + 1).Log(Sent(data)), true)
  }

  function NextPacket(p: Party, s: Endpoint, kind: Kind, v: Value): Packet {
    Packet(kind, p.generation, if kind == Kind.Hello then Zeros(16) else s.round, s.next, ControlPayload(kind, v, p.suite))
  }

  function Make(p: Party, s: Endpoint, kind: Kind, v: Value): Making {
    if s.next == 0 || s.Over() then Making(s, [])
    else
      var m := NextPacket(p, s, kind, v);
      Making(s.(next := (s.next + 1) % 0x1_0000_0000, made := s.made + [m]), Encode(m, s.tx, p.suite))
  }

  function Stop(p: Party, s: Endpoint, reason: string, notify: bool): Endpoint {
    if s.Over() then s
    else if notify && !IsZero(s.round) && s.attempts < s.limit then
      var m := Make(p, s, Cancel, ReasonBody(reason));
      Halted(Emit(m.s, m.data).s, reason)
    else Halted(s, reason)
  }

  function Halting(p: Party, s: Endpoint, halt: Option<Halt>): Endpoint {
    if halt.Some? then Stop(p, s, halt.value.reason, halt.value.notify) else s
  }

  lemma EmitMessages(s: Endpoint, data: Bytes)
    ensures Emit(s, data).s.hello == s.hello && Emit(s, data).s.prepare == s.prepare
  {
  }

  lemma MakePlan(p: Party, s: Endpoint, kind: Kind, v: Value)
    ensures Make(p, s, kind, v).s.plan == s.plan
  {
  }

  lemma HaltingPlan(p: Party, s: Endpoint, halt: Option<Halt>)
    ensures Halting(p, s, halt).plan == s.plan
  {
  }

  /** Pending: keep a message for the retry timer, and send it. */
  function Await(s: Endpoint, kind: Kind, data: Bytes, now: int): Endpoint {
    Emit(s.(pending := data, pendingKind := kind, retries := 0, retryAt := now + 200), data).s
  }

  // ----- Steps inside a call -----

  predicate MayBegin(p: Party, s: Endpoint, hello: Offer, now: int, deadline: int) {
    && s.state == State.Idle && now < deadline && deadline - now <= 30000 && p.hooked
    && ControlPayload(Kind.Hello, HelloBody(hello), p.suite) != []
  }

  function Begin(p: Party, s: Endpoint, hello: Offer, now: int, deadline: int): Endpoint {
    if !MayBegin(p, s, hello, now, deadline) then s
    else
      var open := s.(state := State.Hello, deadline := deadline, localHello := Some(hello), limit := hello.budget.controlPackets);
      var m := Make(p, open, Kind.Hello, HelloBody(hello));
      Await(m.s.(hello := m.data), Kind.Hello, m.data, now)
  }

  /** What every step may rely on. */
  predicate Formed(p: Party, s: Endpoint) {
    && s.retries <= 3
    && (s.state != State.Idle && !s.Over() ==> s.localHello.Some?)
    && (s.state in {Allocating, Preparing, State.Ready, State.Probing} ==> s.plan.Some?)
    && (!s.Over() && !IsZero(s.round) ==> s.plan.Some?)
  }

  function StartRound(p: Party, s: Endpoint, now: int, a: Answers): Endpoint
    requires s.plan.Some?
  {
    if s.state == State.Probing || s.Over() then s
    else Halting(p, s.(state := State.Probing).Log(Began(s.round, s.plan.value, now)), a.startHalt)
  }

  function FinishPreparation(p: Party, s: Endpoint, now: int): Endpoint
    requires s.plan.Some?
  {
    if s.state != Allocating then s
    else
      var d := s.(digest := Digest(ControlPayload(Kind.Prepare, PlanBody(s.plan.value), p.suite), p.suite));
      if p.offer then
        var m := Make(p, d, Kind.Prepare, PlanBody(d.plan.value));
        Await(Emit(m.s.(prepare := m.data, state := Preparing), m.s.hello).s, Kind.Prepare, m.data, now)
      else
        var m := Make(p, d, Kind.Ready, ReadyBody(d.digest, d.plan.value.budget));
        Await(m.s.(ready := m.data, state := State.Ready), Kind.Ready, m.data, now)
  }

  function BeginPreparation(p: Party, s: Endpoint, now: int, a: Answers): Endpoint
    requires s.plan.Some?
  {
    var asked := Halting(p, s.(state := Allocating, pending := []).Log(Prepared(s.plan.value)), a.prepareHalt);
    if !a.prepared then Stop(p, asked, "resources", true)
    else if !p.polls then FinishPreparation(p, asked, now)
    else asked
  }

  // ----- The timer -----

  /** The waits between retries, in milliseconds. */
  const WAITS := [400, 800, 800]

  function Poll(p: Party, s: Endpoint, now: int, a: Answers): Endpoint
    requires s.plan.Some?
  {
    var polled := Halting(p, s, a.pollHalt);
    if polled.Over() then polled
    else if a.poll == Failed then Stop(p, polled, "resources", true)
    else if a.poll == Done then FinishPreparation(p, polled, now)
    else polled
  }

  function Resend(p: Party, s: Endpoint, now: int): Endpoint
    requires s.retries <= 3
  {
    if s.retries == 3 then (if s.pendingKind == Kind.Hello then s.(pending := []) else Stop(p, s, "timeout", true))
    else
      var first := if s.pendingKind == Kind.Prepare then Emit(s, s.hello) else Emission(s, true);
      if !first.ok then first.s
      else
        var again := Emit(first.s, first.s.pending);
        if !again.ok then again.s
        else again.s.(retryAt := now + WAITS[s.retries], retries := s.retries + 1)
  }

  function Tick(p: Party, s: Endpoint, now: int, a: Answers): Endpoint
    requires Formed(p, s)
  {
    if s.state == State.Idle || s.Over() then s
    else if now >= s.deadline then Stop(p, s, "timeout", true)
    else if s.state == Allocating then Poll(p, s, now, a)
    else if s.pending == [] || now < s.retryAt then s
    else Resend(p, s, now)
  }

  // ----- Receiving -----

  /** The plan both ends derive from the two HELLOs, with the digests of their texts. */
  function Proposal(p: Party, s: Endpoint): Option<Plan>
    requires s.localHello.Some? && s.remoteHello.Some?
  {
    var mine := Digest(ControlPayload(Kind.Hello, HelloBody(s.localHello.value), p.suite), p.suite);
    var theirs := Digest(s.remotePayload, p.suite);
    var offer, answer := if p.offer then s.localHello.value else s.remoteHello.value,
                         if p.offer then s.remoteHello.value else s.localHello.value;
    match p.agree(offer, answer)
    case None => None
    case Some(plan) =>
      Some(plan.(offerHello := if p.offer then mine else theirs, answerHello := if p.offer then theirs else mine))
  }

  /** The offer proposes a plan and draws the round. */
  function Propose(p: Party, s: Endpoint, now: int, a: Answers): Endpoint
    requires s.localHello.Some? && s.remoteHello.Some?
  {
    match Proposal(p, s)
    case None => Stop(p, s, "ineligible", false)
    case Some(plan) =>
      if ControlPayload(Kind.Prepare, PlanBody(plan), p.suite) == [] then Stop(p, s, "ineligible", false)
      else
        var drawn := s.(plan := Some(plan), round := a.random);
        if !a.drawn || IsZero(drawn.round) then Stop(p, drawn, "resources", false)
        else BeginPreparation(p, drawn, now, a)
  }

  function OnHello(p: Party, s: Endpoint, m: Packet, hello: Offer, now: int, a: Answers): Endpoint
    requires s.localHello.Some?
  {
    if s.remoteHello.Some? then
      if s.remoteHello.value != hello || s.remotePayload != m.payload then Stop(p, s, "conflict", true)
      else if p.offer && s.prepare != [] && s.state == Preparing then Emit(Emit(s, s.hello).s, s.prepare).s
      else s
    else
      var greeted := s.(remoteHello := Some(hello), remotePayload := m.payload).Log(Greeted(hello, now));
      if p.offer then Propose(p, greeted, now, a) else Emit(greeted, greeted.hello).s
  }

  function OnPrepare(p: Party, s: Endpoint, m: Packet, plan: Plan, now: int, a: Answers): Endpoint
    requires s.localHello.Some?
  {
    if s.plan.Some? then
      if s.plan.value != plan then Stop(p, s, "conflict", true)
      else if s.ready != [] then Emit(s, s.ready).s
      else s
    else if s.state != State.Hello || s.remoteHello.None? || Proposal(p, s) != Some(plan) then s
    else BeginPreparation(p, s.(round := m.round, plan := Some(plan)), now, a)
  }

  function OnReady(p: Party, s: Endpoint, digest: string, budget: Budget, now: int, a: Answers): Endpoint
    requires s.plan.Some?
  {
    if digest != s.digest || budget != s.plan.value.budget then s
    else if s.state == Preparing then
      var m := Make(p, s, Kind.Start, DigestBody(s.digest));
      Await(StartRound(p, m.s.(start := m.data), now, a), Kind.Start, m.data, now)
    else if s.state == State.Probing && s.start != [] then Emit(s, s.start).s
    else s
  }

  function OnStart(p: Party, s: Endpoint, digest: string, now: int, a: Answers): Endpoint
    requires s.plan.Some?
  {
    if digest != s.digest then s
    else if s.state == State.Ready then
      var m := Make(p, s.(pending := []), Kind.Started, DigestBody(s.digest));
      Emit(StartRound(p, m.s.(started := m.data), now, a), m.data).s
    else if s.state == State.Probing then Emit(s, s.started).s
    else s
  }

  /** The packet belongs to the round under way, or may open it. */
  predicate InRound(p: Party, s: Endpoint, m: Packet) {
    || m.kind == Kind.Hello
    || m.round == s.round
    || (m.kind == Kind.Prepare && !p.offer && IsZero(s.round) && s.state == State.Hello)
  }

  function Dispatch(p: Party, s: Endpoint, m: Packet, duplicate: bool, now: int, a: Answers): Endpoint
    requires Formed(p, s) && s.localHello.Some? && !s.Over()
    requires RoundOk(m.kind, m.round) && InRound(p, s, m) && ParseControl(m.kind, m.payload, p.suite).Some?
  {
    var v := ParseControl(m.kind, m.payload, p.suite).value;
    if m.kind == Kind.Hello then OnHello(p, s, m, v.hello, now, a)
    else if m.kind == Kind.Prepare && !p.offer then OnPrepare(p, s, m, v.plan, now, a)
    else if m.kind == Kind.Ready && p.offer then OnReady(p, s, v.digest, v.budget, now, a)
    else if m.kind == Kind.Start && !p.offer then OnStart(p, s, v.digest, now, a)
    else if m.kind == Kind.Started && p.offer && s.state == State.Probing && v.digest == s.digest then s.(pending := [])
    else if m.kind == Cancel && !duplicate then Stop(p, s, v.reason, false)
    else s
  }

  /** The packet a datagram carries for this endpoint. */
  function Opened(p: Party, s: Endpoint, data: Bytes): (m: Option<Packet>)
    ensures m.Some? ==> RoundOk(m.value.kind, m.value.round) && ParseControl(m.value.kind, m.value.payload, p.suite).Some?
  {
    Decode(data, s.rx, Control, p.generation, p.suite)
  }

  function Receive(p: Party, s: Endpoint, data: Bytes, now: int, a: Answers): Endpoint
    requires Formed(p, s)
  {
    if s.state == State.Idle || s.Over() then s
    else if now >= s.deadline then Stop(p, s, "timeout", true)
    else
      match Opened(p, s, data)
      case None => s
      case Some(m) =>
        if !InRound(p, s, m) then s
        else
          var digest := p.suite.sha(data);
          var verdict := s.replay.Judge(m.sequence, digest);
          var t := s.(replay := s.replay.After(m.sequence, digest));
          if verdict == TooOld then t
          else if verdict == Conflict then Stop(p, t, "conflict", true)
          else Dispatch(p, t, m, verdict == Duplicate, now, a)
  }

  // ----- One call -----

  datatype Action =
    | Open(hello: Offer, now: int, deadline: int)
    | Arrive(data: Bytes, now: int, answers: Answers)
    | Timer(now: int, answers: Answers)
    | Quit(reason: string, notify: bool)

  function Act(p: Party, s: Endpoint, a: Action): Endpoint
    requires Formed(p, s)
  {
    match a
    case Open(hello, now, deadline) => Begin(p, s, hello, now, deadline)
    case Arrive(data, now, answers) => Receive(p, s, data, now, answers)
    case Timer(now, answers) => Tick(p, s, now, answers)
    case Quit(reason, notify) => Stop(p, s, reason, notify)
  }
}
