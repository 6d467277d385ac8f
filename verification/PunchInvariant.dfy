/**
 What every call keeps true of one endpoint, whatever the peer, the network and
 the hooks do.
 */
module PunchInvariant {
  import opened Common
  import opened PunchValues
  import opened PunchProtocol
  import opened Replay
  import opened PunchMachine

  // ----- The trace, counted -----

  datatype Tally = Tally(sends: nat, greets: nat, prepares: nat, begins: nat, ends: nat)
  {
    function Plus(e: Event): Tally {
      match e
      case Sent(_) => this.(sends := sends + 1)
      case Greeted(_, _) => this.(greets := greets + 1)
      case Prepared(_) => this.(prepares := prepares + 1)
      case Began(_, _, _) => this.(begins := begins + 1)
      case Ended(_) => this.(ends := ends + 1)
    }
  }

  function TallyOf(trace: seq<Event>): Tally {
    if trace == [] then Tally(0, 0, 0, 0, 0) else TallyOf(trace[..|trace| - 1]).Plus(trace[|trace| - 1])
  }

  lemma TallyLog(s: Endpoint, e: Event)
    ensures TallyOf(s.Log(e).trace) == TallyOf(s.trace).Plus(e)
  {
    assert (s.trace + [e])[..|s.trace|] == s.trace;
  }

  function If(b: bool): nat {
    if b then 1 else 0
  }

  /** The hooks called so far fit the state: prepare, start and stop at most once, sends within the limit. */
  ghost predicate Tallies(s: Endpoint, t: Tally) {
    && t.sends == s.attempts <= s.limit
    && t.greets == If(s.remoteHello.Some?)
    && t.ends == If(s.Over())
    && t.begins <= t.prepares <= 1
    && (s.state in {State.Idle, State.Hello} ==> t.prepares == 0)
    && (s.state in {Allocating, Preparing, State.Ready, State.Probing} ==> t.prepares == 1)
    && (!s.Over() ==> t.begins == If(s.state == State.Probing))
  }

  ghost predicate Counted(s: Endpoint) {
    Tallies(s, TallyOf(s.trace)) && (s.Over() ==> s.trace[|s.trace| - 1].Ended?)
  }

  // ----- The packets made -----

  /** What a packet made by an endpoint may be judged by. */
  datatype Facts = Facts(localHello: Option<Offer>, plan: Option<Plan>, round: Id, digest: string, launched: bool)

  /** The start hook was called. */
  predicate Begun(s: Endpoint) {
    exists i :: 0 <= i < |s.trace| && s.trace[i].Began?
  }

  /** The start hook was called, or is about to be. */
  predicate Launched(s: Endpoint) {
    s.state in {Preparing, State.Ready} || Begun(s)
  }

  function FactsOf(s: Endpoint): Facts {
    Facts(s.localHello, s.plan, s.round, s.digest, Launched(s))
  }

  /** A packet says what its maker holds. */
  predicate Describes(p: Party, f: Facts, m: Packet) {
    match m.kind
    case Hello => f.localHello.Some? && m.payload == ControlPayload(Kind.Hello, HelloBody(f.localHello.value), p.suite)
    case Prepare =>
      && p.offer && f.plan.Some? && m.round == f.round
      && m.payload == ControlPayload(Kind.Prepare, PlanBody(f.plan.value), p.suite)
    case Ready => !p.offer && f.plan.Some? && m.round == f.round && f.digest != ""
    case Start => p.offer && f.plan.Some? && m.round == f.round && f.launched
    case Started => !p.offer && f.plan.Some? && m.round == f.round && f.launched
    case Cancel => true
    case Probe | Ack => false
  }

  /** The message each place in the numbering holds. */
  predicate Placed(p: Party, i: nat, kind: Kind) {
    || kind == Cancel
    || (i == 0 && kind == Kind.Hello)
    || (i == 1 && kind == if p.offer then Kind.Prepare else Kind.Ready)
    || (i == 2 && kind == if p.offer then Kind.Start else Kind.Started)
  }

  ghost predicate Numbered(p: Party, f: Facts, made: seq<Packet>) {
    forall i :: 0 <= i < |made| ==>
      && made[i].sequence == i + 1 && made[i].generation == p.generation
      && Placed(p, i, made[i].kind) && Describes(p, f, made[i])
  }

  /** Nothing, or a packet the endpoint made. */
  ghost predicate Known(p: Party, made: seq<Packet>, data: Bytes) {
    data == [] || exists i :: 0 <= i < |made| && data == Encode(made[i], p.tx, p.suite)
  }

  ghost predicate AllKnown(p: Party, s: Endpoint) {
    && Known(p, s.made, s.hello) && Known(p, s.made, s.prepare) && Known(p, s.made, s.ready)
    && Known(p, s.made, s.start) && Known(p, s.made, s.started) && Known(p, s.made, s.pending)
    && forall i :: 0 <= i < |s.trace| && s.trace[i].Sent? ==> s.trace[i].data != [] && Known(p, s.made, s.trace[i].data)
  }

  // ----- The invariant -----

  function DigestOf(p: Party, plan: Plan): string {
    Digest(ControlPayload(Kind.Prepare, PlanBody(plan), p.suite), p.suite)
  }

  /** How the fields fit together. */
  ghost predicate Fits(p: Party, s: Endpoint) {
    && s.retries <= 3 && s.replay.Valid()
    && (!s.Over() ==> s.tx == p.tx && s.rx == p.rx)
    && (s.state == State.Idle ==> s.localHello.None?)
    && (s.state != State.Idle && !s.Over() ==> s.localHello.Some?)
    && (s.localHello.Some? ==> 1 <= s.limit == s.localHello.value.budget.controlPackets <= 48)
    && (s.localHello.None? ==> s.limit == 48)
    && (s.state in {State.Idle, State.Hello} ==> s.plan.None?)
    && (s.state in {Allocating, Preparing, State.Ready, State.Probing} ==> s.plan.Some?)
    && (s.plan.None? ==> IsZero(s.round) && s.digest == "")
    && (s.plan.Some? ==> s.remoteHello.Some? && s.localHello.Some? && (!s.Over() ==> !IsZero(s.round)))
    && (s.plan.Some? && s.digest != "" ==> s.digest == DigestOf(p, s.plan.value))
    && (s.state in {Preparing, State.Ready, State.Probing} ==> s.digest != "")
    && (s.state == Preparing ==> p.offer) && (s.state == State.Ready ==> !p.offer)
    && (s.remoteHello.Some? ==> s.state != State.Idle)
  }

  ghost predicate Numbering(s: Endpoint) {
    && s.next == |s.made| + 1 && |s.made| <= 4
    && (s.state != State.Idle && !s.Over() ==> s.made != [])
    && (s.localHello.None? ==> s.made == [])
  }

  ghost predicate Core(p: Party, s: Endpoint) {
    Fits(p, s) && Counted(s) && Numbering(s) && Numbered(p, FactsOf(s), s.made) && AllKnown(p, s)
  }

  /** The packets made by the time a state is reached. */
  function Stage(state: State): nat {
    match state
    case Idle => 0
    case Hello | Allocating => 1
    case Preparing | Ready => 2
    case Probing => 3
    case Stopped => 4
  }

  /** What holds between calls. */
  ghost predicate Stable(p: Party, s: Endpoint) {
    && Core(p, s)
    && (!s.Over() ==> |s.made| == Stage(s.state))
    && (s.state == Allocating ==> p.polls)
  }

  lemma StableForms(p: Party, s: Endpoint)
    requires Stable(p, s)
    ensures Formed(p, s)
  {
  }

  lemma InitialStable(p: Party)
    ensures Stable(p, Initial(p))
  {
  }

  // ----- Sending -----

  lemma LaunchedLog(s: Endpoint, e: Event)
    ensures Launched(s.Log(e)) == (Launched(s) || e.Began?)
  {
    var t := s.Log(e).trace;
    assert t[|s.trace|] == e;
    assert forall i :: 0 <= i < |s.trace| ==> t[i] == s.trace[i];
  }

  lemma NothingKnown(p: Party, made: seq<Packet>)
    ensures Known(p, made, [])
  {
  }

  /** Logging an event keeps what is known, if what it sends is. */
  lemma KnownLog(p: Party, s: Endpoint, e: Event)
    requires AllKnown(p, s) && (e.Sent? ==> e.data != [] && Known(p, s.made, e.data))
    ensures AllKnown(p, s.Log(e))
  {
    hide Known;
  }

  /** No Start packet waits for its round to begin, so a stop is possible. */
  ghost predicate Stoppable(s: Endpoint) {
    s.state in {Preparing, State.Ready} ==> forall i :: 0 <= i < |s.made| ==> s.made[i].kind !in {Kind.Start, Kind.Started}
  }

  lemma FitsOver(p: Party, s: Endpoint)
    requires Fits(p, s) && !s.Over()
    ensures Fits(p, s.(state := State.Stopped, pending := [], tx := Zeros(32), rx := Zeros(32)))
  {
    hide Digest;
    hide DigestOf;
  }

  lemma NumberedOver(p: Party, f: Facts, g: Facts, made: seq<Packet>)
    requires Numbered(p, f, made) && g == f.(launched := g.launched)
    requires f.launched && !g.launched ==> forall i :: 0 <= i < |made| ==> made[i].kind !in {Kind.Start, Kind.Started}
    ensures Numbered(p, g, made)
  {
    hide ControlPayload;
  }

  lemma HaltedKeeps(p: Party, s: Endpoint, reason: string)
    requires Core(p, s) && !s.Over() && Stoppable(s)
    ensures Core(p, Halted(s, reason))
  {
    hide Fits;
    hide Numbered;
    hide Known;
    var t := s.(state := State.Stopped, pending := [], tx := Zeros(32), rx := Zeros(32));
    FitsOver(p, s);
    NothingKnown(p, s.made);
    NumberedOver(p, FactsOf(s), FactsOf(t), s.made);
    FinishLog(p, t, Ended(reason));
  }

  /** An event that leaves the counts right keeps the invariant. */
  lemma FinishLog(p: Party, t: Endpoint, e: Event)
    requires Fits(p, t) && Numbering(t) && Numbered(p, FactsOf(t), t.made) && AllKnown(p, t) && !e.Began?
    requires e.Sent? ==> e.data != [] && Known(p, t.made, e.data)
    requires Tallies(t, TallyOf(t.trace).Plus(e)) && (t.Over() ==> e.Ended?)
    ensures Core(p, t.Log(e))
  {
    hide Known;
    hide Numbered;
    hide DigestOf;
    TallyLog(t, e);
    LaunchedLog(t, e);
    KnownLog(p, t, e);
    assert FactsOf(t.Log(e)) == FactsOf(t);
    assert t.Log(e).trace[|t.trace|] == e;
  }

  lemma EmitKeeps(p: Party, s: Endpoint, data: Bytes)
    requires Core(p, s) && Stoppable(s) && Known(p, s.made, data)
    ensures Core(p, Emit(s, data).s)
  {
    hide Known;
    hide Numbered;
    hide DigestOf;
    if data != [] && !s.Over() {
      if s.attempts >= s.limit {
        HaltedKeeps(p, s, "budget");
      } else {
        var t := s.(attempts := s.attempts + 1);
        assert FactsOf(t) == FactsOf(s);
        FinishLog(p, t, Sent(data));
      }
    }
  }

  lemma KnownGrows(p: Party, made: seq<Packet>, m: Packet, data: Bytes)
    requires Known(p, made, data)
    ensures Known(p, made + [m], data)
  {
    hide Encode;
    if data != [] {
      var i :| 0 <= i < |made| && data == Encode(made[i], p.tx, p.suite);
      assert (made + [m])[i] == made[i];
    }
  }

  lemma AllKnownGrows(p: Party, s: Endpoint, m: Packet, next: Sequence)
    requires AllKnown(p, s)
    ensures AllKnown(p, s.(made := s.made + [m], next := next))
  {
    hide Known;
    forall data | Known(p, s.made, data) ensures Known(p, s.made + [m], data) {
      KnownGrows(p, s.made, m, data);
    }
  }

  lemma FitsMade(p: Party, s: Endpoint, made: seq<Packet>, next: Sequence)
    requires Fits(p, s)
    ensures Fits(p, s.(made := made, next := next))
  {
    hide DigestOf;
  }

  lemma NumberedMade(p: Party, f: Facts, made: seq<Packet>, m: Packet)
    requires Numbered(p, f, made) && Describes(p, f, m) && Placed(p, |made|, m.kind)
    requires m.sequence == |made| + 1 && m.generation == p.generation
    ensures Numbered(p, f, made + [m])
  {
    hide Describes;
    hide Placed;
  }

  /** Making a packet in its place. */
  lemma MakeKeeps(p: Party, s: Endpoint, kind: Kind, v: Value)
    requires Core(p, s) && !s.Over() && s.tx == p.tx && s.localHello.Some? && |s.made| <= 3 && Placed(p, |s.made|, kind)
    requires Describes(p, FactsOf(s), NextPacket(p, s, kind, v))
    ensures var m := Make(p, s, kind, v);
      Core(p, m.s) && Known(p, m.s.made, m.data) && m.s == s.(made := s.made + [NextPacket(p, s, kind, v)], next := s.next + 1)
  {
    hide Encode;
    hide ControlPayload;
    hide Describes;
    hide Placed;
    hide Fits;
    hide Numbered;
    hide AllKnown;
    hide Tallies;
    var m, after := NextPacket(p, s, kind, v), Make(p, s, kind, v);
    AllKnownGrows(p, s, m, s.next + 1);
    FitsMade(p, s, s.made + [m], s.next + 1);
    NumberedMade(p, FactsOf(s), s.made, m);
    assert after.s == s.(made := s.made + [m], next := s.next + 1);
    SameTallies(s, after.s);
    assert after.s.made[|s.made|] == m;
    assert FactsOf(after.s) == FactsOf(s);
  }

  lemma SameTallies(s: Endpoint, t: Endpoint)
    requires t == s.(made := t.made, next := t.next) && Counted(s)
    ensures Counted(t)
  {
  }

  lemma CoreKeys(p: Party, s: Endpoint)
    requires Core(p, s) && !s.Over()
    ensures s.tx == p.tx && s.rx == p.rx
    ensures s.plan.Some? || !IsZero(s.round) ==> s.localHello.Some?
  {
  }

  lemma StopKeeps(p: Party, s: Endpoint, reason: string, notify: bool)
    requires Core(p, s) && Stoppable(s) && (!s.Over() ==> |s.made| <= 3)
    ensures Core(p, Stop(p, s, reason, notify)) && Stop(p, s, reason, notify).Over()
  {
    hide Core;
    hide Encode;
    if !s.Over() {
      CoreKeys(p, s);
      if notify && !IsZero(s.round) && s.attempts < s.limit {
        MakeKeeps(p, s, Cancel, ReasonBody(reason));
        var m := Make(p, s, Cancel, ReasonBody(reason));
        EmitKeeps(p, m.s, m.data);
        HaltedKeeps(p, Emit(m.s, m.data).s, reason);
      } else {
        HaltedKeeps(p, s, reason);
      }
    }
  }

  // ----- Bookkeeping -----

  /** The fields no fact depends on. */
  ghost predicate SideStep(p: Party, s: Endpoint, t: Endpoint) {
    && t == s.(replay := t.replay, hello := t.hello, prepare := t.prepare, ready := t.ready, start := t.start,
               started := t.started, pending := t.pending, pendingKind := t.pendingKind, retries := t.retries,
               retryAt := t.retryAt)
    && t.retries <= 3 && t.replay.Valid()
    && Known(p, s.made, t.hello) && Known(p, s.made, t.prepare) && Known(p, s.made, t.ready)
    && Known(p, s.made, t.start) && Known(p, s.made, t.started) && Known(p, s.made, t.pending)
  }

  lemma SideKeeps(p: Party, s: Endpoint, t: Endpoint)
    requires Core(p, s) && SideStep(p, s, t)
    ensures Core(p, t)
  {
    hide Known;
    hide Numbered;
    hide DigestOf;
    assert FactsOf(t) == FactsOf(s);
  }

  lemma CachesKnown(p: Party, s: Endpoint)
    requires Core(p, s)
    ensures Known(p, s.made, s.hello) && Known(p, s.made, s.prepare) && Known(p, s.made, s.ready)
    ensures Known(p, s.made, s.start) && Known(p, s.made, s.started) && Known(p, s.made, s.pending) && Known(p, s.made, [])
    ensures s.replay.Valid() && s.retries <= 3
  {
    hide Known;
    NothingKnown(p, s.made);
  }

  lemma AwaitKeeps(p: Party, s: Endpoint, kind: Kind, data: Bytes, now: int)
    requires Core(p, s) && Stoppable(s) && Known(p, s.made, data)
    ensures Core(p, Await(s, kind, data, now))
  {
    hide Core;
    hide Known;
    CachesKnown(p, s);
    var t := s.(pending := data, pendingKind := kind, retries := 0, retryAt := now + 200);
    SideKeeps(p, s, t);
    EmitKeeps(p, t, data);
  }

  /** Sending leaves everything but the counts, or stops. */
  lemma EmitFrame(s: Endpoint, data: Bytes)
    ensures var e := Emit(s, data).s; e.made == s.made && (e.Over() || e == s.(attempts := e.attempts, trace := e.trace))
  {
  }

  // ----- The calls -----

  lemma OpenFits(p: Party, s: Endpoint, hello: Offer, deadline: int)
    requires Stable(p, s) && s.state == State.Idle && Schema(Kind.Hello, HelloBody(hello))
    ensures var t := s.(state := State.Hello, deadline := deadline, localHello := Some(hello), limit := hello.budget.controlPackets);
      var m := NextPacket(p, t, Kind.Hello, HelloBody(hello));
      && Make(p, t, Kind.Hello, HelloBody(hello)).s == t.(made := [m], next := 2) && t.tx == p.tx
      && Core(p, t.(made := [m], next := 2)) && Known(p, [m], Encode(m, p.tx, p.suite))
  {
    hide Encode;
    hide ControlPayload;
    var t := s.(state := State.Hello, deadline := deadline, localHello := Some(hello), limit := hello.budget.controlPackets);
    var m := NextPacket(p, t, Kind.Hello, HelloBody(hello));
    assert [m][0] == m;
  }

  lemma BeginKeeps(p: Party, s: Endpoint, hello: Offer, now: int, deadline: int)
    requires Stable(p, s)
    ensures Stable(p, Begin(p, s, hello, now, deadline))
  {
    hide Core;
    hide Encode;
    hide Known;
    if MayBegin(p, s, hello, now, deadline) {
      var open := s.(state := State.Hello, deadline := deadline, localHello := Some(hello), limit := hello.budget.controlPackets);
      var m := Make(p, open, Kind.Hello, HelloBody(hello));
      OpenFits(p, s, hello, deadline);
      CachesKnown(p, m.s);
      SideKeeps(p, m.s, m.s.(hello := m.data));
      AwaitKeeps(p, m.s.(hello := m.data), Kind.Hello, m.data, now);
      AwaitFrame(m.s.(hello := m.data), Kind.Hello, m.data, now);
      StillCore(p, Begin(p, s, hello, now, deadline));
    }
  }

  lemma AwaitFrame(s: Endpoint, kind: Kind, data: Bytes, now: int)
    ensures var e := Await(s, kind, data, now); e.made == s.made && (e.Over() || e.state == s.state)
  {
  }

  /** Between calls, the number of packets made is that of the state reached. */
  lemma StillCore(p: Party, s: Endpoint)
    requires Core(p, s) && (!s.Over() ==> |s.made| == Stage(s.state)) && (s.state == Allocating ==> p.polls)
    ensures Stable(p, s)
  {
  }

  /** A round is prepared: the plan and the round are fixed and the prepare hook is called. */
  lemma PreparedKeeps(p: Party, s: Endpoint, plan: Plan, round: Id)
    requires Core(p, s) && s.state == State.Hello && |s.made| == 1 && s.remoteHello.Some? && !IsZero(round)
    ensures Core(p, s.(plan := Some(plan), round := round, state := Allocating, pending := []).Log(Prepared(plan)))
  {
    hide Known;
    hide ControlPayload;
    hide DigestOf;
    var t := s.(plan := Some(plan), round := round, state := Allocating, pending := []);
    NothingKnown(p, s.made);
    FinishLog(p, t, Prepared(plan));
  }

  /** A round that cannot be drawn ends the negotiation. */
  lemma UndrawnKeeps(p: Party, s: Endpoint, plan: Plan, round: Id)
    requires Core(p, s) && s.state == State.Hello && |s.made| == 1 && s.remoteHello.Some?
    ensures Core(p, Stop(p, s.(plan := Some(plan), round := round), "resources", false))
  {
    hide Known;
    hide ControlPayload;
    hide DigestOf;
    HaltedKeeps(p, s, "resources");
    var h := Halted(s, "resources");
    var t := h.(plan := Some(plan), round := round);
    assert Launched(t) == Launched(h);
  }

  lemma GreetedKeeps(p: Party, s: Endpoint, hello: Offer, payload: Bytes, now: int)
    requires Core(p, s) && s.remoteHello.None? && s.state != State.Idle && !s.Over()
    ensures Core(p, s.(remoteHello := Some(hello), remotePayload := payload).Log(Greeted(hello, now)))
  {
    hide Known;
    hide Numbered;
    hide DigestOf;
    var t := s.(remoteHello := Some(hello), remotePayload := payload);
    assert FactsOf(t) == FactsOf(s);
    FinishLog(p, t, Greeted(hello, now));
  }

  /** The start hook is called. */
  lemma BeganKeeps(p: Party, s: Endpoint, now: int)
    requires Core(p, s) && s.state in {Preparing, State.Ready} && s.plan.Some?
    ensures Core(p, s.(state := State.Probing).Log(Began(s.round, s.plan.value, now)))
  {
    hide Known;
    hide ControlPayload;
    hide DigestOf;
    var t := s.(state := State.Probing);
    var e := Began(s.round, s.plan.value, now);
    TallyLog(t, e);
    LaunchedLog(t, e);
    KnownLog(p, t, e);
    assert FactsOf(t.Log(e)) == FactsOf(s);
  }

  lemma HaltingKeeps(p: Party, s: Endpoint, halt: Option<Halt>)
    requires Core(p, s) && Stoppable(s) && (!s.Over() ==> |s.made| <= 3)
    ensures var t := Halting(p, s, halt); Core(p, t) && (t == s || t.Over())
  {
    hide Core;
    hide Stoppable;
    if halt.Some? {
      StopKeeps(p, s, halt.value.reason, halt.value.notify);
    }
  }

  lemma StartRoundKeeps(p: Party, s: Endpoint, now: int, a: Answers)
    requires Core(p, s) && s.state in {Preparing, State.Ready} && s.plan.Some? && |s.made| == 3
    ensures var t := StartRound(p, s, now, a); Core(p, t) && (t.Over() || (t.state == State.Probing && t.made == s.made))
  {
    hide Core;
    BeganKeeps(p, s, now);
    HaltingKeeps(p, s.(state := State.Probing).Log(Began(s.round, s.plan.value, now)), a.startHalt);
  }

  /** The plan's digest is settled. */
  lemma SettledKeeps(p: Party, s: Endpoint)
    requires Core(p, s) && s.state == Allocating && s.plan.Some?
    ensures Core(p, s.(digest := DigestOf(p, s.plan.value)))
  {
    hide Known;
    hide ControlPayload;
  }

  /** The message that closes the preparation is made, kept and its state entered. */
  lemma ClosedKeeps(p: Party, s: Endpoint, prepare: Bytes, ready: Bytes)
    requires Core(p, s) && s.state == Allocating && |s.made| == 2 && s.digest != ""
    requires Known(p, s.made, prepare) && Known(p, s.made, ready)
    ensures var t := s.(prepare := prepare, ready := ready, state := if p.offer then Preparing else State.Ready);
      Core(p, t) && Stoppable(t)
  {
    hide Known;
    hide ControlPayload;
    hide DigestOf;
    var t := s.(prepare := prepare, ready := ready, state := if p.offer then Preparing else State.Ready);
    forall i | 0 <= i < |s.made| ensures s.made[i].kind !in {Kind.Start, Kind.Started} {
      assert Placed(p, i, s.made[i].kind);
    }
  }

  lemma FinishKeeps(p: Party, s: Endpoint, now: int)
    requires Core(p, s) && s.plan.Some? && (s.state == Allocating ==> |s.made| == 1)
    ensures var t := FinishPreparation(p, s, now);
      && Core(p, t) && (s.state != Allocating ==> t == s)
      && (s.state == Allocating ==> t.Over() || (|t.made| == 2 && t.state in {Preparing, State.Ready}))
  {
    hide Core;
    hide Known;
    hide Stoppable;
    hide ControlPayload;
    hide Encode;
    if s.state == Allocating {
      var d := s.(digest := DigestOf(p, s.plan.value));
      var kind, v := if p.offer then Kind.Prepare else Kind.Ready,
                     if p.offer then PlanBody(s.plan.value) else ReadyBody(d.digest, s.plan.value.budget);
      SettledKeeps(p, s);
      CoreKeys(p, d);
      MakeKeeps(p, d, kind, v);
      var m := Make(p, d, kind, v);
      CachesKnown(p, m.s);
      ClosedKeeps(p, m.s, if p.offer then m.data else m.s.prepare, if p.offer then m.s.ready else m.data);
      if p.offer {
        var t := m.s.(prepare := m.data, state := Preparing);
        CachesKnown(p, t);
        EmitKeeps(p, t, t.hello);
        EmitFrame(t, t.hello);
        EmitStoppable(t, t.hello);
        AwaitKeeps(p, Emit(t, t.hello).s, Kind.Prepare, m.data, now);
        AwaitFrame(Emit(t, t.hello).s, Kind.Prepare, m.data, now);
      } else {
        var t := m.s.(ready := m.data, state := State.Ready);
        AwaitKeeps(p, t, Kind.Ready, m.data, now);
        AwaitFrame(t, Kind.Ready, m.data, now);
      }
    }
  }

  lemma EmitStoppable(s: Endpoint, data: Bytes)
    requires Stoppable(s)
    ensures Stoppable(Emit(s, data).s)
  {
  }

  lemma BeginPreparationKeeps(p: Party, s: Endpoint, plan: Plan, round: Id, now: int, a: Answers)
    requires Core(p, s) && s.state == State.Hello && |s.made| == 1 && s.remoteHello.Some? && !IsZero(round)
    ensures Stable(p, BeginPreparation(p, s.(plan := Some(plan), round := round), now, a))
  {
    hide Core;
    hide Stoppable;
    var asking := s.(plan := Some(plan), round := round, state := Allocating, pending := []).Log(Prepared(plan));
    PreparedKeeps(p, s, plan, round);
    AllocatingStoppable(asking);
    HaltingKeeps(p, asking, a.prepareHalt);
    var asked := Halting(p, asking, a.prepareHalt);
    if asked.Over() {
      HaltingPlan(p, asking, a.prepareHalt);
    }
    if !a.prepared {
      AllocatingStoppable(asked);
      StopKeeps(p, asked, "resources", true);
    } else if !p.polls {
      FinishKeeps(p, asked, now);
    }
    StillCore(p, BeginPreparation(p, s.(plan := Some(plan), round := round), now, a));
  }

  lemma AllocatingStoppable(s: Endpoint)
    requires s.state in {Allocating, State.Hello, State.Probing, State.Idle, State.Stopped}
    ensures Stoppable(s)
  {
  }

  lemma StableStoppable(p: Party, s: Endpoint)
    requires Stable(p, s)
    ensures Stoppable(s) && (!s.Over() ==> |s.made| <= 3)
  {
    hide Describes;
    hide Known;
    if s.state in {Preparing, State.Ready} {
      forall i | 0 <= i < |s.made| ensures s.made[i].kind !in {Kind.Start, Kind.Started} {
        assert Placed(p, i, s.made[i].kind);
      }
    }
  }

  lemma PollKeeps(p: Party, s: Endpoint, now: int, a: Answers)
    requires Stable(p, s) && s.state == Allocating && s.plan.Some?
    ensures Stable(p, Poll(p, s, now, a))
  {
    hide Core;
    hide Stoppable;
    StableStoppable(p, s);
    HaltingKeeps(p, s, a.pollHalt);
    var polled := Halting(p, s, a.pollHalt);
    if !polled.Over() {
      if a.poll == Failed {
        StopKeeps(p, polled, "resources", true);
      } else if a.poll == Done {
        FinishKeeps(p, polled, now);
      }
    }
    StillCore(p, Poll(p, s, now, a));
  }

  /** A step that only updates bookkeeping, and stops at most. */
  lemma EmitStable(p: Party, s: Endpoint, data: Bytes)
    requires Stable(p, s) && Known(p, s.made, data)
    ensures Stable(p, Emit(s, data).s)
  {
    hide Core;
    hide Known;
    hide Stoppable;
    StableStoppable(p, s);
    EmitKeeps(p, s, data);
    EmitFrame(s, data);
    StillCore(p, Emit(s, data).s);
  }

  lemma StopStable(p: Party, s: Endpoint, reason: string, notify: bool)
    requires Stable(p, s)
    ensures Stable(p, Stop(p, s, reason, notify))
  {
    hide Core;
    hide Stoppable;
    StableStoppable(p, s);
    StopKeeps(p, s, reason, notify);
    StillCore(p, Stop(p, s, reason, notify));
  }

  lemma SideStable(p: Party, s: Endpoint, t: Endpoint)
    requires Stable(p, s) && SideStep(p, s, t)
    ensures Stable(p, t)
  {
    hide Core;
    hide Known;
    SideKeeps(p, s, t);
  }

  lemma StableCaches(p: Party, s: Endpoint)
    requires Stable(p, s)
    ensures Known(p, s.made, s.hello) && Known(p, s.made, s.prepare) && Known(p, s.made, s.ready)
    ensures Known(p, s.made, s.start) && Known(p, s.made, s.started) && Known(p, s.made, s.pending) && Known(p, s.made, [])
    ensures s.replay.Valid() && s.retries <= 3
  {
    hide Core;
    CachesKnown(p, s);
  }

  lemma ResendKeeps(p: Party, s: Endpoint, now: int)
    requires Stable(p, s) && s.retries <= 3
    ensures Stable(p, Resend(p, s, now))
  {
    hide Stable;
    hide Known;
    StableCaches(p, s);
    if s.retries == 3 {
      if s.pendingKind == Kind.Hello {
        SideStable(p, s, s.(pending := []));
      } else {
        StopStable(p, s, "timeout", true);
      }
    } else {
      var first := if s.pendingKind == Kind.Prepare then Emit(s, s.hello) else Emission(s, true);
      EmitStable(p, s, s.hello);
      if first.ok {
        StableCaches(p, first.s);
        var again := Emit(first.s, first.s.pending);
        EmitStable(p, first.s, first.s.pending);
        if again.ok {
          StableCaches(p, again.s);
          SideStable(p, again.s, again.s.(retryAt := now + WAITS[s.retries], retries := s.retries + 1));
        }
      }
    }
  }

  lemma TickKeeps(p: Party, s: Endpoint, now: int, a: Answers)
    requires Stable(p, s) && Formed(p, s)
    ensures Stable(p, Tick(p, s, now, a))
  {
    hide Stable;
    if s.state == State.Idle || s.Over() {
    } else if now >= s.deadline {
      StopStable(p, s, "timeout", true);
    } else if s.state == Allocating {
      PollKeeps(p, s, now, a);
    } else if s.pending == [] || now < s.retryAt {
    } else {
      ResendKeeps(p, s, now);
    }
  }

  /** Before the other HELLO, only one's own was made. */
  lemma Ungreeted(p: Party, s: Endpoint)
    requires Stable(p, s) && s.remoteHello.None? && s.state != State.Idle && !s.Over()
    ensures s.state == State.Hello && |s.made| == 1
  {
  }

  lemma Unplanned(p: Party, s: Endpoint)
    requires Stable(p, s) && s.state == State.Hello
    ensures |s.made| == 1 && s.plan.None?
  {
  }

  lemma ProposeKeeps(p: Party, s: Endpoint, now: int, a: Answers)
    requires Stable(p, s) && s.state == State.Hello && s.localHello.Some? && s.remoteHello.Some?
    ensures Stable(p, Propose(p, s, now, a))
  {
    hide Core;
    hide Stoppable;
    hide BeginPreparation;
    hide Proposal;
    StopStable(p, s, "ineligible", false);
    Unplanned(p, s);
    if Proposal(p, s).Some? {
      var plan := Proposal(p, s).value;
      if ControlPayload(Kind.Prepare, PlanBody(plan), p.suite) != [] {
        if !a.drawn || IsZero(a.random) {
          UndrawnKeeps(p, s, plan, a.random);
          StillCore(p, Propose(p, s, now, a));
        } else {
          BeginPreparationKeeps(p, s, plan, a.random, now, a);
        }
      }
    }
  }

  lemma OnHelloKeeps(p: Party, s: Endpoint, m: Packet, hello: Offer, now: int, a: Answers)
    requires Stable(p, s) && s.localHello.Some? && s.state != State.Idle && !s.Over()
    ensures Stable(p, OnHello(p, s, m, hello, now, a))
  {
    hide Core;
    hide Propose;
    hide Stop;
    hide Emit;
    hide Known;
    if s.remoteHello.Some? {
      StopStable(p, s, "conflict", true);
      StableCaches(p, s);
      EmitStable(p, s, s.hello);
      EmitFrame(s, s.hello);
      EmitStable(p, Emit(s, s.hello).s, s.prepare);
    } else {
      Ungreeted(p, s);
      var greeted := s.(remoteHello := Some(hello), remotePayload := m.payload).Log(Greeted(hello, now));
      GreetedKeeps(p, s, hello, m.payload, now);
      StillCore(p, greeted);
      if p.offer {
        ProposeKeeps(p, greeted, now, a);
      } else {
        StableCaches(p, greeted);
        EmitStable(p, greeted, greeted.hello);
      }
    }
  }

  lemma OnPrepareKeeps(p: Party, s: Endpoint, m: Packet, plan: Plan, now: int, a: Answers)
    requires Stable(p, s) && s.localHello.Some? && s.state != State.Idle && !s.Over() && RoundOk(m.kind, m.round)
    requires m.kind == Kind.Prepare
    ensures Stable(p, OnPrepare(p, s, m, plan, now, a))
  {
    hide Core;
    hide BeginPreparation;
    hide Proposal;
    hide Stop;
    hide Emit;
    hide Known;
    if s.plan.Some? {
      StopStable(p, s, "conflict", true);
      StableCaches(p, s);
      EmitStable(p, s, s.ready);
    } else if s.state != State.Hello || s.remoteHello.None? || Proposal(p, s) != Some(plan) {
    } else {
      Unplanned(p, s);
      BeginPreparationKeeps(p, s, plan, m.round, now, a);
    }
  }

  /** What a start or started message needs. */
  lemma LaunchReady(p: Party, s: Endpoint, kind: Kind, v: Value)
    requires Stable(p, s) && s.state in {Preparing, State.Ready} && kind == if p.offer then Kind.Start else Kind.Started
    ensures |s.made| == 2 && s.tx == p.tx && s.plan.Some? && s.localHello.Some? && Placed(p, 2, kind)
    ensures Describes(p, FactsOf(s), NextPacket(p, s, kind, v))
    ensures p.offer <==> s.state == Preparing
  {
    hide ControlPayload;
  }

  lemma OnReadyKeeps(p: Party, s: Endpoint, digest: string, budget: Budget, now: int, a: Answers)
    requires Stable(p, s) && s.plan.Some? && p.offer
    ensures Stable(p, OnReady(p, s, digest, budget, now, a))
  {
    hide Core;
    hide Stop;
    hide Emit;
    hide Known;
    hide Describes;
    hide Stoppable;
    hide Encode;
    hide StartRound;
    hide Await;
    StableCaches(p, s);
    EmitStable(p, s, s.start);
    if s.state == Preparing {
      LaunchReady(p, s, Kind.Start, DigestBody(s.digest));
      MakeKeeps(p, s, Kind.Start, DigestBody(s.digest));
      var m := Make(p, s, Kind.Start, DigestBody(s.digest));
      var t := m.s.(start := m.data);
      CachesKnown(p, m.s);
      SideKeeps(p, m.s, t);
      StartRoundKeeps(p, t, now, a);
      StartRoundFrame(p, t, now, a);
      var b := StartRound(p, t, now, a);
      AllocatingStoppable(b);
      KnownStays(p, t.made, b.made, m.data);
      AwaitKeeps(p, b, Kind.Start, m.data, now);
      AwaitFrame(b, Kind.Start, m.data, now);
      StillCore(p, OnReady(p, s, s.digest, s.plan.value.budget, now, a));
    }
  }

  lemma KnownStays(p: Party, made: seq<Packet>, more: seq<Packet>, data: Bytes)
    requires Known(p, made, data) && made <= more
    ensures Known(p, more, data)
  {
    hide Encode;
    if data != [] {
      var i :| 0 <= i < |made| && data == Encode(made[i], p.tx, p.suite);
      assert more[i] == made[i];
    }
  }

  lemma StartRoundFrame(p: Party, s: Endpoint, now: int, a: Answers)
    requires s.plan.Some?
    ensures s.made <= StartRound(p, s, now, a).made
  {
  }

  lemma OnStartKeeps(p: Party, s: Endpoint, digest: string, now: int, a: Answers)
    requires Stable(p, s) && s.plan.Some? && !p.offer
    ensures Stable(p, OnStart(p, s, digest, now, a))
  {
    hide Core;
    hide Stop;
    hide Emit;
    hide Known;
    hide Describes;
    hide Stoppable;
    hide Encode;
    hide StartRound;
    StableCaches(p, s);
    EmitStable(p, s, s.started);
    if s.state == State.Ready {
      var c := s.(pending := []);
      SideStable(p, s, c);
      LaunchReady(p, c, Kind.Started, DigestBody(s.digest));
      StableCore(p, c);
      MakeKeeps(p, c, Kind.Started, DigestBody(s.digest));
      var m := Make(p, c, Kind.Started, DigestBody(s.digest));
      var t := m.s.(started := m.data);
      CachesKnown(p, m.s);
      SideKeeps(p, m.s, t);
      StartRoundKeeps(p, t, now, a);
      StartRoundFrame(p, t, now, a);
      var b := StartRound(p, t, now, a);
      AllocatingStoppable(b);
      KnownStays(p, t.made, b.made, m.data);
      EmitKeeps(p, b, m.data);
      EmitFrame(b, m.data);
      StillCore(p, OnStart(p, s, s.digest, now, a));
    }
  }

  lemma StableCore(p: Party, s: Endpoint)
    requires Stable(p, s)
    ensures Core(p, s)
  {
  }

  lemma DispatchKeeps(p: Party, s: Endpoint, m: Packet, duplicate: bool, now: int, a: Answers)
    requires Stable(p, s) && Formed(p, s) && s.localHello.Some? && s.state != State.Idle && !s.Over()
    requires RoundOk(m.kind, m.round) && InRound(p, s, m) && ParseControl(m.kind, m.payload, p.suite).Some?
    ensures Stable(p, Dispatch(p, s, m, duplicate, now, a))
  {
    hide Stable;
    hide OnHello;
    hide OnPrepare;
    hide OnReady;
    hide OnStart;
    hide Known;
    var v := ParseControl(m.kind, m.payload, p.suite).value;
    StableCaches(p, s);
    if m.kind == Kind.Hello {
      OnHelloKeeps(p, s, m, v.hello, now, a);
    } else if m.kind == Kind.Prepare && !p.offer {
      OnPrepareKeeps(p, s, m, v.plan, now, a);
    } else if m.kind == Kind.Ready && p.offer {
      OnReadyKeeps(p, s, v.digest, v.budget, now, a);
    } else if m.kind == Kind.Start && !p.offer {
      OnStartKeeps(p, s, v.digest, now, a);
    } else if m.kind == Kind.Started && p.offer && s.state == State.Probing && v.digest == s.digest {
      SideStable(p, s, s.(pending := []));
    } else if m.kind == Cancel && !duplicate {
      StopStable(p, s, v.reason, false);
    }
  }

  lemma AfterValid(m: Memory, n: Sequence, digest: Key)
    requires m.Valid()
    ensures m.After(n, digest).Valid()
  {
  }

  lemma ReceiveKeeps(p: Party, s: Endpoint, data: Bytes, now: int, a: Answers)
    requires Stable(p, s) && Formed(p, s)
    ensures Stable(p, Receive(p, s, data, now, a))
  {
    hide Stable;
    hide Dispatch;
    hide Opened;
    hide Known;
    if s.state == State.Idle || s.Over() {
    } else if now >= s.deadline {
      StopStable(p, s, "timeout", true);
    } else if Opened(p, s, data).Some? {
      var m := Opened(p, s, data).value;
      if InRound(p, s, m) {
        var digest := p.suite.sha(data);
        var verdict := s.replay.Judge(m.sequence, digest);
        var t := s.(replay := s.replay.After(m.sequence, digest));
        StableCaches(p, s);
        AfterValid(s.replay, m.sequence, digest);
        SideStable(p, s, t);
        if verdict == Conflict {
          StopStable(p, t, "conflict", true);
        } else if verdict != TooOld {
          DispatchKeeps(p, t, m, verdict == Duplicate, now, a);
        }
      }
    }
  }

  /** Whatever happens to an endpoint, the invariant stands. */
  lemma ActKeeps(p: Party, s: Endpoint, a: Action)
    requires Stable(p, s)
    ensures Formed(p, s) && Stable(p, Act(p, s, a))
  {
    hide Stable;
    hide Begin;
    hide Receive;
    hide Tick;
    hide Stop;
    StableForms(p, s);
    match a {
      case Open(hello, now, deadline) => BeginKeeps(p, s, hello, now, deadline);
      case Arrive(data, now, answers) => ReceiveKeeps(p, s, data, now, answers);
      case Timer(now, answers) => TickKeeps(p, s, now, answers);
      case Quit(reason, notify) => StopStable(p, s, reason, notify);
    }
  }

  /** A stopped endpoint does nothing. */
  lemma OverStays(p: Party, s: Endpoint, a: Action)
    requires Formed(p, s) && s.Over()
    ensures Act(p, s, a) == s
  {
  }
}
