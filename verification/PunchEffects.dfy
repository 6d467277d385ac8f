/**
 What one call may change: the offer's and the answer's HELLO, the plan and the
 round are set once, and only by the message that is meant to set them.
 */
module PunchEffects {
  import opened Common
  import opened PunchValues
  import opened PunchProtocol
  import opened Replay
  import opened PunchMachine
  import opened PunchInvariant

  /** Rounds begun since then are of this plan and number. */
  ghost predicate Marks(was: seq<Event>, now: seq<Event>, plan: Option<Plan>, round: Id) {
    forall i :: |was| <= i < |now| && now[i].Began? ==> plan == Some(now[i].plan) && round == now[i].round
  }

  ghost predicate NoneBegan(was: seq<Event>, now: seq<Event>) {
    forall i :: |was| <= i < |now| ==> !now[i].Began?
  }

  /** The agreement stays, and what was made and done is only added to. */
  ghost predicate Kept(s: Endpoint, t: Endpoint) {
    && t.replay == s.replay && t.localHello == s.localHello
    && t.remoteHello == s.remoteHello && t.remotePayload == s.remotePayload
    && t.plan == s.plan && t.round == s.round
    && (s.digest != "" ==> t.digest == s.digest)
    && s.made <= t.made && s.trace <= t.trace && Marks(s.trace, t.trace, s.plan, s.round)
  }

  /** As Kept, and the start hook is not called. */
  ghost predicate Quiet(s: Endpoint, t: Endpoint) {
    Kept(s, t) && NoneBegan(s.trace, t.trace)
  }

  lemma StillUnbegun(s: Endpoint, t: Endpoint)
    ensures s.trace <= t.trace && NoneBegan(s.trace, t.trace) && Begun(t) ==> Begun(s)
  {
    if s.trace <= t.trace && NoneBegan(s.trace, t.trace) && Begun(t) {
      var i :| 0 <= i < |t.trace| && t.trace[i].Began?;
      assert s.trace[i] == t.trace[i];
    }
  }

  lemma QuietLog(s: Endpoint, e: Event)
    requires !e.Began?
    ensures Quiet(s, s.Log(e))
  {
    var t := s.Log(e);
    assert forall i :: 0 <= i < |s.trace| ==> t.trace[i] == s.trace[i];
  }

  lemma QuietTwice(s: Endpoint, t: Endpoint, u: Endpoint)
    requires Quiet(s, t) && Quiet(t, u)
    ensures Quiet(s, u)
  {
    hide Begun;
  }

  lemma QuietEmit(s: Endpoint, data: Bytes)
    ensures Quiet(s, Emit(s, data).s)
  {
    hide Begun;
    if data != [] && !s.Over() {
      if s.attempts >= s.limit {
        QuietHalted(s, "budget");
      } else {
        QuietLog(s.(attempts := s.attempts + 1), Sent(data));
        SameBegun(s, s.(attempts := s.attempts + 1));
      }
    }
  }

  lemma SameBegun(s: Endpoint, t: Endpoint)
    requires t.trace == s.trace
    ensures Begun(s) == Begun(t)
  {
  }

  lemma QuietHalted(s: Endpoint, reason: string)
    ensures Quiet(s, Halted(s, reason))
  {
    hide Begun;
    var t := s.(state := State.Stopped, pending := [], tx := Zeros(32), rx := Zeros(32));
    SameBegun(s, t);
    QuietLog(t, Ended(reason));
  }

  lemma QuietMake(p: Party, s: Endpoint, kind: Kind, v: Value)
    ensures Quiet(s, Make(p, s, kind, v).s)
  {
    hide Begun;
    SameBegun(s, Make(p, s, kind, v).s);
  }

  lemma QuietStop(p: Party, s: Endpoint, reason: string, notify: bool)
    ensures Quiet(s, Stop(p, s, reason, notify))
  {
    hide Begun;
    hide Make;
    hide Emit;
    hide Quiet;
    QuietHalted(s, reason);
    QuietItself(s);
    var m := Make(p, s, Cancel, ReasonBody(reason));
    QuietMake(p, s, Cancel, ReasonBody(reason));
    QuietEmit(m.s, m.data);
    QuietHalted(Emit(m.s, m.data).s, reason);
    QuietTwice(s, m.s, Emit(m.s, m.data).s);
    QuietTwice(s, Emit(m.s, m.data).s, Halted(Emit(m.s, m.data).s, reason));
  }

  lemma QuietItself(s: Endpoint)
    ensures Quiet(s, s)
  {
  }

  lemma QuietHalting(p: Party, s: Endpoint, halt: Option<Halt>)
    ensures Quiet(s, Halting(p, s, halt))
  {
    hide Quiet;
    QuietItself(s);
    if halt.Some? {
      QuietStop(p, s, halt.value.reason, halt.value.notify);
    }
  }

  /** Bookkeeping only. */
  lemma QuietSide(s: Endpoint, t: Endpoint)
    requires t == s.(state := t.state, hello := t.hello, prepare := t.prepare, ready := t.ready, start := t.start,
                     started := t.started, pending := t.pending, pendingKind := t.pendingKind, retries := t.retries,
                     retryAt := t.retryAt, digest := t.digest)
    requires s.digest != "" ==> t.digest == s.digest
    ensures Quiet(s, t)
  {
    hide Begun;
    SameBegun(s, t);
  }

  lemma QuietAwait(s: Endpoint, kind: Kind, data: Bytes, now: int)
    ensures Quiet(s, Await(s, kind, data, now))
  {
    hide Quiet;
    hide Emit;
    var t := s.(pending := data, pendingKind := kind, retries := 0, retryAt := now + 200);
    QuietSide(s, t);
    QuietEmit(t, data);
    QuietTwice(s, t, Emit(t, data).s);
  }

  lemma QuietFinish(p: Party, s: Endpoint, now: int)
    requires s.plan.Some? && (s.digest == "" || s.digest == DigestOf(p, s.plan.value))
    ensures Quiet(s, FinishPreparation(p, s, now))
  {
    hide Quiet;
    hide Emit;
    hide Make;
    hide Await;
    hide Digest;
    QuietItself(s);
    if s.state == Allocating {
      var d := s.(digest := DigestOf(p, s.plan.value));
      var kind, v := if p.offer then Kind.Prepare else Kind.Ready,
                     if p.offer then PlanBody(s.plan.value) else ReadyBody(d.digest, s.plan.value.budget);
      var m := Make(p, d, kind, v);
      QuietSide(s, d);
      QuietMake(p, d, kind, v);
      QuietTwice(s, d, m.s);
      var t := if p.offer then m.s.(prepare := m.data, state := Preparing) else m.s.(ready := m.data, state := State.Ready);
      QuietSide(m.s, t);
      QuietTwice(s, m.s, t);
      if p.offer {
        QuietEmit(t, m.s.hello);
        QuietTwice(s, t, Emit(t, m.s.hello).s);
        QuietAwait(Emit(t, m.s.hello).s, Kind.Prepare, m.data, now);
        QuietTwice(s, Emit(t, m.s.hello).s, FinishPreparation(p, s, now));
      } else {
        QuietAwait(t, Kind.Ready, m.data, now);
        QuietTwice(s, t, FinishPreparation(p, s, now));
      }
    }
  }

  lemma QuietBeginPreparation(p: Party, s: Endpoint, now: int, a: Answers)
    requires s.plan.Some? && (s.digest == "" || s.digest == DigestOf(p, s.plan.value))
    ensures Quiet(s, BeginPreparation(p, s, now, a))
  {
    hide Quiet;
    hide Halting;
    hide Stop;
    hide FinishPreparation;
    hide Digest;
    var t := s.(state := Allocating, pending := []);
    QuietSide(s, t);
    QuietLog(t, Prepared(s.plan.value));
    QuietTwice(s, t, t.Log(Prepared(s.plan.value)));
    var asked := Halting(p, t.Log(Prepared(s.plan.value)), a.prepareHalt);
    QuietHalting(p, t.Log(Prepared(s.plan.value)), a.prepareHalt);
    QuietTwice(s, t.Log(Prepared(s.plan.value)), asked);
    HaltingDigest(p, t.Log(Prepared(s.plan.value)), a.prepareHalt);
    QuietStop(p, asked, "resources", true);
    QuietTwice(s, asked, Stop(p, asked, "resources", true));
    QuietFinish(p, asked, now);
    QuietTwice(s, asked, FinishPreparation(p, asked, now));
  }

  lemma HaltingDigest(p: Party, s: Endpoint, halt: Option<Halt>)
    ensures Halting(p, s, halt).digest == s.digest && Halting(p, s, halt).plan == s.plan
  {
  }

  // ----- What a packet may change -----

  ghost predicate GreetedBy(p: Party, m: Option<Packet>, t: Endpoint) {
    && t.remoteHello.Some? && m.Some? && m.value.kind == Kind.Hello && t.remotePayload == m.value.payload
    && ParseControl(Kind.Hello, m.value.payload, p.suite) == Some(HelloBody(t.remoteHello.value))
  }

  ghost predicate PlannedBy(p: Party, m: Option<Packet>, t: Endpoint) {
    && t.plan.Some? && m.Some? && m.value.kind == Kind.Prepare && t.round == m.value.round
    && ParseControl(Kind.Prepare, m.value.payload, p.suite) == Some(PlanBody(t.plan.value))
  }

  ghost predicate BegunBy(p: Party, m: Option<Packet>, s: Endpoint) {
    && m.Some? && m.value.kind == (if p.offer then Kind.Ready else Kind.Start) && s.plan.Some? && m.value.round == s.round
  }

  /**
   The other HELLO, the answer's plan and round, and the start of the round come
   from a packet of the right kind, and each is settled once.
   */
  ghost predicate Effects(p: Party, s: Endpoint, m: Option<Packet>, t: Endpoint) {
    && (s.localHello.Some? ==> t.localHello == s.localHello)
    && ((t.remoteHello == s.remoteHello && t.remotePayload == s.remotePayload) || (s.remoteHello.None? && GreetedBy(p, m, t)))
    && (s.plan.Some? ==> t.plan == s.plan && t.round == s.round)
    && (s.plan.None? && t.plan.Some? && !p.offer ==> PlannedBy(p, m, t))
    && (Begun(t) && !Begun(s) ==> BegunBy(p, m, s))
    && (s.digest != "" ==> t.digest == s.digest)
    && s.made <= t.made && s.trace <= t.trace && Marks(s.trace, t.trace, t.plan, t.round)
  }

  lemma OnHelloEffects(p: Party, s: Endpoint, m: Packet, hello: Offer, now: int, a: Answers)
    requires Stable(p, s) && s.localHello.Some? && s.state != State.Idle && !s.Over() && m.kind == Kind.Hello
    requires ParseControl(Kind.Hello, m.payload, p.suite) == Some(HelloBody(hello))
    ensures var t := OnHello(p, s, m, hello, now, a); Effects(p, s, Some(m), t) && t.replay == s.replay
  {
    hide Begun;
    hide Stop;
    hide Emit;
    hide ParseControl;
    hide Propose;
    hide Counted;
    hide AllKnown;
    hide Numbered;
    if s.remoteHello.Some? {
      QuietStop(p, s, "conflict", true);
      QuietItself(s);
      QuietEmit(s, s.hello);
      QuietEmit(Emit(s, s.hello).s, s.prepare);
      QuietTwice(s, Emit(s, s.hello).s, Emit(Emit(s, s.hello).s, s.prepare).s);
    } else {
      var met := s.(remoteHello := Some(hello), remotePayload := m.payload);
      var greeted := met.Log(Greeted(hello, now));
      SameBegun(s, met);
      QuietLog(met, Greeted(hello, now));
      if p.offer {
        ProposeEffects(p, greeted, now, a);
      } else {
        QuietEmit(greeted, greeted.hello);
      }
    }
    StillUnbegun(s, OnHello(p, s, m, hello, now, a));
  }

  /** Settling a plan for the first time, and preparing it. */
  lemma ProposeEffects(p: Party, s: Endpoint, now: int, a: Answers)
    requires p.offer && s.localHello.Some? && s.remoteHello.Some? && s.plan.None? && s.digest == ""
    ensures var t := Propose(p, s, now, a);
      && t.replay == s.replay && t.localHello == s.localHello && t.remoteHello == s.remoteHello
      && t.remotePayload == s.remotePayload && NoneBegan(s.trace, t.trace) && s.made <= t.made && s.trace <= t.trace
  {
    hide Begun;
    hide Stop;
    hide BeginPreparation;
    hide Proposal;
    QuietStop(p, s, "ineligible", false);
    if Proposal(p, s).Some? {
      var drawn := s.(plan := Proposal(p, s), round := a.random);
      SameBegun(s, drawn);
      QuietStop(p, drawn, "resources", false);
      QuietBeginPreparation(p, drawn, now, a);
    }
  }

  lemma OnPrepareEffects(p: Party, s: Endpoint, m: Packet, plan: Plan, now: int, a: Answers)
    requires Stable(p, s) && s.localHello.Some? && s.state != State.Idle && !s.Over() && m.kind == Kind.Prepare && !p.offer
    requires ParseControl(Kind.Prepare, m.payload, p.suite) == Some(PlanBody(plan))
    ensures var t := OnPrepare(p, s, m, plan, now, a); Effects(p, s, Some(m), t) && t.replay == s.replay
  {
    hide Begun;
    hide Stop;
    hide Emit;
    hide ParseControl;
    hide BeginPreparation;
    hide Proposal;
    hide Counted;
    hide AllKnown;
    hide Numbered;
    QuietItself(s);
    if s.plan.Some? {
      QuietStop(p, s, "conflict", true);
      QuietEmit(s, s.ready);
    } else {
      var planned := s.(round := m.round, plan := Some(plan));
      SameBegun(s, planned);
      QuietBeginPreparation(p, planned, now, a);
    }
    StillUnbegun(s, OnPrepare(p, s, m, plan, now, a));
  }

  /** The start hook is called for this packet. */
  lemma StartRoundEffects(p: Party, s: Endpoint, now: int, a: Answers)
    requires s.plan.Some?
    ensures Kept(s, StartRound(p, s, now, a))
  {
    hide Halting;
    if s.state != State.Probing && !s.Over() {
      var t := s.(state := State.Probing).Log(Began(s.round, s.plan.value, now));
      QuietHalting(p, t, a.startHalt);
    }
  }

  lemma KeptTwice(s: Endpoint, t: Endpoint, u: Endpoint)
    requires Kept(s, t) && Kept(t, u)
    ensures Kept(s, u)
  {
  }

  lemma OnReadyEffects(p: Party, s: Endpoint, digest: string, budget: Budget, now: int, a: Answers)
    requires s.plan.Some?
    ensures Kept(s, OnReady(p, s, digest, budget, now, a))
  {
    hide Kept;
    hide Begun;
    hide Emit;
    hide Make;
    hide StartRound;
    hide Await;
    QuietItself(s);
    QuietKept(s, s);
    QuietEmit(s, s.start);
    QuietKept(s, Emit(s, s.start).s);
    if s.state == Preparing {
      var m := Make(p, s, Kind.Start, DigestBody(s.digest));
      var t := m.s.(start := m.data);
      QuietMake(p, s, Kind.Start, DigestBody(s.digest));
      QuietSide(m.s, t);
      QuietTwice(s, m.s, t);
      QuietKept(s, t);
      KeptPlan(s, t);
      StartRoundEffects(p, t, now, a);
      var b := StartRound(p, t, now, a);
      QuietAwait(b, Kind.Start, m.data, now);
      QuietKept(b, Await(b, Kind.Start, m.data, now));
      KeptTwice(s, t, b);
      KeptTwice(s, b, Await(b, Kind.Start, m.data, now));
    }
  }

  lemma QuietKept(s: Endpoint, t: Endpoint)
    requires Quiet(s, t)
    ensures Kept(s, t)
  {
  }

  lemma KeptPlan(s: Endpoint, t: Endpoint)
    requires Kept(s, t)
    ensures t.plan == s.plan
  {
  }

  lemma OnStartEffects(p: Party, s: Endpoint, digest: string, now: int, a: Answers)
    requires s.plan.Some?
    ensures Kept(s, OnStart(p, s, digest, now, a))
  {
    hide Kept;
    hide Begun;
    hide Emit;
    hide Make;
    hide StartRound;
    QuietItself(s);
    QuietKept(s, s);
    QuietEmit(s, s.started);
    QuietKept(s, Emit(s, s.started).s);
    if s.state == State.Ready {
      var c := s.(pending := []);
      var m := Make(p, c, Kind.Started, DigestBody(s.digest));
      var t := m.s.(started := m.data);
      QuietSide(s, c);
      QuietMake(p, c, Kind.Started, DigestBody(s.digest));
      QuietTwice(s, c, m.s);
      QuietSide(m.s, t);
      QuietTwice(s, m.s, t);
      QuietKept(s, t);
      KeptPlan(s, t);
      StartRoundEffects(p, t, now, a);
      var b := StartRound(p, t, now, a);
      QuietEmit(b, m.data);
      QuietKept(b, Emit(b, m.data).s);
      KeptTwice(s, t, b);
      KeptTwice(s, b, Emit(b, m.data).s);
    }
  }

  lemma DispatchEffects(p: Party, s: Endpoint, m: Packet, duplicate: bool, now: int, a: Answers)
    requires Stable(p, s) && Formed(p, s) && s.localHello.Some? && s.state != State.Idle && !s.Over()
    requires RoundOk(m.kind, m.round) && InRound(p, s, m) && ParseControl(m.kind, m.payload, p.suite).Some?
    ensures var t := Dispatch(p, s, m, duplicate, now, a); Effects(p, s, Some(m), t) && t.replay == s.replay
  {
    hide Stable;
    hide OnHello;
    hide OnPrepare;
    hide OnReady;
    hide OnStart;
    hide Stop;
    hide Begun;
    var v := ParseControl(m.kind, m.payload, p.suite).value;
    QuietItself(s);
    if m.kind == Kind.Hello {
      OnHelloEffects(p, s, m, v.hello, now, a);
    } else if m.kind == Kind.Prepare && !p.offer {
      OnPrepareEffects(p, s, m, v.plan, now, a);
    } else if m.kind == Kind.Ready && p.offer {
      OnReadyEffects(p, s, v.digest, v.budget, now, a);
    } else if m.kind == Kind.Start && !p.offer {
      OnStartEffects(p, s, v.digest, now, a);
    } else if m.kind == Kind.Started && p.offer && s.state == State.Probing && v.digest == s.digest {
      QuietSide(s, s.(pending := []));
    } else if m.kind == Cancel && !duplicate {
      QuietStop(p, s, v.reason, false);
    }
    StillUnbegun(s, Dispatch(p, s, m, duplicate, now, a));
  }

  /** The packet an action delivers. */
  function Delivered(p: Party, s: Endpoint, a: Action): Option<Packet> {
    if a.Arrive? then Opened(p, s, a.data) else None
  }

  /** The replay memory changes only by the packet delivered. */
  ghost predicate Remembers(p: Party, s: Endpoint, a: Action, t: Endpoint) {
    || t.replay == s.replay
    || (Delivered(p, s, a).Some? && t.replay == s.replay.After(Delivered(p, s, a).value.sequence, p.suite.sha(a.data)))
  }

  lemma ReceiveEffects(p: Party, s: Endpoint, a: Action)
    requires Stable(p, s) && Formed(p, s) && a.Arrive?
    ensures Effects(p, s, Delivered(p, s, a), Act(p, s, a)) && Remembers(p, s, a, Act(p, s, a))
  {
    hide Stable;
    hide Begun;
    hide Dispatch;
    hide Opened;
    hide Stop;
    QuietItself(s);
    QuietStop(p, s, "timeout", true);
    if s.state == State.Idle || s.Over() || a.now >= s.deadline {
    } else if Opened(p, s, a.data).Some? {
      var m := Opened(p, s, a.data).value;
      if InRound(p, s, m) {
        var digest := p.suite.sha(a.data);
        var verdict := s.replay.Judge(m.sequence, digest);
        var t := s.(replay := s.replay.After(m.sequence, digest));
        SameBegun(s, t);
        StableCaches(p, s);
        AfterValid(s.replay, m.sequence, digest);
        SideStable(p, s, t);
        QuietItself(t);
        QuietStop(p, t, "conflict", true);
        if verdict != TooOld && verdict != Conflict {
          DispatchEffects(p, t, m, verdict == Duplicate, a.now, a.answers);
        }
      }
    }
    StillUnbegun(s, Act(p, s, a));
  }

  lemma TickEffects(p: Party, s: Endpoint, now: int, a: Answers)
    requires Stable(p, s) && Formed(p, s)
    ensures Quiet(s, Tick(p, s, now, a))
  {
    hide Quiet;
    hide Stop;
    hide Emit;
    hide Halting;
    hide FinishPreparation;
    QuietItself(s);
    QuietStop(p, s, "timeout", true);
    if s.state == State.Idle || s.Over() || now >= s.deadline {
    } else if s.state == Allocating {
      var polled := Halting(p, s, a.pollHalt);
      QuietHalting(p, s, a.pollHalt);
      HaltingDigest(p, s, a.pollHalt);
      StableDigest(p, s);
      QuietStop(p, polled, "resources", true);
      QuietTwice(s, polled, Stop(p, polled, "resources", true));
      QuietFinish(p, polled, now);
      QuietTwice(s, polled, FinishPreparation(p, polled, now));
    } else {
      QuietSide(s, s.(pending := []));
      var first := if s.pendingKind == Kind.Prepare then Emit(s, s.hello) else Emission(s, true);
      QuietEmit(s, s.hello);
      var again := Emit(first.s, first.s.pending);
      QuietEmit(first.s, first.s.pending);
      QuietTwice(s, first.s, again.s);
      if s.retries < 3 {
        QuietSide(again.s, again.s.(retryAt := now + WAITS[s.retries], retries := s.retries + 1));
        QuietTwice(s, again.s, again.s.(retryAt := now + WAITS[s.retries], retries := s.retries + 1));
      }
    }
  }

  lemma StableDigest(p: Party, s: Endpoint)
    requires Stable(p, s) && s.plan.Some?
    ensures s.digest == "" || s.digest == DigestOf(p, s.plan.value)
  {
  }

  lemma BeginEffects(p: Party, s: Endpoint, hello: Offer, now: int, deadline: int)
    requires Stable(p, s)
    ensures var t := Begin(p, s, hello, now, deadline); Effects(p, s, None, t) && t.replay == s.replay
  {
    hide Begun;
    hide Make;
    hide Await;
    hide Counted;
    hide AllKnown;
    hide Numbered;
    QuietItself(s);
    if MayBegin(p, s, hello, now, deadline) {
      var open := s.(state := State.Hello, deadline := deadline, localHello := Some(hello), limit := hello.budget.controlPackets);
      var m := Make(p, open, Kind.Hello, HelloBody(hello));
      SameBegun(s, open);
      QuietMake(p, open, Kind.Hello, HelloBody(hello));
      var t := m.s.(hello := m.data);
      QuietSide(m.s, t);
      QuietAwait(t, Kind.Hello, m.data, now);
    }
    StillUnbegun(s, Begin(p, s, hello, now, deadline));
  }

  /** What any call may change. */
  lemma ActEffects(p: Party, s: Endpoint, a: Action)
    requires Stable(p, s) && Formed(p, s)
    ensures Effects(p, s, Delivered(p, s, a), Act(p, s, a)) && Remembers(p, s, a, Act(p, s, a))
  {
    hide Stable;
    hide Begun;
    hide Receive;
    hide Tick;
    hide Begin;
    hide Stop;
    match a {
      case Open(hello, now, deadline) => BeginEffects(p, s, hello, now, deadline);
      case Arrive(data, now, answers) => ReceiveEffects(p, s, a);
      case Timer(now, answers) => TickEffects(p, s, now, answers);
      case Quit(reason, notify) => QuietStop(p, s, reason, notify);
    }
    StillUnbegun(s, Act(p, s, a));
  }
}
