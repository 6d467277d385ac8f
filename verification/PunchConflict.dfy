/**
 Loss, duplication and reordering never look like an attack: two honest ends
 never stop each other for a conflict.
 */
module PunchConflict {
  import opened Common
  import opened PunchValues
  import opened PunchProtocol
  import opened Replay
  import opened PunchMachine
  import opened PunchInvariant
  import opened PunchEffects
  import opened PunchSystem

  const CONFLICT := "conflict"

  /** No conflict was declared, and none is announced to the other side. */
  ghost predicate Clean(p: Party, s: Endpoint) {
    && (forall i :: 0 <= i < |s.trace| ==> s.trace[i] != Ended(CONFLICT))
    && forall i :: 0 <= i < |s.made| && s.made[i].kind == Cancel ==> Announces(p, s.made[i])
  }

  /** A Cancel packet names a reason other than a conflict. */
  ghost predicate Announces(p: Party, m: Packet) {
    exists reason :: reason != CONFLICT && m.payload == ControlPayload(Cancel, ReasonBody(reason), p.suite)
  }

  predicate Mild(halt: Option<Halt>) {
    halt.Some? ==> halt.value.reason != CONFLICT
  }

  /** Nobody outside the protocol calls a conflict. */
  predicate Blameless(a: Action) {
    match a
    case Open(_, _, _) => true
    case Arrive(_, _, answers) => Mild(answers.prepareHalt) && Mild(answers.pollHalt) && Mild(answers.startHalt)
    case Timer(_, answers) => Mild(answers.prepareHalt) && Mild(answers.pollHalt) && Mild(answers.startHalt)
    case Quit(reason, _) => reason != CONFLICT
  }

  predicate MildAnswers(a: Answers) {
    Mild(a.prepareHalt) && Mild(a.pollHalt) && Mild(a.startHalt)
  }

  // ----- Steps that declare no conflict -----

  lemma CleanLog(p: Party, s: Endpoint, e: Event)
    requires Clean(p, s) && e != Ended(CONFLICT)
    ensures Clean(p, s.Log(e))
  {
    hide Announces;
  }

  lemma CleanSame(p: Party, s: Endpoint, t: Endpoint)
    requires Clean(p, s) && t.trace == s.trace && t.made == s.made
    ensures Clean(p, t)
  {
    hide Announces;
  }

  lemma CleanEmit(p: Party, s: Endpoint, data: Bytes)
    requires Clean(p, s)
    ensures Clean(p, Emit(s, data).s)
  {
    hide Clean;
    if data != [] && !s.Over() {
      if s.attempts >= s.limit {
        CleanHalted(p, s, "budget");
      } else {
        CleanSame(p, s, s.(attempts := s.attempts + 1));
        CleanLog(p, s.(attempts := s.attempts + 1), Sent(data));
      }
    }
  }

  lemma CleanHalted(p: Party, s: Endpoint, reason: string)
    requires Clean(p, s) && reason != CONFLICT
    ensures Clean(p, Halted(s, reason))
  {
    hide Clean;
    var t := s.(state := State.Stopped, pending := [], tx := Zeros(32), rx := Zeros(32));
    CleanSame(p, s, t);
    CleanLog(p, t, Ended(reason));
  }

  lemma CleanMake(p: Party, s: Endpoint, kind: Kind, v: Value)
    requires Clean(p, s) && (kind == Cancel ==> v.ReasonBody? && v.reason != CONFLICT)
    ensures Clean(p, Make(p, s, kind, v).s)
  {
    hide ControlPayload;
    hide Encode;
    if s.next != 0 && !s.Over() {
      var m := NextPacket(p, s, kind, v);
      if kind == Cancel {
        assert m.payload == ControlPayload(Cancel, ReasonBody(v.reason), p.suite);
        assert Announces(p, m);
      }
    }
  }

  lemma CleanStop(p: Party, s: Endpoint, reason: string, notify: bool)
    requires Clean(p, s) && reason != CONFLICT
    ensures Clean(p, Stop(p, s, reason, notify))
  {
    hide Clean;
    hide Make;
    hide Emit;
    hide Halted;
    CleanHalted(p, s, reason);
    var m := Make(p, s, Cancel, ReasonBody(reason));
    CleanMake(p, s, Cancel, ReasonBody(reason));
    CleanEmit(p, m.s, m.data);
    CleanHalted(p, Emit(m.s, m.data).s, reason);
  }

  lemma CleanHalting(p: Party, s: Endpoint, halt: Option<Halt>)
    requires Clean(p, s) && Mild(halt)
    ensures Clean(p, Halting(p, s, halt))
  {
    hide Clean;
    if halt.Some? {
      CleanStop(p, s, halt.value.reason, halt.value.notify);
    }
  }

  lemma CleanAwait(p: Party, s: Endpoint, kind: Kind, data: Bytes, now: int)
    requires Clean(p, s)
    ensures Clean(p, Await(s, kind, data, now))
  {
    hide Clean;
    hide Emit;
    var t := s.(pending := data, pendingKind := kind, retries := 0, retryAt := now + 200);
    CleanSame(p, s, t);
    CleanEmit(p, t, data);
  }

  lemma CleanBegin(p: Party, s: Endpoint, hello: Offer, now: int, deadline: int)
    requires Clean(p, s)
    ensures Clean(p, Begin(p, s, hello, now, deadline))
  {
    hide Clean;
    hide Make;
    hide Await;
    if MayBegin(p, s, hello, now, deadline) {
      BudgetPositive(p, hello);
      var open := s.(state := State.Hello, deadline := deadline, localHello := Some(hello), limit := hello.budget.controlPackets);
      var m := Make(p, open, Kind.Hello, HelloBody(hello));
      CleanSame(p, s, open);
      CleanMake(p, open, Kind.Hello, HelloBody(hello));
      CleanSame(p, m.s, m.s.(hello := m.data));
      CleanAwait(p, m.s.(hello := m.data), Kind.Hello, m.data, now);
    }
  }

  lemma BudgetPositive(p: Party, hello: Offer)
    requires ControlPayload(Kind.Hello, HelloBody(hello), p.suite) != []
    ensures 1 <= hello.budget.controlPackets
  {
  }

  lemma CleanStartRound(p: Party, s: Endpoint, now: int, a: Answers)
    requires s.plan.Some? && Clean(p, s) && Mild(a.startHalt)
    ensures Clean(p, StartRound(p, s, now, a))
  {
    hide Clean;
    hide Halting;
    if s.state != State.Probing && !s.Over() {
      var t := s.(state := State.Probing);
      CleanSame(p, s, t);
      CleanLog(p, t, Began(s.round, s.plan.value, now));
      CleanHalting(p, t.Log(Began(s.round, s.plan.value, now)), a.startHalt);
    }
  }

  lemma CleanFinish(p: Party, s: Endpoint, now: int)
    requires s.plan.Some? && Clean(p, s)
    ensures Clean(p, FinishPreparation(p, s, now))
  {
    hide Clean;
    hide Make;
    hide Emit;
    hide Await;
    hide Digest;
    if s.state == Allocating {
      var d := s.(digest := DigestOf(p, s.plan.value));
      CleanSame(p, s, d);
      if p.offer {
        var m := Make(p, d, Kind.Prepare, PlanBody(d.plan.value));
        var t := m.s.(prepare := m.data, state := Preparing);
        CleanMake(p, d, Kind.Prepare, PlanBody(d.plan.value));
        CleanSame(p, m.s, t);
        CleanEmit(p, t, m.s.hello);
        CleanAwait(p, Emit(t, m.s.hello).s, Kind.Prepare, m.data, now);
      } else {
        var m := Make(p, d, Kind.Ready, ReadyBody(d.digest, d.plan.value.budget));
        var t := m.s.(ready := m.data, state := State.Ready);
        CleanMake(p, d, Kind.Ready, ReadyBody(d.digest, d.plan.value.budget));
        CleanSame(p, m.s, t);
        CleanAwait(p, t, Kind.Ready, m.data, now);
      }
    }
  }

  lemma CleanBeginPreparation(p: Party, s: Endpoint, now: int, a: Answers)
    requires s.plan.Some? && Clean(p, s) && Mild(a.prepareHalt)
    ensures Clean(p, BeginPreparation(p, s, now, a))
  {
    hide Clean;
    hide Halting;
    hide Stop;
    hide FinishPreparation;
    var t := s.(state := Allocating, pending := []);
    CleanSame(p, s, t);
    CleanLog(p, t, Prepared(s.plan.value));
    var asked := Halting(p, t.Log(Prepared(s.plan.value)), a.prepareHalt);
    CleanHalting(p, t.Log(Prepared(s.plan.value)), a.prepareHalt);
    HaltingPlan(p, t.Log(Prepared(s.plan.value)), a.prepareHalt);
    CleanStop(p, asked, "resources", true);
    CleanFinish(p, asked, now);
  }

  lemma CleanTick(p: Party, s: Endpoint, now: int, a: Answers)
    requires Formed(p, s) && Clean(p, s) && MildAnswers(a)
    ensures Clean(p, Tick(p, s, now, a))
  {
    hide Clean;
    hide Halting;
    hide Stop;
    hide FinishPreparation;
    hide Emit;
    CleanStop(p, s, "timeout", true);
    var polled := Halting(p, s, a.pollHalt);
    CleanHalting(p, s, a.pollHalt);
    HaltingPlan(p, s, a.pollHalt);
    CleanStop(p, polled, "resources", true);
    if s.state == Allocating {
      CleanFinish(p, polled, now);
    }
    CleanSame(p, s, s.(pending := []));
    var first := if s.pendingKind == Kind.Prepare then Emit(s, s.hello) else Emission(s, true);
    CleanEmit(p, s, s.hello);
    var again := Emit(first.s, first.s.pending);
    CleanEmit(p, first.s, first.s.pending);
    if s.retries < 3 {
      CleanSame(p, again.s, again.s.(retryAt := now + WAITS[s.retries], retries := s.retries + 1));
    }
  }

  // ----- Packets that give no cause -----

  /** Nothing in the packet contradicts what is held. */
  ghost predicate Consistent(p: Party, s: Endpoint, m: Packet) {
    var v := ParseControl(m.kind, m.payload, p.suite);
    && (m.kind == Kind.Hello && s.remoteHello.Some? ==> v == Some(HelloBody(s.remoteHello.value)) && m.payload == s.remotePayload)
    && (m.kind == Kind.Prepare && !p.offer && s.plan.Some? ==> v == Some(PlanBody(s.plan.value)))
    && (m.kind == Cancel ==> v != Some(ReasonBody(CONFLICT)))
  }

  lemma CleanPropose(p: Party, s: Endpoint, now: int, a: Answers)
    requires s.localHello.Some? && s.remoteHello.Some? && Clean(p, s) && MildAnswers(a)
    ensures Clean(p, Propose(p, s, now, a))
  {
    hide Clean;
    hide Stop;
    hide Proposal;
    hide BeginPreparation;
    CleanStop(p, s, "ineligible", false);
    if Proposal(p, s).Some? {
      var drawn := s.(plan := Proposal(p, s), round := a.random);
      CleanSame(p, s, drawn);
      CleanStop(p, drawn, "resources", false);
      CleanBeginPreparation(p, drawn, now, a);
    }
  }

  lemma CleanOnHello(p: Party, s: Endpoint, m: Packet, hello: Offer, now: int, a: Answers)
    requires s.localHello.Some? && Clean(p, s) && MildAnswers(a)
    requires s.remoteHello.Some? ==> s.remoteHello.value == hello && s.remotePayload == m.payload
    ensures Clean(p, OnHello(p, s, m, hello, now, a))
  {
    hide Clean;
    hide Emit;
    hide Propose;
    CleanEmit(p, s, s.hello);
    CleanEmit(p, Emit(s, s.hello).s, s.prepare);
    if s.remoteHello.None? {
      var met := s.(remoteHello := Some(hello), remotePayload := m.payload);
      var greeted := met.Log(Greeted(hello, now));
      CleanSame(p, s, met);
      CleanLog(p, met, Greeted(hello, now));
      CleanPropose(p, greeted, now, a);
      CleanEmit(p, greeted, greeted.hello);
    }
  }

  lemma CleanOnPrepare(p: Party, s: Endpoint, m: Packet, plan: Plan, now: int, a: Answers)
    requires s.localHello.Some? && Clean(p, s) && MildAnswers(a)
    requires s.plan.Some? ==> s.plan.value == plan
    ensures Clean(p, OnPrepare(p, s, m, plan, now, a))
  {
    hide Clean;
    hide Emit;
    hide Proposal;
    hide BeginPreparation;
    CleanEmit(p, s, s.ready);
    if s.plan.None? {
      var planned := s.(round := m.round, plan := Some(plan));
      CleanSame(p, s, planned);
      CleanBeginPreparation(p, planned, now, a);
    }
  }

  lemma CleanOnReady(p: Party, s: Endpoint, digest: string, budget: Budget, now: int, a: Answers)
    requires s.plan.Some? && Clean(p, s) && MildAnswers(a)
    ensures Clean(p, OnReady(p, s, digest, budget, now, a))
  {
    hide Clean;
    hide Emit;
    hide Make;
    hide Await;
    hide StartRound;
    CleanEmit(p, s, s.start);
    var m := Make(p, s, Kind.Start, DigestBody(s.digest));
    CleanMake(p, s, Kind.Start, DigestBody(s.digest));
    MakePlan(p, s, Kind.Start, DigestBody(s.digest));
    CleanSame(p, m.s, m.s.(start := m.data));
    CleanStartRound(p, m.s.(start := m.data), now, a);
    CleanAwait(p, StartRound(p, m.s.(start := m.data), now, a), Kind.Start, m.data, now);
  }

  lemma CleanOnStart(p: Party, s: Endpoint, digest: string, now: int, a: Answers)
    requires s.plan.Some? && Clean(p, s) && MildAnswers(a)
    ensures Clean(p, OnStart(p, s, digest, now, a))
  {
    hide Clean;
    hide Emit;
    hide Make;
    hide StartRound;
    CleanEmit(p, s, s.started);
    var c := s.(pending := []);
    CleanSame(p, s, c);
    var m := Make(p, c, Kind.Started, DigestBody(s.digest));
    CleanMake(p, c, Kind.Started, DigestBody(s.digest));
    MakePlan(p, c, Kind.Started, DigestBody(s.digest));
    CleanSame(p, m.s, m.s.(started := m.data));
    CleanStartRound(p, m.s.(started := m.data), now, a);
    CleanEmit(p, StartRound(p, m.s.(started := m.data), now, a), m.data);
  }

  lemma CleanDispatch(p: Party, s: Endpoint, m: Packet, duplicate: bool, now: int, a: Answers)
    requires Formed(p, s) && s.localHello.Some? && !s.Over() && Clean(p, s) && MildAnswers(a) && Consistent(p, s, m)
    requires RoundOk(m.kind, m.round) && InRound(p, s, m) && ParseControl(m.kind, m.payload, p.suite).Some?
    ensures Clean(p, Dispatch(p, s, m, duplicate, now, a))
  {
    hide Clean;
    hide OnHello;
    hide OnPrepare;
    hide OnReady;
    hide OnStart;
    hide Stop;
    var v := ParseControl(m.kind, m.payload, p.suite).value;
    if m.kind == Kind.Hello {
      CleanOnHello(p, s, m, v.hello, now, a);
    } else if m.kind == Kind.Prepare && !p.offer {
      CleanOnPrepare(p, s, m, v.plan, now, a);
    } else if m.kind == Kind.Ready && p.offer {
      CleanOnReady(p, s, v.digest, v.budget, now, a);
    } else if m.kind == Kind.Start && !p.offer {
      CleanOnStart(p, s, v.digest, now, a);
    } else if m.kind == Kind.Started && p.offer && s.state == State.Probing && v.digest == s.digest {
      CleanSame(p, s, s.(pending := []));
    } else if m.kind == Cancel && !duplicate {
      CleanStop(p, s, v.reason, false);
    }
  }

  /** The packet delivered, if any, gives no cause for a conflict. */
  ghost predicate Harmless(p: Party, s: Endpoint, a: Action) {
    var m := Delivered(p, s, a);
    m.Some? ==> Consistent(p, s, m.value) && s.replay.Judge(m.value.sequence, p.suite.sha(a.data)) != Conflict
  }

  lemma CleanReceive(p: Party, s: Endpoint, a: Action)
    requires Formed(p, s) && Clean(p, s) && a.Arrive? && Blameless(a) && Harmless(p, s, a)
    ensures Clean(p, Receive(p, s, a.data, a.now, a.answers))
  {
    hide Clean;
    hide Dispatch;
    hide Opened;
    hide Stop;
    hide Consistent;
    CleanStop(p, s, "timeout", true);
    if s.state == State.Idle || s.Over() || a.now >= s.deadline {
    } else if Opened(p, s, a.data).Some? {
      var m := Opened(p, s, a.data).value;
      var digest := p.suite.sha(a.data);
      var t := s.(replay := s.replay.After(m.sequence, digest));
      CleanSame(p, s, t);
      ConsistentSame(p, s, t, m);
      if InRound(p, s, m) {
        CleanDispatch(p, t, m, s.replay.Judge(m.sequence, digest) == Duplicate, a.now, a.answers);
      }
    }
  }

  lemma ConsistentSame(p: Party, s: Endpoint, t: Endpoint, m: Packet)
    requires Consistent(p, s, m) && t == s.(replay := t.replay)
    ensures Consistent(p, t, m)
  {
  }

  lemma CleanAct(p: Party, s: Endpoint, a: Action)
    requires Formed(p, s) && Clean(p, s) && Blameless(a) && Harmless(p, s, a)
    ensures Clean(p, Act(p, s, a))
  {
    hide Clean;
    hide Begin;
    hide Receive;
    hide Tick;
    hide Stop;
    hide Harmless;
    match a {
      case Open(hello, now, deadline) => CleanBegin(p, s, hello, now, deadline);
      case Arrive(data, now, answers) => CleanReceive(p, s, a);
      case Timer(now, answers) => CleanTick(p, s, now, answers);
      case Quit(reason, notify) => CleanStop(p, s, reason, notify);
    }
  }

  // ----- Two honest ends -----

  /** A packet made by an honest other side contradicts nothing held. */
  lemma PeerConsistent(p: Party, s: Endpoint, q: Party, t: Endpoint, i: nat)
    requires p.suite == q.suite && p.suite.ReadsBack() && Heard(s, q, t) && Clean(q, t)
    requires i < |t.made| && Describes(q, FactsOf(t), t.made[i])
    requires ParseControl(t.made[i].kind, t.made[i].payload, p.suite).Some?
    requires !p.offer && s.plan.Some? ==> t.plan == s.plan
    ensures Consistent(p, s, t.made[i])
  {
    hide ParseControl;
    hide ControlPayload;
    hide Launched;
    var m := t.made[i];
    match m.kind {
      case Hello => PayloadReadsBack(Kind.Hello, HelloBody(t.localHello.value), p.suite);
      case Prepare => PayloadReadsBack(Kind.Prepare, PlanBody(t.plan.value), p.suite);
      case Cancel =>
        var reason :| reason != CONFLICT && m.payload == ControlPayload(Cancel, ReasonBody(reason), q.suite);
        PayloadReadsBack(Cancel, ReasonBody(reason), p.suite);
      case _ =>
    }
  }

  lemma PeerJudged(p: Party, s: Endpoint, q: Party, t: Endpoint, i: nat)
    requires Echoes(s.replay, q, t.made) && i < |t.made| && t.made[i].sequence == i + 1
    ensures s.replay.Judge(i + 1, q.suite.sha(Encode(t.made[i], q.tx, q.suite))) != Conflict
  {
    hide Encode;
  }

  /** Whatever an honest other side sent is harmless, however late and however often it arrives. */
  lemma PeerHarmless(p: Party, s: Endpoint, q: Party, t: Endpoint, a: Action)
    requires Stable(p, s) && Stable(q, t) && !s.Over() && p.generation == q.generation && p.suite == q.suite && q.tx == p.rx
    requires p.suite.ReadsBack() && Heard(s, q, t) && Clean(q, t) && Echoes(s.replay, q, t.made)
    requires !p.offer && s.plan.Some? ==> t.plan == s.plan
    requires Delivered(p, s, a).Some? ==> WasSent(t, a.data)
    ensures Harmless(p, s, a)
  {
    hide Stable;
    hide Encode;
    hide Opened;
    hide Consistent;
    hide Describes;
    hide ParseControl;
    hide Echoes;
    hide Clean;
    hide Heard;
    if Delivered(p, s, a).Some? {
      var i := SentIsMade(q, t, p, s, a.data);
      PeerConsistent(p, s, q, t, i);
      PeerJudged(p, s, q, t, i);
    }
  }

  ghost predicate AllBlameless(script: seq<Move>) {
    forall i :: 0 <= i < |script| ==> Blameless(script[i].action)
  }

  lemma MoveClean(ps: Pair, w: World, m: Move)
    requires ps.Valid() && Standing(ps, w) && Joint(ps, w) && Genuine(ps, w, m) && Blameless(m.action)
    requires Clean(ps.offer, w.offer) && Clean(ps.answer, w.answer)
    ensures var v := After(ps, w, m); Clean(ps.offer, v.offer) && Clean(ps.answer, v.answer)
  {
    hide Stable;
    hide Act;
    hide Clean;
    hide Blameless;
    hide Harmless;
    hide Heard;
    hide Echoes;
    hide Delivered;
    StableForms(ps.offer, w.offer);
    StableForms(ps.answer, w.answer);
    if m.byOffer {
      if w.offer.Over() {
        OverStays(ps.offer, w.offer, m.action);
      } else {
        PeerHarmless(ps.offer, w.offer, ps.answer, w.answer, m.action);
        CleanAct(ps.offer, w.offer, m.action);
      }
    } else {
      if w.answer.Over() {
        OverStays(ps.answer, w.answer, m.action);
      } else {
        PeerHarmless(ps.answer, w.answer, ps.offer, w.offer, m.action);
        CleanAct(ps.answer, w.answer, m.action);
      }
    }
  }

  lemma {:induction false} PlayClean(ps: Pair, script: seq<Move>)
    requires ps.Valid() && Unforged(ps, script) && AllBlameless(script)
    ensures var w := Play(ps, script); Clean(ps.offer, w.offer) && Clean(ps.answer, w.answer)
  {
    hide Stable;
    hide After;
    hide Joint;
    hide Marked;
    hide Genuine;
    hide Clean;
    hide Blameless;
    if script == [] {
      InitialClean(ps.offer);
      InitialClean(ps.answer);
    } else {
      var n := |script| - 1;
      assert forall i :: 0 <= i < n ==> script[..n][..i] == script[..i] && script[..n][i] == script[i];
      PlayClean(ps, script[..n]);
      PlayAgrees(ps, script[..n]);
      MoveClean(ps, Play(ps, script[..n]), script[n]);
    }
  }

  lemma InitialClean(p: Party)
    ensures Clean(p, Initial(p))
  {
  }

  /** No schedule of losses, copies and delays makes an honest pair declare a conflict. */
  lemma NoFalseConflict(ps: Pair, script: seq<Move>)
    requires ps.Valid() && Unforged(ps, script) && AllBlameless(script)
    ensures var w := Play(ps, script);
      && (forall i :: 0 <= i < |w.offer.trace| ==> w.offer.trace[i] != Ended(CONFLICT))
      && (forall i :: 0 <= i < |w.answer.trace| ==> w.answer.trace[i] != Ended(CONFLICT))
  {
    hide Stable;
    hide After;
    hide Announces;
    PlayClean(ps, script);
  }
}
