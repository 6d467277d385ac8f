/**
 One endpoint over its whole life: what the hooks see, and how often the timer
 resends.
 */
module PunchRuns {
  import opened Common
  import opened PunchValues
  import opened PunchProtocol
  import opened Replay
  import opened PunchMachine
  import opened PunchInvariant

  /** An endpoint after any sequence of calls. */
  ghost function Life(p: Party, script: seq<Action>): (s: Endpoint)
    ensures Stable(p, s)
  {
    if script == [] then
      InitialStable(p);
      Initial(p)
    else
      var was := Life(p, script[..|script| - 1]);
      ActKeeps(p, was, script[|script| - 1]);
      Act(p, was, script[|script| - 1])
  }

  /**
   Over every run: prepare, start and stop are called at most once each, start
   only after prepare; never more packets are sent than the endpoint's own
   HELLO allows, none before there is one; and the wait table is always
   indexed inside its bounds.
   */
  lemma EndpointSafety(p: Party, script: seq<Action>)
    ensures var s, t := Life(p, script), TallyOf(Life(p, script).trace);
      && t.prepares <= 1 && t.begins <= t.prepares && t.ends <= 1 && (t.ends == 1 <==> s.Over())
      && t.sends <= (if s.localHello.Some? then s.localHello.value.budget.controlPackets else 0) && t.sends <= 48
      && s.retries <= |WAITS|
  {
    hide Act;
    var s := Life(p, script);
    if s.localHello.None? {
      Unheard(p, s);
    }
  }

  /** Without a HELLO of one's own there is nothing to send. */
  lemma Unheard(p: Party, s: Endpoint)
    requires Stable(p, s) && s.localHello.None?
    ensures TallyOf(s.trace).sends == 0
  {
    hide Counted;
    hide Encode;
    hide ControlPayload;
    forall i | 0 <= i < |s.trace| ensures !s.trace[i].Sent? {
      if s.trace[i].Sent? {
        SentIsMade(p, s, i);
      }
    }
    SilentTrace(s.trace);
  }

  lemma SentIsMade(p: Party, s: Endpoint, i: nat)
    requires Stable(p, s) && i < |s.trace| && s.trace[i].Sent?
    ensures s.made != []
  {
    hide Counted;
    hide Encode;
    hide ControlPayload;
    assert Known(p, s.made, s.trace[i].data);
  }

  lemma {:induction false} SilentTrace(trace: seq<Event>)
    requires forall i :: 0 <= i < |trace| ==> !trace[i].Sent?
    ensures TallyOf(trace).sends == 0
  {
    if trace != [] {
      SilentTrace(trace[..|trace| - 1]);
    }
  }

  /** Once stopped, nothing happens any more. */
  lemma {:induction false} StoppedIsFinal(p: Party, script: seq<Action>, more: seq<Action>)
    requires Life(p, script).Over()
    ensures Life(p, script + more) == Life(p, script)
  {
    hide Act;
    hide Stable;
    if more == [] {
      assert script + more == script;
    } else {
      var n := |more| - 1;
      StoppedIsFinal(p, script, more[..n]);
      assert (script + more)[..|script + more| - 1] == script + more[..n];
      StableForms(p, Life(p, script));
      OverStays(p, Life(p, script), more[n]);
    }
  }

  // ----- The timer -----

  /** The message each state waits on. */
  function Awaited(state: State): Option<Kind> {
    match state
    case Hello => Some(Kind.Hello)
    case Preparing => Some(Kind.Prepare)
    case Ready => Some(Kind.Ready)
    case Probing => Some(Kind.Start)
    case _ => None
  }

  /** Whether a message of this kind may still be awaited later. */
  predicate Later(kind: Kind, state: State) {
    match kind
    case Hello => state == State.Idle
    case Prepare | Ready => state in {State.Idle, State.Hello, Allocating}
    case Start => state in {State.Idle, State.Hello, Allocating, Preparing}
    case _ => false
  }

  ghost predicate PendingFits(s: Endpoint) {
    s.retries <= 3 && (!s.Over() && s.pending != [] ==> Awaited(s.state) == Some(s.pendingKind))
  }

  /** How often the timer may still resend the message of this kind. */
  function Left(kind: Kind, s: Endpoint): (n: nat)
    requires s.retries <= 3
    ensures n <= 3
  {
    if s.Over() then 0
    else if s.pending != [] && s.pendingKind == kind then 3 - s.retries
    else if Later(kind, s.state) then 3
    else 0
  }

  /** The timer sent the pending message once more. */
  ghost predicate Resends(s: Endpoint, a: Action, t: Endpoint, kind: Kind) {
    && a.Timer? && s.state != Allocating && s.pendingKind == kind
    && |s.trace| < |t.trace| && t.trace[|t.trace| - 1] == Sent(s.pending)
  }

  /** The endpoint stops, or waits for what it waited for. */
  ghost predicate Steady(s: Endpoint, t: Endpoint) {
    t.Over() || (t.state == s.state && t.pending == s.pending && t.pendingKind == s.pendingKind && t.retries == s.retries)
  }

  lemma EmitSteady(s: Endpoint, data: Bytes)
    ensures Steady(s, Emit(s, data).s)
  {
  }

  lemma MakeSteady(p: Party, s: Endpoint, kind: Kind, v: Value)
    ensures var t := Make(p, s, kind, v).s;
      && t.state == s.state && t.pending == s.pending && t.pendingKind == s.pendingKind && t.retries == s.retries
      && t.plan == s.plan
  {
  }

  lemma StopOver(p: Party, s: Endpoint, reason: string, notify: bool)
    ensures Stop(p, s, reason, notify).Over()
  {
    hide Make;
    hide Emit;
  }

  lemma HaltingSteady(p: Party, s: Endpoint, halt: Option<Halt>)
    ensures Steady(s, Halting(p, s, halt))
  {
    hide Stop;
    if halt.Some? {
      StopOver(p, s, halt.value.reason, halt.value.notify);
    }
  }

  /** No message gains resends. */
  ghost predicate NoMore(s: Endpoint, t: Endpoint) {
    PendingFits(t) && (PendingFits(s) ==> forall kind :: Left(kind, t) <= Left(kind, s))
  }

  lemma SteadyNoMore(s: Endpoint, t: Endpoint)
    requires PendingFits(s) && Steady(s, t) && t.retries <= 3
    ensures NoMore(s, t)
  {
  }

  lemma NoMoreTwice(s: Endpoint, t: Endpoint, u: Endpoint)
    requires PendingFits(s) && NoMore(s, t) && NoMore(t, u)
    ensures NoMore(s, u)
  {
  }

  /** Entering a state and awaiting its message, with nothing pending of that kind before. */
  lemma AwaitNoMore(s: Endpoint, t: Endpoint, kind: Kind, data: Bytes, now: int)
    requires PendingFits(s) && (t.Over() || (Awaited(t.state) == Some(kind) && Later(kind, s.state)))
    requires forall k :: Later(k, t.state) ==> Later(k, s.state)
    requires forall k :: Later(k, s.state) && s.pending != [] ==> s.pendingKind != k
    ensures NoMore(s, Await(t, kind, data, now))
  {
    hide Emit;
    var u := t.(pending := data, pendingKind := kind, retries := 0, retryAt := now + 200);
    EmitSteady(u, data);
    EmitRetries(u, data);
  }

  lemma EmitRetries(s: Endpoint, data: Bytes)
    ensures Emit(s, data).s.retries == s.retries
  {
  }

  /** One call resends the pending message at most once, and at most as often as is left. */
  ghost predicate Spends(s: Endpoint, a: Action, t: Endpoint) {
    && PendingFits(s) && PendingFits(t)
    && forall kind :: Left(kind, t) + If(Resends(s, a, t, kind)) <= Left(kind, s)
  }

  lemma NoMoreSpends(s: Endpoint, a: Action, t: Endpoint)
    requires PendingFits(s) && NoMore(s, t) && !a.Timer?
    ensures Spends(s, a, t)
  {
  }

  lemma OverNoMore(s: Endpoint, t: Endpoint)
    requires PendingFits(s) && t.Over() && t.retries <= 3
    ensures NoMore(s, t)
  {
  }

  lemma FinishNoMore(p: Party, s: Endpoint, now: int)
    requires s.plan.Some? && PendingFits(s)
    ensures NoMore(s, FinishPreparation(p, s, now))
  {
    hide Emit;
    hide Make;
    hide Digest;
    hide Await;
    SteadyNoMore(s, s);
    if s.state == Allocating {
      var d := s.(digest := DigestOf(p, s.plan.value));
      if p.offer {
        var m := Make(p, d, Kind.Prepare, PlanBody(d.plan.value));
        MakeSteady(p, d, Kind.Prepare, PlanBody(d.plan.value));
        var t := m.s.(prepare := m.data, state := Preparing);
        EmitSteady(t, m.s.hello);
        AwaitNoMore(s, Emit(t, m.s.hello).s, Kind.Prepare, m.data, now);
      } else {
        var m := Make(p, d, Kind.Ready, ReadyBody(d.digest, d.plan.value.budget));
        AwaitNoMore(s, m.s.(ready := m.data, state := State.Ready), Kind.Ready, m.data, now);
      }
    }
  }

  lemma BeginPreparationNoMore(p: Party, s: Endpoint, now: int, a: Answers)
    requires s.plan.Some? && PendingFits(s) && s.state == State.Hello
    ensures NoMore(s, BeginPreparation(p, s, now, a))
  {
    hide Stop;
    hide FinishPreparation;
    hide Halting;
    hide NoMore;
    var asking := s.(state := Allocating, pending := []).Log(Prepared(s.plan.value));
    ClearedNoMore(s, asking);
    var asked := Halting(p, asking, a.prepareHalt);
    HaltingSteady(p, asking, a.prepareHalt);
    HaltingFields(p, asking, a.prepareHalt);
    SteadyNoMore(asking, asked);
    NoMoreTwice(s, asking, asked);
    NoMoreFits(asking, asked);
    StopOver(p, asked, "resources", true);
    StopRetries(p, asked, "resources", true);
    OverNoMore(s, Stop(p, asked, "resources", true));
    FinishNoMore(p, asked, now);
    NoMoreTwice(s, asked, FinishPreparation(p, asked, now));
  }

  lemma NoMoreFits(s: Endpoint, t: Endpoint)
    requires NoMore(s, t)
    ensures PendingFits(t)
  {
  }

  lemma ClearedNoMore(s: Endpoint, t: Endpoint)
    requires PendingFits(s) && t.pending == [] && t.retries <= 3
    requires forall k :: Later(k, t.state) ==> Later(k, s.state)
    requires forall k :: Later(k, s.state) && s.pending != [] ==> s.pendingKind != k
    ensures NoMore(s, t) && PendingFits(t)
  {
  }

  lemma StopRetries(p: Party, s: Endpoint, reason: string, notify: bool)
    ensures Stop(p, s, reason, notify).retries == s.retries
  {
  }

  lemma HaltingFields(p: Party, s: Endpoint, halt: Option<Halt>)
    ensures Halting(p, s, halt).retries == s.retries && Halting(p, s, halt).plan == s.plan
  {
  }

  lemma StoppedNoMore(p: Party, s: Endpoint, reason: string, notify: bool)
    requires PendingFits(s)
    ensures NoMore(s, Stop(p, s, reason, notify))
  {
    StopOver(p, s, reason, notify);
    StopRetries(p, s, reason, notify);
    OverNoMore(s, Stop(p, s, reason, notify));
  }

  lemma EmitNoMore(s: Endpoint, data: Bytes)
    requires PendingFits(s)
    ensures NoMore(s, Emit(s, data).s) && PendingFits(Emit(s, data).s)
  {
    EmitSteady(s, data);
    EmitRetries(s, data);
    SteadyNoMore(s, Emit(s, data).s);
  }

  /** Two states the timer cannot tell apart. */
  lemma SameTimer(s: Endpoint, t: Endpoint, u: Endpoint)
    requires NoMore(t, u) && PendingFits(s)
    requires t.state == s.state && t.pending == s.pending && t.pendingKind == s.pendingKind && t.retries == s.retries
    ensures NoMore(s, u) && PendingFits(t)
  {
  }

  lemma OnHelloNoMore(p: Party, s: Endpoint, m: Packet, hello: Offer, now: int, a: Answers)
    requires PendingFits(s) && s.localHello.Some? && (s.remoteHello.None? ==> s.state == State.Hello)
    ensures NoMore(s, OnHello(p, s, m, hello, now, a))
  {
    hide NoMore;
    hide Stop;
    hide Emit;
    hide BeginPreparation;
    hide Proposal;
    SteadyNoMore(s, s);
    if s.remoteHello.Some? {
      StoppedNoMore(p, s, "conflict", true);
      EmitNoMore(s, s.hello);
      EmitNoMore(Emit(s, s.hello).s, s.prepare);
      NoMoreTwice(s, Emit(s, s.hello).s, Emit(Emit(s, s.hello).s, s.prepare).s);
    } else {
      var greeted := s.(remoteHello := Some(hello), remotePayload := m.payload).Log(Greeted(hello, now));
      SteadyNoMore(s, greeted);
      assert PendingFits(greeted);
      EmitNoMore(greeted, greeted.hello);
      SameTimer(s, greeted, Emit(greeted, greeted.hello).s);
      StoppedNoMore(p, greeted, "ineligible", false);
      SameTimer(s, greeted, Stop(p, greeted, "ineligible", false));
      if p.offer && Proposal(p, greeted).Some? {
        var drawn := greeted.(plan := Proposal(p, greeted), round := a.random);
        assert PendingFits(drawn);
        StoppedNoMore(p, drawn, "resources", false);
        SameTimer(s, drawn, Stop(p, drawn, "resources", false));
        BeginPreparationNoMore(p, drawn, now, a);
        SameTimer(s, drawn, BeginPreparation(p, drawn, now, a));
      }
    }
  }

  lemma OnPrepareNoMore(p: Party, s: Endpoint, m: Packet, plan: Plan, now: int, a: Answers)
    requires PendingFits(s) && s.localHello.Some?
    ensures NoMore(s, OnPrepare(p, s, m, plan, now, a))
  {
    hide NoMore;
    hide Stop;
    hide Emit;
    hide BeginPreparation;
    hide Proposal;
    SteadyNoMore(s, s);
    StoppedNoMore(p, s, "conflict", true);
    EmitNoMore(s, s.ready);
    if s.plan.None? && s.state == State.Hello {
      var planned := s.(round := m.round, plan := Some(plan));
      assert PendingFits(planned);
      BeginPreparationNoMore(p, planned, now, a);
      SameTimer(s, planned, BeginPreparation(p, planned, now, a));
    }
  }

  lemma StartRoundTimer(p: Party, s: Endpoint, now: int, a: Answers)
    requires s.plan.Some?
    ensures var t := StartRound(p, s, now, a);
      t.Over() || (t.state == State.Probing && t.pending == s.pending && t.pendingKind == s.pendingKind)
    ensures StartRound(p, s, now, a).retries == s.retries
  {
    hide Halting;
    if s.state != State.Probing && !s.Over() {
      HaltingSteady(p, s.(state := State.Probing).Log(Began(s.round, s.plan.value, now)), a.startHalt);
      HaltingFields(p, s.(state := State.Probing).Log(Began(s.round, s.plan.value, now)), a.startHalt);
    }
  }

  lemma OnReadyNoMore(p: Party, s: Endpoint, digest: string, budget: Budget, now: int, a: Answers)
    requires PendingFits(s) && s.plan.Some?
    ensures NoMore(s, OnReady(p, s, digest, budget, now, a))
  {
    hide NoMore;
    hide Emit;
    hide Make;
    hide StartRound;
    hide Await;
    SteadyNoMore(s, s);
    EmitNoMore(s, s.start);
    if s.state == Preparing {
      var m := Make(p, s, Kind.Start, DigestBody(s.digest));
      MakeSteady(p, s, Kind.Start, DigestBody(s.digest));
      StartRoundTimer(p, m.s.(start := m.data), now, a);
      AwaitNoMore(s, StartRound(p, m.s.(start := m.data), now, a), Kind.Start, m.data, now);
    }
  }

  lemma OnStartNoMore(p: Party, s: Endpoint, digest: string, now: int, a: Answers)
    requires PendingFits(s) && s.plan.Some?
    ensures NoMore(s, OnStart(p, s, digest, now, a))
  {
    hide NoMore;
    hide Emit;
    hide Make;
    hide StartRound;
    SteadyNoMore(s, s);
    EmitNoMore(s, s.started);
    if s.state == State.Ready {
      var c := s.(pending := []);
      var m := Make(p, c, Kind.Started, DigestBody(s.digest));
      MakeSteady(p, c, Kind.Started, DigestBody(s.digest));
      var b := StartRound(p, m.s.(started := m.data), now, a);
      StartRoundTimer(p, m.s.(started := m.data), now, a);
      if b.Over() {
        OverNoMore(s, b);
      } else {
        ClearedNoMore(s, b);
      }
      NoMoreFits(s, b);
      EmitNoMore(b, m.data);
      NoMoreTwice(s, b, Emit(b, m.data).s);
    }
  }

  lemma DispatchNoMore(p: Party, s: Endpoint, m: Packet, duplicate: bool, now: int, a: Answers)
    requires Stable(p, s) && Formed(p, s) && s.localHello.Some? && s.state != State.Idle && !s.Over() && PendingFits(s)
    requires RoundOk(m.kind, m.round) && InRound(p, s, m) && ParseControl(m.kind, m.payload, p.suite).Some?
    ensures NoMore(s, Dispatch(p, s, m, duplicate, now, a))
  {
    hide NoMore;
    hide OnHello;
    hide OnPrepare;
    hide OnReady;
    hide OnStart;
    hide Stop;
    hide Stable;
    var v := ParseControl(m.kind, m.payload, p.suite).value;
    SteadyNoMore(s, s);
    if m.kind == Kind.Hello {
      if s.remoteHello.None? {
        Ungreeted(p, s);
      }
      OnHelloNoMore(p, s, m, v.hello, now, a);
    } else if m.kind == Kind.Prepare && !p.offer {
      OnPrepareNoMore(p, s, m, v.plan, now, a);
    } else if m.kind == Kind.Ready && p.offer {
      OnReadyNoMore(p, s, v.digest, v.budget, now, a);
    } else if m.kind == Kind.Start && !p.offer {
      OnStartNoMore(p, s, v.digest, now, a);
    } else if m.kind == Kind.Started && p.offer && s.state == State.Probing && v.digest == s.digest {
      ClearedNoMore(s, s.(pending := []));
    } else if m.kind == Cancel && !duplicate {
      StoppedNoMore(p, s, v.reason, false);
    }
  }

  lemma ReceiveNoMore(p: Party, s: Endpoint, data: Bytes, now: int, a: Answers)
    requires Stable(p, s) && Formed(p, s) && PendingFits(s)
    ensures NoMore(s, Receive(p, s, data, now, a))
  {
    hide NoMore;
    hide Stable;
    hide Dispatch;
    hide Opened;
    hide Stop;
    hide Known;
    SteadyNoMore(s, s);
    StoppedNoMore(p, s, "timeout", true);
    if s.state == State.Idle || s.Over() || now >= s.deadline {
    } else if Opened(p, s, data).Some? {
      var m := Opened(p, s, data).value;
      if InRound(p, s, m) {
        var digest := p.suite.sha(data);
        var verdict := s.replay.Judge(m.sequence, digest);
        var t := s.(replay := s.replay.After(m.sequence, digest));
        assert PendingFits(t);
        StableCaches(p, s);
        AfterValid(s.replay, m.sequence, digest);
        SideStable(p, s, t);
        SteadyNoMore(s, t);
        StoppedNoMore(p, t, "conflict", true);
        SameTimer(s, t, Stop(p, t, "conflict", true));
        if verdict != TooOld && verdict != Conflict {
          DispatchNoMore(p, t, m, verdict == Duplicate, now, a);
          SameTimer(s, t, Dispatch(p, t, m, verdict == Duplicate, now, a));
        }
      }
    }
  }

  lemma BeginNoMore(p: Party, s: Endpoint, hello: Offer, now: int, deadline: int)
    requires Stable(p, s) && PendingFits(s)
    ensures NoMore(s, Begin(p, s, hello, now, deadline))
  {
    hide Make;
    hide Await;
    SteadyNoMore(s, s);
    if MayBegin(p, s, hello, now, deadline) {
      var open := s.(state := State.Hello, deadline := deadline, localHello := Some(hello), limit := hello.budget.controlPackets);
      var m := Make(p, open, Kind.Hello, HelloBody(hello));
      MakeSteady(p, open, Kind.Hello, HelloBody(hello));
      AwaitNoMore(s, m.s.(hello := m.data), Kind.Hello, m.data, now);
    }
  }

  lemma EmitLast(s: Endpoint, data: Bytes)
    ensures var e := Emit(s, data);
      e.ok ==> e.s.trace == s.trace + [Sent(data)] && !s.Over() && e.s == s.(attempts := s.attempts + 1).Log(Sent(data))
    ensures var e := Emit(s, data);
      !e.ok ==> e.s == s || (e.s.Over() && e.s.trace == s.trace + [Ended("budget")])
    ensures !Emit(s, data).ok && data != [] ==> Emit(s, data).s.Over()
  {
  }

  /** The retry timer. */
  lemma ResendSpends(p: Party, s: Endpoint, now: int, a: Answers)
    requires PendingFits(s) && s.pending != [] && !s.Over() && s.state != Allocating && s.state != State.Idle
    ensures Spends(s, Timer(now, a), Resend(p, s, now))
  {
    hide Emit;
    hide Stop;
    var t := Resend(p, s, now);
    if s.retries == 3 {
      if s.pendingKind != Kind.Hello {
        StopOver(p, s, "timeout", true);
        StopRetries(p, s, "timeout", true);
      }
      SpentOut(p, s, now, a);
    } else {
      var first := if s.pendingKind == Kind.Prepare then Emit(s, s.hello) else Emission(s, true);
      EmitLast(s, s.hello);
      EmitSteady(s, s.hello);
      EmitRetries(s, s.hello);
      var again := Emit(first.s, first.s.pending);
      EmitLast(first.s, first.s.pending);
      EmitSteady(first.s, first.s.pending);
      EmitRetries(first.s, first.s.pending);
    }
  }

  /** With three retries spent, the timer sends the message no more. */
  lemma SpentOut(p: Party, s: Endpoint, now: int, a: Answers)
    requires PendingFits(s) && s.pending != [] && !s.Over() && s.retries == 3
    ensures forall kind :: !Resends(s, Timer(now, a), Resend(p, s, now), kind)
  {
    hide Make;
    hide Emit;
  }

  lemma PollNoMore(p: Party, s: Endpoint, now: int, a: Answers)
    requires s.plan.Some? && PendingFits(s)
    ensures NoMore(s, Poll(p, s, now, a))
  {
    hide NoMore;
    hide Stop;
    hide Halting;
    hide FinishPreparation;
    var polled := Halting(p, s, a.pollHalt);
    HaltingSteady(p, s, a.pollHalt);
    HaltingFields(p, s, a.pollHalt);
    SteadyNoMore(s, polled);
    NoMoreFits(s, polled);
    StoppedNoMore(p, polled, "resources", true);
    NoMoreTwice(s, polled, Stop(p, polled, "resources", true));
    FinishNoMore(p, polled, now);
    NoMoreTwice(s, polled, FinishPreparation(p, polled, now));
  }

  /** Stopping leaves the stop hook last in the trace. */
  lemma StopLast(p: Party, s: Endpoint, reason: string, notify: bool)
    requires !s.Over()
    ensures var t := Stop(p, s, reason, notify); t.trace != [] && t.trace[|t.trace| - 1] == Ended(reason)
  {
    hide Make;
    hide Emit;
  }

  lemma ActSpends(p: Party, s: Endpoint, a: Action)
    requires Stable(p, s) && Formed(p, s) && PendingFits(s)
    ensures Spends(s, a, Act(p, s, a))
  {
    hide Stable;
    hide NoMore;
    hide Receive;
    hide Begin;
    hide Stop;
    hide Poll;
    hide Resend;
    hide Spends;
    match a {
      case Open(hello, now, deadline) =>
        BeginNoMore(p, s, hello, now, deadline);
        NoMoreSpends(s, a, Act(p, s, a));
      case Arrive(data, now, answers) =>
        ReceiveNoMore(p, s, data, now, answers);
        NoMoreSpends(s, a, Act(p, s, a));
      case Timer(now, answers) =>
        if s.state == State.Idle || s.Over() {
          IdleSpends(s, a);
        } else if now >= s.deadline {
          StoppedNoMore(p, s, "timeout", true);
          StopLast(p, s, "timeout", true);
          QuietSpends(s, a, Act(p, s, a));
        } else if s.state == Allocating {
          PollNoMore(p, s, now, answers);
          QuietSpends(s, a, Act(p, s, a));
        } else if s.pending == [] || now < s.retryAt {
          IdleSpends(s, a);
        } else {
          ResendSpends(p, s, now, answers);
        }
      case Quit(reason, notify) =>
        StoppedNoMore(p, s, reason, notify);
        NoMoreSpends(s, a, Act(p, s, a));
    }
  }

  lemma IdleSpends(s: Endpoint, a: Action)
    requires PendingFits(s)
    ensures Spends(s, a, s)
  {
  }

  lemma QuietSpends(s: Endpoint, a: Action, t: Endpoint)
    requires PendingFits(s) && NoMore(s, t) && (s.state == Allocating || (t.trace != [] && !t.trace[|t.trace| - 1].Sent?))
    ensures Spends(s, a, t)
  {
  }

  /** How often the timer resent a message of this kind. */
  ghost function Resent(p: Party, script: seq<Action>, kind: Kind): nat {
    if script == [] then 0
    else
      var was := Life(p, script[..|script| - 1]);
      Resent(p, script[..|script| - 1], kind) + If(Resends(was, script[|script| - 1], Life(p, script), kind))
  }

  lemma {:induction false} ResentLeft(p: Party, script: seq<Action>, kind: Kind)
    ensures PendingFits(Life(p, script)) && Resent(p, script, kind) + Left(kind, Life(p, script)) <= 3
  {
    hide Stable;
    hide Act;
    hide Resends;
    if script != [] {
      var n := |script| - 1;
      ResentLeft(p, script[..n], kind);
      StableForms(p, Life(p, script[..n]));
      ActSpends(p, Life(p, script[..n]), script[n]);
    }
  }

  /** Over every run, the timer resends each message at most three times. */
  lemma ThreeRetries(p: Party, script: seq<Action>, kind: Kind)
    ensures Resent(p, script, kind) <= 3
  {
    ResentLeft(p, script, kind);
  }
}
