/**
 PunchNegotiation of src/ice/punch_coordinator.cpp as an object.  Its fields are
 those of the original, gathered into small records; every method is the step
 of the machine of the same name.
 */
module PunchNegotiation {
  import opened Common
  import opened PunchValues
  import opened PunchProtocol
  import opened Replay
  import M = PunchMachine
  import opened PunchInvariant
  import PunchEffects

  type State = M.State
  type Endpoint = M.Endpoint

  datatype Keys = Keys(tx: Key, rx: Key)

  datatype Agreement = Agreement(localHello: Option<Offer>, remoteHello: Option<Offer>, remotePayload: Bytes,
                                 plan: Option<Plan>, digest: string, round: Id)

  /** The packets kept for resending. */
  datatype Messages = Messages(hello: Bytes, prepare: Bytes, ready: Bytes, start: Bytes, started: Bytes)

  datatype Timer = Timer(pending: Bytes, kind: Kind, retries: nat, deadline: int, retryAt: int)

  datatype Meter = Meter(next: Sequence, attempts: nat, limit: nat)

  /** The hooks called, and the packets numbered, in order. */
  datatype Record = Record(trace: seq<M.Event>, made: seq<Packet>)

  function Join(state: State, replay: Memory, keys: Keys, terms: Agreement, kept: Messages, timer: Timer, meter: Meter,
                record: Record): Endpoint
  {
    M.Endpoint(state, replay, keys.tx, keys.rx, terms.localHello, terms.remoteHello, terms.remotePayload, terms.plan,
      kept.hello, kept.prepare, kept.ready, kept.start, kept.started, timer.pending, timer.kind,
      terms.digest, terms.round, meter.next, meter.attempts, meter.limit, timer.retries, timer.deadline, timer.retryAt,
      record.made, record.trace)
  }

  class PunchNegotiation {
    const party: M.Party
    const replay: ReplayWindow
    var state: State
    var keys: Keys
    var terms: Agreement
    var kept: Messages
    var timer: Timer
    var meter: Meter
    var record: Record

    ghost function View(): Endpoint
      reads this, replay
    {
      Join(state, replay.View(), keys, terms, kept, timer, meter, record)
    }

    ghost predicate Valid()
      reads this, replay, replay.seen, replay.digests
    {
      replay.Valid() && Stable(party, View())
    }

    constructor (party: M.Party)
      ensures Valid() && fresh(replay) && fresh(replay.seen) && fresh(replay.digests)
      ensures this.party == party && View() == M.Initial(party)
    {
      this.party, keys, state := party, Keys(party.tx, party.rx), M.State.Idle;
      replay := new ReplayWindow();
      terms := Agreement(None, None, [], None, "", Zeros(16));
      kept := Messages([], [], [], [], []);
      timer := Timer([], Kind.Hello, 0, 0, 0);
      meter := Meter(1, 0, 48);
      record := Record([], []);
      new;
      InitialStable(party);
    }

    /** Call a hook. */
    method Log(e: M.Event)
      modifies `record
      ensures View() == old(View()).Log(e)
    {
      record := record.(trace := record.trace + [e]);
    }

    method Emit(data: Bytes) returns (ok: bool)
      modifies this
      ensures View() == M.Emit(old(View()), data).s && ok == M.Emit(old(View()), data).ok
      ensures ok ==> old(meter.attempts) < meter.limit == old(meter.limit) && record.trace == old(record.trace) + [M.Sent(data)]
      ensures meter.attempts == old(meter.attempts) + if ok then 1 else 0
      decreases 1
    {
      if data == [] || state == M.State.Stopped {
        return false;
      }
      if meter.attempts >= meter.limit {
        Stop("budget", false);
        return false;
      }
      meter := meter.(attempts := meter.attempts + 1);
      Log(M.Sent(data));
      return true;
    }

    method Make(kind: Kind, v: Value) returns (data: Bytes)
      modifies `meter, `record
      ensures View() == M.Make(party, old(View()), kind, v).s && data == M.Make(party, old(View()), kind, v).data
    {
      hide Encode;
      if meter.next == 0 || state == M.State.Stopped {
        return [];
      }
      var packet := Packet(kind, party.generation, if kind == Kind.Hello then Zeros(16) else terms.round, meter.next,
                           ControlPayload(kind, v, party.suite));
      data := EncodePacket(packet, keys.tx, party.suite);
      meter := meter.(next := (meter.next + 1) % 0x1_0000_0000);
      record := record.(made := record.made + [packet]);
    }

    /** Enter Stopped: forget the pending message and the keys, and call the stop hook. */
    method Halt(reason: string)
      modifies this
      ensures View() == M.Halted(old(View()), reason)
      ensures state == M.State.Stopped && timer.pending == [] && keys == Keys(Zeros(32), Zeros(32))
    {
      state := M.State.Stopped;
      timer := timer.(pending := []);
      keys := Keys(Zeros(32), Zeros(32));
      Log(M.Ended(reason));
    }

    method Stop(reason: string, notify: bool)
      modifies this
      ensures View() == M.Stop(party, old(View()), reason, notify) && state == M.State.Stopped
      ensures old(state) == M.State.Stopped ==> View() == old(View())
      ensures old(state) != M.State.Stopped ==>
        && timer.pending == [] && keys == Keys(Zeros(32), Zeros(32))
        && old(record.trace) < record.trace && record.trace[|record.trace| - 1] == M.Ended(reason)
      decreases if notify then 2 else 0
    {
      StopFacts(party, View(), reason, notify);
      hide M.Make;
      hide M.Emit;
      hide M.Halted;
      if state == M.State.Stopped {
        return;
      }
      if notify && !IsZero(terms.round) && meter.attempts < meter.limit {
        var data := Make(Cancel, ReasonBody(reason));
        var _ := Emit(data);
      }
      Halt(reason);
    }

    /** A Stop from inside a hook. */
    method Reenter(halt: Option<M.Halt>)
      modifies this
      ensures View() == M.Halting(party, old(View()), halt)
    {
      hide M.Stop;
      if halt.Some? {
        Stop(halt.value.reason, halt.value.notify);
      }
    }

    /** Pending: keep a message for the retry timer, and send it. */
    method Await(kind: Kind, data: Bytes, now: int)
      modifies this
      ensures View() == M.Await(old(View()), kind, data, now)
    {
      hide M.Emit;
      timer := timer.(pending := data, kind := kind, retries := 0, retryAt := now + 200);
      var _ := Emit(data);
    }

    method Begin(hello: Offer, now: int, deadline: int) returns (ok: bool)
      requires Valid()
      modifies this
      ensures Valid() && View() == M.Begin(party, old(View()), hello, now, deadline)
      ensures meter.attempts <= meter.limit <= 48
      ensures old(record.trace) <= record.trace && old(record.made) <= record.made
      ensures ok == (M.MayBegin(party, old(View()), hello, now, deadline) && state != M.State.Stopped)
    {
      hide M.Make;
      hide M.Await;
      hide Stable;
      hide ControlPayload;
      ActFacts(party, View(), M.Open(hello, now, deadline));
      BeginKeeps(party, View(), hello, now, deadline);
      if state != M.State.Idle || deadline <= now || deadline - now > 30000 || !party.hooked
         || ControlPayload(Kind.Hello, HelloBody(hello), party.suite) == [] {
        return false;
      }
      PrintedBudget(hello, party.suite);
      state := M.State.Hello;
      timer := timer.(deadline := deadline);
      terms := terms.(localHello := Some(hello));
      meter := meter.(limit := hello.budget.controlPackets);
      var data := Make(Kind.Hello, HelloBody(hello));
      kept := kept.(hello := data);
      Await(Kind.Hello, data, now);
      return state != M.State.Stopped;
    }

    method StartRound(now: int, a: M.Answers)
      requires terms.plan.Some?
      modifies this
      ensures View() == M.StartRound(party, old(View()), now, a)
    {
      hide M.Halting;
      if state == M.State.Probing || state == M.State.Stopped {
        return;
      }
      state := M.State.Probing;
      Log(M.Began(terms.round, terms.plan.value, now));
      Reenter(a.startHalt);
    }

    method FinishPreparation(now: int)
      requires terms.plan.Some?
      modifies this
      ensures View() == M.FinishPreparation(party, old(View()), now)
    {
      hide M.Make;
      hide M.Emit;
      hide M.Await;
      hide ControlPayload;
      hide Digest;
      if state != M.Allocating {
        return;
      }
      var plan := terms.plan.value;
      terms := terms.(digest := Digest(ControlPayload(Kind.Prepare, PlanBody(plan), party.suite), party.suite));
      if party.offer {
        var data := Make(Kind.Prepare, PlanBody(plan));
        kept := kept.(prepare := data);
        state := M.Preparing;
        var _ := Emit(kept.hello);
        Await(Kind.Prepare, data, now);
      } else {
        var data := Make(Kind.Ready, ReadyBody(terms.digest, plan.budget));
        kept := kept.(ready := data);
        state := M.State.Ready;
        Await(Kind.Ready, data, now);
      }
    }

    method BeginPreparation(now: int, a: M.Answers)
      requires terms.plan.Some?
      modifies this
      ensures View() == M.BeginPreparation(party, old(View()), now, a)
    {
      hide M.Halting;
      hide M.Stop;
      hide M.FinishPreparation;
      state := M.Allocating;
      timer := timer.(pending := []);
      Log(M.Prepared(terms.plan.value));
      M.HaltingPlan(party, View(), a.prepareHalt);
      Reenter(a.prepareHalt);
      if !a.prepared {
        Stop("resources", true);
      } else if !party.polls {
        FinishPreparation(now);
      }
    }

    /** Poll the preparation. */
    method Poll(now: int, a: M.Answers)
      requires terms.plan.Some?
      modifies this
      ensures View() == M.Poll(party, old(View()), now, a)
    {
      hide M.Halting;
      hide M.Stop;
      hide M.FinishPreparation;
      M.HaltingPlan(party, View(), a.pollHalt);
      Reenter(a.pollHalt);
      if state == M.State.Stopped {
        return;
      }
      if a.poll == M.Failed {
        Stop("resources", true);
      } else if a.poll == M.Done {
        FinishPreparation(now);
      }
    }

    /** The retry timer ran out. */
    method Resend(now: int)
      requires timer.retries <= 3
      modifies this
      ensures View() == M.Resend(party, old(View()), now)
    {
      hide M.Emit;
      hide M.Stop;
      if timer.retries == 3 {
        if timer.kind == Kind.Hello {
          timer := timer.(pending := []);
        } else {
          Stop("timeout", true);
        }
        return;
      }
      var retries := timer.retries;
      if timer.kind == Kind.Prepare {
        var ok := Emit(kept.hello);
        if !ok {
          return;
        }
      }
      var ok := Emit(timer.pending);
      if ok {
        timer := timer.(retryAt := now + M.WAITS[retries], retries := retries + 1);
      }
    }

    method Tick(now: int, a: M.Answers)
      requires Valid()
      modifies this
      ensures Valid() && M.Formed(party, old(View())) && View() == M.Tick(party, old(View()), now, a)
      ensures meter.attempts <= meter.limit <= 48
      ensures old(record.trace) <= record.trace && old(record.made) <= record.made
    {
      hide Stable;
      hide M.Poll;
      hide M.Resend;
      hide M.Stop;
      ActFacts(party, View(), M.Timer(now, a));
      StableForms(party, View());
      TickKeeps(party, View(), now, a);
      if state == M.State.Idle || state == M.State.Stopped {
        return;
      }
      if now >= timer.deadline {
        Stop("timeout", true);
      } else if state == M.Allocating {
        Poll(now, a);
      } else if timer.pending != [] && now >= timer.retryAt {
        Resend(now);
      }
    }

    // ----- Receiving -----

    /** The offer proposes a plan and draws the round. */
    method Propose(now: int, a: M.Answers)
      requires terms.localHello.Some? && terms.remoteHello.Some?
      modifies this
      ensures View() == M.Propose(party, old(View()), now, a)
    {
      hide M.Proposal;
      hide M.Stop;
      hide M.BeginPreparation;
      hide ControlPayload;
      var proposal := Proposal();
      if proposal.None? || ControlPayload(Kind.Prepare, PlanBody(proposal.value), party.suite) == [] {
        Stop("ineligible", false);
        return;
      }
      terms := terms.(plan := proposal, round := a.random);
      if !a.drawn || IsZero(terms.round) {
        Stop("resources", false);
        return;
      }
      BeginPreparation(now, a);
    }

    /** The plan both ends derive from the two HELLOs. */
    method Proposal() returns (proposal: Option<Plan>)
      requires terms.localHello.Some? && terms.remoteHello.Some?
      ensures proposal == M.Proposal(party, View())
    {
      hide ControlPayload;
      hide Digest;
      var local, remote := terms.localHello.value, terms.remoteHello.value;
      proposal := if party.offer then party.agree(local, remote) else party.agree(remote, local);
      if proposal.Some? {
        var mine := Digest(ControlPayload(Kind.Hello, HelloBody(local), party.suite), party.suite);
        var theirs := Digest(terms.remotePayload, party.suite);
        if party.offer {
          proposal := Some(proposal.value.(offerHello := mine, answerHello := theirs));
        } else {
          proposal := Some(proposal.value.(offerHello := theirs, answerHello := mine));
        }
      }
    }

    method OnHello(m: Packet, hello: Offer, now: int, a: M.Answers)
      requires terms.localHello.Some?
      modifies this
      ensures View() == M.OnHello(party, old(View()), m, hello, now, a)
    {
      hide M.Propose;
      hide M.Stop;
      hide M.Emit;
      if terms.remoteHello.Some? {
        if terms.remoteHello.value != hello || terms.remotePayload != m.payload {
          Stop("conflict", true);
        } else if party.offer && kept.prepare != [] && state == M.Preparing {
          ghost var s := View();
          var _ := Emit(kept.hello);
          M.EmitMessages(s, s.hello);
          var _ := Emit(kept.prepare);
        }
        return;
      }
      terms := terms.(remoteHello := Some(hello), remotePayload := m.payload);
      Log(M.Greeted(hello, now));
      if party.offer {
        Propose(now, a);
      } else {
        var _ := Emit(kept.hello);
      }
    }

    method OnPrepare(m: Packet, plan: Plan, now: int, a: M.Answers)
      requires terms.localHello.Some?
      modifies this
      ensures View() == M.OnPrepare(party, old(View()), m, plan, now, a)
    {
      hide M.Proposal;
      hide M.Stop;
      hide M.Emit;
      hide M.BeginPreparation;
      if terms.plan.Some? {
        if terms.plan.value != plan {
          Stop("conflict", true);
        } else if kept.ready != [] {
          var _ := Emit(kept.ready);
        }
        return;
      }
      if state != M.State.Hello || terms.remoteHello.None? {
        return;
      }
      var expected := Proposal();
      if expected != Some(plan) {
        return;
      }
      terms := terms.(round := m.round, plan := Some(plan));
      BeginPreparation(now, a);
    }

    method OnReady(digest: string, budget: Budget, now: int, a: M.Answers)
      requires terms.plan.Some?
      modifies this
      ensures View() == M.OnReady(party, old(View()), digest, budget, now, a)
    {
      hide M.StartRound;
      hide M.Make;
      hide M.Emit;
      hide M.Await;
      if digest != terms.digest || budget != terms.plan.value.budget {
        return;
      }
      if state == M.Preparing {
        M.MakePlan(party, View(), Kind.Start, DigestBody(terms.digest));
        var data := Make(Kind.Start, DigestBody(terms.digest));
        kept := kept.(start := data);
        StartRound(now, a);
        Await(Kind.Start, data, now);
      } else if state == M.State.Probing && kept.start != [] {
        var _ := Emit(kept.start);
      }
    }

    method OnStart(digest: string, now: int, a: M.Answers)
      requires terms.plan.Some?
      modifies this
      ensures View() == M.OnStart(party, old(View()), digest, now, a)
    {
      hide M.StartRound;
      hide M.Make;
      hide M.Emit;
      if digest != terms.digest {
        return;
      }
      if state == M.State.Ready {
        timer := timer.(pending := []);
        M.MakePlan(party, View(), Kind.Started, DigestBody(terms.digest));
        var data := Make(Kind.Started, DigestBody(terms.digest));
        kept := kept.(started := data);
        StartRound(now, a);
        var _ := Emit(data);
      } else if state == M.State.Probing {
        var _ := Emit(kept.started);
      }
    }

    /** Act on an authenticated packet that is not a replay. */
    method Dispatch(m: Packet, v: Value, duplicate: bool, now: int, a: M.Answers)
      requires M.Formed(party, View()) && terms.localHello.Some? && state != M.State.Stopped
      requires RoundOk(m.kind, m.round) && M.InRound(party, View(), m)
      requires ParseControl(m.kind, m.payload, party.suite) == Some(v)
      modifies this
      ensures View() == M.Dispatch(party, old(View()), m, duplicate, now, a)
    {
      hide M.OnHello;
      hide M.OnPrepare;
      hide M.OnReady;
      hide M.OnStart;
      hide M.Stop;
      if m.kind == Kind.Hello {
        OnHello(m, v.hello, now, a);
      } else if m.kind == Kind.Prepare && !party.offer {
        OnPrepare(m, v.plan, now, a);
      } else if m.kind == Kind.Ready && party.offer {
        OnReady(v.digest, v.budget, now, a);
      } else if m.kind == Kind.Start && !party.offer {
        OnStart(v.digest, now, a);
      } else if m.kind == Kind.Started && party.offer && state == M.State.Probing && v.digest == terms.digest {
        timer := timer.(pending := []);
      } else if m.kind == Cancel && !duplicate {
        Stop(v.reason, false);
      }
    }

    method Receive(data: Bytes, now: int, a: M.Answers)
      requires Valid()
      modifies this, replay, replay.seen, replay.digests
      ensures Valid() && M.Formed(party, old(View())) && View() == M.Receive(party, old(View()), data, now, a)
      ensures meter.attempts <= meter.limit <= 48
      ensures old(record.trace) <= record.trace && old(record.made) <= record.made
    {
      hide Stable;
      hide M.Dispatch;
      hide M.Stop;
      hide Decode;
      hide ParseControl;
      ghost var was := View();
      ActFacts(party, was, M.Arrive(data, now, a));
      StableForms(party, was);
      ReceiveKeeps(party, was, data, now, a);
      if state == M.State.Idle || state == M.State.Stopped {
        return;
      }
      if now >= timer.deadline {
        Stop("timeout", true);
        return;
      }
      var packet := Decode(data, keys.rx, Control, party.generation, party.suite);
      assert packet == M.Opened(party, was, data);
      if packet.None? {
        return;
      }
      var m := packet.value;
      if m.kind != Kind.Hello && m.round != terms.round
         && !(m.kind == Kind.Prepare && !party.offer && IsZero(terms.round) && state == M.State.Hello) {
        return;
      }
      Weigh(m, data, now, a);
    }

    /** A packet of the round goes through the replay window, and on to its handler. */
    method Weigh(m: Packet, data: Bytes, now: int, a: M.Answers)
      requires replay.Valid() && Weighable(party, View(), m)
      modifies this, replay, replay.seen, replay.digests
      ensures replay.Valid() && View() == Weighed(party, old(View()), m, data, now, a)
    {
      hide M.Dispatch;
      hide M.Stop;
      hide ParseControl;
      var verdict := replay.Accept(m.sequence, data, party.suite);
      if verdict == TooOld {
        return;
      }
      if verdict == Conflict {
        Stop("conflict", true);
        return;
      }
      Dispatch(m, ParseControl(m.kind, m.payload, party.suite).value, verdict == Duplicate, now, a);
    }

    /** Stop, as called from outside. */
    method Quit(reason: string, notify: bool)
      requires Valid()
      modifies this
      ensures Valid() && View() == M.Stop(party, old(View()), reason, notify)
      ensures meter.attempts <= meter.limit <= 48
      ensures old(record.trace) <= record.trace && old(record.made) <= record.made
    {
      hide Stable;
      hide M.Stop;
      ActFacts(party, View(), M.Quit(reason, notify));
      StopStable(party, View(), reason, notify);
      Stop(reason, notify);
    }
  }

  /** A stop ends with the stop hook, nothing pending and no keys. */
  lemma StopFacts(p: M.Party, s: Endpoint, reason: string, notify: bool)
    ensures var t := M.Stop(p, s, reason, notify);
      && t.Over() && (s.Over() ==> t == s)
      && (!s.Over() ==>
            && t.pending == [] && t.tx == t.rx == Zeros(32)
            && s.trace < t.trace && t.trace[|t.trace| - 1] == M.Ended(reason))
  {
    hide Encode;
    hide ControlPayload;
  }

  /** No call sends beyond the limit, takes back a hook, or renumbers a packet. */
  lemma ActFacts(p: M.Party, s: Endpoint, a: M.Action)
    requires Stable(p, s)
    ensures M.Formed(p, s)
    ensures var t := M.Act(p, s, a); t.attempts <= t.limit <= 48 && s.trace <= t.trace && s.made <= t.made
  {
    hide M.Act;
    hide Numbered;
    hide AllKnown;
    hide PunchEffects.Delivered;
    hide PunchEffects.Remembers;
    hide PunchEffects.Marks;
    StableForms(p, s);
    ActKeeps(p, s, a);
    PunchEffects.ActEffects(p, s, a);
  }

  /** The packet may be handled. */
  predicate Weighable(p: M.Party, s: Endpoint, m: Packet) {
    && M.Formed(p, s) && s.localHello.Some? && !s.Over()
    && RoundOk(m.kind, m.round) && M.InRound(p, s, m) && ParseControl(m.kind, m.payload, p.suite).Some?
  }

  /** What a packet of the round does. */
  function Weighed(p: M.Party, s: Endpoint, m: Packet, data: Bytes, now: int, a: M.Answers): Endpoint
    requires Weighable(p, s, m)
  {
    var digest := p.suite.sha(data);
    var t := s.(replay := s.replay.After(m.sequence, digest));
    match s.replay.Judge(m.sequence, digest)
    case TooOld => t
    case Conflict => M.Stop(p, t, "conflict", true)
    case verdict => M.Dispatch(p, t, m, verdict == Duplicate, now, a)
  }

  lemma PrintedBudget(h: Offer, suite: Suite)
    requires ControlPayload(Kind.Hello, HelloBody(h), suite) != []
    ensures 1 <= h.budget.controlPackets <= 48
  {
  }
}
