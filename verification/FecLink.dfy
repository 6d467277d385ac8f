/**
 A sender and a receiver joined by a channel that may lose, duplicate, delay
 and reorder packets, under an arbitrary schedule.
 */
module FecLink {
  import opened Common
  import opened GF256
  import opened LinearSystem
  import opened RsCode
  import opened FecCodec
  import opened RtpWire
  import opened FecTranscript
  import opened RtpSender
  import opened RtpReceiver

  /** What may happen next.  Deliver hands over any packet put on the wire so far, lost ones never. */
  datatype Event =
    | Send(packet: Packet, isKeyframe: bool, now: int, codec: bool)
    | Flush(now: int, codec: bool)
    | Protect(config: Protection, now: int)
    | Forget
    | Deliver(index: nat, now: int, codec: bool)

  /** The media packets a schedule hands the sender. */
  function Given(script: seq<Event>): (packets: seq<Packet>) {
    if script == [] then []
    else
      var n := |script| - 1;
      Given(script[..n]) + if script[n].Send? then [script[n].packet] else []
  }

  /** No two packets share timestamp and sequence number, and none uses the repair stream. */
  ghost predicate Distinguishable(packets: seq<Packet>, repairSsrc: nat) {
    && (forall i, j :: 0 <= i < j < |packets| && |packets[i]| >= 12 && |packets[j]| >= 12 ==>
      Timestamp(packets[i]) != Timestamp(packets[j]) || Sequence(packets[i]) != Sequence(packets[j]))
    && (forall i :: 0 <= i < |packets| && |packets[i]| >= 12 ==> Ssrc(packets[i]) != repairSsrc)
  }

  /** What the receiver holds and has reported stems from the sender, if the sender's stream is unambiguous. */
  ghost predicate Sound(sources: map<nat, Source>, blocks: map<Key, Block>, recovered: seq<Packet>, t: Transcript,
                        matrix: Matrices, media: Stream, repairSsrc: nat)
    requires Shared(matrix)
  {
    t.Honest(repairSsrc) ==> Faithful(sources, blocks, t, matrix, media, repairSsrc) && AllSent(recovered, t)
  }

  /** Everything on the wire was put there by the sender. */
  ghost predicate Carried(wire: seq<Packet>, sent: seq<Packet>, emitted: seq<Packet>) {
    forall i :: 0 <= i < |wire| ==> wire[i] in sent || wire[i] in emitted
  }

  ghost predicate OneStream(blocks: seq<SentBlock>, repairSsrc: nat) {
    forall j :: 0 <= j < |blocks| ==> blocks[j].repairSsrc == repairSsrc
  }

  /** The later transcript extends the earlier one. */
  ghost predicate Extends(t: Transcript, u: Transcript) {
    t.sent <= u.sent && t.blocks <= u.blocks
  }

  /** What stems from a sender still does when the sender goes on. */
  lemma SoundGrows(sources: map<nat, Source>, blocks: map<Key, Block>, recovered: seq<Packet>, t: Transcript, u: Transcript,
                   matrix: Matrices, media: Stream, repairSsrc: nat)
    requires Shared(matrix) && Sound(sources, blocks, recovered, t, matrix, media, repairSsrc)
    requires Extends(t, u) && t.WellFormed()
    ensures Sound(sources, blocks, recovered, u, matrix, media, repairSsrc)
  {
    hide Matches;
    hide Ssrc;
    hide Timestamp;
    hide Sequence;
    hide SentBlock.Valid;
    if u.Honest(repairSsrc) {
      assert forall i :: 0 <= i < |t.sent| ==> t.sent[i] == u.sent[i];
      assert forall j :: 0 <= j < |t.blocks| ==> t.blocks[j] == u.blocks[j];
      assert t.DistinctKeys();
      assert t.OneRepairStream(repairSsrc);
      assert forall p :: p in t.sent ==> p in u.sent;
      forall key | key in blocks ensures FromSender(blocks[key], u, matrix, media) {
        var j :| 0 <= j < |t.blocks| && Matches(blocks[key], t.blocks[j], matrix, media);
        assert u.blocks[j] == t.blocks[j];
      }
    }
  }

  /** Whatever the wire holds, an honest sender put there. */
  lemma WireArrives(p: Packet, t: Transcript, emitted: seq<Packet>, matrix: Matrices, repairSsrc: nat)
    requires Shared(matrix) && t.Honest(repairSsrc) && EmitsRepairs(t, emitted, matrix)
    requires p in t.sent || p in emitted
    ensures Arrives(p, t, matrix, repairSsrc)
  {
    hide SentBlock.RepairAt;
    hide Transcript.IsRepair;
    hide SentBlock.Valid;
    if p in emitted {
      var i :| 0 <= i < |emitted| && emitted[i] == p;
      assert t.IsRepair(emitted[i], matrix);
    }
  }

  lemma StreamsAreHonest(t: Transcript, repairSsrc: nat)
    requires t.WellFormed() && Distinguishable(t.sent, repairSsrc) && OneStream(t.blocks, repairSsrc)
    ensures t.Honest(repairSsrc)
  {
    hide Ssrc;
    hide Timestamp;
    hide Sequence;
    hide SentBlock.Valid;
  }

  /** The bytes of all these packets. */
  function Weight(packets: seq<Packet>): nat {
    if packets == [] then 0 else Weight(packets[..|packets| - 1]) + |packets[|packets| - 1]|
  }

  lemma WeightAppend(packets: seq<Packet>, p: Packet)
    ensures Weight(packets + [p]) == Weight(packets) + |p|
  {
    assert (packets + [p])[..|packets|] == packets;
  }

  // ----- One step -----

  /** Both ends, the wire between them, and what has been recovered. */
  datatype World = World(sender: Sender, held: Held, wire: seq<Packet>, reported: seq<Packet>)

  /** What the two ends share. */
  datatype Setup = Setup(matrix: Matrices, media: Stream, repairSsrc: nat)
  {
    ghost predicate Valid() {
      Shared(matrix) && repairSsrc < 0x1_0000_0000
    }
  }

  const START := World(NEW_SENDER, Held(map[], map[]), [], [])

  /** The sender went on to `s`; its new repairs are on the wire, behind `packets`. */
  ghost predicate Emits(w: World, s: Sender, packets: seq<Packet>, v: World) {
    && w.sender.emitted <= s.emitted
    && v == w.(sender := s, wire := w.wire + packets + s.emitted[|w.sender.emitted|..])
  }

  /** What each event does. */
  ghost predicate Happens(x: Setup, e: Event, w: World, v: World)
    requires x.Valid()
  {
    && w.sender.Open(x.matrix)
    && match e
       case Send(p, isKeyframe, now, codec) =>
         Emits(w, w.sender.Added(x.matrix, p, x.repairSsrc, now, isKeyframe, codec), [p], v)
       case Flush(now, codec) =>
         Emits(w, w.sender.Expired(x.matrix, x.repairSsrc, now, codec), [], v)
       case Protect(config, now) =>
         w.sender.config.Valid() && 0.0 <= w.sender.credit && v == w.(sender := w.sender.Configured(config, now))
       case Forget =>
         v == w.(sender := w.sender.Cleared())
       case Deliver(index, now, codec) =>
         if index < |w.wire| then
           exists recovered ::
             && Hears(w.held, w.wire[index], now, codec, x.matrix, x.media, x.repairSsrc, v.held, recovered)
             && v == w.(held := v.held, reported := w.reported + recovered)
         else v == w
  }

  /** A run of the link: the world before the first event and after every one. */
  ghost predicate IsRun(x: Setup, script: seq<Event>, run: seq<World>)
    requires x.Valid()
  {
    if script == [] then run == [START]
    else
      var n := |script| - 1;
      |run| == n + 2 && IsRun(x, script[..n], run[..n + 1]) && Happens(x, script[n], run[n], run[n + 1])
  }

  // ----- Every run -----

  /** What every step keeps. */
  ghost predicate Linked(x: Setup, w: World)
    requires x.Valid()
  {
    && w.sender.Open(x.matrix) && OneStream(w.sender.blocks, x.repairSsrc)
    && Carried(w.wire, w.sender.sent, w.sender.emitted) && w.sender.admitted <= Weight(w.sender.sent)
    && Keyed(w.held.blocks)
    && Sound(w.held.sources, w.held.blocks, w.reported, w.sender.Log(), x.matrix, x.media, x.repairSsrc)
  }

  lemma StartLinked(x: Setup)
    requires x.Valid()
    ensures Linked(x, START)
  {
    hide Shared;
    hide Sender.Open;
    NewKeeps(x.matrix);
  }

  lemma OpenFacts(s: Sender, matrix: Matrices)
    requires s.Open(matrix)
    ensures Shared(matrix) && s.Log().WellFormed() && EmitsRepairs(s.Log(), s.emitted, matrix)
  {
  }

  /** The sender goes on. */
  lemma SenderLinked(x: Setup, w: World, s: Sender, packets: seq<Packet>, v: World)
    requires x.Valid() && Linked(x, w) && Emits(w, s, packets, v) && s.Open(x.matrix) && GoesOn(w.sender, s, x.repairSsrc)
    requires s.sent == w.sender.sent + packets && s.admitted <= Weight(s.sent)
    ensures Linked(x, v)
  {
    hide Sender.Open;
    hide Sound;
    hide Shared;
    hide Weight;
    OpenFacts(w.sender, x.matrix);
    SoundGrows(w.held.sources, w.held.blocks, w.reported, w.sender.Log(), s.Log(), x.matrix, x.media, x.repairSsrc);
    CarriedMore(w.wire, w.sender.sent, packets, w.sender.emitted, s.emitted);
    OneStreamMore(w.sender.blocks, s.blocks, x.repairSsrc);
    hide Carried;
    hide OneStream;
  }

  /** What the sender adds to the wire it sent or emitted. */
  lemma CarriedMore(wire: seq<Packet>, sent: seq<Packet>, packets: seq<Packet>, emitted: seq<Packet>, more: seq<Packet>)
    requires Carried(wire, sent, emitted) && emitted <= more
    ensures Carried(wire + packets + more[|emitted|..], sent + packets, more)
  {
    var v := wire + packets + more[|emitted|..];
    forall i | 0 <= i < |v| ensures v[i] in sent + packets || v[i] in more {
      if i < |wire| {
        assert v[i] == wire[i];
      } else if i < |wire| + |packets| {
        assert v[i] == packets[i - |wire|];
      } else {
        assert v[i] == more[|emitted|..][i - |wire| - |packets|];
      }
    }
  }

  lemma OneStreamMore(blocks: seq<SentBlock>, more: seq<SentBlock>, repairSsrc: nat)
    requires OneStream(blocks, repairSsrc) && blocks <= more
    requires forall j :: |blocks| <= j < |more| ==> more[j].repairSsrc == repairSsrc
    ensures OneStream(more, repairSsrc)
  {
    assert forall j :: 0 <= j < |blocks| ==> more[j] == blocks[j];
  }

  /** A packet is delivered. */
  lemma DeliverLinked(x: Setup, w: World, e: Event, v: World)
    requires x.Valid() && Linked(x, w) && e.Deliver? && Happens(x, e, w, v)
    ensures Linked(x, v)
  {
    hide Sender.Open;
    hide Shared;
    hide Faithful;
    hide Hears;
    hide Arrives;
    hide Transcript.Honest;
    if e.index < |w.wire| {
      var p, t := w.wire[e.index], w.sender.Log();
      var recovered :| Hears(w.held, p, e.now, e.codec, x.matrix, x.media, x.repairSsrc, v.held, recovered)
        && v == w.(held := v.held, reported := w.reported + recovered);
      OpenFacts(w.sender, x.matrix);
      HearsKeyed(w.held, p, e.now, e.codec, x.matrix, x.media, x.repairSsrc, v.held, recovered);
      if t.Honest(x.repairSsrc) {
        WireArrives(p, t, w.sender.emitted, x.matrix, x.repairSsrc);
        HearsHonest(w.held, p, e.now, e.codec, x.matrix, x.media, x.repairSsrc, v.held, recovered, t);
      }
    }
  }

  lemma StepLinked(x: Setup, e: Event, w: World, v: World)
    requires x.Valid() && Linked(x, w) && Happens(x, e, w, v)
    ensures Linked(x, v) && v.sender.sent == w.sender.sent + if e.Send? then [e.packet] else []
  {
    hide Linked;
    hide Sender.Open;
    hide Sender.Added;
    hide Sender.Expired;
    hide Hears;
    LinkedSender(x, w);
    match e {
      case Send(p, isKeyframe, now, codec) =>
        AddedKeeps(w.sender, x.matrix, p, x.repairSsrc, now, isKeyframe, codec);
        AddedGoesOn(w.sender, x.matrix, p, x.repairSsrc, now, isKeyframe, codec);
        WeightAppend(w.sender.sent, p);
        SenderLinked(x, w, v.sender, [p], v);
      case Flush(now, codec) =>
        ExpiredKeeps(w.sender, x.matrix, x.repairSsrc, now, codec);
        ExpiredGoesOn(w.sender, x.matrix, x.repairSsrc, now, codec);
        SenderLinked(x, w, v.sender, [], v);
      case Protect(config, now) =>
        ConfiguredKeeps(w.sender, x.matrix, config, now);
        assert w.wire + [] + w.sender.emitted[|w.sender.emitted|..] == w.wire;
        SenderLinked(x, w, v.sender, [], v);
      case Forget =>
        ClearedKeeps(w.sender, x.matrix);
        assert w.wire + [] + w.sender.emitted[|w.sender.emitted|..] == w.wire;
        SenderLinked(x, w, v.sender, [], v);
      case Deliver(_, _, _) =>
        DeliverLinked(x, w, e, v);
    }
  }

  lemma LinkedSender(x: Setup, w: World)
    requires x.Valid() && Linked(x, w)
    ensures w.sender.Open(x.matrix) && w.sender.admitted <= Weight(w.sender.sent)
  {
  }

  lemma {:induction false} RunLinked(x: Setup, script: seq<Event>, run: seq<World>)
    requires x.Valid() && IsRun(x, script, run)
    ensures |run| == |script| + 1 && Linked(x, run[|script|]) && run[|script|].sender.sent == Given(script)
  {
    hide Linked;
    hide Happens;
    if script == [] {
      StartLinked(x);
    } else {
      var n := |script| - 1;
      RunLinked(x, script[..n], run[..n + 1]);
      StepLinked(x, script[n], run[n], run[n + 1]);
    }
  }

  lemma {:induction false} RunPrefix(x: Setup, script: seq<Event>, run: seq<World>, m: nat)
    requires x.Valid() && IsRun(x, script, run) && |run| == |script| + 1 && m <= |script|
    ensures IsRun(x, script[..m], run[..m + 1])
    decreases |script|
  {
    hide Happens;
    if m == |script| {
      assert script[..m] == script && run[..m + 1] == run;
    } else {
      var n := |script| - 1;
      RunPrefix(x, script[..n], run[..n + 1], m);
      assert script[..n][..m] == script[..m] && run[..n + 1][..m + 1] == run[..m + 1];
    }
  }

  /** One event of a run. */
  lemma RunStepAt(x: Setup, script: seq<Event>, run: seq<World>, m: nat)
    requires x.Valid() && IsRun(x, script, run) && |run| == |script| + 1 && m < |script|
    ensures Happens(x, script[m], run[m], run[m + 1]) && Linked(x, run[m])
  {
    hide Happens;
    hide Linked;
    RunPrefix(x, script, run, m);
    RunPrefix(x, script, run, m + 1);
    RunLinked(x, script[..m], run[..m + 1]);
    assert script[..m + 1][m] == script[m];
  }

  /**
   Any schedule whatever: if the media packets can be told apart, every packet
   the receiver reports as recovered is byte for byte one the sender was given.
   And whatever the packets, the repairs, with 64 bytes of overhead each, cost at
   most a quarter of the media bytes, and every one fits the wire.
   */
  lemma EndToEnd(x: Setup, script: seq<Event>, run: seq<World>)
    requires x.Valid() && IsRun(x, script, run)
    ensures |run| == |script| + 1
    ensures var w := run[|script|];
      && (Distinguishable(Given(script), x.repairSsrc) ==> forall q :: q in w.reported ==> q in Given(script))
      && TotalCost(w.sender.emitted) as real <= 0.25 * Weight(Given(script)) as real
      && forall i :: 0 <= i < |w.sender.emitted| ==> |w.sender.emitted[i]| <= MAX_WIRE_PACKET
  {
    hide IsRun;
    hide TotalCost;
    hide Weight;
    hide Transcript.Honest;
    hide Distinguishable;
    hide Faithful;
    hide Transcript.WellFormed;
    hide PendingIsTail;
    hide Shared;
    hide Transcript.IsRepair;
    hide OneStream;
    RunLinked(x, script, run);
    var w := run[|script|];
    if Distinguishable(Given(script), x.repairSsrc) {
      StreamsAreHonest(w.sender.Log(), x.repairSsrc);
    }
  }

  // ----- The objects -----

  ghost predicate Stands(sender: RtpFecSender, receiver: RtpFecReceiver, x: Setup, wire: seq<Packet>, recovered: seq<Packet>, w: World)
    reads sender, sender.rate, receiver, receiver.decoder
  {
    && x.Valid() && sender.Valid() && receiver.Valid() && sender.rate as object != receiver.decoder as object
    && sender.matrix == receiver.matrix == x.matrix && receiver.media == x.media && receiver.repairSsrc == x.repairSsrc
    && w == World(sender.Value(), receiver.Value(), wire, recovered) && receiver.reported == recovered
  }

  /** The sender takes its part of an event. */
  method SenderStep(sender: RtpFecSender, receiver: RtpFecReceiver, ghost x: Setup, repairSsrc: nat, e: Event, wire: seq<Packet>,
                    ghost recovered: seq<Packet>, ghost w: World)
    returns (now: seq<Packet>, repairs: seq<Packet>)
    requires Stands(sender, receiver, x, wire, recovered, w) && !e.Deliver? && repairSsrc == x.repairSsrc
    modifies sender, sender.rate
    ensures var v := World(sender.Value(), receiver.Value(), now, recovered);
      Stands(sender, receiver, x, now, recovered, v) && Happens(x, e, w, v)
    ensures sender.emitted == old(sender.emitted) + repairs
  {
    hide Held.Valid;
    hide Shared;
    hide Field.Valid;
    hide FecDecoder.Valid;
    hide Sender.Open;
    hide Sender.Added;
    hide Sender.Expired;
    hide Sender.Configured;
    now, repairs := wire, [];
    match e {
      case Send(p, isKeyframe, at, codec) =>
        repairs := sender.AddPacket(p, repairSsrc, at, isKeyframe, codec);
        now := wire + [p] + repairs;
      case Flush(at, codec) =>
        repairs := sender.FlushExpired(repairSsrc, at, codec);
        now := wire + [] + repairs;
      case Protect(config, at) =>
        sender.SetProtection(config, at);
      case Forget =>
        sender.Reset();
    }
  }

  /** The channel hands a packet to the receiver. */
  method DeliverStep(sender: RtpFecSender, receiver: RtpFecReceiver, ghost x: Setup, e: Event, wire: seq<Packet>,
                     recovered: seq<Packet>, ghost w: World)
    returns (all: seq<Packet>)
    requires Stands(sender, receiver, x, wire, recovered, w) && e.Deliver?
    modifies receiver, receiver.decoder
    ensures var v := World(sender.Value(), receiver.Value(), wire, all);
      Stands(sender, receiver, x, wire, all, v) && Happens(x, e, w, v)
  {
    hide Held.Valid;
    hide Shared;
    hide Field.Valid;
    hide FecDecoder.Valid;
    hide Sender.Open;
    hide Hears;
    all := recovered;
    if e.index < |wire| {
      var more := receiver.AddPacket(wire[e.index], e.now, e.codec);
      all := recovered + more;
    }
  }

  /** The two objects joined by the channel run as the link does. */
  method Exchange(script: seq<Event>, media: Stream, repairSsrc: nat, matrix: Matrices, gf: Field, neon: bool)
    returns (recovered: seq<Packet>, repairs: seq<Packet>, ghost run: seq<World>)
    requires gf.Valid() && Shared(matrix) && repairSsrc < 0x1_0000_0000
    ensures IsRun(Setup(matrix, media, repairSsrc), script, run) && |run| == |script| + 1
    ensures recovered == run[|script|].reported && repairs == run[|script|].sender.emitted
    ensures Distinguishable(Given(script), repairSsrc) ==> forall q :: q in recovered ==> q in Given(script)
    ensures TotalCost(repairs) as real <= 0.25 * Weight(Given(script)) as real
    ensures forall i :: 0 <= i < |repairs| ==> |repairs[i]| <= MAX_WIRE_PACKET
  {
    hide Field.Valid;
    hide Shared;
    hide Happens;
    hide Stands;
    RunStart(Setup(matrix, media, repairSsrc), script);
    hide IsRun;
    hide Distinguishable;
    hide TotalCost;
    hide Weight;
    hide Given;
    var sender := new RtpFecSender(matrix, gf, neon);
    var receiver := new RtpFecReceiver(media, repairSsrc, matrix, gf, neon);
    ghost var x := Setup(matrix, media, repairSsrc);
    var wire := [];
    recovered, repairs, run := [], [], [START];
    StandsAtStart(sender, receiver, x);
    for i := 0 to |script|
      invariant fresh(sender) && fresh(sender.rate) && fresh(receiver) && fresh(receiver.decoder)
      invariant |run| == i + 1 && IsRun(x, script[..i], run)
      invariant Stands(sender, receiver, x, wire, recovered, run[i]) && sender.emitted == repairs
    {
      var e := script[i];
      var more := [];
      if e.Deliver? {
        recovered := DeliverStep(sender, receiver, x, e, wire, recovered, run[i]);
      } else {
        wire, more := SenderStep(sender, receiver, x, repairSsrc, e, wire, recovered, run[i]);
      }
      repairs := repairs + more;
      RunMore(x, script, i, run, World(sender.Value(), receiver.Value(), wire, recovered));
      run := run + [World(sender.Value(), receiver.Value(), wire, recovered)];
    }
    assert script[..|script|] == script;
    StandsFacts(sender, receiver, x, wire, recovered, run[|script|]);
    EndToEnd(x, script, run);
  }

  lemma StandsAtStart(sender: RtpFecSender, receiver: RtpFecReceiver, x: Setup)
    requires x.Valid() && sender.Valid() && receiver.Valid() && sender.rate as object != receiver.decoder as object
    requires sender.matrix == receiver.matrix == x.matrix && receiver.media == x.media && receiver.repairSsrc == x.repairSsrc
    requires sender.Value() == NEW_SENDER && receiver.Value() == Held(map[], map[]) && receiver.reported == []
    ensures Stands(sender, receiver, x, [], [], START)
  {
  }

  lemma StandsFacts(sender: RtpFecSender, receiver: RtpFecReceiver, x: Setup, wire: seq<Packet>, recovered: seq<Packet>, w: World)
    requires Stands(sender, receiver, x, wire, recovered, w)
    ensures w.reported == recovered && w.sender.emitted == sender.emitted
  {
  }

  lemma RunStart(x: Setup, script: seq<Event>)
    requires x.Valid()
    ensures IsRun(x, script[..0], [START])
  {
  }

  lemma RunMore(x: Setup, script: seq<Event>, i: nat, run: seq<World>, v: World)
    requires x.Valid() && i < |script| && |run| == i + 1 && IsRun(x, script[..i], run) && Happens(x, script[i], run[i], v)
    ensures IsRun(x, script[..i + 1], run + [v])
  {
    hide Happens;
    assert script[..i + 1][..i] == script[..i] && (run + [v])[..i + 1] == run;
  }
}
