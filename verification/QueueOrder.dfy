/**
 Which packet the pacer queue of src/qos/prioritized_packet_queue.cc serves next,
 by the kinds of the packets waiting; how its clock runs; and which streams it
 forgets; all of it over whole runs.
 */
module QueueOrder {
  import opened Common
  import opened QueueBooks
  import opened PacketQueue
  import opened QueueRuns
  import opened QueueLimits

  predicate OfVideo(p: Media) {
    p.original == Some(OriginalVideo)
  }

  /**
   A packet goes before another: audio before anything else; retransmissions
   before media, and, when audio is prioritised, before those of video; video and
   redundancy alike before padding.
   */
  predicate GoesBefore(prioritizeAudio: bool, p: Media, q: Media) {
    match p.kind
    case Audio => q.kind != Audio
    case Retransmission =>
      || q.kind in {Video, ForwardErrorCorrection, Padding}
      || (prioritizeAudio && q.kind == Retransmission && !OfVideo(p) && OfVideo(q))
    case Video | ForwardErrorCorrection => q.kind == Padding
    case Padding => false
  }

  /** The levels are this order. */
  lemma LevelsOrder(setup: Setup, p: Media, q: Media)
    ensures setup.LevelOf(p) < setup.LevelOf(q) <==> GoesBefore(setup.prioritizeAudio, p, q)
  {
  }

  /** Every packet waits at the level of its kind. */
  ghost predicate Leveled(q: State) {
    forall i :: 0 <= i < |q.books.a| ==> q.books.a[i].level == q.setup.LevelOf(q.books.a[i].packet)
  }

  lemma {:induction false} RunLevels(q: State, moves: seq<Move>)
    requires q.Shaped() && q.books.Valid() && Leveled(q)
    ensures Leveled(Run(q, moves)) && Run(q, moves).books.Valid() && Run(q, moves).setup == q.setup
    decreases |moves|
  {
    hide After;
    hide Books.Valid;
    hide PriorityOf;
    if moves != [] {
      var n := |moves| - 1;
      RunLevels(q, moves[..n]);
      RunKeeps(q, moves);
      AfterLevels(Run(q, moves[..n]), moves[n]);
    }
  }

  lemma AfterLevels(q: State, m: Move)
    requires q.Shaped() && q.books.Valid() && Leveled(q)
    ensures Leveled(After(q, m)) && After(q, m).setup == q.setup
  {
    hide After;
    hide Books.Valid;
    hide PriorityOf;
    AfterClocks(q, m);
    var kept := AfterPart(q, m);
    var p := After(q, m);
    forall i | 0 <= i < |p.books.a| ensures p.books.a[i].level == p.setup.LevelOf(p.books.a[i].packet) {
      if i < |kept| {
        assert kept[i] in q.books.a;
      }
    }
  }

  /**
   Over every run, what Pop takes: no packet waiting goes before it, and none of
   its stream that goes alike was pushed earlier.
   */
  lemma MostUrgent(setup: Setup, creation: int, moves: seq<Move>) returns (i: nat)
    requires |setup.ttls| == LEVELS && Run(Opened(setup, creation), moves).books.a != []
    ensures var q := Run(Opened(setup, creation), moves);
      var a := q.books.a;
      && i < |a| && Takes(q, Pop, a[i])
      && (forall j :: 0 <= j < |a| ==> !GoesBefore(setup.prioritizeAudio, a[j].packet, a[i].packet))
      && (forall j :: 0 <= j < i && a[j].packet.ssrc == a[i].packet.ssrc ==> GoesBefore(setup.prioritizeAudio, a[i].packet, a[j].packet))
  {
    hide GoesBefore;
    hide Books.Valid;
    hide After;
    hide Run;
    hide Select;
    OpenedInTime(setup, creation);
    RunLevels(Opened(setup, creation), moves);
    var q := Run(Opened(setup, creation), moves);
    LeastTops(q.books.tables);
    i := NextPacket(q.books, q.Top());
    forall j | 0 <= j < |q.books.a|
      ensures !GoesBefore(setup.prioritizeAudio, q.books.a[j].packet, q.books.a[i].packet)
      ensures j < i && q.books.a[j].packet.ssrc == q.books.a[i].packet.ssrc ==>
        GoesBefore(setup.prioritizeAudio, q.books.a[i].packet, q.books.a[j].packet)
    {
      LevelsOrder(setup, q.books.a[j].packet, q.books.a[i].packet);
      LevelsOrder(setup, q.books.a[i].packet, q.books.a[j].packet);
    }
  }

  /** Some packet of this kind waits. */
  predicate Waits(a: seq<Entry>, kind: MediaType) {
    exists i :: 0 <= i < |a| && a[i].packet.kind == kind
  }

  /**
   The same by kinds.  A packet that is not audio is served only when no audio
   waits, media and redundancy only when no retransmission does, padding only
   when there is nothing else; and with audio prioritised, a retransmission of
   video only when there is none of anything else.
   */
  lemma ServedByKind(setup: Setup, creation: int, moves: seq<Move>, e: Entry)
    requires |setup.ttls| == LEVELS && Takes(Run(Opened(setup, creation), moves), Pop, e)
    ensures var a, kind := Run(Opened(setup, creation), moves).books.a, e.packet.kind;
      && e in a
      && (kind != Audio ==> !Waits(a, Audio))
      && (kind in {Video, ForwardErrorCorrection} ==> !Waits(a, Retransmission))
      && (kind == Padding ==> forall i :: 0 <= i < |a| ==> a[i].packet.kind == Padding)
      && (kind == Retransmission && OfVideo(e.packet) && setup.prioritizeAudio ==>
        forall i :: 0 <= i < |a| && a[i].packet.kind == Retransmission ==> OfVideo(a[i].packet))
  {
    hide Books.Valid;
    hide After;
    hide Run;
    var q := Run(Opened(setup, creation), moves);
    NotEmpty(q, e);
    var i := MostUrgent(setup, creation, moves);
    assert q.books.a[i] == e;
    hide Select;
    hide Takes;
    forall j | 0 <= j < |q.books.a|
      ensures !GoesBefore(setup.prioritizeAudio, q.books.a[j].packet, e.packet)
    {
    }
  }

  lemma NotEmpty(q: State, e: Entry)
    requires q.Shaped() && Takes(q, Pop, e)
    ensures q.books.a != []
  {
  }

  /** Packets of which neither goes before the other take turns: they share a level, and no others do. */
  lemma ShareLevel(setup: Setup, p: Media, q: Media)
    ensures setup.LevelOf(p) == setup.LevelOf(q) <==>
      || p.kind == q.kind != Retransmission
      || (p.kind == q.kind == Retransmission && (!setup.prioritizeAudio || OfVideo(p) == OfVideo(q)))
      || (p.kind in {Video, ForwardErrorCorrection} && q.kind in {Video, ForwardErrorCorrection})
  {
    LevelsOrder(setup, p, q);
    LevelsOrder(setup, q, p);
    hide PriorityOf;
  }

  // ----- The clock -----

  /** Paused, or not, before each of these calls. */
  predicate AllAlong(q: State, moves: seq<Move>, paused: bool)
    requires q.Shaped()
  {
    forall k :: 0 <= k < |moves| ==> Run(q, moves[..k]).paused == paused
  }

  /** The clock by which packets wait stands still while the queue is paused, and runs with the time while it is not. */
  lemma {:induction false} ClockRuns(q: State, moves: seq<Move>, paused: bool)
    requires q.Shaped() && AllAlong(q, moves, paused)
    ensures Run(q, moves).Clock() - q.Clock() == if paused then 0 else Run(q, moves).now - q.now
    decreases |moves|
  {
    hide After;
    if moves != [] {
      var n := |moves| - 1;
      assert forall k :: 0 <= k < n ==> moves[..n][..k] == moves[..k];
      ClockRuns(q, moves[..n], paused);
      AfterClock(Run(q, moves[..n]), moves[n]);
    }
  }

  lemma AfterClock(q: State, m: Move)
    requires q.Shaped()
    ensures var p := After(q, m);
      && p.Clock() == (if q.paused then q.Clock() else q.Clock() + (p.now - q.now))
      && p.paused == (if m.Pause? then m.pause else q.paused)
      && p.now == (match m case Push(t, _) => t case Pause(_, t) => t case Update(t) => t case _ => q.now)
  {
    hide Books.PurgeLevel;
    hide Books.Joined;
    hide Books.Settled;
    hide Books.Settle;
    hide Books.Removed;
    hide Remembered;
  }

  // ----- Forgetting streams -----

  /**
   A push forgets a stream exactly when nothing of it waits after the push, it was
   created more than 500 ms ago, and so was the last clearing out; nothing else does.
   */
  lemma Forgets(q: State, m: Move, s: nat)
    requires q.Shaped() && s in q.created
    ensures s !in After(q, m).created <==>
      && m.Push? && m.time > q.culled + 500 && m.time > q.created[s] + 500
      && forall i :: 0 <= i < |After(q, m).books.a| ==> !(After(q, m).books.a[i].packet.ssrc == s && After(q, m).books.a[i].level < LEVELS)
    ensures After(q, m).culled == if m.Push? && m.time > q.culled + 500 then m.time else q.culled
  {
    hide Books.PurgeLevel;
    hide Books.Joined;
    hide Books.Settled;
    hide Books.Settle;
    hide Books.Removed;
    hide Select;
    IdleMeans(After(q, m).books.a, s);
    hide Idle;
  }

  lemma IdleMeans(a: seq<Entry>, s: nat)
    ensures Idle(a, s) <==> forall i :: 0 <= i < |a| ==> !(a[i].packet.ssrc == s && a[i].level < LEVELS)
  {
    forall l | 0 <= l < LEVELS
      ensures Select(a, s, l) == [] <==> forall i :: 0 <= i < |a| ==> !a[i].Of(s, l)
    {
      if Select(a, s, l) != [] {
        assert Select(a, s, l)[0].Of(s, l) && Select(a, s, l)[0] in a;
      }
      forall i | 0 <= i < |a| && a[i].Of(s, l) ensures Select(a, s, l) != [] {
        Unselected(a, s, l);
      }
    }
    hide Select;
    if Idle(a, s) {
      forall i | 0 <= i < |a| ensures !(a[i].packet.ssrc == s && a[i].level < LEVELS) {
        assert a[i].level < LEVELS ==> Select(a, s, a[i].level) == [];
        assert a[i].Of(a[i].packet.ssrc, a[i].level);
      }
    }
  }
}
