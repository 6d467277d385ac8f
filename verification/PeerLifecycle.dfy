/**
 The ownership protocol of src/pc/peer_connection.cpp for signaled peers.  Each
 step is what one thread does under a lock; threads interleave in any order.
 */
module PeerLifecycle {
  import opened Common

  type User = string
  type Conn = nat

  /** Where the worker thread is: between turns, releasing, processing a leave, past its loop, or gone. */
  datatype Worker = Waiting | Releasing(conn: Conn) | Working(user: User) | Leaving | Gone

  /** No connection stands twice in the list. */
  ghost predicate Once(s: seq<Conn>) {
    forall i, j :: 0 <= i < j < |s| ==> s[i] != s[j]
  }

  ghost predicate OwnedOnce(peers: map<User, Conn>) {
    forall u, v :: u in peers && v in peers && u != v ==> peers[u] != peers[v]
  }

  // ----- The protocol as a value -----

  datatype State = State(
    /** The connections current for each remote user, and the user whose connection a thread is erasing under the map lock. */
    peers: map<User, Conn>, erasing: Option<User>,
    /** Retired connections the worker has yet to take, and the users whose leave it has yet to process. */
    cleanup: seq<Conn>, work: seq<User>, running: bool, worker: Worker, joined: bool, next: Conn,
    /** Connections threads took off the map and have yet to report. */
    owed: set<Conn>,
    /** The terminal statuses reported; connections replaced; those retired, and those the worker released. */
    reports: seq<Conn>, replaced: set<Conn>, retired: set<Conn>, released: set<Conn>)
  {
    /** Every connection is current, replaced, owed a report or reported, and only one of these. */
    ghost predicate Accounted() {
      && Once(reports) && OwnedOnce(peers)
      && (forall c :: c in peers.Values || c in replaced || c in owed || c in reports <==> 0 <= c < next)
      && (forall c :: c in reports ==> c !in owed && c !in peers.Values && c !in replaced)
      && (forall c :: c in owed ==> c !in peers.Values && c !in replaced)
      && (forall c :: c in replaced ==> c !in peers.Values)
    }

    /** A retired connection is queued, with the worker or released, and off the map but for the one being erased. */
    ghost predicate Handed() {
      && Once(cleanup)
      && (forall c :: c in retired <==> c in cleanup || worker == Releasing(c) || c in released)
      && (forall c :: c in cleanup ==> worker != Releasing(c) && c !in released)
      && (worker.Releasing? ==> worker.conn !in released)
      && (forall c :: c in retired ==> 0 <= c < next && (c in peers.Values ==> erasing.Some? && erasing.value in peers && c == peers[erasing.value]))
      && (erasing.Some? ==> erasing.value in peers && peers[erasing.value] in retired)
      && (worker.Leaving? || worker.Gone? ==> !running && cleanup == [])
      && (joined ==> worker.Gone?)
    }

    ghost predicate Valid() {
      Accounted() && Handed()
    }

    /** ReplaceOrCreatePeerConnection: a new connection takes the user's place. */
    function Replaced(user: User): State {
      if erasing.Some? then this
      else this.(peers := peers[user := next], next := next + 1,
                 replaced := replaced + if user in peers then {peers[user]} else {})
    }

    /** RetirePeerConnection, first half: the connection current for the user is queued while the worker runs. */
    predicate MayRetire(user: User, conn: Conn) {
      erasing.None? && user in peers && peers[user] == conn && running
    }

    function Queued(user: User, conn: Conn): State {
      if MayRetire(user, conn) then this.(cleanup := cleanup + [conn], retired := retired + {conn}, erasing := Some(user)) else this
    }

    /** RetirePeerConnection, second half, still under the map lock. */
    function Erased(): State {
      if erasing.Some? && erasing.value in peers then
        this.(peers := peers - {erasing.value}, owed := owed + {peers[erasing.value]}, erasing := None)
      else this
    }

    /** A terminal status reaches the application, from the thread that took the connection off the map. */
    function Reported(conn: Conn): State {
      if conn in owed then this.(reports := reports + [conn], owed := owed - {conn}) else this
    }

    /** ClearPeerConnections: everything current is taken off the map. */
    function Cleared(): State {
      if erasing.Some? then this else this.(peers := map[], owed := owed + peers.Values)
    }

    /** PushIceWorkMsg, for a user who left. */
    function Pushed(user: User): State {
      this.(work := work + [user])
    }

    /** The worker's turn under its lock: cleanup first, even while stopping; then exit; then work. */
    function Taken(): State {
      if cleanup != [] then this.(worker := Releasing(cleanup[0]), cleanup := cleanup[1..])
      else if !running then this.(worker := Leaving)
      else if work != [] then this.(worker := Working(work[0]), work := work[1..])
      else this
    }

    /** What the worker does next: nothing while the map lock it needs is held, or it has nothing to do. */
    function WorkerNext(): State {
      match worker
      case Waiting => Taken()
      case Releasing(conn) => this.(worker := Waiting, released := released + {conn})
      case Working(user) => if erasing.Some? then this else Left(user)
      case Leaving => this.(worker := Gone, work := [])
      case Gone => this
    }

    /** ProcessIceWorkMsg for a leave: the user's connection is taken off the map. */
    function Left(user: User): State {
      if user == "" || user !in peers then this.(worker := Waiting)
      else this.(worker := Waiting, peers := peers - {user}, owed := owed + {peers[user]})
    }

    /** StopIceWorker. */
    function Stopped(): State {
      this.(running := false)
    }

    /** StopIceWorker's join returns. */
    function Joined(): State {
      if worker.Gone? then this.(joined := true) else this
    }
  }

  const NEW := State(map[], None, [], [], true, Waiting, false, 0, {}, [], {}, {}, {})

  lemma ValuesWithout(m: map<User, Conn>, u: User)
    requires u in m && OwnedOnce(m)
    ensures (m - {u}).Values == m.Values - {m[u]} && m[u] in m.Values
    ensures OwnedOnce(m - {u})
  {
    forall c | c in m.Values && c != m[u] ensures c in (m - {u}).Values {
      var v :| v in m && m[v] == c;
      assert v in m - {u};
    }
  }

  lemma ValuesWith(m: map<User, Conn>, u: User, c: Conn)
    requires c !in m.Values && OwnedOnce(m)
    ensures m[u := c].Values == m.Values + {c} - if u in m then {m[u]} else {}
    ensures OwnedOnce(m[u := c]) && (u in m ==> m[u] in m.Values)
  {
    var n := m[u := c];
    assert u in n && forall v :: v in m ==> m[v] in m.Values;
    forall d | d in m.Values && !(u in m && d == m[u]) ensures d in n.Values {
      var v :| v in m && m[v] == d;
      assert v in n && n[v] == d;
    }
  }

  lemma ReplacedKeeps(s: State, user: User)
    requires s.Valid()
    ensures s.Replaced(user).Valid()
  {
    if s.erasing.None? {
      ValuesWith(s.peers, user, s.next);
    }
  }

  lemma QueuedKeeps(s: State, user: User, conn: Conn)
    requires s.Valid()
    ensures s.Queued(user, conn).Valid()
  {
    if s.MayRetire(user, conn) {
      assert conn in s.peers.Values;
      assert forall c :: c in s.cleanup + [conn] <==> c in s.cleanup || c == conn;
    }
  }

  lemma ErasedKeeps(s: State)
    requires s.Valid()
    ensures s.Erased().Valid()
  {
    if s.erasing.Some? {
      ValuesWithout(s.peers, s.erasing.value);
    }
  }

  lemma ReportedKeeps(s: State, conn: Conn)
    requires s.Valid()
    ensures s.Reported(conn).Valid()
  {
    if conn in s.owed {
      assert forall c :: c in s.reports + [conn] <==> c in s.reports || c == conn;
    }
  }

  lemma WorkerKeeps(s: State)
    requires s.Valid()
    ensures s.WorkerNext().Valid()
  {
    match s.worker {
      case Waiting =>
        if s.cleanup != [] {
          assert forall c :: c in s.cleanup <==> c == s.cleanup[0] || c in s.cleanup[1..];
          assert s.cleanup[0] !in s.cleanup[1..];
        }
      case Working(user) =>
        if s.erasing.None? && user in s.peers {
          ValuesWithout(s.peers, user);
        }
      case _ =>
    }
  }

  // ----- The object -----

  class PeerConnection {
    var peers: map<User, Conn>
    var erasing: Option<User>
    var cleanup: seq<Conn>
    var work: seq<User>
    var running: bool
    var worker: Worker
    var joined: bool
    var next: Conn
    var owed: set<Conn>
    ghost var reports: seq<Conn>
    ghost var replaced: set<Conn>
    ghost var retired: set<Conn>
    ghost var released: set<Conn>

    ghost function Value(): State
      reads this
    {
      State(peers, erasing, cleanup, work, running, worker, joined, next, owed, reports, replaced, retired, released)
    }

    /** StartIceWorker is part of construction: the worker is started once. */
    constructor ()
      ensures Value() == NEW
    {
      peers, erasing, cleanup, work, running, worker, joined, next := map[], None, [], [], true, Waiting, false, 0;
      owed, reports, replaced, retired, released := {}, [], {}, {}, {};
    }

    method Replace(user: User) returns (before: Option<Conn>)
      modifies `peers, `next, `replaced
      ensures Value() == old(Value()).Replaced(user)
      ensures before == if user in old(peers) && erasing.None? then Some(old(peers)[user]) else None
      ensures erasing.None? ==>
        && peers == old(peers)[user := old(next)] && next > old(next)
        && (before.Some? ==> before.value in replaced)
    {
      before := None;
      if erasing.Some? {
        return;
      }
      if user in peers {
        before := Some(peers[user]);
        replaced := replaced + {peers[user]};
      }
      peers := peers[user := next];
      next := next + 1;
    }

    method Queue(user: User, conn: Conn) returns (ok: bool)
      modifies `cleanup, `retired, `erasing
      ensures Value() == old(Value()).Queued(user, conn) && ok == old(Value()).MayRetire(user, conn)
    {
      ok := false;
      if erasing.None? && user in peers && peers[user] == conn {
        if running {
          cleanup := cleanup + [conn];
          retired := retired + {conn};
          erasing := Some(user);
          ok := true;
        }
      }
    }

    method Erase()
      modifies `peers, `owed, `erasing
      ensures Value() == old(Value()).Erased()
    {
      if erasing.Some? && erasing.value in peers {
        owed := owed + {peers[erasing.value]};
        peers := peers - {erasing.value};
        erasing := None;
      }
    }

    method Report(conn: Conn)
      modifies `owed, `reports
      ensures Value() == old(Value()).Reported(conn)
    {
      if conn in owed {
        reports := reports + [conn];
        owed := owed - {conn};
      }
    }

    method Clear()
      modifies `peers, `owed
      ensures Value() == old(Value()).Cleared()
      ensures erasing.None? ==> peers == map[] && owed == old(owed) + old(peers).Values
    {
      if erasing.None? {
        owed := owed + peers.Values;
        peers := map[];
      }
    }

    method PushLeave(user: User)
      modifies `work
      ensures Value() == old(Value()).Pushed(user)
    {
      work := work + [user];
    }

    /** One turn of the worker's loop, up to where it next lets go of a lock. */
    method WorkerStep()
      modifies `peers, `cleanup, `work, `worker, `owed, `released
      ensures Value() == old(Value()).WorkerNext()
    {
      match worker {
        case Waiting =>
          if cleanup != [] {
            worker := Releasing(cleanup[0]);
            cleanup := cleanup[1..];
          } else if !running {
            worker := Leaving;
          } else if work != [] {
            worker := Working(work[0]);
            work := work[1..];
          }
        case Releasing(conn) =>
          released := released + {conn};
          worker := Waiting;
        case Working(user) =>
          if erasing.None? {
            worker := Waiting;
            if user != "" && user in peers {
              owed := owed + {peers[user]};
              peers := peers - {user};
            }
          }
        case Leaving =>
          work := [];
          worker := Gone;
        case Gone =>
      }
    }

    method StopWorker()
      modifies `running
      ensures Value() == old(Value()).Stopped()
    {
      running := false;
    }

    method JoinWorker()
      modifies `joined
      ensures Value() == old(Value()).Joined()
    {
      if worker.Gone? {
        joined := true;
      }
    }
  }

  // ----- Any interleaving -----

  /** What some thread does next; a step that has to wait changes nothing. */
  datatype Step =
    | Replacing(user: User)
    | Queueing(user: User, conn: Conn)
    | Erasing
    | Reporting(conn: Conn)
    | Clearing
    | Pushing(user: User)
    | WorkerTurn
    | Stopping
    | Joining

  function After(s: State, e: Step): State {
    match e
    case Replacing(user) => s.Replaced(user)
    case Queueing(user, conn) => s.Queued(user, conn)
    case Erasing => s.Erased()
    case Reporting(conn) => s.Reported(conn)
    case Clearing => s.Cleared()
    case Pushing(user) => s.Pushed(user)
    case WorkerTurn => s.WorkerNext()
    case Stopping => s.Stopped()
    case Joining => s.Joined()
  }

  /** The protocol after any interleaving. */
  function Play(script: seq<Step>): State {
    if script == [] then NEW else After(Play(script[..|script| - 1]), script[|script| - 1])
  }

  lemma AfterKeeps(s: State, e: Step)
    requires s.Valid()
    ensures After(s, e).Valid()
  {
    match e {
      case Replacing(user) => ReplacedKeeps(s, user);
      case Queueing(user, conn) => QueuedKeeps(s, user, conn);
      case Erasing => ErasedKeeps(s);
      case Reporting(conn) => ReportedKeeps(s, conn);
      case Clearing =>
      case Pushing(_) =>
      case WorkerTurn => WorkerKeeps(s);
      case Stopping =>
      case Joining =>
    }
  }

  lemma {:induction false} PlayKeeps(script: seq<Step>)
    ensures Play(script).Valid()
  {
    if script != [] {
      PlayKeeps(script[..|script| - 1]);
      AfterKeeps(Play(script[..|script| - 1]), script[|script| - 1]);
    }
  }

  /**
   Whatever the interleaving, each connection yields at most one terminal
   status, none while it is current, and none if it was replaced; and every
   connection made is accounted for.
   */
  lemma ReportedOnce(script: seq<Step>, conn: Conn)
    ensures var s := Play(script);
      && (forall i, j :: 0 <= i < j < |s.reports| ==> !(s.reports[i] == conn && s.reports[j] == conn))
      && (conn in s.reports ==> conn !in s.peers.Values && conn !in s.replaced && conn !in s.owed)
      && (conn < s.next ==> conn in s.peers.Values || conn in s.replaced || conn in s.owed || conn in s.reports)
  {
    PlayKeeps(script);
  }

  /** And when StopIceWorker has returned, the worker has released every connection ever retired, and none can be retired after that. */
  lemma AllReleased(script: seq<Step>, more: seq<Step>)
    requires Play(script).joined
    ensures Play(script).released == Play(script).retired && Play(script).cleanup == []
    ensures Play(script + more).retired == Play(script).retired
    decreases |more|
  {
    hide Play;
    PlayKeeps(script);
    ReleasedOnceJoined(Play(script));
    if more == [] {
      assert script + more == script;
    } else {
      var n := |more| - 1;
      AllReleased(script, more[..n]);
      assert script + more == (script + more[..n]) + [more[n]];
      PlayThen(script + more[..n], more[n]);
      StaysJoined(script, more[..n]);
      PlayKeeps(script + more[..n]);
      RetiresNoMore(Play(script + more[..n]), more[n]);
    }
  }

  lemma ReleasedOnceJoined(s: State)
    requires s.Valid() && s.joined
    ensures s.released == s.retired && s.cleanup == []
  {
    hide State.Accounted;
  }

  lemma RetiresNoMore(s: State, e: Step)
    requires s.Valid() && s.joined
    ensures After(s, e).retired == s.retired
  {
    hide State.Accounted;
  }

  lemma {:induction false} StaysJoined(script: seq<Step>, more: seq<Step>)
    requires Play(script).joined
    ensures Play(script + more).joined
    decreases |more|
  {
    if more == [] {
      assert script + more == script;
    } else {
      var n := |more| - 1;
      assert (script + more)[..|script + more| - 1] == script + more[..n];
      StaysJoined(script, more[..n]);
      JoinedStays(Play(script + more[..n]), more[n]);
      hide After;
    }
  }

  lemma JoinedStays(s: State, e: Step)
    requires s.joined
    ensures After(s, e).joined
  {
  }

  /** A retired connection is off the map unless its thread is still erasing it. */
  lemma RetiredIsOff(script: seq<Step>, user: User)
    requires var s := Play(script); user in s.peers && s.peers[user] in s.retired
    ensures Play(script).erasing == Some(user)
  {
    PlayKeeps(script);
    var s := Play(script);
    assert s.peers[user] in s.peers.Values;
  }

  // ----- Stopping -----

  function Turns(n: nat): seq<Step> {
    seq(n, _ => WorkerTurn)
  }

  /** How far the worker is from being gone, once it is told to stop. */
  function Distance(s: State): nat {
    2 * |s.cleanup| + match s.worker case Waiting => 2 case Releasing(_) => 3 case Working(_) => 3 case Leaving => 1 case Gone => 0
  }

  lemma Nearer(s: State)
    requires s.Valid() && !s.running && s.erasing.None? && Distance(s) > 0
    ensures var t := s.WorkerNext(); Distance(t) == Distance(s) - 1 && !t.running && t.erasing.None?
  {
    hide State.Accounted;
  }

  lemma {:induction false} LeftAlone(script: seq<Step>, n: nat)
    requires var s := Play(script); !s.running && s.erasing.None? && n == Distance(s)
    ensures Play(script + Turns(n)).worker == Gone
    decreases n
  {
    hide State.Valid;
    hide State.WorkerNext;
    PlayKeeps(script);
    var s := Play(script);
    if n == 0 {
      assert script + Turns(n) == script;
    } else {
      Nearer(s);
      var next := script + [WorkerTurn];
      assert next[..|next| - 1] == script;
      assert Play(next) == s.WorkerNext();
      LeftAlone(next, n - 1);
      assert next + Turns(n - 1) == script + Turns(n);
    }
  }

  /** Told to stop, a worker left alone is gone after that many turns, with everything retired released, so the join returns. */
  lemma Drains(script: seq<Step>, n: nat)
    requires var s := Play(script); !s.running && s.erasing.None? && n == Distance(s)
    ensures var s := Play(script + Turns(n)); s.worker == Gone && s.released == s.retired
  {
    hide Play;
    LeftAlone(script, n);
    PlayKeeps(script + Turns(n));
  }

  // ----- A terminal callback -----

  /** The connection is current for the user, the worker runs and nobody holds the map lock. */
  predicate MayEnd(s: State, user: User, conn: Conn) {
    s.erasing.None? && s.running && user in s.peers && s.peers[user] == conn
  }

  lemma PlayThen(script: seq<Step>, e: Step)
    ensures Play(script + [e]) == After(Play(script), e)
  {
    hide After;
    assert (script + [e])[..|script|] == script;
  }

  /** The map lock is held until the connection is erased, and nothing else touches it. */
  lemma {:induction false} LockHeld(script: seq<Step>, more: seq<Step>, user: User, conn: Conn)
    requires var s := Play(script); s.erasing == Some(user) && user in s.peers && s.peers[user] == conn
    requires Erasing !in more
    ensures var s := Play(script + more); s.erasing == Some(user) && user in s.peers && s.peers[user] == conn
    decreases |more|
  {
    hide Play;
    if more == [] {
      assert script + more == script;
    } else {
      var n := |more| - 1;
      LockHeld(script, more[..n], user, conn);
      assert script + more == (script + more[..n]) + [more[n]];
      PlayThen(script + more[..n], more[n]);
    }
  }

  /** What is owed a report is reported in the end, and a report stays made. */
  lemma {:induction false} OwedStays(script: seq<Step>, more: seq<Step>, conn: Conn)
    requires conn in Play(script).owed || conn in Play(script).reports
    ensures conn in Play(script + more).owed || conn in Play(script + more).reports
    ensures conn in Play(script).reports ==> conn in Play(script + more).reports
    decreases |more|
  {
    hide Play;
    if more == [] {
      assert script + more == script;
    } else {
      var n := |more| - 1;
      OwedStays(script, more[..n], conn);
      assert script + more == (script + more[..n]) + [more[n]];
      PlayThen(script + more[..n], more[n]);
    }
  }

  /** Turns the worker still needs before a retired connection is released. */
  function TurnsLeft(s: State, conn: Conn): nat {
    if conn in s.released then 0
    else if s.worker == Releasing(conn) then 1
    else if conn in s.cleanup then
      2 * Position(s.cleanup, conn) + if s.worker.Waiting? then 2 else 3
    else 0
  }

  function Position(s: seq<Conn>, conn: Conn): (i: nat)
    requires conn in s
    ensures i < |s| && s[i] == conn
  {
    if s[0] == conn then 0 else 1 + Position(s[1..], conn)
  }

  lemma {:induction false} PositionGrown(s: seq<Conn>, conn: Conn, other: Conn)
    requires conn in s
    ensures Position(s + [other], conn) == Position(s, conn)
  {
    if s[0] != conn {
      assert (s + [other])[1..] == s[1..] + [other];
      PositionGrown(s[1..], conn, other);
    }
  }

  /** A turn in which the worker does not have to wait for the map lock. */
  predicate Works(s: State, e: Step) {
    e.WorkerTurn? && !(s.worker.Working? && s.erasing.Some?)
  }

  lemma TurnCounts(s: State, e: Step, conn: Conn)
    requires s.Valid() && conn in s.retired
    ensures conn in After(s, e).retired
    ensures TurnsLeft(After(s, e), conn) <= if Works(s, e) && TurnsLeft(s, conn) > 0 then TurnsLeft(s, conn) - 1 else TurnsLeft(s, conn)
  {
    hide State.Accounted;
    if e.Queueing? && conn in s.cleanup {
      PositionGrown(s.cleanup, conn, e.conn);
    }
    if e.WorkerTurn? && s.worker.Waiting? && conn in s.cleanup && s.cleanup[0] != conn {
      assert Position(s.cleanup, conn) == 1 + Position(s.cleanup[1..], conn);
    }
  }

  /** How many such turns a run holds. */
  function Worked(script: seq<Step>, more: seq<Step>): nat
    decreases |more|
  {
    if more == [] then 0
    else
      var n := |more| - 1;
      Worked(script, more[..n]) + if Works(Play(script + more[..n]), more[n]) then 1 else 0
  }

  lemma {:induction false} TurnsRunOut(script: seq<Step>, more: seq<Step>, conn: Conn)
    requires conn in Play(script).retired
    ensures conn in Play(script + more).retired
    ensures TurnsLeft(Play(script + more), conn) + Worked(script, more) <= TurnsLeft(Play(script), conn)
      || TurnsLeft(Play(script + more), conn) == 0
    decreases |more|
  {
    hide Play;
    hide After;
    hide TurnsLeft;
    hide Works;
    if more == [] {
      assert script + more == script;
    } else {
      var n := |more| - 1;
      TurnsRunOut(script, more[..n], conn);
      assert script + more == (script + more[..n]) + [more[n]];
      PlayKeeps(script + more[..n]);
      PlayThen(script + more[..n], more[n]);
      TurnCounts(Play(script + more[..n]), more[n], conn);
    }
  }

  /** A retired connection is released once the worker has had that many turns, whatever else goes on. */
  lemma RetiredReleased(script: seq<Step>, more: seq<Step>, conn: Conn)
    requires conn in Play(script).retired && Worked(script, more) >= TurnsLeft(Play(script), conn)
    ensures conn in Play(script + more).released
  {
    hide Play;
    TurnsRunOut(script, more, conn);
    PlayKeeps(script + more);
    hide Worked;
    hide State.Accounted;
  }

  /**
   A terminal callback of the current connection: it is handed to the worker, it
   leaves the map when the thread erases it, its status is reported, and the
   worker releases it, however the other threads interleave.
   */
  lemma TerminalCallback(script: seq<Step>, user: User, conn: Conn, a: seq<Step>, b: seq<Step>, c: seq<Step>)
    requires MayEnd(Play(script), user, conn) && Erasing !in a
    ensures var queued := script + [Queueing(user, conn)];
      var erased := queued + a + [Erasing];
      var all := erased + b + [Reporting(conn)] + c;
      && conn in Play(queued).cleanup && conn in Play(queued).retired
      && conn in Play(erased).owed && conn !in Play(all).peers.Values && conn in Play(all).reports
      && (Worked(queued, a + [Erasing] + b + [Reporting(conn)] + c) >= TurnsLeft(Play(queued), conn) ==> conn in Play(all).released)
  {
    hide Play;
    hide Worked;
    hide TurnsLeft;
    var queued := script + [Queueing(user, conn)];
    PlayThen(script, Queueing(user, conn));
    LockHeld(queued, a, user, conn);
    var erased := queued + a + [Erasing];
    PlayThen(queued + a, Erasing);
    OwedStays(erased, b, conn);
    PlayThen(erased + b, Reporting(conn));
    var reported := erased + b + [Reporting(conn)];
    OwedStays(reported, c, conn);
    PlayKeeps(reported + c);
    var more := a + [Erasing] + b + [Reporting(conn)] + c;
    assert queued + more == reported + c;
    if Worked(queued, more) >= TurnsLeft(Play(queued), conn) {
      RetiredReleased(queued, more, conn);
    }
  }

  /** The callback of a connection that is not current, or after the worker was stopped, changes nothing; one that finds the map locked waits. */
  lemma LateCallback(script: seq<Step>, user: User, conn: Conn)
    requires !MayEnd(Play(script), user, conn)
    ensures Play(script + [Queueing(user, conn)]) == Play(script)
  {
    hide Play;
    PlayThen(script, Queueing(user, conn));
  }

  // ----- A leave -----

  /** Left alone, a running worker takes the users who left off the map, one after the other, and owes each a report. */
  lemma {:induction false} LeavesProcessed(script: seq<Step>, n: nat)
    requires var s := Play(script); s.running && s.erasing.None? && s.worker == Waiting && s.cleanup == [] && n == |s.work|
    ensures var s, t := Play(script), Play(script + Turns(2 * n));
      && t.work == [] && t.worker == Waiting && t.running && t.erasing.None? && t.cleanup == []
      && (forall u :: u in s.work && u != "" ==> u !in t.peers && (u in s.peers ==> s.peers[u] in t.owed))
      && (forall u :: u in t.peers ==> u in s.peers && t.peers[u] == s.peers[u])
      && (forall u :: u in s.peers && u !in s.work ==> u in t.peers)
      && s.owed <= t.owed
    decreases n
  {
    hide Play;
    var s := Play(script);
    if n == 0 {
      assert script + Turns(2 * n) == script;
    } else {
      PlayThen(script, WorkerTurn);
      PlayThen(script + [WorkerTurn], WorkerTurn);
      var next := script + [WorkerTurn] + [WorkerTurn];
      var m := Play(next);
      assert m == s.(work := s.work[1..]).Left(s.work[0]);
      LeavesProcessed(next, n - 1);
      assert next + Turns(2 * (n - 1)) == script + Turns(2 * n);
      assert forall u :: u in s.work <==> u == s.work[0] || u in s.work[1..];
      hide After;
    }
  }

  lemma PlayMore(script: seq<Step>, i: nat)
    requires i < |script|
    ensures Play(script[..i + 1]) == After(Play(script[..i]), script[i])
  {
    hide After;
    assert script[..i + 1][..i] == script[..i];
  }

  /** The object, driven by any interleaving, goes where the protocol goes. */
  method Interleave(script: seq<Step>) returns (pc: PeerConnection)
    ensures fresh(pc) && pc.Value() == Play(script)
  {
    pc := new PeerConnection();
    for i := 0 to |script|
      invariant fresh(pc) && pc.Value() == Play(script[..i])
    {
      PlayMore(script, i);
      hide Play;
      match script[i] {
        case Replacing(user) => var _ := pc.Replace(user);
        case Queueing(user, conn) => var _ := pc.Queue(user, conn);
        case Erasing => pc.Erase();
        case Reporting(conn) => pc.Report(conn);
        case Clearing => pc.Clear();
        case Pushing(user) => pc.PushLeave(user);
        case WorkerTurn => pc.WorkerStep();
        case Stopping => pc.StopWorker();
        case Joining => pc.JoinWorker();
      }
    }
    assert script[..|script|] == script;
  }
}
