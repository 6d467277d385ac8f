/**
 The probe schedule of src/ice/punch_scheduler.cpp: the deadlines, the ports to
 probe, and the order and pace of the passes over them.
 */
module PunchSchedule {
  import opened Common

  // ----- Deadlines -----

  datatype Deadlines = Deadlines(probe: int, finish: int)

  /** When probing ends and when the round does; zero when there is no room for both. */
  function MakePunchDeadlines(now: int, original: int, duration: nat, reserve: nat): (d: Deadlines)
    ensures d.probe != 0 ==>
      && now < d.probe <= now + duration && d.finish == d.probe + reserve && d.finish <= original
      && (d.probe == now + duration || d.finish == original)
    ensures d.probe == 0 ==> d.finish == 0
    ensures d.probe != 0 <==> 0 <= now && now + reserve < original && 0 < duration <= 15000 && 3000 <= reserve <= 15000
  {
    if now < 0 || original <= now || original - now <= reserve || duration == 0 || duration > 15000
       || reserve < 3000 || reserve > 15000 then Deadlines(0, 0)
    else
      var probe := now + if duration <= original - now - reserve then duration else original - now - reserve;
      Deadlines(probe, if original <= probe + reserve then original else probe + reserve)
  }

  // ----- Sampling ports -----

  const FIRST_PORT := 1024
  const LAST_PORT := 65535
  const RANGE := 0x1_0000_0000

  /** Every port not excluded, ascending. */
  ghost predicate Candidates(ports: seq<nat>, exclude: set<nat>) {
    && (forall i, j :: 0 <= i < j < |ports| ==> ports[i] < ports[j])
    && forall p :: p in ports <==> 1024 <= p <= 65535 && p !in exclude
  }

  method CollectPorts(exclude: set<nat>) returns (ports: seq<nat>)
    ensures Candidates(ports, exclude)
  {
    ports := [];
    var p := FIRST_PORT;
    while p <= LAST_PORT
      invariant FIRST_PORT <= p <= LAST_PORT + 1
      invariant forall i, j :: 0 <= i < j < |ports| ==> ports[i] < ports[j]
      invariant forall q :: q in ports <==> FIRST_PORT <= q < p && q !in exclude
    {
      if p !in exclude {
        assert forall i :: 0 <= i < |ports| ==> ports[i] in ports;
        ports := ports + [p];
      }
      p := p + 1;
    }
  }

  /** The values below this limit fall evenly on every residue. */
  function Limit(bound: nat): (limit: nat)
    requires 0 < bound
    ensures limit <= RANGE
  {
    RANGE - RANGE % bound
  }

  /** The accepted values that choose residue `k`. */
  function Choosing(limit: nat, bound: nat, k: nat): set<nat>
    requires 0 < bound
  {
    set v | 0 <= v < limit && v % bound == k
  }

  /** `n` times `c`. */
  function Times(n: nat, c: nat): nat {
    if n == 0 then 0 else Times(n - 1, c) + c
  }

  lemma {:induction false} TimesIs(n: nat, c: nat)
    ensures Times(n, c) == n * c
  {
    if n > 0 {
      TimesIs(n - 1, c);
    }
  }

  lemma LargeMultiple(b: int, d: int)
    requires b > 0 && d != 0
    ensures b * d >= b || b * d <= -b
  {
    if d > 0 {
      assert b * (d - 1) >= 0;
    } else {
      assert b * (-d - 1) >= 0;
    }
  }

  lemma SameRest(b: int, q: int, r: int, p: int, s: int)
    requires 0 <= r < b && 0 <= s < b && b * q + r == b * p + s + b
    ensures r == s
  {
    assert b * (q - p - 1) == s - r;
    if q - p - 1 != 0 {
      LargeMultiple(b, q - p - 1);
    }
  }

  lemma RestStep(v: nat, b: nat)
    requires 0 < b <= v
    ensures v % b == (v - b) % b
  {
    SameRest(b, v / b, v % b, (v - b) / b, (v - b) % b);
  }

  lemma {:induction false} Residue(v: nat, n: nat, bound: nat)
    requires Times(n, bound) <= v < Times(n, bound) + bound
    ensures v % bound == v - Times(n, bound)
  {
    if n > 0 {
      Residue(v - bound, n - 1, bound);
      RestStep(v, bound);
    }
  }

  /** Each residue is chosen by equally many values. */
  lemma {:induction false} EquallyMany(n: nat, bound: nat, k: nat)
    requires k < bound
    ensures |Choosing(Times(n, bound), bound, k)| == n
  {
    if n == 0 {
      assert Choosing(0, bound, k) == {};
    } else {
      EquallyMany(n - 1, bound, k);
      var low := Times(n - 1, bound);
      forall v | low <= v < low + bound ensures v % bound == v - low {
        Residue(v, n - 1, bound);
      }
      assert Choosing(low + bound, bound, k) == Choosing(low, bound, k) + {low + k};
    }
  }

  /** Sampling is uniform: of the values accepted, as many choose one remaining port as another. */
  lemma Uniform(bound: nat, k: nat)
    requires k < bound <= RANGE
    ensures |Choosing(Limit(bound), bound, k)| == 0x1_0000_0000 / bound > 0
  {
    hide Choosing;
    var n := RANGE / bound;
    TimesIs(n, bound);
    EquallyMany(n, bound, k);
  }

  /** A random source: each draw yields a value or fails. */
  type Source = nat -> Option<nat>

  const ATTEMPTS := 32

  /** The first value below the limit in so many attempts, if none of them fails, and where the source is then. */
  function Drawn(random: Source, at: nat, bound: nat, attempts: nat): (d: (Option<nat>, nat))
    requires 0 < bound
    ensures d.0.Some? ==> d.0.value < Limit(bound)
    decreases attempts
  {
    if attempts == 0 then (None, at)
    else if random(at).None? then (None, at + 1)
    else if random(at).value < Limit(bound) then (random(at), at + 1)
    else Drawn(random, at + 1, bound, attempts - 1)
  }

  /** Draw below the limit in at most 32 attempts. */
  method Draw(random: Source, at: nat, bound: nat) returns (r: Option<nat>, next: nat)
    requires 0 < bound && forall i :: random(i).Some? ==> random(i).value < RANGE
    ensures (r, next) == Drawn(random, at, bound, ATTEMPTS)
    ensures r.Some? ==> at < next <= at + 32 && random(next - 1) == r && r.value < Limit(bound)
    ensures r.Some? ==> forall i :: at <= i < next - 1 ==> random(i).Some? && random(i).value >= Limit(bound)
    ensures r.None? ==> (next > at && random(next - 1) == None) || next == at + 32
    ensures r.None? ==> forall i :: at <= i < next - 1 ==> random(i).Some? && random(i).value >= Limit(bound)
  {
    hide Limit;
    r, next := None, at;
    var n := 0;
    while n < ATTEMPTS
      invariant 0 <= n <= ATTEMPTS && next == at + n && r.None?
      invariant Drawn(random, at, bound, ATTEMPTS) == Drawn(random, next, bound, ATTEMPTS - n)
      invariant forall i :: at <= i < next ==> random(i).Some? && random(i).value >= Limit(bound)
    {
      var v := random(next);
      next := next + 1;
      if v.None? {
        return;
      }
      if v.value < Limit(bound) {
        r := v;
        return;
      }
      n := n + 1;
    }
  }

  ghost predicate Ascending(s: seq<nat>) {
    forall i, j :: 0 <= i < j < |s| ==> s[i] < s[j]
  }

  /** Insert into an ascending list. */
  function Insert(s: seq<nat>, p: nat): (t: seq<nat>)
    ensures |t| == |s| + 1
  {
    if s == [] || p <= s[0] then [p] + s else [s[0]] + Insert(s[1..], p)
  }

  lemma {:induction false} InsertHas(s: seq<nat>, p: nat, q: nat)
    ensures q in Insert(s, p) <==> q == p || q in s
  {
    if s != [] && p > s[0] {
      InsertHas(s[1..], p, q);
      assert q in s <==> q == s[0] || q in s[1..];
    }
  }

  lemma {:induction false} InsertAscends(s: seq<nat>, p: nat)
    requires Ascending(s) && p !in s
    ensures Ascending(Insert(s, p))
  {
    if s != [] && p > s[0] {
      assert forall q :: q in s[1..] ==> q in s;
      InsertAscends(s[1..], p);
      var t := Insert(s[1..], p);
      forall j | 0 <= j < |t| ensures s[0] < t[j] {
        InsertHas(s[1..], p, t[j]);
      }
    }
  }

  /** The shuffled prefix, in order. */
  method Sorted(a: seq<nat>) returns (t: seq<nat>)
    requires AllDifferent(a)
    ensures Ascending(t) && |t| == |a| && forall q :: q in t <==> q in a
  {
    t := [];
    for i := 0 to |a|
      invariant |t| == i && Ascending(t) && forall q :: q in t <==> q in a[..i]
    {
      InsertAscends(t, a[i]);
      forall q ensures q in Insert(t, a[i]) <==> q == a[i] || q in t {
        InsertHas(t, a[i], q);
      }
      t := Insert(t, a[i]);
      assert a[..i + 1] == a[..i] + [a[i]];
    }
    assert a[..|a|] == a;
  }

  ghost predicate AllDifferent(s: seq<nat>) {
    forall i, j :: 0 <= i < j < |s| ==> s[i] != s[j]
  }

  function Swapped(d: seq<nat>, i: nat, j: nat): (e: seq<nat>)
    requires i < |d| && j < |d|
    ensures |e| == |d|
  {
    d[i := d[j]][j := d[i]]
  }

  /** The list after the first `n` swaps: place `i` takes the one `picks[i]` further on. */
  ghost function Dealt(a: seq<nat>, picks: seq<nat>, n: nat): (d: seq<nat>)
    requires n <= |picks| && n <= |a| && forall i :: 0 <= i < n ==> i + picks[i] < |a|
    ensures |d| == |a|
  {
    if n == 0 then a
    else
      Swapped(Dealt(a, picks, n - 1), n - 1, n - 1 + picks[n - 1])
  }

  /** What the first `n` of `size` places pick, each from the next draw, and where the source is then; nothing once a draw fails. */
  function Picks(random: Source, size: nat, n: nat): (p: Option<(seq<nat>, nat)>)
    requires n <= size
    ensures p.Some? ==> |p.value.0| == n && forall i :: 0 <= i < n ==> i + p.value.0[i] < size
  {
    if n == 0 then Some(([], 0))
    else
      match Picks(random, size, n - 1)
      case None => None
      case Some((picks, at)) =>
        var bound := size - (n - 1);
        match Drawn(random, at, bound, ATTEMPTS)
        case (None, _) => None
        case (Some(v), next) => Some((picks + [v % bound], next))
  }

  lemma PicksNext(random: Source, size: nat, n: nat, picks: seq<nat>, at: nat)
    requires n < size && Picks(random, size, n) == Some((picks, at))
    ensures var d := Drawn(random, at, size - n, ATTEMPTS);
      Picks(random, size, n + 1) == if d.0.None? then None else Some((picks + [d.0.value % (size - n)], d.1))
  {
    hide Drawn;
    hide Limit;
  }

  lemma {:induction false} PicksFail(random: Source, size: nat, n: nat, m: nat)
    requires n <= m <= size && Picks(random, size, n) == None
    ensures Picks(random, size, m) == None
  {
    if n < m {
      PicksFail(random, size, n, m - 1);
    }
  }

  /**
   SamplePunchPorts: swap a random remaining port to the front, `count` times.
   An admissible count yields exactly that many ports whenever so many are left
   and no draw fails: ascending and so distinct, none excluded, those the draws
   pick one after the other from the ports remaining.  Otherwise there is none.
   */
  method SamplePunchPorts(count: nat, exclude: set<nat>, random: Source) returns (ports: seq<nat>, ghost all: seq<nat>)
    requires forall i :: random(i).Some? ==> random(i).value < RANGE
    ensures ports != [] ==>
      && |ports| == count && 0 < count <= 1024 && Ascending(ports)
      && (forall p :: p in ports ==> 1024 <= p <= 65535 && p !in exclude)
    ensures count == 0 || count > 1024 ==> ports == []
    ensures 0 < count <= 1024 ==>
      && Candidates(all, exclude)
      && (if |all| < count || Picks(random, |all|, count).None? then ports == []
          else ports != [] && forall p :: p in ports <==> p in Dealt(all, Picks(random, |all|, count).value.0, count)[..count])
  {
    ports, all := [], [];
    if count == 0 || count > 1024 {
      return;
    }
    var collected := CollectPorts(exclude);
    all := collected;
    if count > |collected| {
      return;
    }
    var a := new nat[|collected|](i requires 0 <= i < |collected| => collected[i]);
    assert a[..] == all;
    var ok := Deal(a, count, random, all);
    if ok {
      DealtPermutes(all, Picks(random, |all|, count).value.0, count);
      ports := Sorted(a[..count]);
    }
  }

  method Swap(a: array<nat>, i: nat, j: nat)
    requires i < a.Length && j < a.Length
    modifies a
    ensures a[..] == Swapped(old(a[..]), i, j)
  {
    a[i], a[j] := a[j], a[i];
  }

  /** The list after the first `n` places have picked, and where the source is. */
  ghost predicate Stage(random: Source, all: seq<nat>, n: nat, at: nat, d: seq<nat>) {
    && n <= |all| && Picks(random, |all|, n).Some? && Picks(random, |all|, n).value.1 == at
    && d == Dealt(all, Picks(random, |all|, n).value.0, n)
  }

  lemma StageNext(random: Source, all: seq<nat>, n: nat, at: nat, d: seq<nat>, v: nat, next: nat)
    requires Stage(random, all, n, at, d) && n < |all| == |d| && Drawn(random, at, |all| - n, ATTEMPTS) == (Some(v), next)
    ensures n + v % (|all| - n) < |d| && Stage(random, all, n + 1, next, Swapped(d, n, n + v % (|all| - n)))
  {
    hide Drawn;
    hide Dealt;
    hide Swapped;
    var picks := Picks(random, |all|, n).value.0;
    PicksNext(random, |all|, n, picks, at);
    DealtOne(all, picks, n, v % (|all| - n));
  }

  /** One swap, with what the next draw picks. */
  method DealOne(a: array<nat>, i: nat, random: Source, at: nat, ghost all: seq<nat>) returns (ok: bool, next: nat)
    requires i < a.Length == |all| && Stage(random, all, i, at, a[..]) && forall i :: random(i).Some? ==> random(i).value < RANGE
    modifies a
    ensures ok ==> Stage(random, all, i + 1, next, a[..])
    ensures !ok ==> Picks(random, |all|, i + 1) == None
  {
    hide Stage;
    hide Drawn;
    hide Limit;
    var bound := a.Length - i;
    var v;
    v, next := Draw(random, at, bound);
    ok := v.Some?;
    if ok {
      StageNext(random, all, i, at, a[..], v.value, next);
      Swap(a, i, i + v.value % bound);
    } else {
      StageFails(random, all, i, at, a[..]);
    }
  }

  lemma StageFails(random: Source, all: seq<nat>, n: nat, at: nat, d: seq<nat>)
    requires Stage(random, all, n, at, d) && n < |all| && Drawn(random, at, |all| - n, ATTEMPTS).0 == None
    ensures Picks(random, |all|, n + 1) == None
  {
    PicksNext(random, |all|, n, Picks(random, |all|, n).value.0, at);
  }

  /** The swaps, in place. */
  method Deal(a: array<nat>, count: nat, random: Source, ghost all: seq<nat>) returns (ok: bool)
    requires count <= a.Length && a[..] == all && forall i :: random(i).Some? ==> random(i).value < RANGE
    modifies a
    ensures ok == Picks(random, |all|, count).Some?
    ensures ok ==> a[..] == Dealt(all, Picks(random, |all|, count).value.0, count)
  {
    var at := 0;
    assert Stage(random, all, 0, at, a[..]);
    hide Dealt;
    hide Picks;
    ok := true;
    var i := 0;
    while ok && i < count
      invariant i <= count
      invariant ok ==> Stage(random, all, i, at, a[..])
      invariant !ok ==> i < count && Picks(random, |all|, i + 1) == None
      decreases count - i, ok
    {
      ok, at := DealOne(a, i, random, at, all);
      if ok {
        i := i + 1;
      }
    }
    if !ok {
      PicksFail(random, |all|, i + 1, count);
    }
  }

  /** Swapping loses and repeats nothing. */
  lemma {:induction false} DealtPermutes(a: seq<nat>, picks: seq<nat>, n: nat)
    requires n <= |picks| && n <= |a| && (forall i :: 0 <= i < n ==> i + picks[i] < |a|)
    requires AllDifferent(a)
    ensures var d := Dealt(a, picks, n);
      AllDifferent(d) && forall i :: 0 <= i < |d| ==> d[i] in a
  {
    if n > 0 {
      DealtPermutes(a, picks, n - 1);
      SwapPermutes(Dealt(a, picks, n - 1), n - 1, n - 1 + picks[n - 1]);
      assert Dealt(a, picks, n) == Swapped(Dealt(a, picks, n - 1), n - 1, n - 1 + picks[n - 1]);
    }
  }

  lemma SwapPermutes(d: seq<nat>, i: nat, j: nat)
    requires i < |d| && j < |d| && AllDifferent(d)
    ensures AllDifferent(Swapped(d, i, j))
    ensures forall k :: 0 <= k < |d| ==> Swapped(d, i, j)[k] in d
  {
  }

  lemma DealtOne(a: seq<nat>, picks: seq<nat>, n: nat, pick: nat)
    requires n == |picks| < |a| && n + pick < |a| && forall i :: 0 <= i < n ==> i + picks[i] < |a|
    ensures var d := Dealt(a, picks, n); Dealt(a, picks + [pick], n + 1) == Swapped(d, n, n + pick)
  {
    DealtSame(a, picks, picks + [pick], n);
  }

  lemma {:induction false} DealtSame(a: seq<nat>, p: seq<nat>, q: seq<nat>, n: nat)
    requires n <= |p| && n <= |q| && n <= |a| && p[..n] == q[..n]
    requires forall i :: 0 <= i < n ==> i + p[i] < |a|
    ensures (forall i :: 0 <= i < n ==> i + q[i] < |a|) && Dealt(a, p, n) == Dealt(a, q, n)
  {
    assert forall i :: 0 <= i < n ==> p[i] == p[..n][i] && q[i] == q[..n][i];
    if n > 0 {
      assert p[..n - 1] == p[..n][..n - 1] && q[..n - 1] == q[..n][..n - 1];
      DealtSame(a, p, q, n - 1);
    }
  }

  /** When every draw is accepted at once, each place picks the residue its draw leaves of the places remaining. */
  lemma {:induction false} PicksAre(random: Source, size: nat, n: nat)
    requires n <= size && forall i :: 0 <= i < n ==> random(i).Some? && random(i).value < Limit(size - i)
    ensures Picks(random, size, n).Some?
    ensures var p := Picks(random, size, n).value;
      p.1 == n && forall i :: 0 <= i < n ==> p.0[i] == random(i).value % (size - i)
  {
    hide Limit;
    hide Drawn;
    if n > 0 {
      PicksAre(random, size, n - 1);
      var (picks, at) := Picks(random, size, n - 1).value;
      PicksNext(random, size, n - 1, picks, at);
      DrawnAtOnce(random, at, size - at);
    }
  }

  lemma DrawnAtOnce(random: Source, at: nat, bound: nat)
    requires 0 < bound && random(at).Some? && random(at).value < Limit(bound)
    ensures Drawn(random, at, bound, ATTEMPTS) == (random(at), at + 1)
  {
    hide Limit;
  }

  /** Swaps from place `n` on leave the places before it alone. */
  lemma {:induction false} DealtBefore(a: seq<nat>, picks: seq<nat>, m: nat, n: nat)
    requires m <= n <= |picks| && n <= |a| && forall i :: 0 <= i < n ==> i + picks[i] < |a|
    ensures Dealt(a, picks, n)[..m] == Dealt(a, picks, m)[..m]
  {
    if m < n {
      DealtBefore(a, picks, m, n - 1);
    }
  }

  /** What place `m` takes: the one its pick names of what the places before it have left. */
  lemma DealtAt(a: seq<nat>, picks: seq<nat>, n: nat, m: nat)
    requires m < n <= |picks| && n <= |a| && forall i :: 0 <= i < n ==> i + picks[i] < |a|
    ensures Dealt(a, picks, n)[m] == Dealt(a, picks, m)[m + picks[m]]
  {
    DealtBefore(a, picks, m + 1, n);
    assert Dealt(a, picks, m + 1)[m] == Dealt(a, picks, m)[m + picks[m]];
    hide Dealt;
    var d, e := Dealt(a, picks, n), Dealt(a, picks, m + 1);
    assert d[m] == d[..m + 1][m] && e[m] == e[..m + 1][m];
  }

  /** Different picks deal different ports, so every order of every choice of ports is dealt by just one. */
  lemma DealsDiffer(a: seq<nat>, p: seq<nat>, q: seq<nat>, n: nat, m: nat)
    requires AllDifferent(a) && m < n <= |a| && n <= |p| && n <= |q| && p[..m] == q[..m] && p[m] != q[m]
    requires forall i :: 0 <= i < n ==> i + p[i] < |a| && i + q[i] < |a|
    ensures Dealt(a, p, n)[m] != Dealt(a, q, n)[m]
  {
    hide Dealt;
    DealtSame(a, p, q, m);
    DealtPermutes(a, p, m);
    DealtAt(a, p, n, m);
    DealtAt(a, q, n, m);
  }

  // ----- Passes over the targets -----

  /** One commit: the target probed, and when. */
  datatype Probed = Probed(index: nat, time: int)

  function NextIndex(i: nat, count: nat): nat {
    if i + 1 == count then 0 else i + 1
  }

  /** Target after target, and round again. */
  ghost predicate InOrder(log: seq<Probed>, count: nat) {
    && (log != [] ==> log[0].index == 0)
    && forall j, k :: 0 <= j && j + 1 == k < |log| ==> log[k].index == NextIndex(log[j].index, count)
  }

  /** Passes begin at least a second apart. */
  ghost predicate Paced(passes: seq<int>) {
    forall j, k :: 0 <= j && j + 1 == k < |passes| ==> passes[k] >= passes[j] + 1000
  }

  lemma {:induction false} TimesGrows(m: nat, n: nat, c: nat)
    requires m <= n
    ensures Times(m, c) <= Times(n, c)
  {
    if m < n {
      TimesGrows(m, n - 1, c);
    }
  }

  lemma OrderMore(log: seq<Probed>, count: nat, c: Probed)
    requires InOrder(log, count) && (log == [] ==> c.index == 0)
    requires log != [] ==> c.index == NextIndex(log[|log| - 1].index, count)
    ensures InOrder(log + [c], count)
  {
    hide NextIndex;
  }

  lemma PacedMore(passes: seq<int>, now: int)
    requires Paced(passes) && (passes != [] ==> now >= passes[|passes| - 1] + 1000)
    ensures Paced(passes + [now])
  {
  }

  lemma TimesNext(n: nat, c: nat)
    ensures Times(n + 1, c) == Times(n, c) + c
  {
  }

  class PunchRoundRobin {
    const count: nat
    const rounds: nat
    var index: nat
    var round: nat
    var roundStart: int
    /** Every commit, and when each pass began. */
    ghost var log: seq<Probed>
    ghost var passes: seq<int>

    ghost predicate Valid()
      reads this
    {
      && index <= count && (count > 0 ==> index < count) && round <= rounds && (round == rounds ==> index == 0)
      && |log| == Times(round, count) + index && |passes| == round + (if index > 0 then 1 else 0)
      && InOrder(log, count) && (log != [] ==> index == NextIndex(log[|log| - 1].index, count))
      && (log == [] ==> index == 0)
      && Paced(passes) && (passes != [] ==> roundStart >= passes[|passes| - 1] + (if index > 0 then 0 else 1000))
    }

    constructor (count: nat, rounds: nat, start: int)
      ensures Valid() && log == [] && this.count == count && this.rounds == rounds && roundStart == start
    {
      this.count, this.rounds, index, round, roundStart, log, passes := count, rounds, 0, 0, start, [], [];
    }

    predicate Done()
      reads this
    {
      count == 0 || round >= rounds
    }

    /** Never more probes than passes times targets, target after target, the passes a second apart. */
    lemma Schedule()
      requires Valid()
      ensures |log| <= rounds * count && InOrder(log, count) && Paced(passes) && |passes| <= rounds
    {
      TimesIs(rounds, count);
      TimesGrows(round, rounds, count);
      if round < rounds {
        TimesGrows(round + 1, rounds, count);
      }
    }

    method Peek(now: int) returns (r: Option<nat>)
      requires Valid()
      ensures r == if Done() || now < roundStart then None else Some(index)
      ensures r.Some? ==> r.value < count
    {
      r := if Done() || now < roundStart then None else Some(index);
    }

    /** Commit the target Peek shows. */
    method Commit(now: int)
      requires Valid()
      modifies this
      ensures Valid()
      ensures old(Done()) || now < old(roundStart) ==>
        log == old(log) && passes == old(passes) && index == old(index) && round == old(round) && roundStart == old(roundStart)
      ensures !old(Done()) && now >= old(roundStart) ==>
        && log == old(log) + [Probed(old(index), now)] && passes == old(passes) + (if old(index) == 0 then [now] else [])
        && index == NextIndex(old(index), count)
        && (var began := if old(index) == 0 then now else old(roundStart);
            if old(index) + 1 < count then round == old(round) && roundStart == began
            else round == old(round) + 1 && roundStart == if began + 1000 >= now then began + 1000 else now)
    {
      hide InOrder;
      hide Times;
      var r := Peek(now);
      if r.None? {
        return;
      }
      hide Paced;
      OrderMore(log, count, Probed(index, now));
      TimesNext(round, count);
      if index == 0 {
        PacedMore(passes, now);
        roundStart := now;
        passes := passes + [now];
      }
      log := log + [Probed(index, now)];
      index := index + 1;
      if index == count {
        index := 0;
        round := round + 1;
        roundStart := if roundStart + 1000 >= now then roundStart + 1000 else now;
      }
    }
  }
}
