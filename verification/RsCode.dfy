/**
 What a systematic Reed-Solomon block means: repair symbols are matrix rows
 applied to the sources, and a set of received symbols explains a source block
 when the block reproduces every one of them.
 */
module RsCode {
  import opened Common
  import opened GF256
  import opened RsKernels
  import opened LinearSystem

  type Symbols = seq<seq<byte>>

  /** The repair symbol of one matrix row. */
  function Repair(row: Vec, sources: Symbols, size: nat): (s: seq<byte>)
    requires |sources| <= |row| && forall i :: 0 <= i < |sources| ==> |sources[i]| == size
    ensures |s| == size
  {
    seq(size, p requires 0 <= p < size => Dot(row, Column(sources, p), |sources|))
  }

  /** The whole codeword: the sources followed by one repair per matrix row. */
  function Codeword(m: Matrix, sources: Symbols, size: nat): (w: Symbols)
    requires Rectangle(sources, |sources|, size) && Rectangle(m, |m|, |sources|)
    ensures Rectangle(w, |sources| + |m|, size)
    ensures forall i :: 0 <= i < |sources| ==> w[i] == sources[i]
    ensures forall i :: 0 <= i < |m| ==> w[|sources| + i] == Repair(m[i], sources, size)
  {
    sources + seq(|m|, i requires 0 <= i < |m| => Repair(m[i], sources, size))
  }

  // ----- Which symbols are missing, and which repairs are used -----

  /** Unseen source positions below `k`, ascending. */
  function Missing(seen: seq<bool>, k: nat): (s: seq<nat>)
    requires k <= |seen|
    ensures |s| <= k
    ensures forall i :: 0 <= i < |s| ==> s[i] < k && !seen[s[i]]
    ensures forall i, j :: 0 <= i < j < |s| ==> s[i] < s[j]
  {
    if k == 0 then [] else if seen[k - 1] then Missing(seen, k - 1) else Missing(seen, k - 1) + [k - 1]
  }

  lemma {:induction false} MissingCovers(seen: seq<bool>, k: nat, i: nat) returns (j: nat)
    requires i < k <= |seen| && !seen[i]
    ensures j < |Missing(seen, k)| && Missing(seen, k)[j] == i
  {
    if i == k - 1 {
      j := |Missing(seen, k - 1)|;
    } else {
      j := MissingCovers(seen, k - 1, i);
    }
  }

  /** Seen repair numbers below `r`, ascending. */
  function Present(seen: seq<bool>, k: nat, r: nat): (s: seq<nat>)
    requires k + r <= |seen|
    ensures |s| <= r
    ensures forall i :: 0 <= i < |s| ==> s[i] < r && seen[k + s[i]]
    ensures forall i, j :: 0 <= i < j < |s| ==> s[i] < s[j]
  {
    if r == 0 then []
    else if seen[k + r - 1] then Present(seen, k, r - 1) + [r - 1]
    else Present(seen, k, r - 1)
  }

  function Select(x: Vec, ids: seq<nat>): (y: Vec)
    requires forall i :: 0 <= i < |ids| ==> ids[i] < |x|
    ensures |y| == |ids|
  {
    seq(|ids|, i requires 0 <= i < |ids| => x[ids[i]])
  }

  /** The repair rows `ids` restricted to the missing columns. */
  function Submatrix(m: Matrix, ids: seq<nat>, missing: seq<nat>, k: nat): (a: Matrix)
    requires Rectangle(m, |m|, k)
    requires forall i :: 0 <= i < |ids| ==> ids[i] < |m|
    requires forall i :: 0 <= i < |missing| ==> missing[i] < k
    ensures Rectangle(a, |ids|, |missing|)
  {
    seq(|ids|, i requires 0 <= i < |ids| => Select(m[ids[i]], missing))
  }

  /** The part of a dot product that the seen sources contribute. */
  function Known(row: Vec, x: Vec, seen: seq<bool>, n: nat): byte
    requires n <= |row| && n <= |x| && n <= |seen|
  {
    if n == 0 then 0
    else if seen[n - 1] then Add(Known(row, x, seen, n - 1), Mul(row[n - 1], x[n - 1]))
    else Known(row, x, seen, n - 1)
  }

  lemma SelectSnoc(row: Vec, x: Vec, ids: seq<nat>, last: nat)
    requires forall i :: 0 <= i < |ids| ==> ids[i] < |row| && ids[i] < |x|
    requires last < |row| && last < |x|
    ensures var more := ids + [last];
      Dot(Select(row, more), Select(x, more), |more|)
      == Add(Dot(Select(row, ids), Select(x, ids), |ids|), Mul(row[last], x[last]))
  {
    hide Add;
    hide Mul;
    var more := ids + [last];
    DotPrefix(Select(row, more), Select(x, more), Select(row, ids), Select(x, ids), |ids|);
  }

  /** A dot product splits into seen and missing terms. */
  lemma {:induction false} DotSplits(row: Vec, x: Vec, seen: seq<bool>, n: nat)
    requires n <= |row| && n <= |x| && n <= |seen|
    ensures Dot(row, x, n) == Add(Known(row, x, seen, n),
      Dot(Select(row, Missing(seen, n)), Select(x, Missing(seen, n)), |Missing(seen, n)|))
  {
    hide Add;
    hide Mul;
    hide Select;
    if n == 0 {
      AddLaws(0, 0);
    } else {
      DotSplits(row, x, seen, n - 1);
      var before := Missing(seen, n - 1);
      var known, rest := Known(row, x, seen, n - 1), Dot(Select(row, before), Select(x, before), |before|);
      var last := Mul(row[n - 1], x[n - 1]);
      AddAssociates(known, rest, last);
      if seen[n - 1] {
        AddLaws(rest, last);
        AddAssociates(known, last, rest);
      } else {
        SelectSnoc(row, x, before, n - 1);
      }
    }
  }

  lemma {:induction false} DotPrefix(a: Vec, x: Vec, b: Vec, y: Vec, n: nat)
    requires n <= |a| && n <= |x| && n <= |b| && n <= |y|
    requires forall i :: 0 <= i < n ==> a[i] == b[i] && x[i] == y[i]
    ensures Dot(a, x, n) == Dot(b, y, n)
  {
    if n > 0 {
      DotPrefix(a, x, b, y, n - 1);
    }
  }

  lemma {:induction false} KnownDependsOnSeen(row: Vec, x: Vec, y: Vec, seen: seq<bool>, n: nat)
    requires n <= |row| && n <= |x| && n <= |y| && n <= |seen|
    requires forall i :: 0 <= i < n && seen[i] ==> x[i] == y[i]
    ensures Known(row, x, seen, n) == Known(row, y, seen, n)
  {
    if n > 0 {
      KnownDependsOnSeen(row, x, y, seen, n - 1);
    }
  }

  // ----- Decoding as a system of equations -----

  /** The state a decoder is asked to complete: symbol slots and which are filled. */
  datatype Received = Received(m: Matrix, k: nat, size: nat, seen: seq<bool>, symbols: Symbols)
  {
    ghost predicate Shaped() {
      && Rectangle(m, |m|, k)
      && |seen| == k + |m|
      && Rectangle(symbols, k + |m|, size)
    }

    function Gaps(): seq<nat>
      requires Shaped()
    {
      Missing(seen, k)
    }

    /** Enough repairs were seen to match the gaps. */
    predicate Enough()
      requires Shaped()
    {
      |Gaps()| <= |Present(seen, k, |m|)|
    }

    /** The repairs the decoder uses: the first as many as there are gaps. */
    function Used(): (ids: seq<nat>)
      requires Shaped() && Enough()
      ensures |ids| == |Gaps()|
      ensures forall i :: 0 <= i < |ids| ==> ids[i] < |m|
    {
      Present(seen, k, |m|)[..|Gaps()|]
    }

    function System(): (a: Matrix)
      requires Shaped() && Enough()
      ensures Rectangle(a, |Gaps()|, |Gaps()|)
    {
      Submatrix(m, Used(), Gaps(), k)
    }

    /** The right-hand side left once the seen sources are subtracted. */
    function Target(row: nat): (s: seq<byte>)
      requires Shaped() && row < |m|
      ensures |s| == size
    {
      seq(size, p requires 0 <= p < size =>
        Add(symbols[k + row][p], Known(m[row], Column(symbols[..k], p), seen, k)))
    }

    function Targets(): (b: Matrix)
      requires Shaped() && Enough()
      ensures Rectangle(b, |Gaps()|, size)
    {
      seq(|Gaps()|, i requires 0 <= i < |Gaps()| => Target(Used()[i]))
    }

    /** `sources` reproduces every seen source and every used repair. */
    ghost predicate Explains(sources: Symbols)
      requires Shaped() && Enough()
    {
      && Rectangle(sources, k, size)
      && (forall i :: 0 <= i < k && seen[i] ==> sources[i] == symbols[i])
      && (forall i :: 0 <= i < |Used()| ==> Repair(m[Used()[i]], sources, size) == symbols[k + Used()[i]])
    }

    /** The decoder can only be expected to succeed when the gaps are determined. */
    ghost predicate Decodable()
      requires Shaped()
    {
      Enough() && NonSingular(System(), |Gaps()|)
    }
  }

  /** One repair equation, restated for the missing positions only. */
  lemma RepairEquation(d: Received, sources: Symbols, row: nat, p: nat)
    requires d.Shaped() && row < |d.m| && p < d.size && Rectangle(sources, d.k, d.size)
    requires forall i :: 0 <= i < d.k && d.seen[i] ==> sources[i] == d.symbols[i]
    ensures Repair(d.m[row], sources, d.size)[p] == d.symbols[d.k + row][p]
      <==> Dot(Select(d.m[row], d.Gaps()), Select(Column(sources, p), d.Gaps()), |d.Gaps()|) == d.Target(row)[p]
  {
    hide Add;
    hide Dot;
    hide Known;
    var x := Column(sources, p);
    DotSplits(d.m[row], x, d.seen, d.k);
    KnownDependsOnSeen(d.m[row], x, Column(d.symbols[..d.k], p), d.seen, d.k);
    var known := Known(d.m[row], x, d.seen, d.k);
    var rest := Dot(Select(d.m[row], d.Gaps()), Select(x, d.Gaps()), |d.Gaps()|);
    AddLaws(rest, known);
    AddLaws(d.symbols[d.k + row][p], known);
  }

  /** `sources` solves the reduced system at byte position `p`. */
  ghost predicate SolvesAt(d: Received, sources: Symbols, p: nat)
    requires d.Shaped() && d.Enough() && Rectangle(sources, d.k, d.size) && p < d.size
  {
    Solves(d.System(), Select(Column(sources, p), d.Gaps()), Column(d.Targets(), p), |d.Gaps()|)
  }

  lemma ExplainsSolvesAt(d: Received, sources: Symbols, p: nat)
    requires d.Shaped() && d.Enough() && Rectangle(sources, d.k, d.size) && p < d.size
    requires forall i :: 0 <= i < d.k && d.seen[i] ==> sources[i] == d.symbols[i]
    ensures SolvesAt(d, sources, p) <==>
      forall i :: 0 <= i < |d.Used()| ==>
        Repair(d.m[d.Used()[i]], sources, d.size)[p] == d.symbols[d.k + d.Used()[i]][p]
  {
    hide Dot;
    hide Repair;
    hide Select;
    var used, n := d.Used(), |d.Gaps()|;
    var a, x, b := d.System(), Select(Column(sources, p), d.Gaps()), Column(d.Targets(), p);
    forall i | 0 <= i < n
      ensures Dot(a[i], x, n) == b[i] <==> Repair(d.m[used[i]], sources, d.size)[p] == d.symbols[d.k + used[i]][p]
    {
      RepairEquation(d, sources, used[i], p);
      assert a[i] == Select(d.m[used[i]], d.Gaps());
      assert b[i] == d.Target(used[i])[p];
    }
  }

  /** Explaining the received symbols is solving the reduced system at every byte. */
  lemma ExplainsIsSolving(d: Received, sources: Symbols)
    requires d.Shaped() && d.Enough() && Rectangle(sources, d.k, d.size)
    requires forall i :: 0 <= i < d.k && d.seen[i] ==> sources[i] == d.symbols[i]
    ensures d.Explains(sources) <==> forall p :: 0 <= p < d.size ==> SolvesAt(d, sources, p)
  {
    hide Repair;
    hide SolvesAt;
    var used := d.Used();
    forall p | 0 <= p < d.size
      ensures SolvesAt(d, sources, p) <==>
        forall i :: 0 <= i < |used| ==> Repair(d.m[used[i]], sources, d.size)[p] == d.symbols[d.k + used[i]][p]
    {
      ExplainsSolvesAt(d, sources, p);
    }
    if forall p :: 0 <= p < d.size ==> SolvesAt(d, sources, p) {
      forall i | 0 <= i < |used| ensures Repair(d.m[used[i]], sources, d.size) == d.symbols[d.k + used[i]] {
        forall p | 0 <= p < d.size
          ensures Repair(d.m[used[i]], sources, d.size)[p] == d.symbols[d.k + used[i]][p]
        {
          assert SolvesAt(d, sources, p);
        }
      }
    }
  }

  // ----- When the gaps are not determined -----

  lemma {:induction false} DotSum(row: Vec, x: Vec, y: Vec, n: nat)
    requires n <= |row| && n <= |x| <= |y|
    ensures Dot(row, Plus(x, y), n) == Add(Dot(row, x, n), Dot(row, y, n))
  {
    hide Add;
    hide Mul;
    if n == 0 {
      AddLaws(0, 0);
    } else {
      DotSum(row, x, y, n - 1);
      Distributes(row[n - 1], x[n - 1], y[n - 1]);
      Regroup(Dot(row, x, n - 1), Dot(row, y, n - 1), Mul(row[n - 1], x[n - 1]), Mul(row[n - 1], y[n - 1]));
    }
  }

  /** The values of `x` at the gaps, zero at the sources seen. */
  function Spread(x: Vec, seen: seq<bool>, n: nat): (f: Vec)
    requires n <= |seen| && |Missing(seen, n)| <= |x|
    ensures |f| == n && forall i :: 0 <= i < n && seen[i] ==> f[i] == 0
  {
    if n == 0 then []
    else Spread(x, seen, n - 1) + [if seen[n - 1] then 0 else x[|Missing(seen, n - 1)|]]
  }

  lemma {:induction false} SelectSpread(x: Vec, seen: seq<bool>, n: nat)
    requires n <= |seen| && |Missing(seen, n)| <= |x|
    ensures Select(Spread(x, seen, n), Missing(seen, n)) == x[..|Missing(seen, n)|]
  {
    if n > 0 {
      SelectSpread(x, seen, n - 1);
      var f, ids := Spread(x, seen, n - 1), Missing(seen, n - 1);
      assert forall i :: 0 <= i < |ids| ==> Select(f, ids)[i] == x[i];
    }
  }

  /** The block with `f` added to the first byte of every source. */
  function Shifted(sources: Symbols, f: Vec): (t: Symbols)
    requires |f| == |sources| && forall i :: 0 <= i < |sources| ==> |sources[i]| > 0
    ensures |t| == |sources| && forall i :: 0 <= i < |t| ==> |t[i]| == |sources[i]|
  {
    seq(|sources|, i requires 0 <= i < |sources| => sources[i][0 := Add(sources[i][0], f[i])])
  }

  lemma ShiftedColumn(sources: Symbols, f: Vec, ids: seq<nat>, size: nat, p: nat)
    requires Rectangle(sources, |sources|, size) && |f| == |sources| && p < size
    requires forall i :: 0 <= i < |ids| ==> ids[i] < |sources|
    ensures Select(Column(Shifted(sources, f), p), ids) ==
      if p == 0 then Plus(Select(Column(sources, p), ids), Select(f, ids)) else Select(Column(sources, p), ids)
  {
    hide Add;
  }

  /** Adding a vector the system maps to zero leaves a solution a solution. */
  lemma KernelSolves(a: Matrix, y: Vec, x: Vec, b: Vec, n: nat)
    requires Solves(a, y, b, n) && Solves(a, x, Zeros(n), n)
    ensures Solves(a, Plus(y, x), b, n)
  {
    hide Add;
    hide Dot;
    forall i | 0 <= i < n ensures Dot(a[i], Plus(y, x), n) == b[i] {
      DotSum(a[i], y, x, n);
      AddLaws(b[i], 0);
    }
  }

  /**
   When enough repairs came and the gaps are still not determined, a block that
   explains what was received is never the only one: failing is right.
   */
  lemma Ambiguous(d: Received, sources: Symbols) returns (other: Symbols)
    requires d.Shaped() && d.Enough() && !d.Decodable() && d.size > 0 && d.Explains(sources)
    ensures d.Explains(other) && other != sources
  {
    hide Add;
    hide Dot;
    hide Repair;
    hide Missing;
    hide Select;
    hide Present;
    var n, gaps := |d.Gaps()|, d.Gaps();
    var x :| Solves(d.System(), x, Zeros(n), n) && x != Zeros(n);
    var f := Spread(x, d.seen, d.k);
    SelectSpread(x, d.seen, d.k);
    assert x[..n] == x;
    other := Shifted(sources, f);
    forall i | 0 <= i < d.k && d.seen[i] ensures other[i] == d.symbols[i] {
      AddLaws(sources[i][0], 0);
    }
    ExplainsIsSolving(d, sources);
    forall p | 0 <= p < d.size ensures SolvesAt(d, other, p) {
      ShiftedColumn(sources, f, gaps, d.size, p);
      assert SolvesAt(d, sources, p);
      if p == 0 {
        KernelSolves(d.System(), Select(Column(sources, 0), gaps), x, Column(d.Targets(), 0), n);
      }
    }
    ExplainsIsSolving(d, other);
    ShiftedDiffers(sources, f, gaps, x);
  }

  lemma ShiftedDiffers(sources: Symbols, f: Vec, ids: seq<nat>, x: Vec)
    requires |f| == |sources| && (forall i :: 0 <= i < |sources| ==> |sources[i]| > 0)
    requires (forall i :: 0 <= i < |ids| ==> ids[i] < |f|) && Select(f, ids) == x && x != Zeros(|ids|)
    ensures Shifted(sources, f) != sources
  {
    hide Add;
    var i :| 0 <= i < |x| && x[i] != 0;
    var a, b := sources[ids[i]][0], f[ids[i]];
    assert b == Select(f, ids)[i];
    AddLaws(a, a);
    AddLaws(b, 0);
    AddAssociates(a, a, b);
    assert Shifted(sources, f)[ids[i]][0] == Add(a, b);
  }
}
