/**
 EncodeSmallRs and DecodeSmallRs of src/fec/rs_small.cpp.  The repair matrix
 comes from a foreign library and is a parameter; `None` stands for a failure
 to build it.  Symbol buffers are arrays, and the decoder works in place: the
 slots of the missing sources hold the right-hand sides, and pivoting swaps
 the slots themselves.
 */
module RsSmall {
  import opened Common
  import opened GF256
  import opened RsKernels
  import opened LinearSystem
  import opened RsCode

  type Buffer = array<byte>

  /** Distinct buffers of one size. */
  ghost predicate Slots(s: seq<Buffer>, size: nat) {
    && (forall i :: 0 <= i < |s| ==> s[i].Length == size)
    && (forall i, j :: 0 <= i < j < |s| ==> s[i] != s[j])
  }

  ghost function Contents(s: seq<Buffer>): (c: Symbols)
    reads s
    ensures |c| == |s|
    ensures forall i :: 0 <= i < |s| ==> c[i] == s[i][..]
  {
    seq(|s|, i requires 0 <= i < |s| reads s => s[i][..])
  }

  // ----- Encoding -----

  lemma DotStep(row: Vec, x: Vec, n: nat)
    requires n < |row| && n < |x|
    ensures Dot(row, x, n + 1) == Add(Dot(row, x, n), Mul(row[n], x[n]))
    ensures Dot(row, x, 0) == 0
  {
  }

  /** One repair buffer: scale the first source, add the others. */
  method EncodeRow(sources: seq<Buffer>, row: Vec, size: nat, gf: Field, neon: bool) returns (output: Buffer)
    requires gf.Valid() && Slots(sources, size) && 0 < |sources| == |row|
    ensures fresh(output) && output.Length == size
    ensures output[..] == Repair(row, Contents(sources), size)
  {
    hide Add;
    hide Mul;
    hide Dot;
    output := new byte[size](i => 0);
    forall i | 0 <= i < size {
      output[i] := sources[0][i];
    }
    Scale(output, size, row[0], gf, neon);
    ghost var s := Contents(sources);
    forall p | 0 <= p < size ensures output[p] == Dot(row, Column(s, p), 1) {
      DotStep(row, Column(s, p), 0);
      AddLaws(Mul(row[0], s[0][p]), 0);
    }
    for col := 1 to |sources|
      invariant Contents(sources) == s
      invariant forall p :: 0 <= p < size ==> output[p] == Dot(row, Column(s, p), col)
    {
      MultiplyAdd(output, sources[col], size, row[col], gf, neon);
      assert Contents(sources) == s;
      forall p | 0 <= p < size ensures output[p] == Dot(row, Column(s, p), col + 1) {
        DotStep(row, Column(s, p), col);
      }
    }
  }

  method EncodeSmallRs(sources: seq<Buffer>, r: nat, matrix: Option<Matrix>, gf: Field, neon: bool)
    returns (ok: bool, repairs: seq<Buffer>)
    requires gf.Valid() && 0 < |sources| && Slots(sources, sources[0].Length)
    requires matrix.Some? ==> Rectangle(matrix.value, r, |sources|)
    ensures ok <==> matrix.Some?
    ensures Slots(repairs, sources[0].Length) && fresh(repairs)
    ensures ok ==>
      Contents(sources) + Contents(repairs) == Codeword(matrix.value, Contents(sources), sources[0].Length)
  {
    hide Field.Valid;
    hide Add;
    hide Mul;
    hide Repair;
    repairs := [];
    if matrix == None {
      return false, repairs;
    }
    ghost var s, size := Contents(sources), sources[0].Length;
    for row := 0 to r
      invariant |repairs| == row && Slots(repairs, size) && fresh(repairs)
      invariant Contents(sources) == s
      invariant forall i :: 0 <= i < row ==> repairs[i][..] == Repair(matrix.value[i], s, size)
    {
      var output := EncodeRow(sources, matrix.value[row], sources[0].Length, gf, neon);
      repairs := repairs + [output];
    }
    ok := true;
  }

  // ----- Finding the gaps -----

  lemma {:induction false} MissingGrows(seen: seq<bool>, i: nat, k: nat)
    requires i <= k <= |seen|
    ensures |Missing(seen, i)| <= |Missing(seen, k)|
  {
    if i < k {
      MissingGrows(seen, i, k - 1);
    }
  }

  lemma {:induction false} PresentGrows(seen: seq<bool>, k: nat, i: nat, r: nat)
    requires i <= r && k + r <= |seen|
    ensures Present(seen, k, i) <= Present(seen, k, r)
  {
    if i < r {
      PresentGrows(seen, k, i, r - 1);
    }
  }

  method FindMissing(seen: seq<bool>, k: nat, r: nat) returns (ok: bool, missing: seq<nat>)
    requires k <= |seen|
    ensures ok <==> |Missing(seen, k)| <= r
    ensures ok ==> missing == Missing(seen, k)
  {
    missing := [];
    for i := 0 to k
      invariant missing == Missing(seen, i) && |missing| <= r
    {
      if !seen[i] {
        if |missing| == r {
          MissingGrows(seen, i + 1, k);
          return false, missing;
        }
        missing := missing + [i];
      }
    }
    ok := true;
  }

  method FindRepairs(seen: seq<bool>, k: nat, r: nat, count: nat) returns (ids: seq<nat>)
    requires k + r <= |seen|
    ensures |ids| == if |Present(seen, k, r)| < count then |Present(seen, k, r)| else count
    ensures ids == Present(seen, k, r)[..|ids|]
  {
    ids := [];
    var i := 0;
    while i < r && |ids| < count
      invariant i <= r && |ids| <= count
      invariant ids == Present(seen, k, i)
    {
      if seen[k + i] {
        ids := ids + [i];
      }
      i := i + 1;
    }
    PresentGrows(seen, k, i, r);
  }

  // ----- Row operations on slots -----

  method CopySlot(bufs: seq<Buffer>, d: nat, s: nat, size: nat)
    requires Slots(bufs, size) && d < |bufs| && s < |bufs| && d != s
    modifies bufs[d]
    ensures var c := old(Contents(bufs)); Contents(bufs) == c[d := c[s]]
  {
    var dst, src := bufs[d], bufs[s];
    forall i | 0 <= i < size {
      dst[i] := src[i];
    }
    ghost var was := old(Contents(bufs));
    forall i | 0 <= i < |bufs| ensures Contents(bufs)[i] == was[d := was[s]][i] {
      assert i != d ==> bufs[i] != dst;
    }
  }

  method AddSlot(bufs: seq<Buffer>, d: nat, s: nat, size: nat, c: byte, gf: Field, neon: bool)
    requires gf.Valid() && Slots(bufs, size) && d < |bufs| && s < |bufs| && d != s
    modifies bufs[d]
    ensures var was := old(Contents(bufs));
      Contents(bufs) == was[d := Plus(was[d], Times(c, was[s]))]
  {
    hide Add;
    hide Mul;
    MultiplyAdd(bufs[d], bufs[s], size, c, gf, neon);
    assert bufs[d][..] == Plus(old(bufs[d][..]), Times(c, old(bufs[s][..])));
  }

  method ScaleSlot(bufs: seq<Buffer>, d: nat, size: nat, c: byte, gf: Field, neon: bool)
    requires gf.Valid() && Slots(bufs, size) && d < |bufs|
    modifies bufs[d]
    ensures var was := old(Contents(bufs)); Contents(bufs) == was[d := Times(c, was[d])]
  {
    hide Add;
    hide Mul;
    Scale(bufs[d], size, c, gf, neon);
    assert bufs[d][..] == Times(c, old(bufs[d][..]));
  }

  method SwapSlots(symbols: array<Buffer>, i: nat, j: nat, size: nat)
    requires Slots(symbols[..], size) && i < symbols.Length && j < symbols.Length
    modifies symbols
    ensures symbols[..] == old(symbols[..])[i := old(symbols[j])][j := old(symbols[i])]
    ensures Slots(symbols[..], size)
    ensures Contents(symbols[..]) == Swapped(old(Contents(symbols[..])), i, j)
  {
    symbols[i], symbols[j] := symbols[j], symbols[i];
  }

  // ----- Row operations on the reduced matrix -----

  /** `reduced[col][j] = multiply[scale][reduced[col][j]]` for j from `col` on. */
  method ScaleFrom(row: Vec, col: nat, c: byte, gf: Field) returns (scaled: Vec)
    requires gf.Valid() && col <= |row|
    requires forall j :: 0 <= j < col ==> row[j] == 0
    ensures scaled == Times(c, row)
  {
    hide Mul;
    assert ProductRow(gf.multiply[c], c);
    MulLaws(c, 0);
    scaled := row;
    for j := col to |row|
      invariant |scaled| == |row|
      invariant forall i :: 0 <= i < j ==> scaled[i] == Mul(c, row[i])
      invariant forall i :: j <= i < |row| ==> scaled[i] == row[i]
    {
      scaled := scaled[j := gf.multiply[c][scaled[j]]];
    }
  }

  /** `reduced[row][j] ^= multiply[factor][reduced[col][j]]` for j from `col` on. */
  method AddFrom(row: Vec, pivot: Vec, col: nat, c: byte, gf: Field) returns (sum: Vec)
    requires gf.Valid() && col <= |row| == |pivot|
    requires forall j :: 0 <= j < col ==> pivot[j] == 0
    ensures sum == Plus(row, Times(c, pivot))
  {
    hide Mul;
    hide Add;
    assert ProductRow(gf.multiply[c], c);
    MulLaws(c, 0);
    forall j | 0 <= j < col ensures row[j] == Add(row[j], Mul(c, pivot[j])) {
      AddLaws(row[j], 0);
    }
    sum := row;
    for j := col to |row|
      invariant |sum| == |row|
      invariant forall i :: 0 <= i < j ==> sum[i] == Add(row[i], Mul(c, pivot[i]))
      invariant forall i :: j <= i < |row| ==> sum[i] == row[i]
    {
      sum := sum[j := Add(sum[j], gf.multiply[c][pivot[j]])];
    }
  }

  // ----- Elimination -----

  /** The slots that hold the right-hand sides. */
  function Rows(c: Symbols, missing: seq<nat>): (b: Matrix)
    requires forall i :: 0 <= i < |missing| ==> missing[i] < |c|
    ensures |b| == |missing|
  {
    seq(|missing|, i requires 0 <= i < |missing| => c[missing[i]])
  }

  ghost predicate Distinct(ids: seq<nat>, n: nat) {
    && (forall i :: 0 <= i < |ids| ==> ids[i] < n)
    && (forall i, j :: 0 <= i < j < |ids| ==> ids[i] != ids[j])
  }

  /** Every buffer of `now` is one of `was`. */
  ghost predicate Within(now: seq<Buffer>, was: seq<Buffer>) {
    forall i :: 0 <= i < |now| ==> now[i] in was
  }

  /** Only the listed slots may differ. */
  ghost predicate SameOutside(was: Symbols, now: Symbols, ids: seq<nat>) {
    |was| == |now| && forall i :: 0 <= i < |was| && i !in ids ==> now[i] == was[i]
  }

  method FindPivot(reduced: Matrix, col: nat, count: nat) returns (pivot: nat)
    requires Rectangle(reduced, count, count) && col < count
    ensures col <= pivot <= count
    ensures forall i :: col <= i < pivot ==> reduced[i][col] == 0
    ensures pivot < count ==> reduced[pivot][col] != 0
  {
    pivot := col;
    while pivot < count && reduced[pivot][col] == 0
      invariant col <= pivot <= count
      invariant forall i :: col <= i < pivot ==> reduced[i][col] == 0
    {
      pivot := pivot + 1;
    }
  }

  lemma Inverts(gf: Field, x: byte)
    requires gf.Valid() && x != 0
    ensures |gf.inverse| == 256 && Mul(x, gf.inverse[x]) == 1
  {
    hide Mul;
    assert InverseOf(x, gf.inverse[x]);
  }

  /** Bring the pivot row to place `col` and scale it so that the pivot is one. */
  method PlacePivot(symbols: array<Buffer>, missing: seq<nat>, reduced: Matrix, col: nat, pivot: nat, size: nat,
                    gf: Field, neon: bool)
    returns (next: Matrix)
    requires gf.Valid() && Slots(symbols[..], size) && Distinct(missing, symbols.Length)
    requires UnitColumns(reduced, |missing|, col) && col <= pivot < |missing|
    requires reduced[pivot][col] != 0
    modifies symbols, symbols[..]
    ensures Slots(symbols[..], size) && Within(symbols[..], old(symbols[..]))
    ensures SameOutside(old(Contents(symbols[..])), Contents(symbols[..]), missing)
    ensures Equivalent(reduced, Rows(old(Contents(symbols[..])), missing),
      next, Rows(Contents(symbols[..]), missing), |missing|, size)
    ensures UnitColumns(next, |missing|, col) && next[col][col] == 1
  {
    hide Field.Valid;
    hide Mul;
    hide Equivalent;
    ghost var b0 := Rows(Contents(symbols[..]), missing);
    next := reduced;
    if pivot != col {
      next := Swapped(next, col, pivot);
      SwapSlots(symbols, missing[col], missing[pivot], size);
    }
    ghost var b1 := Rows(Contents(symbols[..]), missing);
    assert b1 == Swapped(b0, col, pivot);
    assert next == Swapped(reduced, col, pivot);
    Inverts(gf, next[col][col]);
    var scale := gf.inverse[next[col][col]];
    var row := ScaleFrom(next[col], col, scale, gf);
    next := next[col := row];
    ScaleSlot(symbols[..], missing[col], size, scale, gf, neon);
    assert Rows(Contents(symbols[..]), missing) == b1[col := Times(scale, b1[col])];
    PivotStep(reduced, b0, |missing|, size, col, pivot, scale);
  }

  /** Subtract the pivot row from one other row. */
  method ClearRow(bufs: seq<Buffer>, missing: seq<nat>, reduced: Matrix, col: nat, row: nat, size: nat,
                  gf: Field, neon: bool)
    returns (next: Matrix)
    requires gf.Valid() && Slots(bufs, size) && Distinct(missing, |bufs|)
    requires UnitColumns(reduced, |missing|, col) && col < |missing| && reduced[col][col] == 1
    requires row < |missing| && row != col
    modifies bufs
    ensures SameOutside(old(Contents(bufs)), Contents(bufs), missing)
    ensures Equivalent(reduced, Rows(old(Contents(bufs)), missing),
      next, Rows(Contents(bufs), missing), |missing|, size)
    ensures UnitColumns(next, |missing|, col) && next[row][col] == 0
    ensures next == reduced[row := next[row]]
  {
    hide Field.Valid;
    hide Mul;
    hide Equivalent;
    ghost var b := Rows(Contents(bufs), missing);
    next := reduced;
    var factor := reduced[row][col];
    if factor == 0 {
      EquivalentSelf(reduced, b, |missing|, size);
      return;
    }
    var sum := AddFrom(reduced[row], reduced[col], col, factor, gf);
    next := reduced[row := sum];
    AddSlot(bufs, missing[row], missing[col], size, factor, gf, neon);
    assert Rows(Contents(bufs), missing) == b[row := Plus(b[row], Times(factor, b[col]))];
    ClearStep(reduced, b, |missing|, size, col, row);
  }

  /** Clear column `col` in every other row. */
  method ClearColumn(bufs: seq<Buffer>, missing: seq<nat>, reduced: Matrix, col: nat, size: nat,
                     gf: Field, neon: bool)
    returns (next: Matrix)
    requires gf.Valid() && Slots(bufs, size) && Distinct(missing, |bufs|)
    requires UnitColumns(reduced, |missing|, col) && col < |missing| && reduced[col][col] == 1
    modifies bufs
    ensures SameOutside(old(Contents(bufs)), Contents(bufs), missing)
    ensures Equivalent(reduced, Rows(old(Contents(bufs)), missing),
      next, Rows(Contents(bufs), missing), |missing|, size)
    ensures UnitColumns(next, |missing|, col + 1)
  {
    hide Field.Valid;
    hide Equivalent;
    hide Rows;
    ghost var n, b0 := |missing|, Rows(Contents(bufs), missing);
    next := reduced;
    RowsShape(Contents(bufs), missing, size);
    EquivalentSelf(reduced, b0, n, size);
    for row := 0 to |missing|
      invariant SameOutside(old(Contents(bufs)), Contents(bufs), missing)
      invariant UnitColumns(next, n, col) && next[col][col] == 1
      invariant forall i :: 0 <= i < row && i != col ==> next[i][col] == 0
      invariant Equivalent(reduced, b0, next, Rows(Contents(bufs), missing), n, size)
    {
      if row != col {
        ghost var a, b := next, Rows(Contents(bufs), missing);
        next := ClearRow(bufs, missing, next, col, row, size, gf, neon);
        EquivalentTransitive(reduced, b0, a, b, next, Rows(Contents(bufs), missing), n, size);
      }
    }
  }

  lemma EquivalentSelf(a: Matrix, b: Matrix, n: nat, size: nat)
    requires Rectangle(a, n, n) && Rectangle(b, n, size)
    ensures Equivalent(a, b, a, b, n, size)
  {
    hide Solves;
  }

  /** One round of the elimination: a pivot for column `col`, and zeros elsewhere. */
  method ReduceColumn(symbols: array<Buffer>, missing: seq<nat>, reduced: Matrix, col: nat, pivot: nat, size: nat,
                      gf: Field, neon: bool)
    returns (next: Matrix)
    requires gf.Valid() && Slots(symbols[..], size) && Distinct(missing, symbols.Length)
    requires UnitColumns(reduced, |missing|, col) && col <= pivot < |missing|
    requires reduced[pivot][col] != 0
    modifies symbols, symbols[..]
    ensures Slots(symbols[..], size) && Within(symbols[..], old(symbols[..]))
    ensures SameOutside(old(Contents(symbols[..])), Contents(symbols[..]), missing)
    ensures Equivalent(reduced, Rows(old(Contents(symbols[..])), missing),
      next, Rows(Contents(symbols[..]), missing), |missing|, size)
    ensures UnitColumns(next, |missing|, col + 1)
  {
    hide Field.Valid;
    hide Equivalent;
    hide Rows;
    hide UnitColumns;
    ghost var b0 := Rows(Contents(symbols[..]), missing);
    var placed := PlacePivot(symbols, missing, reduced, col, pivot, size, gf, neon);
    ghost var b1 := Rows(Contents(symbols[..]), missing);
    next := ClearColumn(symbols[..], missing, placed, col, size, gf, neon);
    EquivalentTransitive(reduced, b0, placed, b1, next, Rows(Contents(symbols[..]), missing), |missing|, size);
  }

  /**
   Gauss-Jordan elimination on the slots `missing`.  It succeeds exactly when
   the matrix is non-singular, and then the slots hold the unique solution.
   */
  method Eliminate(symbols: array<Buffer>, missing: seq<nat>, system: Matrix, size: nat, gf: Field, neon: bool)
    returns (ok: bool)
    requires gf.Valid() && Slots(symbols[..], size) && Distinct(missing, symbols.Length)
    requires Rectangle(system, |missing|, |missing|)
    modifies symbols, symbols[..]
    ensures Slots(symbols[..], size) && Within(symbols[..], old(symbols[..]))
    ensures SameOutside(old(Contents(symbols[..])), Contents(symbols[..]), missing)
    ensures ok <==> NonSingular(system, |missing|)
    ensures ok ==> Determined(system, Rows(old(Contents(symbols[..])), missing), Rows(Contents(symbols[..]), missing), size)
  {
    hide Field.Valid;
    hide Equivalent;
    hide Rows;
    ghost var n, b0 := |missing|, Rows(Contents(symbols[..]), missing);
    var reduced := system;
    RowsShape(Contents(symbols[..]), missing, size);
    EquivalentSelf(reduced, b0, n, size);
    for col := 0 to |missing|
      invariant Slots(symbols[..], size) && Within(symbols[..], old(symbols[..]))
      invariant SameOutside(old(Contents(symbols[..])), Contents(symbols[..]), missing)
      invariant UnitColumns(reduced, n, col)
      invariant Equivalent(system, b0, reduced, Rows(Contents(symbols[..]), missing), n, size)
    {
      var pivot := FindPivot(reduced, col, |missing|);
      if pivot == |missing| {
        NoPivot(system, b0, reduced, Rows(Contents(symbols[..]), missing), n, size, col);
        return false;
      }
      ghost var a, b := reduced, Rows(Contents(symbols[..]), missing);
      reduced := ReduceColumn(symbols, missing, reduced, col, pivot, size, gf, neon);
      EquivalentTransitive(system, b0, a, b, reduced, Rows(Contents(symbols[..]), missing), n, size);
    }
    FullyReduced(system, b0, reduced, Rows(Contents(symbols[..]), missing), n, size);
    ok := true;
  }

  lemma RowsShape(c: Symbols, missing: seq<nat>, size: nat)
    requires Distinct(missing, |c|) && forall i :: 0 <= i < |c| ==> |c[i]| == size
    ensures Rectangle(Rows(c, missing), |missing|, size)
  {
  }

  /** At every byte position, `d` is the one solution of (a | b). */
  ghost predicate Determined(a: Matrix, b: Matrix, d: Matrix, size: nat) {
    var n := |a|;
    && Rectangle(a, n, n) && Rectangle(b, n, size) && Rectangle(d, n, size)
    && forall x, p :: |x| == n && 0 <= p < size ==> (Solves(a, x, Column(b, p), n) <==> x == Column(d, p))
  }

  lemma FullyReduced(a: Matrix, b: Matrix, c: Matrix, d: Matrix, n: nat, size: nat)
    requires Equivalent(a, b, c, d, n, size) && UnitColumns(c, n, n)
    ensures Determined(a, b, d, size)
    ensures NonSingular(a, n)
  {
    hide Solves;
    forall x, p | |x| == n && 0 <= p < size ensures Solves(a, x, Column(b, p), n) <==> x == Column(d, p) {
      ReducedSolves(c, n, x, Column(d, p));
    }
    forall x | Solves(a, x, Zeros(n), n) ensures x == Zeros(n) {
      SolvesShape(a, x, Zeros(n), n);
      ReducedSolves(c, n, x, Zeros(n));
    }
  }

  lemma SolvesShape(a: Matrix, x: Vec, b: Vec, n: nat)
    requires Solves(a, x, b, n)
    ensures |x| == n
  {
  }

  lemma NoPivot(a: Matrix, b: Matrix, c: Matrix, d: Matrix, n: nat, size: nat, col: nat)
    requires Equivalent(a, b, c, d, n, size) && UnitColumns(c, n, col) && col < n
    requires forall i :: col <= i < n ==> c[i][col] == 0
    ensures !NonSingular(a, n)
  {
    hide Solves;
    NoPivotSingular(c, n, col);
    assert Solves(a, Witness(c, n, col), Zeros(n), n);
  }

  // ----- Decoding -----

  /** The right-hand side of one repair equation once `n` columns are subtracted. */
  function Subtracted(row: Vec, c: Symbols, seen: seq<bool>, k: nat, slot: nat, size: nat, n: nat): (s: seq<byte>)
    requires n <= k <= |c| && n <= |row| && n <= |seen| && slot < |c|
    requires forall i :: 0 <= i < |c| ==> |c[i]| == size
    ensures |s| == size
  {
    seq(size, p requires 0 <= p < size => Add(c[slot][p], Known(row, Column(c[..k], p), seen, n)))
  }

  lemma SubtractNext(row: Vec, c: Symbols, seen: seq<bool>, k: nat, slot: nat, size: nat, n: nat)
    requires n < k <= |c| && n < |row| && n < |seen| && slot < |c|
    requires forall i :: 0 <= i < |c| ==> |c[i]| == size
    ensures Subtracted(row, c, seen, k, slot, size, n + 1)
      == if seen[n] then Plus(Subtracted(row, c, seen, k, slot, size, n), Times(row[n], c[n]))
         else Subtracted(row, c, seen, k, slot, size, n)
    ensures Subtracted(row, c, seen, k, slot, size, 0) == c[slot]
  {
    hide Add;
    hide Mul;
    forall p | 0 <= p < size
      ensures seen[n] ==>
        Subtracted(row, c, seen, k, slot, size, n + 1)[p]
          == Plus(Subtracted(row, c, seen, k, slot, size, n), Times(row[n], c[n]))[p]
      ensures Subtracted(row, c, seen, k, slot, size, 0)[p] == c[slot][p]
    {
      AddAssociates(c[slot][p], Known(row, Column(c[..k], p), seen, n), Mul(row[n], c[n][p]));
      AddLaws(c[slot][p], 0);
    }
  }

  /** Fill one missing slot with a repair symbol minus the seen sources. */
  method SubtractKnown(bufs: seq<Buffer>, k: nat, slot: nat, repair: nat, row: Vec, seen: seq<bool>, size: nat,
                       gf: Field, neon: bool)
    requires gf.Valid() && Slots(bufs, size)
    requires k <= |seen| && k <= |row| && slot < k <= repair < |bufs| && !seen[slot]
    modifies bufs
    ensures Contents(bufs)
      == old(Contents(bufs))[slot := Subtracted(row, old(Contents(bufs)), seen, k, repair, size, k)]
  {
    hide Field.Valid;
    hide Subtracted;
    ghost var c := Contents(bufs);
    CopySlot(bufs, slot, repair, size);
    SubtractNext(row, c, seen, k, repair, size, 0);
    for col := 0 to k
      invariant Contents(bufs) == c[slot := Subtracted(row, c, seen, k, repair, size, col)]
    {
      SubtractNext(row, c, seen, k, repair, size, col);
      if seen[col] {
        AddSlot(bufs, slot, col, size, row[col], gf, neon);
      }
    }
  }

  /** Seen sources and repairs are all a right-hand side depends on. */
  lemma SubtractedIsTarget(d: Received, c: Symbols, row: nat)
    requires d.Shaped() && row < |d.m| && Rectangle(c, |d.symbols|, d.size)
    requires SameOutside(d.symbols, c, d.Gaps())
    ensures Subtracted(d.m[row], c, d.seen, d.k, d.k + row, d.size, d.k) == d.Target(row)
  {
    hide Add;
    hide Known;
    forall p | 0 <= p < d.size
      ensures Subtracted(d.m[row], c, d.seen, d.k, d.k + row, d.size, d.k)[p] == d.Target(row)[p]
    {
      KnownDependsOnSeen(d.m[row], Column(c[..d.k], p), Column(d.symbols[..d.k], p), d.seen, d.k);
    }
  }

  /** One right-hand side, whatever the earlier ones did to the missing slots. */
  method BuildTarget(bufs: seq<Buffer>, slot: nat, id: nat, gf: Field, neon: bool, m: Matrix, k: nat,
                     seen: seq<bool>, size: nat, ghost d: Received)
    requires gf.Valid() && Slots(bufs, size) && d.Shaped() && |bufs| == |d.symbols|
    requires d == Received(m, k, size, seen, d.symbols) && SameOutside(d.symbols, Contents(bufs), d.Gaps())
    requires slot in d.Gaps() && id < |m|
    modifies bufs
    ensures Contents(bufs) == old(Contents(bufs))[slot := d.Target(id)]
    ensures SameOutside(d.symbols, Contents(bufs), d.Gaps())
  {
    hide Field.Valid;
    hide Subtracted;
    SubtractedIsTarget(d, Contents(bufs), id);
    SubtractKnown(bufs, k, slot, k + id, m[id], seen, size, gf, neon);
  }

  /** The first `n` missing slots hold their right-hand sides. */
  ghost predicate Filled(d: Received, c: Symbols, n: nat)
    requires d.Shaped() && d.Enough()
  {
    && |c| == |d.symbols| && n <= |d.Gaps()|
    && forall i :: 0 <= i < n ==> c[d.Gaps()[i]] == d.Target(d.Used()[i])
  }

  lemma FilledNext(d: Received, c: Symbols, n: nat)
    requires d.Shaped() && d.Enough() && Filled(d, c, n) && n < |d.Gaps()|
    ensures Filled(d, c[d.Gaps()[n] := d.Target(d.Used()[n])], n + 1)
  {
  }

  lemma FilledAll(d: Received, c: Symbols, system: Matrix)
    requires d.Shaped() && d.Enough() && Filled(d, c, |d.Gaps()|) && |system| == |d.Gaps()|
    requires forall i :: 0 <= i < |system| ==> system[i] == Select(d.m[d.Used()[i]], d.Gaps())
    ensures system == d.System()
    ensures Rows(c, d.Gaps()) == d.Targets()
  {
    hide Select;
  }

  /** Build every right-hand side and the reduced matrix. */
  method BuildSystem(bufs: seq<Buffer>, missing: seq<nat>, ids: seq<nat>, m: Matrix, k: nat, seen: seq<bool>,
                     size: nat, gf: Field, neon: bool, ghost d: Received)
    returns (system: Matrix)
    requires gf.Valid() && Slots(bufs, size)
    requires d == Received(m, k, size, seen, Contents(bufs)) && d.Shaped() && d.Enough()
    requires missing == d.Gaps() && ids == d.Used()
    modifies bufs
    ensures system == d.System()
    ensures SameOutside(d.symbols, Contents(bufs), missing)
    ensures Rows(Contents(bufs), missing) == d.Targets()
  {
    hide Field.Valid;
    hide Select;
    hide Filled;
    hide Rows;
    hide Missing;
    hide Present;
    hide Received.Target;
    hide Received.Targets;
    system := [];
    assert Filled(d, Contents(bufs), 0) by { FilledNone(d, Contents(bufs)); }
    for row := 0 to |missing|
      invariant |system| == row && forall i :: 0 <= i < row ==> system[i] == Select(m[ids[i]], missing)
      invariant SameOutside(d.symbols, Contents(bufs), missing)
      invariant Filled(d, Contents(bufs), row)
    {
      FilledNext(d, Contents(bufs), row);
      BuildTarget(bufs, missing[row], ids[row], gf, neon, m, k, seen, size, d);
      system := system + [Select(m[ids[row]], missing)];
    }
    FilledAll(d, Contents(bufs), system);
  }

  lemma FilledNone(d: Received, c: Symbols)
    requires d.Shaped() && d.Enough() && |c| == |d.symbols|
    ensures Filled(d, c, 0)
  {
  }

  /** Solving the reduced system is finding the one block that explains the symbols. */
  lemma SolutionExplains(d: Received, now: Symbols)
    requires d.Shaped() && d.Enough() && Rectangle(now, |d.symbols|, d.size)
    requires SameOutside(d.symbols, now, d.Gaps())
    requires Determined(d.System(), d.Targets(), Rows(now, d.Gaps()), d.size)
    ensures forall s :: Rectangle(s, d.k, d.size) ==> (d.Explains(s) <==> s == now[..d.k])
  {
    hide Repair;
    hide Dot;
    forall s | Rectangle(s, d.k, d.size) ensures d.Explains(s) <==> s == now[..d.k] {
      if forall i :: 0 <= i < d.k && d.seen[i] ==> s[i] == d.symbols[i] {
        ExplainsIsSolving(d, s);
        AgreesOnGaps(d, now, s);
      } else {
        assert !d.Explains(s);
        var i :| 0 <= i < d.k && d.seen[i] && s[i] != d.symbols[i];
        assert i !in d.Gaps();
      }
    }
  }

  lemma AgreesOnGaps(d: Received, now: Symbols, s: Symbols)
    requires d.Shaped() && d.Enough() && Rectangle(now, |d.symbols|, d.size) && Rectangle(s, d.k, d.size)
    requires SameOutside(d.symbols, now, d.Gaps())
    requires Determined(d.System(), d.Targets(), Rows(now, d.Gaps()), d.size)
    requires forall i :: 0 <= i < d.k && d.seen[i] ==> s[i] == d.symbols[i]
    ensures (forall p :: 0 <= p < d.size ==> SolvesAt(d, s, p)) <==> s == now[..d.k]
  {
    hide Dot;
    hide Solves;
    var gaps := d.Gaps();
    forall p | 0 <= p < d.size
      ensures SolvesAt(d, s, p) <==> forall j :: 0 <= j < |gaps| ==> s[gaps[j]][p] == now[gaps[j]][p]
    {
      var x, y := Select(Column(s, p), gaps), Column(Rows(now, gaps), p);
      assert SolvesAt(d, s, p) <==> x == y;
      assert forall j :: 0 <= j < |gaps| ==> x[j] == s[gaps[j]][p] && y[j] == now[gaps[j]][p];
    }
    if forall p :: 0 <= p < d.size ==> SolvesAt(d, s, p) {
      forall i | 0 <= i < d.k ensures s[i] == now[i] {
        if !d.seen[i] {
          var j := MissingCovers(d.seen, d.k, i);
          forall p | 0 <= p < d.size ensures s[i][p] == now[i][p] {
            assert SolvesAt(d, s, p);
          }
        }
      }
    }
  }

  /**
   What decoding `d` into `now` achieves: it succeeds exactly when the gaps are
   determined, and then the source slots are the one block that explains `d`.
   */
  ghost predicate Decoded(d: Received, ok: bool, now: Symbols) {
    && d.Shaped()
    && (ok <==> d.Decodable())
    && (ok ==> |now| >= d.k && forall s :: Rectangle(s, d.k, d.size) ==> (d.Explains(s) <==> s == now[..d.k]))
  }

  /**
   DecodeSmallRs.  It succeeds exactly when the gaps are determined by the
   symbols seen, and then the source slots hold the one block that explains
   them.  Slots that were seen, and all repairs, keep their bytes either way.
   */
  method DecodeSmallRs(k: nat, r: nat, size: nat, seen: seq<bool>, symbols: array<Buffer>, matrix: Option<Matrix>,
                       gf: Field, neon: bool)
    returns (ok: bool)
    requires gf.Valid() && Slots(symbols[..], size) && symbols.Length == |seen| == k + r
    requires matrix.Some? ==> Rectangle(matrix.value, r, k)
    modifies symbols, symbols[..]
    ensures Slots(symbols[..], size) && Within(symbols[..], old(symbols[..]))
    ensures SameOutside(old(Contents(symbols[..])), Contents(symbols[..]), Missing(seen, k))
    ensures matrix == None ==> (ok <==> Missing(seen, k) == [])
    ensures matrix.Some? ==>
      Decoded(Received(matrix.value, k, size, seen, old(Contents(symbols[..]))), ok, Contents(symbols[..]))
  {
    hide Field.Valid;
    hide Solves;
    hide Repair;
    var missing, ids;
    ok, missing := FindMissing(seen, k, r);
    ghost var d := Received(if matrix.Some? then matrix.value else [], k, size, seen, Contents(symbols[..]));
    if !ok {
      return;
    }
    if |missing| == 0 {
      if matrix.Some? {
        NothingMissing(d);
      }
      return;
    }
    ids := FindRepairs(seen, k, r, |missing|);
    if |ids| < |missing| || matrix == None {
      return false;
    }
    var system := BuildSystem(symbols[..], missing, ids, matrix.value, k, seen, size, gf, neon, d);
    ok := Eliminate(symbols, missing, system, size, gf, neon);
    if ok {
      SolutionExplains(d, Contents(symbols[..]));
    }
  }

  lemma NothingMissing(d: Received)
    requires d.Shaped() && d.Gaps() == []
    ensures d.Decodable()
    ensures forall s :: Rectangle(s, d.k, d.size) ==> (d.Explains(s) <==> s == d.symbols[..d.k])
  {
    forall x | Solves(d.System(), x, Zeros(0), 0) ensures x == Zeros(0) {
      assert |x| == 0;
    }
    forall i | 0 <= i < d.k ensures d.seen[i] {
      if !d.seen[i] {
        var j := MissingCovers(d.seen, d.k, i);
      }
    }
  }
}
