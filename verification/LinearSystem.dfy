/**
 Square linear systems over GF(256) and the three row operations of
 Gauss-Jordan elimination.  Every operation keeps both the solutions of the
 system, at every byte position, and its kernel.
 */
module LinearSystem {
  import opened Common
  import opened GF256
  import opened RsKernels

  type Vec = seq<byte>
  type Matrix = seq<seq<byte>>

  /** The sum of the first `n` products. */
  function Dot(row: Vec, x: Vec, n: nat): byte
    requires n <= |row| && n <= |x|
  {
    if n == 0 then 0 else Add(Dot(row, x, n - 1), Mul(row[n - 1], x[n - 1]))
  }

  ghost predicate Rectangle(m: Matrix, rows: nat, cols: nat) {
    |m| == rows && forall i :: 0 <= i < rows ==> |m[i]| == cols
  }

  /** Position `p` of every row. */
  function Column(m: Matrix, p: nat): (c: Vec)
    requires forall i :: 0 <= i < |m| ==> p < |m[i]|
    ensures |c| == |m|
  {
    seq(|m|, i requires 0 <= i < |m| => m[i][p])
  }

  function Zeros(n: nat): (z: Vec)
    ensures |z| == n
  {
    seq(n, i => 0)
  }

  ghost predicate Solves(a: Matrix, x: Vec, b: Vec, n: nat) {
    && Rectangle(a, n, n) && |x| == n && |b| == n
    && forall i :: 0 <= i < n ==> Dot(a[i], x, n) == b[i]
  }

  /** The symbol systems (a | b) and (c | d) have the same solutions and kernel. */
  ghost predicate Equivalent(a: Matrix, b: Matrix, c: Matrix, d: Matrix, n: nat, size: nat) {
    && Rectangle(a, n, n) && Rectangle(b, n, size) && Rectangle(c, n, n) && Rectangle(d, n, size)
    && (forall x, p :: |x| == n && 0 <= p < size ==> (Solves(a, x, Column(b, p), n) <==> Solves(c, x, Column(d, p), n)))
    && (forall x :: |x| == n ==> (Solves(a, x, Zeros(n), n) <==> Solves(c, x, Zeros(n), n)))
  }

  /** Only the zero vector is mapped to zero. */
  ghost predicate NonSingular(a: Matrix, n: nat) {
    Rectangle(a, n, n) && forall x :: Solves(a, x, Zeros(n), n) ==> x == Zeros(n)
  }

  // ----- Dot products -----

  lemma {:induction false} DotTimes(s: byte, row: Vec, x: Vec, n: nat)
    requires n <= |row| && n <= |x|
    ensures Dot(Times(s, row), x, n) == Mul(s, Dot(row, x, n))
  {
    hide Add;
    hide Mul;
    if n == 0 {
      MulLaws(s, 0);
    } else {
      DotTimes(s, row, x, n - 1);
      MulAssociates(s, row[n - 1], x[n - 1]);
      Distributes(s, Dot(row, x, n - 1), Mul(row[n - 1], x[n - 1]));
    }
  }

  lemma {:induction false} DotPlus(row: Vec, other: Vec, x: Vec, n: nat)
    requires n <= |row| <= |other| && n <= |x|
    ensures Dot(Plus(row, other), x, n) == Add(Dot(row, x, n), Dot(other, x, n))
  {
    hide Add;
    hide Mul;
    if n == 0 {
      AddLaws(0, 0);
    } else {
      DotPlus(row, other, x, n - 1);
      Distributes(x[n - 1], row[n - 1], other[n - 1]);
      Regroup(Dot(row, x, n - 1), Dot(other, x, n - 1), Mul(row[n - 1], x[n - 1]), Mul(other[n - 1], x[n - 1]));
    }
  }

  // ----- Row operations on one right-hand side -----

  lemma SwapSolves(a: Matrix, x: Vec, b: Vec, n: nat, i: nat, j: nat)
    requires Rectangle(a, n, n) && |x| == n && |b| == n && i < n && j < n
    ensures Solves(a, x, b, n) <==> Solves(a[i := a[j]][j := a[i]], x, b[i := b[j]][j := b[i]], n)
  {
    hide Dot;
    var c, d := a[i := a[j]][j := a[i]], b[i := b[j]][j := b[i]];
    if Solves(c, x, d, n) {
      forall k | 0 <= k < n ensures Dot(a[k], x, n) == b[k] {
        var l := if k == i then j else if k == j then i else k;
        assert Dot(c[l], x, n) == d[l];
      }
    }
  }

  lemma ScaleSolves(a: Matrix, x: Vec, b: Vec, n: nat, i: nat, s: byte)
    requires Rectangle(a, n, n) && |x| == n && |b| == n && i < n && s != 0
    ensures Solves(a, x, b, n) <==> Solves(a[i := Times(s, a[i])], x, b[i := Mul(s, b[i])], n)
  {
    hide Mul;
    hide Dot;
    var c, d := a[i := Times(s, a[i])], b[i := Mul(s, b[i])];
    DotTimes(s, a[i], x, n);
    if Solves(c, x, d, n) {
      assert Dot(c[i], x, n) == d[i];
      Cancels(s, Dot(a[i], x, n), b[i]);
      forall k | 0 <= k < n ensures Dot(a[k], x, n) == b[k] {
        assert k != i ==> Dot(c[k], x, n) == d[k];
      }
    }
  }

  lemma AddRowSolves(a: Matrix, x: Vec, b: Vec, n: nat, i: nat, j: nat, f: byte)
    requires Rectangle(a, n, n) && |x| == n && |b| == n && i < n && j < n && i != j
    ensures Solves(a, x, b, n)
      <==> Solves(a[i := Plus(a[i], Times(f, a[j]))], x, b[i := Add(b[i], Mul(f, b[j]))], n)
  {
    hide Add;
    hide Mul;
    hide Dot;
    var c, d := a[i := Plus(a[i], Times(f, a[j]))], b[i := Add(b[i], Mul(f, b[j]))];
    DotTimes(f, a[j], x, n);
    DotPlus(a[i], Times(f, a[j]), x, n);
    if Solves(c, x, d, n) {
      assert Dot(c[j], x, n) == d[j];
      assert Dot(c[i], x, n) == d[i];
      AddLaws(Dot(a[i], x, n), Mul(f, b[j]));
      AddLaws(b[i], Mul(f, b[j]));
      forall k | 0 <= k < n ensures Dot(a[k], x, n) == b[k] {
        assert k != i ==> Dot(c[k], x, n) == d[k];
      }
    }
  }

  // ----- Row operations on all byte positions at once -----

  lemma EquivalentSwap(a: Matrix, b: Matrix, n: nat, size: nat, i: nat, j: nat)
    requires Rectangle(a, n, n) && Rectangle(b, n, size) && i < n && j < n
    ensures Equivalent(a, b, a[i := a[j]][j := a[i]], b[i := b[j]][j := b[i]], n, size)
  {
    hide Solves;
    var c, d := a[i := a[j]][j := a[i]], b[i := b[j]][j := b[i]];
    forall x, p | |x| == n && 0 <= p < size
      ensures Solves(a, x, Column(b, p), n) <==> Solves(c, x, Column(d, p), n)
    {
      SwapSolves(a, x, Column(b, p), n, i, j);
      assert Column(d, p) == Column(b, p)[i := Column(b, p)[j]][j := Column(b, p)[i]];
    }
    forall x | |x| == n ensures Solves(a, x, Zeros(n), n) <==> Solves(c, x, Zeros(n), n) {
      SwapSolves(a, x, Zeros(n), n, i, j);
      assert Zeros(n) == Zeros(n)[i := 0][j := 0];
    }
  }

  lemma EquivalentScale(a: Matrix, b: Matrix, n: nat, size: nat, i: nat, s: byte)
    requires Rectangle(a, n, n) && Rectangle(b, n, size) && i < n && s != 0
    ensures Equivalent(a, b, a[i := Times(s, a[i])], b[i := Times(s, b[i])], n, size)
  {
    hide Solves;
    hide Mul;
    var c, d := a[i := Times(s, a[i])], b[i := Times(s, b[i])];
    forall x, p | |x| == n && 0 <= p < size
      ensures Solves(a, x, Column(b, p), n) <==> Solves(c, x, Column(d, p), n)
    {
      ScaleSolves(a, x, Column(b, p), n, i, s);
      assert Column(d, p) == Column(b, p)[i := Mul(s, Column(b, p)[i])];
    }
    forall x | |x| == n ensures Solves(a, x, Zeros(n), n) <==> Solves(c, x, Zeros(n), n) {
      ScaleSolves(a, x, Zeros(n), n, i, s);
      MulLaws(s, 0);
      assert Zeros(n) == Zeros(n)[i := 0];
    }
  }

  lemma EquivalentAddRow(a: Matrix, b: Matrix, n: nat, size: nat, i: nat, j: nat, f: byte)
    requires Rectangle(a, n, n) && Rectangle(b, n, size) && i < n && j < n && i != j
    ensures Equivalent(a, b, a[i := Plus(a[i], Times(f, a[j]))], b[i := Plus(b[i], Times(f, b[j]))], n, size)
  {
    hide Solves;
    hide Mul;
    hide Add;
    var c, d := a[i := Plus(a[i], Times(f, a[j]))], b[i := Plus(b[i], Times(f, b[j]))];
    forall x, p | |x| == n && 0 <= p < size
      ensures Solves(a, x, Column(b, p), n) <==> Solves(c, x, Column(d, p), n)
    {
      AddRowSolves(a, x, Column(b, p), n, i, j, f);
      assert Column(d, p) == Column(b, p)[i := Add(Column(b, p)[i], Mul(f, Column(b, p)[j]))];
    }
    forall x | |x| == n ensures Solves(a, x, Zeros(n), n) <==> Solves(c, x, Zeros(n), n) {
      AddRowSolves(a, x, Zeros(n), n, i, j, f);
      MulLaws(f, 0);
      AddLaws(0, 0);
      assert Zeros(n) == Zeros(n)[i := 0];
    }
  }

  lemma EquivalentTransitive(a: Matrix, b: Matrix, c: Matrix, d: Matrix, e: Matrix, f: Matrix, n: nat, size: nat)
    requires Equivalent(a, b, c, d, n, size) && Equivalent(c, d, e, f, n, size)
    ensures Equivalent(a, b, e, f, n, size)
  {
    hide Solves;
    hide Column;
    hide Zeros;
  }

  // ----- Elimination -----

  /** Columns before `col` are those of the identity. */
  ghost predicate UnitColumns(a: Matrix, n: nat, col: nat) {
    && Rectangle(a, n, n) && col <= n
    && forall i, j :: 0 <= i < n && 0 <= j < col ==> a[i][j] == if i == j then 1 else 0
  }

  /** Against unit columns a dot product picks out one entry. */
  lemma {:induction false} DotUnit(a: Matrix, n: nat, col: nat, i: nat, x: Vec, m: nat)
    requires UnitColumns(a, n, col) && i < n && |x| == n && m <= col
    ensures Dot(a[i], x, m) == if i < m then x[i] else 0
  {
    hide Add;
    hide Mul;
    if m > 0 {
      DotUnit(a, n, col, i, x, m - 1);
      MulLaws(x[m - 1], 0);
      AddLaws(x[m - 1], 0);
      AddLaws(if i < m - 1 then x[i] else 0, 0);
    }
  }

  /** The fully reduced system is its own solution. */
  lemma ReducedSolves(a: Matrix, n: nat, x: Vec, b: Vec)
    requires UnitColumns(a, n, n) && |x| == n && |b| == n
    ensures Solves(a, x, b, n) <==> x == b
  {
    hide Dot;
    forall i | 0 <= i < n ensures Dot(a[i], x, n) == x[i] {
      DotUnit(a, n, n, i, x, n);
    }
    if Solves(a, x, b, n) {
      forall i | 0 <= i < n ensures x[i] == b[i] {
        assert Dot(a[i], x, n) == b[i];
      }
    }
  }

  /** The kernel vector of a column without a pivot. */
  function Witness(a: Matrix, n: nat, col: nat): (x: Vec)
    requires (forall i :: 0 <= i < |a| ==> |a[i]| == n) && |a| == n && col < n
    ensures |x| == n
  {
    seq(n, i requires 0 <= i < n => if i < col then a[i][col] else if i == col then 1 else 0)
  }

  lemma {:induction false} DotTail(row: Vec, x: Vec, from: nat, n: nat)
    requires from <= n <= |row| && n <= |x|
    requires forall j :: from <= j < n ==> x[j] == 0
    ensures Dot(row, x, n) == Dot(row, x, from)
  {
    hide Add;
    hide Mul;
    if from < n {
      DotTail(row, x, from, n - 1);
      MulLaws(row[n - 1], 0);
      AddLaws(Dot(row, x, from), 0);
    }
  }

  /** When elimination finds no pivot, the matrix kills a non-zero vector. */
  lemma NoPivotSingular(a: Matrix, n: nat, col: nat)
    requires UnitColumns(a, n, col) && col < n
    requires forall i :: col <= i < n ==> a[i][col] == 0
    ensures Solves(a, Witness(a, n, col), Zeros(n), n)
    ensures Witness(a, n, col) != Zeros(n)
  {
    hide Add;
    hide Mul;
    var x := Witness(a, n, col);
    assert x[col] != Zeros(n)[col];
    forall i | 0 <= i < n ensures Dot(a[i], x, n) == 0 {
      DotTail(a[i], x, col + 1, n);
      DotUnit(a, n, col, i, x, col);
      MulLaws(a[i][col], 1);
      AddLaws(if i < col then x[i] else 0, a[i][col]);
      AddLaws(0, 0);
    }
  }

  function Swapped(a: Matrix, i: nat, j: nat): Matrix
    requires i < |a| && j < |a|
  {
    a[i := a[j]][j := a[i]]
  }

  /** Swapping the pivot row into place and scaling it keeps the system. */
  lemma PivotStep(a: Matrix, b: Matrix, n: nat, size: nat, col: nat, pivot: nat, s: byte)
    requires UnitColumns(a, n, col) && Rectangle(b, n, size) && col <= pivot < n
    requires Mul(a[pivot][col], s) == 1
    ensures var c, d := Swapped(a, col, pivot), Swapped(b, col, pivot);
      && Equivalent(a, b, c[col := Times(s, c[col])], d[col := Times(s, d[col])], n, size)
      && UnitColumns(c[col := Times(s, c[col])], n, col)
      && Times(s, c[col])[col] == 1
  {
    hide Mul;
    hide Solves;
    MulLaws(a[pivot][col], s);
    MulLaws(s, 0);
    var c, d := Swapped(a, col, pivot), Swapped(b, col, pivot);
    EquivalentSwap(a, b, n, size, col, pivot);
    EquivalentScale(c, d, n, size, col, s);
    EquivalentTransitive(a, b, c, d, c[col := Times(s, c[col])], d[col := Times(s, d[col])], n, size);
  }

  /** Clearing one entry of column `col` with the pivot row keeps the system. */
  lemma ClearStep(a: Matrix, b: Matrix, n: nat, size: nat, col: nat, row: nat)
    requires UnitColumns(a, n, col) && Rectangle(b, n, size) && col < n && row < n && row != col
    requires a[col][col] == 1
    ensures var f := a[row][col];
      var c, d := a[row := Plus(a[row], Times(f, a[col]))], b[row := Plus(b[row], Times(f, b[col]))];
      && Equivalent(a, b, c, d, n, size)
      && UnitColumns(c, n, col)
      && c[row][col] == 0
  {
    hide Mul;
    hide Add;
    hide Solves;
    var f := a[row][col];
    MulLaws(f, 0);
    AddLaws(f, f);
    EquivalentAddRow(a, b, n, size, row, col, f);
    forall j | 0 <= j < col ensures Plus(a[row], Times(f, a[col]))[j] == a[row][j] {
      AddLaws(a[row][j], 0);
    }
  }
}
