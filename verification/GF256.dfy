/**
 The same field on byte values, together with the lookup tables of
 src/fec/rs_small.cpp.  Everything above this module uses only the laws below.
 */
module GF256 {
  import opened Common
  import Bits = GfBits

  /** The bits of a number below 256, lowest first. */
  function ToBits(a: byte): (b: bv8)
    ensures Ladder(a, b)
  {
    if a == 0 then 0 else
      LadderUp(a, ToBits(a / 2));
      Bits.Join(ToBits(a / 2), a % 2 == 1)
  }

  /** The number some bits stand for. */
  function FromBits(b: bv8): (a: byte)
    ensures Ladder(a, b)
    decreases b
  {
    if b == 0 then 0 else
      Bits.HalfLinear(b, b);
      LadderDown(b, FromBits(Bits.Half(b)));
      2 * FromBits(Bits.Half(b)) + if b & 1 != 0 then 1 else 0
  }

  /** The two encodings have the same magnitude. */
  ghost predicate Ladder(a: int, b: bv8) {
    && (a < 1 <==> b < 1) && (a < 2 <==> b < 2) && (a < 4 <==> b < 4) && (a < 8 <==> b < 8)
    && (a < 16 <==> b < 16) && (a < 32 <==> b < 32) && (a < 64 <==> b < 64) && (a < 128 <==> b < 128)
    && 0 <= a < 256
  }

  lemma {:induction false} LadderUp(a: byte, t: bv8)
    requires Ladder(a / 2, t)
    ensures Ladder(a, Bits.Join(t, a % 2 == 1))
  {
    assert t < 128;
    Bits.JoinMagnitude(t, a % 2 == 1);
  }

  lemma {:induction false} LadderDown(b: bv8, h: byte)
    requires Ladder(h, Bits.Half(b))
    ensures Ladder(2 * h + if b & 1 != 0 then 1 else 0, b)
  {
    Bits.HalfMagnitude(b);
  }

  lemma {:induction false} BitsOfByte(a: byte)
    ensures FromBits(ToBits(a)) == a
  {
    if a != 0 {
      var t := ToBits(a / 2);
      assert t < 128;
      Bits.JoinParts(t, a % 2 == 1);
      BitsOfByte(a / 2);
    }
  }

  lemma {:induction false} ByteOfBits(b: bv8)
    ensures ToBits(FromBits(b)) == b
    decreases b
  {
    if b != 0 {
      Bits.HalfLinear(b, b);
      ByteOfBits(Bits.Half(b));
      Bits.PartsJoin(b);
    }
  }

  lemma ZeroAndOne()
    ensures ToBits(0) == 0 && ToBits(1) == 1
    ensures FromBits(0) == 0 && FromBits(1) == 1
  {
    assert Bits.Half(1) == 0;
    assert Bits.Join(0, true) == 1;
    assert ToBits(1 / 2) == 0;
  }

  lemma Conversions(a: byte, b: bv8)
    ensures FromBits(ToBits(a)) == a
    ensures ToBits(FromBits(b)) == b
    ensures ToBits(0) == 0 && ToBits(1) == 1
    ensures FromBits(0) == 0 && FromBits(1) == 1
  {
    hide ToBits;
    hide FromBits;
    BitsOfByte(a);
    ByteOfBits(b);
    ZeroAndOne();
  }

  /** Field addition: exclusive or. */
  function Add(a: byte, b: byte): byte {
    FromBits(Bits.Add(ToBits(a), ToBits(b)))
  }

  /** The field product that the tables hold. */
  function Mul(a: byte, b: byte): byte {
    FromBits(Bits.Mul(ToBits(a), ToBits(b)))
  }

  // ----- Field laws -----

  lemma AddLaws(a: byte, b: byte)
    ensures Add(a, b) == Add(b, a)
    ensures Add(a, 0) == a && Add(0, a) == a
    ensures Add(a, a) == 0
    ensures Add(Add(a, b), b) == a
    ensures Add(a, b) == 0 <==> a == b
  {
    hide ToBits;
    hide FromBits;
    hide Bits.Add;
    var x, y := ToBits(a), ToBits(b);
    Bits.AddLaws(x, y);
    Conversions(a, Bits.Add(x, y));
    Conversions(b, Bits.Add(y, x));
  }

  lemma AddAssociates(a: byte, b: byte, c: byte)
    ensures Add(Add(a, b), c) == Add(a, Add(b, c))
  {
    hide ToBits;
    hide FromBits;
    hide Bits.Add;
    var x, y, z := ToBits(a), ToBits(b), ToBits(c);
    Bits.AddAssociates(x, y, z);
    Conversions(a, Bits.Add(x, y));
    Conversions(a, Bits.Add(y, z));
  }

  lemma Regroup(a: byte, b: byte, c: byte, d: byte)
    ensures Add(Add(a, b), Add(c, d)) == Add(Add(a, c), Add(b, d))
  {
    hide ToBits;
    hide FromBits;
    hide Bits.Add;
    hide Add;
    AddAssociates(a, b, Add(c, d));
    AddAssociates(b, c, d);
    AddLaws(b, c);
    AddAssociates(c, b, d);
    AddAssociates(a, c, Add(b, d));
  }

  lemma MulLaws(a: byte, b: byte)
    ensures Mul(a, b) == Mul(b, a)
    ensures Mul(0, a) == 0 && Mul(a, 0) == 0
    ensures Mul(1, a) == a && Mul(a, 1) == a
  {
    hide ToBits;
    hide FromBits;
    hide Bits.Mul;
    Conversions(a, 0);
    Bits.Commutes(ToBits(a), ToBits(b));
    Bits.MulZero(ToBits(a));
    Bits.Commutes(ToBits(a), 0);
    Bits.OneLeft(ToBits(a));
    Bits.OneRight(ToBits(a));
  }

  lemma MulAssociates(a: byte, b: byte, c: byte)
    ensures Mul(Mul(a, b), c) == Mul(a, Mul(b, c))
  {
    hide ToBits;
    hide FromBits;
    hide Bits.Mul;
    var x, y, z := ToBits(a), ToBits(b), ToBits(c);
    Bits.Associates(x, y, z);
    Conversions(a, Bits.Mul(x, y));
    Conversions(a, Bits.Mul(y, z));
  }

  lemma Distributes(a: byte, b: byte, c: byte)
    ensures Mul(a, Add(b, c)) == Add(Mul(a, b), Mul(a, c))
    ensures Mul(Add(b, c), a) == Add(Mul(b, a), Mul(c, a))
  {
    hide ToBits;
    hide FromBits;
    hide Bits.Add;
    hide Bits.Mul;
    var x, y, z := ToBits(a), ToBits(b), ToBits(c);
    Bits.DistributesRight(x, y, z);
    Bits.DistributesLeft(y, z, x);
    Conversions(a, Bits.Add(y, z));
    Conversions(a, Bits.Mul(x, y));
    Conversions(a, Bits.Mul(x, z));
    Conversions(a, Bits.Mul(y, x));
    Conversions(a, Bits.Mul(z, x));
  }

  lemma HasInverse(a: byte) returns (b: byte)
    requires a != 0
    ensures Mul(a, b) == 1
  {
    hide ToBits;
    hide FromBits;
    hide Bits.Mul;
    Conversions(a, 0);
    var y := Bits.HasInverse(ToBits(a));
    b := FromBits(y);
    Conversions(a, y);
  }

  /** Multiplication by a non-zero byte loses nothing. */
  lemma Cancels(s: byte, a: byte, b: byte)
    requires s != 0 && Mul(s, a) == Mul(s, b)
    ensures a == b
  {
    hide Mul;
    var t := HasInverse(s);
    MulLaws(s, t);
    MulAssociates(t, s, a);
    MulAssociates(t, s, b);
    MulLaws(a, a);
    MulLaws(b, b);
  }

  // ----- Lookup tables -----

  ghost predicate ProductRow(row: seq<byte>, a: byte) {
    |row| == 256 && forall b: byte :: row[b] == Mul(a, b)
  }

  ghost predicate NibbleRows(low: seq<byte>, high: seq<byte>, a: byte) {
    && |low| == |high| == 16
    && forall n :: 0 <= n < 16 ==> low[n] == Mul(a, n) && high[n] == Mul(a, 16 * n)
  }

  ghost predicate InverseOf(a: byte, b: byte) {
    if a == 0 then b == 0 else Mul(a, b) == 1
  }

  /** The `Field` record: product rows, inverses and the two nibble tables. */
  datatype Field = Field(multiply: seq<seq<byte>>, inverse: seq<byte>, low: seq<seq<byte>>, high: seq<seq<byte>>)
  {
    ghost predicate Valid() {
      && |multiply| == |inverse| == |low| == |high| == 256
      && (forall a: byte :: ProductRow(multiply[a], a))
      && (forall a: byte :: InverseOf(a, inverse[a]))
      && (forall a: byte :: NibbleRows(low[a], high[a], a))
    }
  }

  /** One row of the product table, with the inverse found on the way. */
  method BuildRow(a: byte) returns (row: seq<byte>, inverse: byte)
    ensures ProductRow(row, a)
    ensures InverseOf(a, inverse)
  {
    hide ToBits;
    hide FromBits;
    hide Bits.Mul;
    row, inverse := [], 0;
    for b := 0 to 256
      invariant |row| == b
      invariant forall i :: 0 <= i < b ==> row[i] == Mul(a, i)
      invariant inverse == 0 || Mul(a, inverse) == 1
      invariant forall i :: 0 <= i < b && Mul(a, i) == 1 ==> Mul(a, inverse) == 1
    {
      var product := Bits.ShiftXorProduct(ToBits(a), ToBits(b));
      row := row + [FromBits(product)];
      if row[b] == 1 {
        inverse := b;
      }
    }
    MulLaws(inverse, a);
    if a != 0 {
      var b := HasInverse(a);
      assert Mul(a, b) == 1;
      MulLaws(a, 0);
    }
  }

  /** The nibble rows are read off the finished product row. */
  method BuildNibbles(row: seq<byte>, ghost a: byte) returns (low: seq<byte>, high: seq<byte>)
    requires ProductRow(row, a)
    ensures NibbleRows(low, high, a)
  {
    hide Mul;
    low, high := [], [];
    for nibble := 0 to 16
      invariant |low| == |high| == nibble
      invariant forall n :: 0 <= n < nibble ==> low[n] == Mul(a, n) && high[n] == Mul(a, 16 * n)
    {
      low := low + [row[nibble]];
      high := high + [row[16 * nibble]];
    }
  }

  /** The constructor of `Field`. */
  method BuildField() returns (gf: Field)
    ensures gf.Valid()
  {
    hide Mul;
    var multiply, inverse, low, high := [], [], [], [];
    for a := 0 to 256
      invariant |multiply| == |inverse| == |low| == |high| == a
      invariant forall i :: 0 <= i < a ==> ProductRow(multiply[i], i)
      invariant forall i :: 0 <= i < a ==> InverseOf(i, inverse[i])
      invariant forall i :: 0 <= i < a ==> NibbleRows(low[i], high[i], i)
    {
      var row, inv := BuildRow(a);
      var lo, hi := BuildNibbles(row, a);
      multiply, inverse, low, high := multiply + [row], inverse + [inv], low + [lo], high + [hi];
    }
    gf := Field(multiply, inverse, low, high);
  }
}
