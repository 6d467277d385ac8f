/**
 GF(256) with polynomial 0x11d on bit vectors, as the table-filling loop of
 src/fec/rs_small.cpp computes it.  The lemmas show that shift-and-xor makes
 the bytes a field whose addition is exclusive or.
 */
module GfBits {

  /** Field addition (and subtraction). */
  function Add(a: bv8, b: bv8): bv8 {
    a ^ b
  }

  function Shift(a: bv8): bv8 {
    a << 1
  }

  /** What reducing by 0x11d adds once bit seven is shifted out. */
  function Carry(a: bv8): bv8 {
    if a & 0x80 != 0 then 0x1d else 0
  }

  /** Multiplication by x. */
  function Double(a: bv8): bv8 {
    Add(Shift(a), Carry(a))
  }

  function Half(b: bv8): bv8 {
    b >> 1
  }

  /** `a` when the low bit of `b` is set. */
  function LowBit(b: bv8, a: bv8): bv8 {
    if b & 1 != 0 then a else 0
  }

  /** The product of two bytes, by the binary expansion of the second. */
  function Mul(a: bv8, b: bv8): bv8
    decreases b
  {
    if b == 0 then 0 else Add(LowBit(b, a), Mul(Double(a), Half(b)))
  }

  // ----- Bits and halves -----

  /** The bits of twice `t`, plus one when `odd`. */
  function Join(t: bv8, odd: bool): bv8 {
    (t << 1) | (if odd then 1 else 0)
  }

  lemma {:induction false} JoinParts(t: bv8, odd: bool)
    requires t < 128
    ensures Half(Join(t, odd)) == t
    ensures (Join(t, odd) & 1 != 0) == odd
    ensures Join(t, odd) == 0 <==> t == 0 && !odd
  {
  }

  lemma {:induction false} PartsJoin(b: bv8)
    ensures Join(Half(b), b & 1 != 0) == b
  {
  }

  lemma {:induction false} HalfMagnitude(b: bv8)
    ensures (b < 2 <==> Half(b) < 1) && (b < 4 <==> Half(b) < 2) && (b < 8 <==> Half(b) < 4)
    ensures (b < 16 <==> Half(b) < 8) && (b < 32 <==> Half(b) < 16) && (b < 64 <==> Half(b) < 32)
    ensures (b < 128 <==> Half(b) < 64) && Half(b) < 128
    ensures b < 1 <==> Half(b) < 1 && b & 1 == 0
  {
  }

  lemma JoinMagnitude(t: bv8, odd: bool)
    requires t < 128
    ensures var b := Join(t, odd);
      && (b < 2 <==> t < 1) && (b < 4 <==> t < 2) && (b < 8 <==> t < 4) && (b < 16 <==> t < 8)
      && (b < 32 <==> t < 16) && (b < 64 <==> t < 32) && (b < 128 <==> t < 64)
      && (b < 1 <==> t < 1 && !odd)
  {
    JoinParts(t, odd);
    HalfMagnitude(Join(t, odd));
  }

  // ----- Addition -----

  lemma {:induction false} AddLaws(a: bv8, b: bv8)
    ensures Add(a, b) == Add(b, a)
    ensures Add(a, 0) == a && Add(0, a) == a
    ensures Add(a, a) == 0
    ensures Add(Add(a, b), b) == a
    ensures Add(a, b) == 0 <==> a == b
  {
  }

  lemma {:induction false} AddAssociates(a: bv8, b: bv8, c: bv8)
    ensures Add(Add(a, b), c) == Add(a, Add(b, c))
  {
  }

  lemma {:induction false} Regroup(a: bv8, b: bv8, c: bv8, d: bv8)
    ensures Add(Add(a, b), Add(c, d)) == Add(Add(a, c), Add(b, d))
  {
    AddAssociates(a, b, Add(c, d));
    AddAssociates(b, c, d);
    AddLaws(b, c);
    AddAssociates(c, b, d);
    AddAssociates(a, c, Add(b, d));
  }

  // ----- One bit of the multiplier -----

  lemma {:induction false} ShiftLinear(a: bv8, b: bv8)
    ensures Shift(Add(a, b)) == Add(Shift(a), Shift(b))
  {
  }

  lemma {:induction false} CarryLinear(a: bv8, b: bv8)
    ensures Carry(Add(a, b)) == Add(Carry(a), Carry(b))
  {
  }

  lemma {:induction false} DoubleLinear(a: bv8, b: bv8)
    ensures Double(Add(a, b)) == Add(Double(a), Double(b))
  {
    ShiftLinear(a, b);
    CarryLinear(a, b);
    Regroup(Shift(a), Shift(b), Carry(a), Carry(b));
  }

  lemma {:induction false} LowBitLinear(c: bv8, a: bv8, b: bv8)
    ensures LowBit(c, Add(a, b)) == Add(LowBit(c, a), LowBit(c, b))
  {
  }

  lemma {:induction false} LowBitDouble(c: bv8, a: bv8)
    ensures Double(LowBit(c, a)) == LowBit(c, Double(a))
  {
    assert Double(0) == 0;
  }

  lemma {:induction false} LowBitOfSum(a: bv8, b: bv8, c: bv8)
    ensures LowBit(Add(b, c), a) == Add(LowBit(b, a), LowBit(c, a))
  {
  }

  lemma {:induction false} HalfLinear(b: bv8, c: bv8)
    ensures Half(Add(b, c)) == Add(Half(b), Half(c))
    ensures b != 0 ==> Half(b) < b
  {
  }

  /** Every byte is its low bit plus twice its upper half. */
  lemma {:induction false} Expand(a: bv8)
    ensures Add(LowBit(a, 1), Double(Half(a))) == a
  {
  }

  /** The recursion of `Mul`, also for a zero multiplier. */
  lemma {:induction false} MulStep(a: bv8, b: bv8)
    ensures Mul(a, b) == Add(LowBit(b, a), Mul(Double(a), Half(b)))
    ensures Mul(a, 0) == 0
  {
    assert Mul(Double(a), 0) == 0;
  }

  // ----- Multiplication -----

  lemma {:induction false} MulZero(b: bv8)
    ensures Mul(0, b) == 0
    decreases b
  {
    if b != 0 {
      MulStep(0, b);
      assert Double(0) == 0 && LowBit(b, 0) == 0;
      HalfLinear(b, 0);
      MulZero(Half(b));
    }
  }

  lemma {:induction false} DistributesLeft(a: bv8, b: bv8, c: bv8)
    ensures Mul(Add(a, b), c) == Add(Mul(a, c), Mul(b, c))
    decreases c
  {
    MulStep(a, c);
    MulStep(b, c);
    MulStep(Add(a, b), c);
    if c == 0 {
      AddLaws(0, 0);
    } else {
      DoubleLinear(a, b);
      LowBitLinear(c, a, b);
      HalfLinear(c, c);
      DistributesLeft(Double(a), Double(b), Half(c));
      Regroup(LowBit(c, a), LowBit(c, b), Mul(Double(a), Half(c)), Mul(Double(b), Half(c)));
    }
  }

  lemma {:induction false} DistributesRight(a: bv8, b: bv8, c: bv8)
    ensures Mul(a, Add(b, c)) == Add(Mul(a, b), Mul(a, c))
    decreases b
  {
    MulStep(a, b);
    MulStep(a, c);
    MulStep(a, Add(b, c));
    if b == 0 {
      AddLaws(c, 0);
      AddLaws(Mul(a, c), 0);
    } else {
      HalfLinear(b, c);
      DistributesRight(Double(a), Half(b), Half(c));
      LowBitOfSum(a, b, c);
      Regroup(LowBit(b, a), LowBit(c, a), Mul(Double(a), Half(b)), Mul(Double(a), Half(c)));
    }
  }

  lemma {:induction false} DoubleOut(a: bv8, b: bv8)
    ensures Mul(Double(a), b) == Double(Mul(a, b))
    decreases b
  {
    MulStep(a, b);
    MulStep(Double(a), b);
    if b == 0 {
      assert Double(0) == 0;
    } else {
      HalfLinear(b, b);
      DoubleOut(Double(a), Half(b));
      LowBitDouble(b, a);
      DoubleLinear(LowBit(b, a), Mul(Double(a), Half(b)));
    }
  }

  lemma {:induction false} OneLeft(b: bv8)
    ensures Mul(1, b) == b
    decreases b
  {
    MulStep(1, b);
    if b != 0 {
      HalfLinear(b, b);
      OneLeft(Half(b));
      DoubleOut(1, Half(b));
      Expand(b);
    }
  }

  lemma {:induction false} Commutes(a: bv8, b: bv8)
    ensures Mul(a, b) == Mul(b, a)
    decreases a
  {
    MulStep(b, a);
    if a == 0 {
      MulZero(b);
    } else {
      Expand(a);
      DistributesLeft(LowBit(a, 1), Double(Half(a)), b);
      LowBitTimes(a, b);
      HalfLinear(a, a);
      DoubleOut(Half(a), b);
      Commutes(Half(a), b);
      DoubleOut(b, Half(a));
    }
  }

  lemma {:induction false} LowBitTimes(a: bv8, b: bv8)
    ensures Mul(LowBit(a, 1), b) == LowBit(a, b)
    ensures Mul(b, LowBit(a, 1)) == LowBit(a, b)
  {
    OneLeft(b);
    MulZero(b);
    MulStep(b, 1);
    MulStep(Double(b), 0);
    AddLaws(b, 0);
  }

  lemma {:induction false} OneRight(a: bv8)
    ensures Mul(a, 1) == a
  {
    Commutes(a, 1);
    OneLeft(a);
  }

  lemma {:induction false} Associates(a: bv8, b: bv8, c: bv8)
    ensures Mul(Mul(a, b), c) == Mul(a, Mul(b, c))
    decreases c
  {
    MulStep(Mul(a, b), c);
    MulStep(b, c);
    if c == 0 {
      MulStep(a, 0);
    } else {
      HalfLinear(c, c);
      Associates(a, Double(b), Half(c));
      DoubleRight(a, b);
      LowBitScales(c, a, b);
      DistributesRight(a, LowBit(c, b), Mul(Double(b), Half(c)));
    }
  }

  lemma {:induction false} DoubleRight(a: bv8, b: bv8)
    ensures Mul(a, Double(b)) == Double(Mul(a, b))
  {
    Commutes(a, Double(b));
    DoubleOut(b, a);
    Commutes(a, b);
  }

  lemma {:induction false} LowBitScales(c: bv8, a: bv8, b: bv8)
    ensures LowBit(c, Mul(a, b)) == Mul(a, LowBit(c, b))
  {
    MulStep(a, 0);
  }

  // ----- Inverses -----

  /** One step of long division: cancel the leading term when it is present. */
  function Cut(r: bv16, t: bv16): bv16 {
    if r ^ t < r then r ^ t else r
  }

  /** The long division of 0x11d by `v`, cancelled down to x to the power `s`. */
  function Divided(v: bv16, s: bv16): bv16
    decreases 8 - s
  {
    if s >= 8 then 0x11d else Cut(Divided(v, s + 1), v << s)
  }

  /** The remainder of 0x11d divided by a polynomial of degree one to seven. */
  function Remainder(v: bv16): bv16 {
    Cut(Cut(Cut(Cut(Cut(Cut(Cut(Cut(0x11d, v << 7), v << 6), v << 5), v << 4), v << 3), v << 2), v << 1), v << 0)
  }

  lemma {:induction false} DividedIsRemainder(v: bv16)
    ensures Divided(v, 0) == Remainder(v)
  {
    assert Divided(v, 8) == 0x11d;
    assert Divided(v, 7) == Cut(0x11d, v << 7);
    assert Divided(v, 6) == Cut(Cut(0x11d, v << 7), v << 6);
    assert Divided(v, 5) == Cut(Cut(Cut(0x11d, v << 7), v << 6), v << 5);
    assert Divided(v, 4) == Cut(Cut(Cut(Cut(0x11d, v << 7), v << 6), v << 5), v << 4);
    assert Divided(v, 3) == Cut(Cut(Cut(Cut(Cut(0x11d, v << 7), v << 6), v << 5), v << 4), v << 3);
    assert Divided(v, 2) == Cut(Cut(Cut(Cut(Cut(Cut(0x11d, v << 7), v << 6), v << 5), v << 4), v << 3), v << 2);
    assert Divided(v, 1) == Cut(Cut(Cut(Cut(Cut(Cut(Cut(0x11d, v << 7), v << 6), v << 5), v << 4), v << 3), v << 2), v << 1);
  }

  function Low(v: bv16): bv8 {
    (v & 0xff) as bv8
  }

  function Overflow(v: bv16): bv8 {
    if v & 0x100 != 0 then 0x1d else 0
  }

  /** A polynomial of degree at most eight, reduced to a byte. */
  function Reduced(v: bv16): bv8 {
    Add(Low(v), Overflow(v))
  }

  lemma {:induction false} ReducedParts(v: bv16, w: bv16)
    ensures Low(v ^ w) == Add(Low(v), Low(w))
    ensures Overflow(v ^ w) == Add(Overflow(v), Overflow(w))
  {
  }

  lemma {:induction false} ReducedLinear(v: bv16, w: bv16)
    ensures Reduced(v ^ w) == Add(Reduced(v), Reduced(w))
  {
    ReducedParts(v, w);
    Regroup(Low(v), Low(w), Overflow(v), Overflow(w));
  }

  lemma {:induction false} ReducedShift(v: bv16)
    requires v < 0x100
    ensures Reduced(v << 1) == Double(Reduced(v))
  {
    assert Overflow(v) == 0;
    AddLaws(Low(v), 0);
    assert Low(v << 1) == Shift(Low(v));
    assert Overflow(v << 1) == Carry(Low(v));
  }

  /** The polynomial `v` is a multiple of `a` in the field. */
  ghost predicate Multiple(a: bv8, v: bv16) {
    v < 0x200 && exists x :: Mul(a, x) == Reduced(v)
  }

  lemma {:induction false} MultipleShift(a: bv8, v: bv16)
    requires Multiple(a, v) && v < 0x100
    ensures Multiple(a, v << 1)
  {
    var x :| Mul(a, x) == Reduced(v);
    ReducedShift(v);
    DoubleRight(a, x);
    assert Mul(a, Double(x)) == Reduced(v << 1);
  }

  /** Shifts of `a` that stay within degree eight are multiples of it. */
  lemma {:induction false} MultipleShifts(a: bv8, s: bv16)
    requires s <= 7 && (a as bv16) << s < 0x200
    ensures Multiple(a, (a as bv16) << s)
    decreases s
  {
    if s == 0 {
      OneRight(a);
      assert Reduced(a as bv16) == a;
      assert Mul(a, 1) == Reduced((a as bv16) << s);
    } else {
      ShiftOnce(a as bv16, s);
      MultipleShifts(a, s - 1);
      MultipleShift(a, (a as bv16) << (s - 1));
    }
  }

  lemma {:induction false} ShiftOnce(v: bv16, s: bv16)
    requires v < 0x100 && 0 < s <= 7 && v << s < 0x200
    ensures v << (s - 1) < 0x100 && (v << (s - 1)) << 1 == v << s
  {
  }

  lemma {:induction false} CutBound(r: bv16, t: bv16)
    requires r < 0x200
    ensures Cut(r, t) < 0x200
    ensures Cut(r, t) != r ==> t < 0x200 && Cut(r, t) == r ^ t
  {
  }

  lemma {:induction false} MultipleCut(a: bv8, r: bv16, s: bv16)
    requires Multiple(a, r) && s <= 7
    ensures Multiple(a, Cut(r, (a as bv16) << s))
  {
    var t := (a as bv16) << s;
    CutBound(r, t);
    if Cut(r, t) != r {
      MultipleShifts(a, s);
      var q :| Mul(a, q) == Reduced(r);
      var x :| Mul(a, x) == Reduced(t);
      ReducedLinear(r, t);
      DistributesRight(a, q, x);
      assert Mul(a, Add(q, x)) == Reduced(r ^ t);
    }
  }

  /** The long division never leaves the multiples of `a`. */
  lemma {:induction false} DividedIsMultiple(a: bv8, s: bv16)
    requires s <= 8
    ensures Multiple(a, Divided(a as bv16, s))
    decreases 8 - s
  {
    if s == 8 {
      MulStep(a, 0);
      assert Mul(a, 0) == Reduced(0x11d);
    } else {
      DividedIsMultiple(a, s + 1);
      MultipleCut(a, Divided(a as bv16, s + 1), s);
    }
  }

  /** 0x11d is irreducible: no polynomial of degree one to seven divides it. */
  lemma {:induction false} RemainderNonZero(v: bv16)
    requires 1 < v < 0x100
    ensures 0 < Remainder(v) < v
  {
  }

  lemma {:induction false} ReducedSmall(v: bv16, a: bv8)
    requires 0 < v < a as bv16
    ensures 0 < Reduced(v) < a
  {
  }

  /** Some multiple of `a` is non-zero and smaller. */
  lemma {:induction false} Descend(a: bv8) returns (q: bv8)
    requires a > 1
    ensures 0 < Mul(a, q) < a
  {
    hide Remainder;
    hide Reduced;
    hide Mul;
    var r := Remainder(a as bv16);
    DividedIsMultiple(a, 0);
    DividedIsRemainder(a as bv16);
    q :| Mul(a, q) == Reduced(r);
    RemainderNonZero(a as bv16);
    ReducedSmall(r, a);
  }

  /** Every non-zero byte has an inverse. */
  lemma {:induction false} HasInverse(a: bv8) returns (b: bv8)
    requires a != 0
    ensures Mul(a, b) == 1
    decreases a
  {
    if a == 1 {
      b := 1;
      OneLeft(1);
    } else {
      var q := Descend(a);
      var c := HasInverse(Mul(a, q));
      b := Mul(q, c);
      Associates(a, q, c);
    }
  }

  /** Multiplication by a non-zero byte loses nothing. */
  lemma {:induction false} Cancels(s: bv8, a: bv8, b: bv8)
    requires s != 0 && Mul(s, a) == Mul(s, b)
    ensures a == b
  {
    var t := HasInverse(s);
    Commutes(s, t);
    Associates(t, s, a);
    Associates(t, s, b);
    OneLeft(a);
    OneLeft(b);
  }

  // ----- The table-filling loop -----

  /** `x <<= 1; if (x & 256) x ^= 0x11d`, on a wide register. */
  method NextPower(x: bv8) returns (y: bv8)
    ensures y == Double(x)
  {
    var wide := (x as bv16) << 1;
    if wide & 0x100 != 0 {
      wide := wide ^ 0x11d;
    }
    assert wide < 0x100;
    y := wide as bv8;
  }

  /** The innermost loop of the table construction: shift and xor, eight times. */
  method ShiftXorProduct(a: bv8, b: bv8) returns (product: bv8)
    ensures product == Mul(a, b)
  {
    var x, y := a, b;
    product := 0;
    AddLaws(Mul(a, b), 0);
    for bit := 0 to 8
      invariant Add(product, Mul(x, y)) == Mul(a, b)
      invariant y == RepeatedHalf(b, bit)
    {
      MulStep(x, y);
      AddAssociates(product, LowBit(y, x), Mul(Double(x), Half(y)));
      AddLaws(product, 0);
      if y & 1 != 0 {
        product := Add(product, x);
      }
      x := NextPower(x);
      y := Half(y);
    }
    EightHalves(b);
    MulStep(x, 0);
    AddLaws(product, 0);
  }

  ghost function RepeatedHalf(b: bv8, n: nat): bv8 {
    if n == 0 then b else Half(RepeatedHalf(b, n - 1))
  }

  lemma {:induction false} EightHalves(b: bv8)
    ensures RepeatedHalf(b, 8) == 0
  {
    assert RepeatedHalf(b, 1) == b >> 1;
    assert RepeatedHalf(b, 2) == b >> 2;
    assert RepeatedHalf(b, 3) == b >> 3;
    assert RepeatedHalf(b, 4) == b >> 4;
    assert RepeatedHalf(b, 5) == b >> 5;
    assert RepeatedHalf(b, 6) == b >> 6;
    assert RepeatedHalf(b, 7) == b >> 7;
  }
}
