/**
 The byte kernels of src/fec/rs_small.cpp.  Each fast path -- the 16-byte
 vector loop over nibble tables, the 8-byte word loop and the scalar tail --
 computes the plain pointwise product.
 */
module RsKernels {
  import opened Common
  import opened GF256
  import Bits = GfBits

  // ----- The plain operations -----

  function Plus(s: seq<byte>, t: seq<byte>): (r: seq<byte>)
    requires |s| <= |t|
    ensures |r| == |s|
  {
    seq(|s|, i requires 0 <= i < |s| => Add(s[i], t[i]))
  }

  function Times(c: byte, s: seq<byte>): (r: seq<byte>)
    ensures |r| == |s|
  {
    seq(|s|, i requires 0 <= i < |s| => Mul(c, s[i]))
  }

  /** The first `n` bytes of `now` are those of `was` plus `term`; the rest are untouched. */
  ghost predicate Combined(was: seq<byte>, now: seq<byte>, term: seq<byte>, n: nat) {
    && |was| == |now| && n <= |term| && n <= |was|
    && (forall i :: 0 <= i < n ==> now[i] == Add(was[i], term[i]))
    && (forall i :: n <= i < |was| ==> now[i] == was[i])
  }

  /** The first `n` bytes of `now` are those of `term`; the rest are untouched. */
  ghost predicate Replaced(was: seq<byte>, now: seq<byte>, term: seq<byte>, n: nat) {
    && |was| == |now| && n <= |term| && n <= |was|
    && (forall i :: 0 <= i < n ==> now[i] == term[i])
    && (forall i :: n <= i < |was| ==> now[i] == was[i])
  }

  // ----- Nibble lookups -----

  lemma {:induction false} LowMasks(b: bv8)
    ensures Bits.Half(b & 15) == Bits.Half(b) & 7 && (b & 15) & 1 == b & 1
    ensures Bits.Half(b & 7) == Bits.Half(b) & 3 && (b & 7) & 1 == b & 1
    ensures Bits.Half(b & 3) == Bits.Half(b) & 1 && (b & 3) & 1 == b & 1
    ensures Bits.Half(b & 1) == 0 && (b & 1) & 1 == b & 1
  {
  }

  lemma {:induction false} HighMasks(b: bv8)
    ensures Bits.Half(b & 0xf0) == Bits.Half(b) & 0x78 && (b & 0xf0) & 1 == 0
    ensures Bits.Half(b & 0x78) == Bits.Half(b) & 0x3c && (b & 0x78) & 1 == 0
    ensures Bits.Half(b & 0x3c) == Bits.Half(b) & 0x1e && (b & 0x3c) & 1 == 0
    ensures Bits.Half(b & 0x1e) == Bits.Half(b) & 0x0f && (b & 0x1e) & 1 == 0
    ensures b < 16 ==> b & 0x0f == b
    ensures Bits.Half(Bits.Half(Bits.Half(Bits.Half(b)))) < 16
  {
  }

  lemma {:induction false} Peel(b: bv8)
    ensures FromBits(b) == 2 * FromBits(Bits.Half(b)) + if b & 1 != 0 then 1 else 0
  {
    assert Bits.Half(0) == 0;
  }

  lemma {:induction false} PeelFour(b: bv8)
    ensures FromBits(b) == FromBits(b & 15) + 16 * FromBits(Bits.Half(Bits.Half(Bits.Half(Bits.Half(b)))))
    ensures FromBits(b & 15) < 16
  {
    hide FromBits;
    hide Bits.Half;
    var h1 := Bits.Half(b);
    var h2 := Bits.Half(h1);
    var h3 := Bits.Half(h2);
    Peel(b);
    Peel(h1);
    Peel(h2);
    Peel(h3);
    LowMasks(b);
    LowMasks(h1);
    LowMasks(h2);
    LowMasks(h3);
    Peel(b & 15);
    Peel(h1 & 7);
    Peel(h2 & 3);
    Peel(h3 & 1);
    ZeroAndOne();
  }

  lemma {:induction false} HighNibble(b: bv8)
    ensures FromBits(b & 0xf0) == 16 * FromBits(Bits.Half(Bits.Half(Bits.Half(Bits.Half(b)))))
  {
    hide FromBits;
    hide Bits.Half;
    var h1 := Bits.Half(b);
    var h2 := Bits.Half(h1);
    var h3 := Bits.Half(h2);
    HighMasks(b);
    HighMasks(h1);
    HighMasks(h2);
    HighMasks(h3);
    HighMasks(Bits.Half(h3));
    Peel(b & 0xf0);
    Peel(h1 & 0x78);
    Peel(h2 & 0x3c);
    Peel(h3 & 0x1e);
  }

  lemma {:induction false} NibbleSum(b: bv8)
    ensures Bits.Add(b & 15, b & 0xf0) == b
  {
  }

  /** A byte is the field sum of its two nibbles. */
  lemma JoinNibbles(v: byte)
    ensures Add(v % 16, 16 * (v / 16)) == v
  {
    hide FromBits;
    hide ToBits;
    hide Bits.Half;
    hide Bits.Add;
    var b := ToBits(v);
    BitsOfByte(v);
    PeelFour(b);
    HighNibble(b);
    ByteOfBits(b & 15);
    ByteOfBits(b & 0xf0);
    NibbleSum(b);
  }

  /** The two 16-entry lookups of the vector loop give the full product. */
  lemma NibbleProduct(gf: Field, c: byte, v: byte)
    requires gf.Valid()
    ensures |gf.low[c]| == |gf.high[c]| == 16
    ensures Add(gf.low[c][v % 16], gf.high[c][v / 16]) == Mul(c, v)
  {
    hide Mul;
    hide Add;
    assert NibbleRows(gf.low[c], gf.high[c], c);
    JoinNibbles(v);
    Distributes(c, v % 16, 16 * (v / 16));
  }

  // ----- Eight bytes as one word -----

  function Wide(b: bv8): bv64 {
    b as bv64
  }

  function Pack(b0: bv8, b1: bv8, b2: bv8, b3: bv8, b4: bv8, b5: bv8, b6: bv8, b7: bv8): bv64 {
    Wide(b0) | (Wide(b1) << 8) | (Wide(b2) << 16) | (Wide(b3) << 24)
    | (Wide(b4) << 32) | (Wide(b5) << 40) | (Wide(b6) << 48) | (Wide(b7) << 56)
  }

  function ByteOf(w: bv64, shift: bv64): bv8
    requires shift <= 56
  {
    ((w >> shift) & 0xff) as bv8
  }

  /** Eight bytes loaded into a word, the first in the low bits. */
  function Word(s: seq<byte>): bv64
    requires |s| == 8
  {
    Pack(ToBits(s[0]), ToBits(s[1]), ToBits(s[2]), ToBits(s[3]), ToBits(s[4]), ToBits(s[5]), ToBits(s[6]), ToBits(s[7]))
  }

  function Bytes(w: bv64): (s: seq<byte>)
    ensures |s| == 8
  {
    [FromBits(ByteOf(w, 0)), FromBits(ByteOf(w, 8)), FromBits(ByteOf(w, 16)), FromBits(ByteOf(w, 24)),
     FromBits(ByteOf(w, 32)), FromBits(ByteOf(w, 40)), FromBits(ByteOf(w, 48)), FromBits(ByteOf(w, 56))]
  }

  lemma {:induction false} XorLowBytes(v: bv64, w: bv64)
    ensures ByteOf(v ^ w, 0) == Bits.Add(ByteOf(v, 0), ByteOf(w, 0))
    ensures ByteOf(v ^ w, 8) == Bits.Add(ByteOf(v, 8), ByteOf(w, 8))
    ensures ByteOf(v ^ w, 16) == Bits.Add(ByteOf(v, 16), ByteOf(w, 16))
    ensures ByteOf(v ^ w, 24) == Bits.Add(ByteOf(v, 24), ByteOf(w, 24))
  {
  }

  lemma {:induction false} XorHighBytes(v: bv64, w: bv64)
    ensures ByteOf(v ^ w, 32) == Bits.Add(ByteOf(v, 32), ByteOf(w, 32))
    ensures ByteOf(v ^ w, 40) == Bits.Add(ByteOf(v, 40), ByteOf(w, 40))
    ensures ByteOf(v ^ w, 48) == Bits.Add(ByteOf(v, 48), ByteOf(w, 48))
    ensures ByteOf(v ^ w, 56) == Bits.Add(ByteOf(v, 56), ByteOf(w, 56))
  {
  }

  lemma {:induction false} PackLowBytes(b0: bv8, b1: bv8, b2: bv8, b3: bv8, b4: bv8, b5: bv8, b6: bv8, b7: bv8)
    ensures ByteOf(Pack(b0, b1, b2, b3, b4, b5, b6, b7), 0) == b0
    ensures ByteOf(Pack(b0, b1, b2, b3, b4, b5, b6, b7), 8) == b1
    ensures ByteOf(Pack(b0, b1, b2, b3, b4, b5, b6, b7), 16) == b2
    ensures ByteOf(Pack(b0, b1, b2, b3, b4, b5, b6, b7), 24) == b3
  {
  }

  lemma {:induction false} PackHighBytes(b0: bv8, b1: bv8, b2: bv8, b3: bv8, b4: bv8, b5: bv8, b6: bv8, b7: bv8)
    ensures ByteOf(Pack(b0, b1, b2, b3, b4, b5, b6, b7), 32) == b4
    ensures ByteOf(Pack(b0, b1, b2, b3, b4, b5, b6, b7), 40) == b5
    ensures ByteOf(Pack(b0, b1, b2, b3, b4, b5, b6, b7), 48) == b6
    ensures ByteOf(Pack(b0, b1, b2, b3, b4, b5, b6, b7), 56) == b7
  {
  }

  lemma BytesAdd(v: bv8, w: bv8)
    ensures FromBits(Bits.Add(v, w)) == Add(FromBits(v), FromBits(w))
  {
    ByteOfBits(v);
    ByteOfBits(w);
  }

  lemma BytesOfXor(v: bv64, w: bv64)
    ensures Bytes(Xor64(v, w)) == Plus(Bytes(v), Bytes(w))
  {
    hide FromBits;
    hide ByteOf;
    hide Add;
    hide Bits.Add;
    XorLowBytes(v, w);
    XorHighBytes(v, w);
    BytesAdd(ByteOf(v, 0), ByteOf(w, 0));
    BytesAdd(ByteOf(v, 8), ByteOf(w, 8));
    BytesAdd(ByteOf(v, 16), ByteOf(w, 16));
    BytesAdd(ByteOf(v, 24), ByteOf(w, 24));
    BytesAdd(ByteOf(v, 32), ByteOf(w, 32));
    BytesAdd(ByteOf(v, 40), ByteOf(w, 40));
    BytesAdd(ByteOf(v, 48), ByteOf(w, 48));
    BytesAdd(ByteOf(v, 56), ByteOf(w, 56));
  }

  lemma BytesOfWord(s: seq<byte>)
    requires |s| == 8
    ensures Bytes(Word(s)) == s
  {
    hide FromBits;
    hide ToBits;
    hide ByteOf;
    hide Pack;
    PackLowBytes(ToBits(s[0]), ToBits(s[1]), ToBits(s[2]), ToBits(s[3]), ToBits(s[4]), ToBits(s[5]), ToBits(s[6]), ToBits(s[7]));
    PackHighBytes(ToBits(s[0]), ToBits(s[1]), ToBits(s[2]), ToBits(s[3]), ToBits(s[4]), ToBits(s[5]), ToBits(s[6]), ToBits(s[7]));
    forall k | 0 <= k < 8 ensures FromBits(ToBits(s[k])) == s[k] {
      BitsOfByte(s[k]);
    }
  }

  function Xor64(v: bv64, w: bv64): bv64 {
    v ^ w
  }

  /** One exclusive or of whole words is eight field additions. */
  lemma WordXor(s: seq<byte>, t: seq<byte>)
    requires |s| == |t| == 8
    ensures Bytes(Xor64(Word(s), Word(t))) == Plus(s, t)
  {
    hide Xor64;
    hide Word;
    hide Bytes;
    hide Add;
    BytesOfXor(Word(s), Word(t));
    BytesOfWord(s);
    BytesOfWord(t);
  }

  /** Eight table lookups gathered before the word is touched. */
  method Products(table: seq<byte>, ghost c: byte, src: array<byte>, i: nat) returns (products: seq<byte>)
    requires ProductRow(table, c) && i + 8 <= src.Length
    ensures products == Times(c, src[i..i + 8])
  {
    hide Mul;
    products := [table[src[i]], table[src[i + 1]], table[src[i + 2]], table[src[i + 3]],
      table[src[i + 4]], table[src[i + 5]], table[src[i + 6]], table[src[i + 7]]];
  }

  // ----- dst += c * src -----

  /** Adding needs no table. */
  method AddBytes(dst: array<byte>, src: array<byte>, size: nat, neon: bool)
    requires dst != src && size <= dst.Length && size <= src.Length
    modifies dst
    ensures Combined(old(dst[..]), dst[..], src[..], size)
  {
    hide Add;
    var i := 0;
    while neon && i + 16 <= size
      invariant i <= size
      invariant Combined(old(dst[..]), dst[..], src[..], i)
    {
      forall lane | 0 <= lane < 16 {
        dst[i + lane] := Add(dst[i + lane], src[i + lane]);
      }
      i := i + 16;
    }
    while i < size
      invariant i <= size
      invariant Combined(old(dst[..]), dst[..], src[..], i)
    {
      dst[i] := Add(dst[i], src[i]);
      i := i + 1;
    }
  }

  /** Sixteen lanes of two nibble lookups each. */
  function VectorProduct(low: seq<byte>, high: seq<byte>, s: seq<byte>): (r: seq<byte>)
    requires |low| == |high| == 16
    ensures |r| == |s|
  {
    seq(|s|, i requires 0 <= i < |s| => Add(low[s[i] % 16], high[s[i] / 16]))
  }

  lemma VectorProductIsTimes(gf: Field, c: byte, s: seq<byte>)
    requires gf.Valid()
    ensures |gf.low[c]| == |gf.high[c]| == 16
    ensures VectorProduct(gf.low[c], gf.high[c], s) == Times(c, s)
  {
    hide Add;
    hide Mul;
    NibbleProduct(gf, c, 0);
    forall i | 0 <= i < |s| ensures VectorProduct(gf.low[c], gf.high[c], s)[i] == Times(c, s)[i] {
      NibbleProduct(gf, c, s[i]);
    }
  }

  /** The vector loop. */
  method AddVectors(dst: array<byte>, src: array<byte>, size: nat, c: byte, gf: Field) returns (i: nat)
    requires gf.Valid() && dst != src && size <= dst.Length && size <= src.Length
    modifies dst
    ensures i <= size && Combined(old(dst[..]), dst[..], Times(c, src[..]), i)
  {
    hide Add;
    hide Mul;
    hide VectorProduct;
    i := 0;
    while i + 16 <= size
      invariant i <= size
      invariant Combined(old(dst[..]), dst[..], Times(c, src[..]), i)
    {
      VectorProductIsTimes(gf, c, src[i..i + 16]);
      var product := VectorProduct(gf.low[c], gf.high[c], src[i..i + 16]);
      forall lane | 0 <= lane < 16 {
        dst[i + lane] := Add(dst[i + lane], product[lane]);
      }
      i := i + 16;
    }
  }

  /** The word loop: eight lookups, one 64-bit exclusive or. */
  method AddWords(dst: array<byte>, src: array<byte>, size: nat, c: byte, table: seq<byte>, start: nat) returns (i: nat)
    requires ProductRow(table, c) && dst != src && start <= size <= dst.Length && size <= src.Length
    modifies dst
    ensures start <= i <= size
    ensures forall k :: start <= k < i ==> dst[k] == Add(old(dst[k]), Mul(c, src[k]))
    ensures forall k :: 0 <= k < dst.Length && !(start <= k < i) ==> dst[k] == old(dst[k])
  {
    hide Add;
    hide Mul;
    hide Word;
    hide Bytes;
    hide Xor64;
    i := start;
    while i + 8 <= size
      invariant start <= i <= size
      invariant forall k :: start <= k < i ==> dst[k] == Add(old(dst[k]), Mul(c, src[k]))
      invariant forall k :: 0 <= k < dst.Length && !(start <= k < i) ==> dst[k] == old(dst[k])
    {
      var products := Products(table, c, src, i);
      WordXor(dst[i..i + 8], products);
      var value := Xor64(Word(dst[i..i + 8]), Word(products));
      forall k | 0 <= k < 8 {
        dst[i + k] := Bytes(value)[k];
      }
      i := i + 8;
    }
  }

  /** dst += c * src, with the vector loop, the word loop and the scalar tail. */
  method MultiplyAdd(dst: array<byte>, src: array<byte>, size: nat, c: byte, gf: Field, neon: bool)
    requires gf.Valid() && dst != src && size <= dst.Length && size <= src.Length
    modifies dst
    ensures Combined(old(dst[..]), dst[..], Times(c, src[..]), size)
  {
    hide Add;
    hide Mul;
    if c == 0 {
      forall i | 0 <= i < size ensures Add(dst[i], Mul(c, src[i])) == dst[i] {
        MulLaws(src[i], src[i]);
        AddLaws(dst[i], 0);
      }
      return;
    }
    if c == 1 {
      forall i | 0 <= i < size ensures Mul(c, src[i]) == src[i] {
        MulLaws(src[i], src[i]);
      }
      AddBytes(dst, src, size, neon);
      return;
    }
    var i := 0;
    if neon {
      i := AddVectors(dst, src, size, c, gf);
    }
    var table := gf.multiply[c];
    assert ProductRow(table, c);
    i := AddWords(dst, src, size, c, table, i);
    while i < size
      invariant i <= size
      invariant Combined(old(dst[..]), dst[..], Times(c, src[..]), i)
    {
      dst[i] := Add(dst[i], table[src[i]]);
      i := i + 1;
    }
  }

  // ----- dst := c * dst -----

  method ScaleVectors(dst: array<byte>, size: nat, c: byte, gf: Field) returns (i: nat)
    requires gf.Valid() && size <= dst.Length
    modifies dst
    ensures i <= size && Replaced(old(dst[..]), dst[..], Times(c, old(dst[..])), i)
  {
    hide Add;
    hide Mul;
    hide VectorProduct;
    i := 0;
    while i + 16 <= size
      invariant i <= size
      invariant Replaced(old(dst[..]), dst[..], Times(c, old(dst[..])), i)
    {
      VectorProductIsTimes(gf, c, dst[i..i + 16]);
      var product := VectorProduct(gf.low[c], gf.high[c], dst[i..i + 16]);
      forall lane | 0 <= lane < 16 {
        dst[i + lane] := product[lane];
      }
      i := i + 16;
    }
  }

  /** dst := c * dst, with the same three loops. */
  method Scale(dst: array<byte>, size: nat, c: byte, gf: Field, neon: bool)
    requires gf.Valid() && size <= dst.Length
    modifies dst
    ensures Replaced(old(dst[..]), dst[..], Times(c, old(dst[..])), size)
  {
    hide Add;
    hide Mul;
    if c == 1 {
      forall i | 0 <= i < size ensures Mul(c, dst[i]) == dst[i] {
        MulLaws(dst[i], dst[i]);
      }
      return;
    }
    var i := 0;
    if neon {
      i := ScaleVectors(dst, size, c, gf);
    }
    var table := gf.multiply[c];
    assert ProductRow(table, c);
    while i + 8 <= size
      invariant i <= size
      invariant Replaced(old(dst[..]), dst[..], Times(c, old(dst[..])), i)
    {
      var products := Products(table, c, dst, i);
      forall k | 0 <= k < 8 {
        dst[i + k] := products[k];
      }
      i := i + 8;
    }
    while i < size
      invariant i <= size
      invariant Replaced(old(dst[..]), dst[..], Times(c, old(dst[..])), i)
    {
      dst[i] := table[dst[i]];
      i := i + 1;
    }
  }
}
