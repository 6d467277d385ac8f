/**
 What the address check of src/ice/punch_protocol.cpp accepts: four numbers below
 256 in decimal, without leading zeros, dotted, and nothing else.
 */
module PunchAddresses {
  import opened PunchValues

  function Digit(n: nat): (c: char)
    requires n < 10
    ensures '0' <= c <= '9' && c as int - '0' as int == n
  {
    ('0' as int + n) as char
  }

  /** A number below 256 in decimal, without leading zeros. */
  function Decimal(n: nat): (s: string)
    requires n < 256
    ensures 1 <= |s| <= 3
  {
    if n < 10 then [Digit(n)]
    else if n < 100 then [Digit(n / 10), Digit(n % 10)]
    else [Digit(n / 100), Digit(n / 10 % 10), Digit(n % 10)]
  }

  predicate Small(numbers: seq<nat>) {
    forall k :: 0 <= k < |numbers| ==> numbers[k] < 256
  }

  /** Numbers dotted. */
  function Dotted(numbers: seq<nat>): string
    requires Small(numbers)
  {
    if numbers == [] then ""
    else if |numbers| == 1 then Decimal(numbers[0])
    else Decimal(numbers[0]) + "." + Dotted(numbers[1..])
  }

  /** No digit stands there. */
  predicate Stops(s: string, i: nat) {
    i >= |s| || !('0' <= s[i] <= '9')
  }

  function Value(c: char): (n: nat)
    requires '0' <= c <= '9'
    ensures n < 10
  {
    c as int - '0' as int
  }

  lemma DigitBack(c: char)
    requires '0' <= c <= '9'
    ensures Digit(Value(c)) == c
  {
  }

  /** Two digits, the first not zero, spell their number. */
  lemma TwoDigits(c: char, d: char)
    requires '1' <= c <= '9' && '0' <= d <= '9'
    ensures Decimal(10 * Value(c) + Value(d)) == [c, d]
  {
    DigitBack(c);
    DigitBack(d);
    hide Digit;
  }

  lemma ThreeDigits(c: char, d: char, e: char)
    requires '1' <= c <= '9' && '0' <= d <= '9' && '0' <= e <= '9' && 100 * Value(c) + 10 * Value(d) + Value(e) < 256
    ensures Decimal(100 * Value(c) + 10 * Value(d) + Value(e)) == [c, d, e]
  {
    DigitBack(c);
    DigitBack(d);
    DigitBack(e);
    hide Digit;
  }

  predicate IsDigit(c: char) {
    '0' <= c <= '9'
  }

  // The reader, one, two and three digits at a time.

  lemma ReadsOne(s: string, i: nat)
    requires i < |s| && IsDigit(s[i]) && Stops(s, i + 1)
    ensures Octet(s, i, 0, i) == i + 1
  {
    assert Octet(s, i + 1, Value(s[i]), i) == i + 1;
  }

  lemma ReadsTwo(s: string, i: nat)
    requires i + 1 < |s| && IsDigit(s[i]) && IsDigit(s[i + 1]) && Stops(s, i + 2)
    ensures Octet(s, i, 0, i) == if s[i] == '0' then 0 else i + 2
  {
    var n := Value(s[i]);
    assert Octet(s, i, 0, i) == Octet(s, i + 1, n, i);
    assert Octet(s, i + 1, n, i) == Octet(s, i + 2, 10 * n + Value(s[i + 1]), i);
  }

  lemma ReadsThree(s: string, i: nat)
    requires i + 2 < |s| && IsDigit(s[i]) && IsDigit(s[i + 1]) && IsDigit(s[i + 2])
    ensures var n := 100 * Value(s[i]) + 10 * Value(s[i + 1]) + Value(s[i + 2]);
      Octet(s, i, 0, i) == if Stops(s, i + 3) && s[i] != '0' && n < 256 then i + 3 else 0
  {
    var n, m := Value(s[i]), 10 * Value(s[i]) + Value(s[i + 1]);
    var o := 10 * m + Value(s[i + 2]);
    assert Octet(s, i, 0, i) == Octet(s, i + 1, n, i);
    assert Octet(s, i + 1, n, i) == Octet(s, i + 2, m, i);
    assert Octet(s, i + 2, m, i) == if o > 255 then 0 else Octet(s, i + 3, o, i);
    assert o <= 255 ==> Octet(s, i + 3, o, i) == if Stops(s, i + 3) && s[i] != '0' then i + 3 else 0;
  }

  lemma ReadsNone(s: string, i: nat)
    requires i <= |s|
    ensures Stops(s, i) ==> Octet(s, i, 0, i) == 0
  {
  }

  /** Where a number below 256 is spelled and no digit follows, it is read to its end. */
  lemma OctetReads(s: string, i: nat, n: nat)
    requires n < 256 && i + |Decimal(n)| <= |s| && s[i..i + |Decimal(n)|] == Decimal(n) && Stops(s, i + |Decimal(n)|)
    ensures Octet(s, i, 0, i) == i + |Decimal(n)|
  {
    hide Octet;
    var d := Decimal(n);
    var t := s[i..i + |d|];
    assert s[i] == t[0];
    if |d| == 1 {
      ReadsOne(s, i);
    } else if |d| == 2 {
      assert s[i + 1] == t[1];
      ReadsTwo(s, i);
    } else {
      assert s[i + 1] == t[1] && s[i + 2] == t[2];
      ReadsThree(s, i);
    }
  }

  /** And what is read is such a number. */
  lemma OctetSpells(s: string, i: nat) returns (n: nat)
    requires i <= |s| && Octet(s, i, 0, i) != 0
    ensures n < 256 && Octet(s, i, 0, i) == i + |Decimal(n)| <= |s| && s[i..i + |Decimal(n)|] == Decimal(n)
    ensures Stops(s, i + |Decimal(n)|)
  {
    hide Octet;
    hide Decimal;
    hide Value;
    ReadsNone(s, i);
    if Stops(s, i + 1) {
      ReadsOne(s, i);
      n := Value(s[i]);
      DigitBack(s[i]);
      OneDigit(n);
    } else if Stops(s, i + 2) {
      ReadsTwo(s, i);
      n := 10 * Value(s[i]) + Value(s[i + 1]);
      TwoDigits(s[i], s[i + 1]);
    } else {
      ReadsThree(s, i);
      n := 100 * Value(s[i]) + 10 * Value(s[i + 1]) + Value(s[i + 2]);
      ThreeDigits(s[i], s[i + 1], s[i + 2]);
    }
  }

  lemma OneDigit(n: nat)
    requires n < 10
    ensures Decimal(n) == [Digit(n)]
  {
  }

  lemma {:induction false} OctetsRead(s: string, i: nat, numbers: seq<nat>)
    requires numbers != [] && Small(numbers) && i <= |s| && s[i..] == Dotted(numbers)
    ensures Octets(s, i, |numbers|)
    decreases |numbers|
  {
    hide Octet;
    hide Decimal;
    var d := Decimal(numbers[0]);
    assert s[i..][..|d|] == d;
    assert s[i..i + |d|] == s[i..][..|d|];
    if |numbers| == 1 {
      OctetReads(s, i, numbers[0]);
    } else {
      assert s[i + |d|] == s[i..][|d|] == '.';
      OctetReads(s, i, numbers[0]);
      assert s[i + |d| + 1..] == s[i..][|d| + 1..] == Dotted(numbers[1..]);
      OctetsRead(s, i + |d| + 1, numbers[1..]);
    }
  }

  lemma {:induction false} OctetsSpell(s: string, i: nat, count: nat) returns (numbers: seq<nat>)
    requires i <= |s| && count > 0 && Octets(s, i, count)
    ensures |numbers| == count && Small(numbers) && s[i..] == Dotted(numbers)
    decreases count
  {
    hide Octet;
    hide Decimal;
    var n := OctetSpells(s, i);
    var end := i + |Decimal(n)|;
    if count == 1 {
      numbers := [n];
      assert s[i..] == s[i..end];
    } else {
      var rest := OctetsSpell(s, end + 1, count - 1);
      numbers := [n] + rest;
      assert numbers[1..] == rest;
      assert s[i..] == s[i..end] + [s[end]] + s[end + 1..];
    }
  }

  /** A text passes for an address if and only if it is four numbers below 256, dotted. */
  lemma AddressSyntax(s: string)
    ensures ValidIpv4(s) <==> exists numbers: seq<nat> ::
      |numbers| == 4 && Small(numbers) && s == Dotted(numbers)
  {
    hide Octets;
    hide Dotted;
    if ValidIpv4(s) {
      var numbers := OctetsSpell(s, 0, 4);
      assert s[0..] == s;
    }
    if numbers: seq<nat> :| |numbers| == 4 && Small(numbers) && s == Dotted(numbers) {
      assert s[0..] == s;
      OctetsRead(s, 0, numbers);
    }
  }
}
