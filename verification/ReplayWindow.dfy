/**
 ReplayWindow of src/ice/punch_protocol.cpp: a 256-bit window and a ring of
 digests that together refine a memory of every sequence number ever accepted.
 */
module Replay {
  import opened Common
  import opened PunchValues
  import opened PunchProtocol

  const WINDOW := 256

  datatype Verdict = Fresh | Duplicate | TooOld | Conflict

  // ----- The unbounded memory -----

  /** The highest number accepted, and the digest accepted under each number. */
  datatype Memory = Memory(high: Sequence, accepted: map<Sequence, Key>)
  {
    ghost predicate Valid() {
      0 !in accepted && forall n :: n in accepted ==> n <= high
    }

    function Judge(n: Sequence, digest: Key): Verdict {
      if n == 0 || n + WINDOW <= high then TooOld
      else if n !in accepted then Fresh
      else if accepted[n] == digest then Duplicate
      else Conflict
    }

    function After(n: Sequence, digest: Key): Memory {
      match Judge(n, digest)
      case Fresh => Memory(if n > high then n else high, accepted[n := digest])
      case _ => this
    }
  }

  const FORGETFUL := Memory(0, map[])

  // ----- Whole histories -----

  datatype Arrival = Arrival(sequence: Sequence, digest: Key)

  function Run(h: seq<Arrival>): (m: Memory) {
    if h == [] then FORGETFUL
    else
      var n := |h| - 1;
      Run(h[..n]).After(h[n].sequence, h[n].digest)
  }

  function Highest(h: seq<Arrival>): (n: Sequence)
    ensures forall i :: 0 <= i < |h| ==> h[i].sequence <= n
    ensures n != 0 ==> exists i :: 0 <= i < |h| && h[i].sequence == n
  {
    if h == [] then 0
    else
      var n := |h| - 1;
      var rest := Highest(h[..n]);
      assert forall i :: 0 <= i < n ==> h[..n][i] == h[i];
      if rest < h[n].sequence then h[n].sequence else rest
  }

  /** The first arrival with sequence number `n`, or the length of the history. */
  function First(h: seq<Arrival>, n: Sequence): (i: nat)
    ensures i <= |h|
    ensures i < |h| ==> h[i].sequence == n
    ensures forall j :: 0 <= j < i ==> h[j].sequence != n
  {
    if h == [] then 0
    else
      var m := |h| - 1;
      var i := First(h[..m], n);
      assert forall j :: 0 <= j < m ==> h[..m][j] == h[j];
      if i < m || h[m].sequence == n then i else |h|
  }

  /**
   What a verdict means, with no window and no state: too old when 256 or more
   below the highest number that ever arrived, otherwise fresh the first time
   and afterwards judged against the first arrival.
   */
  function Meaning(h: seq<Arrival>, n: Sequence, digest: Key): Verdict {
    if n == 0 || n + 256 <= Highest(h) then TooOld
    else if First(h, n) == |h| then Fresh
    else if h[First(h, n)].digest == digest then Duplicate
    else Conflict
  }

  /** After any history the memory holds the highest number, and the first digest of every number it can still judge. */
  lemma {:induction false} RunRemembers(h: seq<Arrival>, n: Sequence)
    ensures Run(h).Valid() && Run(h).high == Highest(h)
    ensures n in Run(h).accepted ==> First(h, n) < |h| && Run(h).accepted[n] == h[First(h, n)].digest
    ensures n != 0 && n + WINDOW > Highest(h) && First(h, n) < |h| ==> n in Run(h).accepted
  {
    if h != [] {
      var m := |h| - 1;
      RunRemembers(h[..m], n);
      RunRemembers(h[..m], h[m].sequence);
      FirstStep(h, n);
      HighestStep(h);
      AfterHas(Run(h[..m]), h[m].sequence, h[m].digest, n);
      hide Memory.After;
      hide Memory.Judge;
      hide First;
      hide Highest;
      if First(h[..m], n) < m {
        assert h[..m][First(h[..m], n)] == h[First(h[..m], n)];
      }
    }
  }

  lemma FirstStep(h: seq<Arrival>, n: Sequence)
    requires h != []
    ensures var m := |h| - 1;
      First(h, n) == if First(h[..m], n) < m then First(h[..m], n) else if h[m].sequence == n then m else m + 1
  {
  }

  lemma HighestStep(h: seq<Arrival>)
    requires h != []
    ensures var m := |h| - 1;
      Highest(h) == if Highest(h[..m]) < h[m].sequence then h[m].sequence else Highest(h[..m])
  {
  }

  /** What one arrival does to what is remembered under `n`. */
  lemma AfterHas(r: Memory, s: Sequence, digest: Key, n: Sequence)
    requires r.Valid()
    ensures var a := r.After(s, digest);
      && a.Valid() && (s in r.accepted ==> a.high == r.high)
      && (s !in r.accepted ==> a.high == if s > r.high then s else r.high)
      && (n in a.accepted <==> n in r.accepted || (n == s && n != 0 && n + WINDOW > r.high))
      && (n in a.accepted ==> a.accepted[n] == if n in r.accepted then r.accepted[n] else digest)
  {
  }

  /** The memory's verdict after any history is the reference one. */
  lemma VerdictMeans(h: seq<Arrival>, n: Sequence, digest: Key)
    ensures Run(h).Judge(n, digest) == Meaning(h, n, digest)
  {
    RunRemembers(h, n);
  }

  /** A duplicate repeats the bytes that first came under its number, and a conflict does not, unless the hash collides. */
  lemma DuplicateRepeats(h: seq<Arrival>, n: Sequence, bytes: Bytes, first: Bytes, suite: Suite)
    requires First(h, n) < |h| && h[First(h, n)].digest == suite.sha(first)
    ensures Run(h).Judge(n, suite.sha(bytes)) == Duplicate ==> bytes == first || suite.Collide(bytes, first)
    ensures Run(h).Judge(n, suite.sha(bytes)) == Conflict ==> bytes != first
  {
    VerdictMeans(h, n, suite.sha(bytes));
  }

  /** A sequence number is fresh at most once ever. */
  lemma FreshOnce(h: seq<Arrival>, i: nat, j: nat)
    requires i < j < |h| && h[i].sequence == h[j].sequence
    ensures Run(h[..j]).Judge(h[j].sequence, h[j].digest) != Fresh
  {
    VerdictMeans(h[..j], h[j].sequence, h[j].digest);
    assert h[..j][i] == h[i];
  }

  // ----- The window -----

  /** A bit set shifted towards the old end. */
  function Shifted(seen: seq<bool>, shift: nat): (s: seq<bool>)
    ensures |s| == |seen|
  {
    seq(|seen|, i requires 0 <= i < |seen| => i >= shift && seen[i - shift])
  }

  /** The shift of the bit set, in place. */
  method ShiftUp(seen: array<bool>, shift: nat)
    modifies seen
    ensures seen[..] == Shifted(old(seen[..]), shift)
  {
    ghost var was := seen[..];
    var i := seen.Length;
    while i > 0
      invariant 0 <= i <= seen.Length
      invariant forall k :: 0 <= k < i ==> seen[k] == was[k]
      invariant forall k :: i <= k < seen.Length ==> seen[k] == (k >= shift && was[k - shift])
    {
      i := i - 1;
      seen[i] := if i >= shift then seen[i - shift] else false;
    }
  }

  /** Bit `i` stands for the number `i` below the highest; the ring holds the digest of every such number. */
  ghost predicate Refines(high: Sequence, seen: seq<bool>, digests: seq<Key>, m: Memory) {
    && |seen| == WINDOW && |digests| == WINDOW && m.Valid() && m.high == high
    && forall n: Sequence :: n <= high < n + WINDOW ==>
      && seen[high - n] == (n in m.accepted)
      && (n in m.accepted ==> digests[n % WINDOW] == m.accepted[n])
  }

  lemma ShiftRefines(high: Sequence, seen: seq<bool>, digests: seq<Key>, m: Memory, next: Sequence)
    requires Refines(high, seen, digests, m) && high < next
    ensures Refines(next, Shifted(seen, next - high), digests, m.(high := next))
  {
  }

  /** Recording a number overwrites no digest the window can still ask for. */
  lemma RecordRefines(high: Sequence, seen: seq<bool>, digests: seq<Key>, m: Memory, n: Sequence, digest: Key)
    requires Refines(high, seen, digests, m) && 0 < n <= high < n + WINDOW && n !in m.accepted
    ensures Refines(high, seen[high - n := true], digests[n % WINDOW := digest], m.(accepted := m.accepted[n := digest]))
  {
    forall k: Sequence | k <= high < k + WINDOW && k != n ensures k % WINDOW != n % WINDOW {
      if k % WINDOW == n % WINDOW {
        SameSlot(k, n);
      }
    }
  }

  lemma SameSlot(k: nat, n: nat)
    requires k % WINDOW == n % WINDOW && k < n + WINDOW && n < k + WINDOW
    ensures k == n
  {
    assert k - n == WINDOW * (k / WINDOW - n / WINDOW);
  }

  class ReplayWindow {
    var high: Sequence
    const seen: array<bool>
    const digests: array<Key>
    /** Every number ever accepted. */
    ghost var accepted: map<Sequence, Key>

    ghost function View(): Memory
      reads this
    {
      Memory(high, accepted)
    }

    ghost predicate Valid()
      reads this, seen, digests
    {
      Refines(high, seen[..], digests[..], View())
    }

    constructor ()
      ensures Valid() && fresh(seen) && fresh(digests) && View() == FORGETFUL
    {
      high, accepted := 0, map[];
      seen := new bool[WINDOW](_ => false);
      digests := new Key[WINDOW](_ => Zeros(32));
    }

    /** Make `sequence` the highest number. */
    method Advance(sequence: Sequence)
      requires Valid() && sequence > high
      modifies `high, seen
      ensures Valid() && high == sequence
    {
      hide Refines;
      hide Shifted;
      RefinesFacts(high, seen[..], digests[..], View());
      var shift := sequence - high;
      ShiftRefines(high, seen[..], digests[..], View(), sequence);
      if shift >= WINDOW {
        ShiftedOut(seen[..], shift);
        for i := 0 to seen.Length
          invariant forall k :: 0 <= k < i ==> !seen[k]
        {
          seen[i] := false;
        }
        AllClear(seen[..]);
      } else {
        ShiftUp(seen, shift);
      }
      high := sequence;
    }

    /** Accept: judge an authenticated packet, and remember it if its number is new. */
    method Accept(sequence: Sequence, bytes: Bytes, suite: Suite) returns (verdict: Verdict)
      requires Valid()
      modifies this, seen, digests
      ensures Valid()
      ensures verdict == old(View()).Judge(sequence, suite.sha(bytes))
      ensures View() == old(View()).After(sequence, suite.sha(bytes))
    {
      hide Refines;
      RefinesFacts(high, seen[..], digests[..], View());
      if sequence == 0 || (sequence <= high && high - sequence >= WINDOW) {
        return TooOld;
      }
      if sequence > high {
        Advance(sequence);
      }
      var offset := high - sequence;
      var hash := suite.sha(bytes);
      RefinesFacts(high, seen[..], digests[..], View());
      RefinesAt(high, seen[..], digests[..], View(), sequence);
      if seen[offset] {
        return if hash == digests[sequence % WINDOW] then Duplicate else Conflict;
      }
      RecordRefines(high, seen[..], digests[..], View(), sequence, hash);
      seen[offset] := true;
      digests[sequence % WINDOW] := hash;
      accepted := accepted[sequence := hash];
      return Fresh;
    }
  }

  lemma RefinesFacts(high: Sequence, seen: seq<bool>, digests: seq<Key>, m: Memory)
    requires Refines(high, seen, digests, m)
    ensures |seen| == WINDOW && |digests| == WINDOW && m.Valid()
  {
  }

  lemma RefinesAt(high: Sequence, seen: seq<bool>, digests: seq<Key>, m: Memory, n: Sequence)
    requires Refines(high, seen, digests, m) && n <= high < n + WINDOW
    ensures seen[high - n] == (n in m.accepted) && (n in m.accepted ==> digests[n % WINDOW] == m.accepted[n])
  {
  }

  lemma ShiftedOut(seen: seq<bool>, shift: nat)
    requires shift >= |seen|
    ensures Shifted(seen, shift) == seq(|seen|, _ => false)
  {
  }

  lemma AllClear(seen: seq<bool>)
    requires forall k :: 0 <= k < |seen| ==> !seen[k]
    ensures seen == seq(|seen|, _ => false)
  {
  }
}
