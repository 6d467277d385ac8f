/**
 The owning wrappers of the small codec: EncodeSymbols of
 src/fec/fec_encoder.cpp and the FecDecoder object of src/fec/fec_decoder.cpp.
 For blocks the small codec does not handle they call OpenFEC, whose answers
 are parameters here.
 */
module FecCodec {
  import opened Common
  import opened GF256
  import opened RsKernels
  import opened LinearSystem
  import opened RsCode
  import opened RsSmall

  const MAX_SYMBOLS := 255
  const MAX_SYMBOL_SIZE := 1400

  predicate SupportsSmallRs(k: nat, r: nat) {
    0 < k <= 16 && 0 < r <= 4
  }

  /** The arguments that both wrappers refuse. */
  predicate BadShape(k: nat, r: nat, size: nat) {
    k == 0 || k > MAX_SYMBOLS || r > MAX_SYMBOLS - k || size == 0 || size > MAX_SYMBOL_SIZE
  }

  /** Blocks that fall through to OpenFEC. */
  predicate Foreign(k: nat, r: nat) {
    r > 0 && !SupportsSmallRs(k, r)
  }

  /** EncodeSymbols; `foreign` is what OpenFEC builds for the shape, if it does. */
  method EncodeSymbols(sources: seq<Buffer>, r: nat, matrix: Option<Matrix>, foreign: Option<Symbols>, gf: Field, neon: bool)
    returns (ok: bool, repairs: seq<Buffer>)
    requires gf.Valid()
    requires forall i, j :: 0 <= i < j < |sources| ==> sources[i] != sources[j]
    requires matrix.Some? ==> Rectangle(matrix.value, r, |sources|)
    requires foreign.Some? && sources != [] ==> Rectangle(foreign.value, r, sources[0].Length)
    ensures fresh(repairs)
    ensures !ok ==> repairs == []
    ensures ok <==>
      && 0 < |sources| && |sources| + r <= 255 && 0 < sources[0].Length <= 1400
      && Slots(sources, sources[0].Length)
      && (r == 0 || if |sources| > 16 || r > 4 then foreign.Some? else matrix.Some?)
    ensures ok && r == 0 ==> repairs == []
    ensures ok && r > 0 ==> Slots(repairs, sources[0].Length)
    ensures ok && r > 0 && (|sources| > 16 || r > 4) ==> Contents(repairs) == foreign.value
    ensures ok && r > 0 && |sources| <= 16 && r <= 4 ==>
      Contents(sources) + Contents(repairs) == Codeword(matrix.value, Contents(sources), sources[0].Length)
  {
    if |sources| == 0 || BadShape(|sources|, r, sources[0].Length) {
      return false, [];
    }
    for i := 0 to |sources|
      invariant forall j :: 0 <= j < i ==> sources[j].Length == sources[0].Length
    {
      if sources[i].Length != sources[0].Length {
        return false, [];
      }
    }
    if r == 0 {
      return true, [];
    }
    if SupportsSmallRs(|sources|, r) {
      ok, repairs := EncodeSmallRs(sources, r, matrix, gf, neon);
      if !ok {
        repairs := [];
      }
    } else {
      ok, repairs := foreign.Some?, [];
      if ok {
        repairs := BuffersOf(foreign.value, sources[0].Length);
      }
    }
  }

  // ----- Counting received symbols -----

  function CountSeen(seen: seq<bool>, n: nat): (c: nat)
    requires n <= |seen|
    ensures c <= n
  {
    if n == 0 then 0 else CountSeen(seen, n - 1) + if seen[n - 1] then 1 else 0
  }

  lemma {:induction false} CountAfterSet(seen: seq<bool>, id: nat, n: nat)
    requires n <= |seen| && id < |seen| && !seen[id]
    ensures CountSeen(seen[id := true], n) == CountSeen(seen, n) + if id < n then 1 else 0
  {
    if n > 0 {
      CountAfterSet(seen, id, n - 1);
    }
  }

  lemma {:induction false} CountNone(seen: seq<bool>, n: nat)
    requires n <= |seen| && forall i :: 0 <= i < n ==> !seen[i]
    ensures CountSeen(seen, n) == 0
  {
    if n > 0 {
      CountNone(seen, n - 1);
    }
  }

  lemma {:induction false} CountMissing(seen: seq<bool>, k: nat)
    requires k <= |seen|
    ensures CountSeen(seen, k) + |Missing(seen, k)| == k
  {
    if k > 0 {
      CountMissing(seen, k - 1);
    }
  }

  lemma {:induction false} CountPresent(seen: seq<bool>, k: nat, r: nat)
    requires k + r <= |seen|
    ensures CountSeen(seen, k + r) == CountSeen(seen, k) + |Present(seen, k, r)|
  {
    if r > 0 {
      CountPresent(seen, k, r - 1);
    }
  }

  /** With as many symbols as sources there is a repair for every gap. */
  lemma ReceivedIsEnough(d: Received)
    requires d.Shaped() && CountSeen(d.seen, d.k + |d.m|) >= d.k
    ensures d.Enough()
  {
    CountMissing(d.seen, d.k);
    CountPresent(d.seen, d.k, |d.m|);
  }

  /** Every square submatrix a decoder can meet is non-singular. */
  ghost predicate AllSubmatricesNonSingular(m: Matrix, k: nat) {
    && Rectangle(m, |m|, k)
    && forall ids: seq<nat>, missing: seq<nat> | |ids| == |missing| && Distinct(ids, |m|) && Distinct(missing, k) ::
      NonSingular(Submatrix(m, ids, missing, k), |ids|)
  }

  lemma EnoughIsDecodable(d: Received)
    requires d.Shaped() && d.Enough() && AllSubmatricesNonSingular(d.m, d.k)
    ensures d.Decodable()
  {
    assert Distinct(d.Used(), |d.m|) && Distinct(d.Gaps(), d.k);
  }

  // ----- The decoder object -----

  /** Run the in-place decoder on buffers holding the given bytes. */
  method DecodeSlots(k: nat, r: nat, size: nat, seen: seq<bool>, symbols: Symbols, matrix: Option<Matrix>, gf: Field, neon: bool)
    returns (ok: bool, now: Symbols)
    requires gf.Valid() && Rectangle(symbols, k + r, size) && |seen| == k + r
    requires matrix.Some? ==> Rectangle(matrix.value, r, k)
    ensures Rectangle(now, k + r, size) && SameOutside(symbols, now, Missing(seen, k))
    ensures matrix == None ==> (ok <==> Missing(seen, k) == [])
    ensures matrix.Some? ==> Decoded(Received(matrix.value, k, size, seen, symbols), ok, now)
  {
    hide Field.Valid;
    hide Decoded;
    hide Missing;
    var bufs := BuffersOf(symbols, size);
    var slots := new Buffer[k + r](i requires 0 <= i < |bufs| => bufs[i]);
    assert slots[..] == bufs;
    ok := DecodeSmallRs(k, r, size, seen, slots, matrix, gf, neon);
    now := BytesOf(slots[..], size);
  }

  method BuffersOf(symbols: Symbols, size: nat) returns (bufs: seq<Buffer>)
    requires Rectangle(symbols, |symbols|, size)
    ensures fresh(bufs) && Slots(bufs, size) && Contents(bufs) == symbols
  {
    bufs := [];
    for i := 0 to |symbols|
      invariant |bufs| == i && fresh(bufs) && Slots(bufs, size)
      invariant forall j :: 0 <= j < i ==> bufs[j][..] == symbols[j]
    {
      var b := new byte[size](p requires 0 <= p < |symbols[i]| => symbols[i][p]);
      assert b[..] == symbols[i];
      bufs := bufs + [b];
    }
  }

  method BytesOf(bufs: seq<Buffer>, size: nat) returns (symbols: Symbols)
    requires Slots(bufs, size)
    ensures symbols == Contents(bufs) && Rectangle(symbols, |bufs|, size)
  {
    symbols := [];
    for i := 0 to |bufs|
      invariant symbols == Contents(bufs)[..i]
    {
      symbols := symbols + [bufs[i][..]];
    }
  }

  /** A block that carries a codeword is explained by its sources. */
  lemma CodewordExplains(d: Received, s: Symbols)
    requires d.Shaped() && d.Enough() && Rectangle(s, d.k, d.size)
    requires forall i :: 0 <= i < d.k + |d.m| && d.seen[i] ==> d.symbols[i] == Codeword(d.m, s, d.size)[i]
    ensures d.Explains(s)
  {
    hide Repair;
    forall i | 0 <= i < |d.Used()| ensures Repair(d.m[d.Used()[i]], s, d.size) == d.symbols[d.k + d.Used()[i]] {
      assert Codeword(d.m, s, d.size)[d.k + d.Used()[i]] == Repair(d.m[d.Used()[i]], s, d.size);
    }
  }

  function Zeroed(n: nat, size: nat): (s: Symbols)
    ensures Rectangle(s, n, size)
  {
    seq(n, i => Zeros(size))
  }

  function Unseen(n: nat): (s: seq<bool>)
    ensures |s| == n && forall i :: 0 <= i < n ==> !s[i]
  {
    seq(n, i => false)
  }

  datatype Outcome = Accepted | Duplicate | Complete | Invalid | Error

  /** What an OpenFEC session answers to a symbol: whether it took it, whether the block is decoded, and what it filled in. */
  datatype Session = Session(ok: bool, done: bool, filled: map<nat, seq<byte>>)

  const NO_SESSION := Session(false, false, map[])

  /** The slots with what a session filled in of the sources not seen. */
  function FilledIn(symbols: Symbols, seen: seq<bool>, filled: map<nat, seq<byte>>, k: nat, size: nat): (now: Symbols)
    requires |seen| == |symbols|
    ensures |now| == |symbols|
    ensures forall i :: 0 <= i < |now| && (i >= k || seen[i]) ==> now[i] == symbols[i]
    ensures Rectangle(symbols, |symbols|, size) ==> Rectangle(now, |symbols|, size)
  {
    seq(|symbols|, i requires 0 <= i < |symbols| =>
      if i < k && !seen[i] && i in filled && |filled[i]| == size then filled[i] else symbols[i])
  }

  class FecDecoder {
    var ready: bool
    var k: nat
    var repairs: nat
    var size: nat
    var received: nat
    var small: bool
    /** OpenFEC decodes this block. */
    var session: bool
    var complete: bool
    var failed: bool
    var symbols: Symbols
    var seen: seq<bool>
    const gf: Field
    const neon: bool

    ghost predicate Valid()
      reads this
    {
      && gf.Valid()
      && (ready ==>
        && !BadShape(k, repairs, size) && small == SupportsSmallRs(k, repairs) && session == Foreign(k, repairs)
        && |seen| == k + repairs && Rectangle(symbols, k + repairs, size)
        && received == CountSeen(seen, k + repairs)
        && !(complete && failed)
        && (!session && !complete && !failed ==> received < k))
    }

    constructor (gf: Field, neon: bool)
      requires gf.Valid()
      ensures Valid() && !ready
    {
      this.gf, this.neon := gf, neon;
      ready, complete, failed, small, session := false, false, false, false, false;
      k, repairs, size, received := 0, 0, 0, 0;
      symbols, seen := [], [];
    }

    /**
     Start a block with zeroed slots, or drop the state on a refused shape;
     `opens` is whether OpenFEC sets up a session when the shape needs one.
     */
    method Reset(newK: nat, newRepairs: nat, newSize: nat, opens: bool) returns (ok: bool)
      requires Valid()
      modifies this
      ensures Valid() && ok == ready
      ensures ok <==>
        && 0 < newK && newK + newRepairs <= 255 && 0 < newSize <= 1400
        && (newRepairs > 0 && (newK > 16 || newRepairs > 4) ==> opens)
      ensures ok ==>
        && k == newK && repairs == newRepairs && size == newSize && small == (newK <= 16 && 0 < newRepairs <= 4)
        && session == (newRepairs > 0 && (newK > 16 || newRepairs > 4))
        && received == 0 && !complete && !failed
        && symbols == Zeroed(newK + newRepairs, newSize) && seen == Unseen(newK + newRepairs)
    {
      hide Field.Valid;
      hide Zeroed;
      hide Unseen;
      if BadShape(newK, newRepairs, newSize) {
        ready := false;
        return false;
      }
      var fits := SupportsSmallRs(newK, newRepairs);
      if newRepairs != 0 && !fits && !opens {
        ready := false;
        return false;
      }
      k, repairs, size, small, session := newK, newRepairs, newSize, fits, newRepairs != 0 && !fits;
      received, complete, failed := 0, false, false;
      symbols, seen := Zeroed(newK + newRepairs, newSize), Unseen(newK + newRepairs);
      CountNone(seen, newK + newRepairs);
      ready := true;
      ok := true;
    }

    /** Will the next call store the symbol? */
    predicate Stores(id: nat, data: seq<byte>)
      reads this
    {
      ready && id < |seen| && |data| == size && !failed && !seen[id] && !complete
    }

    /** The decoder state handed to DecodeSmallRs once `data` is stored. */
    ghost function With(id: nat, data: seq<byte>, m: Matrix): Received
      requires Valid() && Stores(id, data)
      reads this
    {
      Received(m, k, size, seen[id := true], symbols[id := data])
    }

    /** What a call that stores nothing answers. */
    function Refusal(id: nat, data: seq<byte>): Outcome
      requires Valid() && !Stores(id, data)
      reads this
    {
      if !ready || id >= |seen| || |data| != size then Invalid
      else if failed then Error
      else if seen[id] then (if symbols[id] == data then Duplicate else Invalid)
      else Complete
    }

    /** Store one new symbol; the k-th one triggers decoding, or OpenFEC does when it can. */
    method StoreSymbol(id: nat, data: seq<byte>, matrix: Option<Matrix>, foreign: Session)
      requires Valid() && Stores(id, data)
      requires matrix.Some? ==> Rectangle(matrix.value, repairs, k)
      modifies `seen, `received, `complete, `failed, `symbols
      ensures Valid()
      ensures received == old(received) + 1 && seen == old(seen)[id := true]
      ensures SameOutside(old(symbols)[id := data], symbols, Missing(seen, k))
      ensures session ==>
        && failed == !foreign.ok && complete == (foreign.ok && foreign.done)
        && symbols == if foreign.ok then FilledIn(old(symbols)[id := data], seen, foreign.filled, k, size) else old(symbols)[id := data]
      ensures !session && (!small || received < k) ==>
        !failed && complete == (!small && received == k) && symbols == old(symbols)[id := data]
      ensures small && received >= k ==>
        && failed == !complete
        && (matrix == None ==> (complete <==> Missing(seen, k) == []))
        && (matrix.Some? ==> Decoded(old(With(id, data, matrix.value)), complete, symbols))
    {
      hide Field.Valid;
      hide Decoded;
      hide Missing;
      hide CountSeen;
      hide FilledIn;
      CountAfterSet(seen, id, k + repairs);
      symbols := symbols[id := data];
      seen := seen[id := true];
      received := received + 1;
      if session {
        failed := !foreign.ok;
        if foreign.ok {
          FilledOutside(symbols, seen, foreign.filled, k, size);
          symbols := FilledIn(symbols, seen, foreign.filled, k, size);
          complete := foreign.done;
        }
      } else if small && received >= k {
        complete, symbols := DecodeSlots(k, repairs, size, seen, symbols, matrix, gf, neon);
        failed := !complete;
      } else if !small {
        complete := received == k;
      }
    }

    /**
     Calls that store nothing change nothing.  A stored symbol is counted, and
     decoding starts with the k-th one, or when the OpenFEC session says so.
     */
    method AddSymbol(id: nat, data: seq<byte>, matrix: Option<Matrix>, foreign: Session) returns (outcome: Outcome)
      requires Valid()
      requires ready && matrix.Some? ==> Rectangle(matrix.value, repairs, k)
      modifies `seen, `received, `complete, `failed, `symbols
      ensures Valid()
      ensures !old(Stores(id, data)) ==>
        && received == old(received) && complete == old(complete) && failed == old(failed)
        && seen == old(seen) && symbols == old(symbols)
        && outcome == old(Refusal(id, data))
      ensures !ready || id >= |seen| || |data| != size ==> outcome == Invalid
      ensures ready && id < |seen| && |data| == size && old(failed) ==> outcome == Error
      ensures ready && id < |seen| && |data| == size && !old(failed) && old(seen)[id] ==>
        outcome == if old(symbols)[id] == data then Duplicate else Invalid
      ensures ready && id < |seen| && |data| == size && !old(failed) && !old(seen)[id] && old(complete) ==> outcome == Complete
      ensures old(Stores(id, data)) ==>
        && received == old(received) + 1 && seen == old(seen)[id := true]
        && outcome == (if failed then Error else if complete then Complete else Accepted)
        && SameOutside(old(symbols)[id := data], symbols, Missing(seen, k))
      ensures old(Stores(id, data)) && session ==>
        && failed == !foreign.ok && complete == (foreign.ok && foreign.done)
        && symbols == if foreign.ok then FilledIn(old(symbols)[id := data], seen, foreign.filled, k, size) else old(symbols)[id := data]
      ensures old(Stores(id, data)) && !session && (!small || received < k) ==>
        !failed && complete == (!small && received == k) && symbols == old(symbols)[id := data]
      ensures old(Stores(id, data)) && small && received >= k ==>
        && failed == !complete
        && (matrix == None ==> (complete <==> Missing(seen, k) == []))
        && (matrix.Some? ==> Decoded(old(With(id, data, matrix.value)), complete, symbols))
    {
      hide Field.Valid;
      hide Decoded;
      hide Missing;
      hide CountSeen;
      hide FilledIn;
      if !ready || id >= |symbols| || |data| != size {
        return Invalid;
      }
      if failed {
        return Error;
      }
      if seen[id] {
        return if symbols[id] == data then Duplicate else Invalid;
      }
      if complete {
        return Complete;
      }
      StoreSymbol(id, data, matrix, foreign);
      outcome := if failed then Error else if complete then Complete else Accepted;
    }
  }

  /** A session fills in only sources not seen. */
  lemma FilledOutside(symbols: Symbols, seen: seq<bool>, filled: map<nat, seq<byte>>, k: nat, size: nat)
    requires |seen| == |symbols| && k <= |seen|
    ensures SameOutside(symbols, FilledIn(symbols, seen, filled, k, size), Missing(seen, k))
  {
    forall i | 0 <= i < |symbols| && i !in Missing(seen, k) ensures i >= k || seen[i] {
      if i < k && !seen[i] {
        var j := MissingCovers(seen, k, i);
      }
    }
  }

  // ----- Whole receptions -----

  lemma {:induction false} CountIsCardinality(seen: seq<bool>, n: nat)
    requires n <= |seen|
    ensures CountSeen(seen, n) == |set i | 0 <= i < n && seen[i]|
  {
    var now := set i | 0 <= i < n && seen[i];
    if n == 0 {
      assert now == {};
    } else {
      CountIsCardinality(seen, n - 1);
      var before := set i | 0 <= i < n - 1 && seen[i];
      if seen[n - 1] {
        assert now == before + {n - 1};
      } else {
        assert now == before;
      }
    }
  }

  /** The distinct symbol numbers among some arrivals. */
  function Numbers(arrivals: seq<nat>): set<nat> {
    set i | i in arrivals
  }

  /** The symbols received so far are part of `w`, and are the ones that arrived. */
  ghost predicate Tracks(seen: seq<bool>, slots: Symbols, complete: bool, w: Symbols, arrived: seq<nat>, k: nat) {
    && |seen| == |slots| == |w| && k <= |w|
    && (forall i :: 0 <= i < |w| && seen[i] ==> slots[i] == w[i])
    && (!complete ==> forall i :: 0 <= i < |w| ==> (seen[i] <==> i in arrived))
    && (complete ==> slots[..k] == w[..k] && k <= |Numbers(arrived)|)
  }

  lemma TracksCount(seen: seq<bool>, slots: Symbols, w: Symbols, arrived: seq<nat>, k: nat)
    requires Tracks(seen, slots, false, w, arrived, k)
    requires forall i :: 0 <= i < |arrived| ==> arrived[i] < |w|
    ensures CountSeen(seen, |w|) == |Numbers(arrived)|
  {
    CountIsCardinality(seen, |w|);
    assert Numbers(arrived) == set i | 0 <= i < |w| && seen[i];
  }

  lemma MoreNumbers(arrived: seq<nat>, id: nat)
    ensures |Numbers(arrived)| <= |Numbers(arrived + [id])|
  {
    assert Numbers(arrived + [id]) == Numbers(arrived) + {id};
    if id in Numbers(arrived) {
      assert Numbers(arrived) + {id} == Numbers(arrived);
    }
  }

  lemma TracksStart(seen: seq<bool>, slots: Symbols, w: Symbols, k: nat)
    requires |seen| == |slots| == |w| && k <= |w| && forall i :: 0 <= i < |seen| ==> !seen[i]
    ensures Tracks(seen, slots, false, w, [], k)
  {
  }

  lemma TracksRepeat(seen: seq<bool>, slots: Symbols, complete: bool, w: Symbols, arrived: seq<nat>, k: nat, id: nat)
    requires Tracks(seen, slots, complete, w, arrived, k) && id < |w| && (seen[id] || complete)
    ensures Tracks(seen, slots, complete, w, arrived + [id], k)
  {
    MoreNumbers(arrived, id);
  }

  lemma TracksStored(seen: seq<bool>, slots: Symbols, w: Symbols, arrived: seq<nat>, k: nat, id: nat)
    requires Tracks(seen, slots, false, w, arrived, k) && id < |w|
    ensures Tracks(seen[id := true], slots[id := w[id]], false, w, arrived + [id], k)
  {
  }

  /** A decoded block that carries a codeword holds that codeword's sources. */
  lemma DecodedCodeword(d: Received, s: Symbols, ok: bool, now: Symbols)
    requires Decoded(d, ok, now) && Rectangle(s, d.k, d.size)
    requires forall i :: 0 <= i < d.k + |d.m| && d.seen[i] ==> d.symbols[i] == Codeword(d.m, s, d.size)[i]
    requires CountSeen(d.seen, d.k + |d.m|) >= d.k
    ensures ok ==> |now| >= d.k && now[..d.k] == s
    ensures AllSubmatricesNonSingular(d.m, d.k) ==> ok
  {
    hide Repair;
    ReceivedIsEnough(d);
    CodewordExplains(d, s);
    if AllSubmatricesNonSingular(d.m, d.k) {
      EnoughIsDecodable(d);
    }
  }

  lemma CodewordPrefix(m: Matrix, s: Symbols, size: nat)
    requires Rectangle(s, |s|, size) && Rectangle(m, |m|, |s|)
    ensures Codeword(m, s, size)[..|s|] == s
  {
  }

  /** The k-th distinct symbol completes the block. */
  lemma TracksDecoded(seen: seq<bool>, slots: Symbols, m: Matrix, s: Symbols, w: Symbols, arrived: seq<nat>, k: nat,
                      id: nat, ok: bool, now: Symbols)
    requires 0 < k == |s| && Rectangle(m, |m|, k) && Rectangle(s, k, |s[0]|) && w == Codeword(m, s, |s[0]|)
    requires Tracks(seen, slots, false, w, arrived, k) && id < |w|
    requires forall i :: 0 <= i < |arrived| ==> arrived[i] < |w|
    requires CountSeen(seen[id := true], |w|) >= k && |now| == |slots|
    requires Decoded(Received(m, k, |s[0]|, seen[id := true], slots[id := w[id]]), ok, now)
    requires AllSubmatricesNonSingular(m, k)
    requires SameOutside(slots[id := w[id]], now, Missing(seen[id := true], k))
    ensures ok && Tracks(seen[id := true], now, true, w, arrived + [id], k)
  {
    hide Codeword;
    hide Decoded;
    hide Missing;
    hide AllSubmatricesNonSingular;
    var d := Received(m, k, |s[0]|, seen[id := true], slots[id := w[id]]);
    TracksStored(seen, slots, w, arrived, k, id);
    TracksCount(seen[id := true], slots[id := w[id]], w, arrived + [id], k);
    DecodedCodeword(d, s, ok, now);
    CodewordPrefix(m, s, |s[0]|);
    forall i | 0 <= i < |w| && seen[id := true][i] ensures now[i] == w[i] {
      assert i !in Missing(seen[id := true], k);
    }
  }

  lemma TracksEnd(seen: seq<bool>, slots: Symbols, complete: bool, w: Symbols, arrived: seq<nat>, k: nat)
    requires Tracks(seen, slots, complete, w, arrived, k)
    requires forall i :: 0 <= i < |arrived| ==> arrived[i] < |w|
    requires !complete ==> CountSeen(seen, |w|) < k
    ensures complete <==> k <= |Numbers(arrived)|
    ensures complete ==> slots[..k] == w[..k]
  {
    if !complete {
      TracksCount(seen, slots, w, arrived, k);
    }
  }

  /** One arrival of a symbol of the codeword. */
  method ReceiveOne(decoder: FecDecoder, m: Matrix, ghost s: Symbols, w: Symbols, ghost arrived: seq<nat>, id: nat)
    requires decoder.Valid() && decoder.ready && decoder.small && !decoder.failed
    requires |s| == decoder.k && Rectangle(m, decoder.repairs, decoder.k) && Rectangle(s, decoder.k, decoder.size)
    requires w == Codeword(m, s, decoder.size) && id < |w|
    requires AllSubmatricesNonSingular(m, decoder.k)
    requires forall i :: 0 <= i < |arrived| ==> arrived[i] < |w|
    requires Tracks(decoder.seen, decoder.symbols, decoder.complete, w, arrived, decoder.k)
    modifies decoder`seen, decoder`received, decoder`complete, decoder`failed, decoder`symbols
    ensures decoder.Valid() && !decoder.failed
    ensures Tracks(decoder.seen, decoder.symbols, decoder.complete, w, arrived + [id], decoder.k)
  {
    hide Codeword;
    hide Decoded;
    hide AllSubmatricesNonSingular;
    hide Field.Valid;
    hide Missing;
    hide Tracks;
    ghost var seen, slots, complete := decoder.seen, decoder.symbols, decoder.complete;
    var outcome := decoder.AddSymbol(id, w[id], Some(m), NO_SESSION);
    if seen[id] || complete {
      TracksRepeat(seen, slots, complete, w, arrived, decoder.k, id);
    } else if decoder.received < decoder.k {
      TracksStored(seen, slots, w, arrived, decoder.k, id);
    } else {
      TracksDecoded(seen, slots, m, s, w, arrived, decoder.k, id, decoder.complete, decoder.symbols);
    }
  }

  /**
   Symbols of one codeword arrive in any order, some of them repeatedly.  With
   non-singular submatrices the decoder completes exactly when k distinct
   symbols have arrived, and from then on the source slots are the sources.
   */
  method ReceiveAll(decoder: FecDecoder, m: Matrix, ghost s: Symbols, w: Symbols, k: nat, r: nat, size: nat, arrivals: seq<nat>)
    requires decoder.Valid() && SupportsSmallRs(k, r) && !BadShape(k, r, size)
    requires Rectangle(m, r, k) && Rectangle(s, k, size) && w == Codeword(m, s, size)
    requires AllSubmatricesNonSingular(m, k)
    requires forall i :: 0 <= i < |arrivals| ==> arrivals[i] < k + r
    modifies decoder
    ensures decoder.Valid() && decoder.ready && decoder.k == k && !decoder.failed
    ensures decoder.complete <==> k <= |Numbers(arrivals)|
    ensures decoder.complete ==> decoder.symbols[..k] == s
  {
    hide Codeword;
    hide AllSubmatricesNonSingular;
    hide Field.Valid;
    hide Tracks;
    hide Zeroed;
    var ok := decoder.Reset(k, r, size, false);
    TracksStart(decoder.seen, decoder.symbols, w, k);
    assert arrivals[..0] == [];
    for n := 0 to |arrivals|
      invariant decoder.Valid() && decoder.ready && decoder.small && !decoder.failed
      invariant decoder.k == k && decoder.repairs == r && decoder.size == size
      invariant Tracks(decoder.seen, decoder.symbols, decoder.complete, w, arrivals[..n], k)
    {
      assert arrivals[..n + 1] == arrivals[..n] + [arrivals[n]];
      ReceiveOne(decoder, m, s, w, arrivals[..n], arrivals[n]);
    }
    assert arrivals[..|arrivals|] == arrivals;
    TracksEnd(decoder.seen, decoder.symbols, decoder.complete, w, arrivals, k);
    CodewordPrefix(m, s, size);
  }
}
