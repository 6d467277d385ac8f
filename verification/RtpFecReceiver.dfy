/**
 RtpFecReceiver of src/fec/rtp_fec.cpp.  Blocks and cached packets are values in
 the object's two maps.  `TryDecode` is specified for any traffic; against an
 honest sender's transcript, what it recovers is exactly what is missing.
 */
module RtpReceiver {
  import opened Common
  import opened GF256
  import opened RsKernels
  import opened LinearSystem
  import opened RsCode
  import opened RsSmall
  import opened FecCodec
  import opened RtpWire
  import opened FecTranscript

  const WINDOW_MS := 150
  const MAX_CACHED := 512
  const MAX_BLOCKS := 64

  datatype Source = Source(bytes: Packet, arrival: int)

  /** RTP timestamp and base sequence number. */
  type Key = (nat, nat)

  datatype Block = Block(timestamp: nat, base: nat, k: nat, r: nat, size: nat, arrival: int, done: bool,
                         repairs: Symbols, present: seq<bool>)
  {
    ghost predicate Valid() {
      && SupportsSmallRs(k, r) && 14 <= size <= MAX_MEDIA_PACKET + 2 && |present| == r
      && (!done ==> |repairs| == r && forall i :: 0 <= i < r && present[i] ==> |repairs[i]| == size)
    }
  }

  // ----- What a block can be decoded from -----

  /** The cached packet for position `i` of a block. */
  function Cached(sources: map<nat, Source>, b: Block, i: nat): Option<Packet> {
    var s := (b.base + i) % 0x1_0000;
    if s in sources && |sources[s].bytes| >= 12 && Timestamp(sources[s].bytes) == b.timestamp then Some(sources[s].bytes) else None
  }

  function CachedAll(sources: map<nat, Source>, b: Block): (c: seq<Option<Packet>>)
    ensures |c| == b.k
  {
    seq(b.k, i requires 0 <= i < b.k => Cached(sources, b, i))
  }

  predicate TooLong(c: seq<Option<Packet>>, size: nat) {
    exists i :: 0 <= i < |c| && c[i].Some? && |c[i].value| + 2 > size
  }

  function Flags(c: seq<Option<Packet>>): (f: seq<bool>)
    ensures |f| == |c|
  {
    seq(|c|, i requires 0 <= i < |c| => c[i].Some?)
  }

  function Have(c: seq<Option<Packet>>): (n: nat)
    ensures n <= |c|
  {
    CountSeen(Flags(c), |c|)
  }

  /** The first `need` repairs present. */
  function Taken(present: seq<bool>, need: nat): (f: seq<bool>)
    ensures |f| == |present|
  {
    seq(|present|, i requires 0 <= i < |present| => present[i] && CountSeen(present, i) < need)
  }

  /** Which symbols reach the decoder: every cached source, then as many repairs as are missing. */
  function Fed(b: Block, c: seq<Option<Packet>>): (f: seq<bool>)
    requires |c| == b.k
    ensures |f| == b.k + |b.present|
  {
    Flags(c) + Taken(b.present, b.k - Have(c))
  }

  /** The symbol with number `i`, if the block has it. */
  function SymbolAt(b: Block, c: seq<Option<Packet>>, i: nat): (s: seq<byte>)
    requires b.Valid() && !b.done && |c| == b.k && !TooLong(c, b.size) && i < b.k + b.r
    ensures |s| == b.size
  {
    if i < b.k then (if c[i].Some? then Pad(c[i].value, b.size) else Zeros(b.size))
    else if b.present[i - b.k] then b.repairs[i - b.k] else Zeros(b.size)
  }

  function SlotAt(b: Block, c: seq<Option<Packet>>, f: seq<bool>, n: nat, i: nat): (s: seq<byte>)
    requires b.Valid() && !b.done && |c| == b.k && !TooLong(c, b.size) && |f| == b.k + b.r && i < b.k + b.r
    ensures |s| == b.size
  {
    if i < n && f[i] then SymbolAt(b, c, i) else Zeros(b.size)
  }

  /** The symbols selected by `f` among the first `n`, zeros elsewhere. */
  function Slots(b: Block, c: seq<Option<Packet>>, f: seq<bool>, n: nat): (s: Symbols)
    requires b.Valid() && !b.done && |c| == b.k && !TooLong(c, b.size) && |f| == b.k + b.r
    ensures |s| == b.k + b.r && forall i :: 0 <= i < |s| ==> |s[i]| == b.size
  {
    seq(b.k + b.r, i requires 0 <= i < b.k + b.r => SlotAt(b, c, f, n, i))
  }

  function Upto(f: seq<bool>, n: nat): (g: seq<bool>)
    ensures |g| == |f|
  {
    seq(|f|, i requires 0 <= i < |f| => i < n && f[i])
  }

  /** What the decoder is given for a block. */
  ghost function Input(b: Block, c: seq<Option<Packet>>, m: Matrix): Received
    requires b.Valid() && !b.done && |c| == b.k && !TooLong(c, b.size)
  {
    Received(m, b.k, b.size, Fed(b, c), Slots(b, c, Fed(b, c), b.k + b.r))
  }

  // ----- Counting the symbols fed -----

  lemma {:induction false} CountTaken(present: seq<bool>, need: nat, i: nat)
    requires i <= |present|
    ensures CountSeen(Taken(present, need), i) == if CountSeen(present, i) < need then CountSeen(present, i) else need
  {
    if i > 0 {
      CountTaken(present, need, i - 1);
    }
  }

  lemma {:induction false} CountConcat(f: seq<bool>, g: seq<bool>, n: nat)
    requires n <= |f| + |g|
    ensures CountSeen(f + g, n) == if n <= |f| then CountSeen(f, n) else CountSeen(f, |f|) + CountSeen(g, n - |f|)
  {
    if n > 0 {
      CountConcat(f, g, n - 1);
    }
  }

  /** How far feeding has got after the symbols numbered below `n`. */
  lemma FedCount(b: Block, c: seq<Option<Packet>>, n: nat)
    requires |c| == b.k && n <= b.k + |b.present|
    ensures var need := b.k - Have(c);
      CountSeen(Fed(b, c), n) ==
        if n <= b.k then CountSeen(Flags(c), n)
        else Have(c) + if CountSeen(b.present, n - b.k) < need then CountSeen(b.present, n - b.k) else need
  {
    var need := b.k - Have(c);
    CountConcat(Flags(c), Taken(b.present, need), n);
    if n > b.k {
      CountTaken(b.present, need, n - b.k);
    }
  }

  lemma {:induction false} CountGrows(f: seq<bool>, i: nat, j: nat)
    requires i <= j <= |f|
    ensures CountSeen(f, i) <= CountSeen(f, j)
  {
    if i < j {
      CountGrows(f, i, j - 1);
    }
  }

  lemma CountStep(f: seq<bool>, n: nat)
    requires n < |f|
    ensures CountSeen(f, n + 1) == CountSeen(f, n) + if f[n] then 1 else 0
  {
  }

  /** Once k symbols are fed nothing more is. */
  lemma LastFed(b: Block, c: seq<Option<Packet>>, n: nat)
    requires |c| == b.k && n < b.k + |b.present| && CountSeen(Fed(b, c), n + 1) == b.k
    ensures Upto(Fed(b, c), n + 1) == Fed(b, c)
  {
    hide Taken;
    var f, all := Fed(b, c), b.k + |b.present|;
    FedCount(b, c, all);
    hide Fed;
    forall m | n < m < all ensures !f[m] {
      CountGrows(f, n + 1, m);
      CountStep(f, m);
      CountGrows(f, m + 1, all);
    }
  }

  // ----- Running the decoder -----

  /** The decoder holds the symbols fed below number `n`, and wants more. */
  ghost predicate Feeding(decoder: FecDecoder, b: Block, c: seq<Option<Packet>>, n: nat)
    requires b.Valid() && !b.done && |c| == b.k && !TooLong(c, b.size) && n <= b.k + b.r
    reads decoder
  {
    && decoder.Valid() && decoder.ready && decoder.small && !decoder.complete && !decoder.failed
    && decoder.k == b.k && decoder.repairs == b.r && decoder.size == b.size
    && decoder.seen == Upto(Fed(b, c), n)
    && decoder.symbols == Slots(b, c, Fed(b, c), n)
    && decoder.received == CountSeen(Fed(b, c), n) < b.k
  }

  /** The decoder has been handed everything and has answered. */
  ghost predicate Answered(decoder: FecDecoder, b: Block, c: seq<Option<Packet>>, matrix: Option<Matrix>)
    requires b.Valid() && !b.done && |c| == b.k && !TooLong(c, b.size)
    reads decoder
  {
    && decoder.Valid() && decoder.k == b.k && decoder.repairs == b.r && decoder.complete == !decoder.failed
    && (matrix == None ==> !decoder.complete)
    && (matrix.Some? ==> Decoded(Input(b, c, matrix.value), decoder.complete, decoder.symbols))
  }

  lemma UptoNext(f: seq<bool>, n: nat)
    requires n < |f|
    ensures Upto(f, n + 1) == if f[n] then Upto(f, n)[n := true] else Upto(f, n)
  {
  }

  lemma SlotsNext(b: Block, c: seq<Option<Packet>>, f: seq<bool>, n: nat)
    requires b.Valid() && !b.done && |c| == b.k && !TooLong(c, b.size) && |f| == b.k + b.r && n < |f|
    ensures Slots(b, c, f, n + 1) == if f[n] then Slots(b, c, f, n)[n := SymbolAt(b, c, n)] else Slots(b, c, f, n)
  {
    hide SymbolAt;
    hide Zeros;
  }

  lemma SlotsFull(b: Block, c: seq<Option<Packet>>, f: seq<bool>, n: nat)
    requires b.Valid() && !b.done && |c| == b.k && !TooLong(c, b.size) && |f| == b.k + b.r && n <= |f|
    requires Upto(f, n) == f
    ensures Slots(b, c, f, n) == Slots(b, c, f, b.k + b.r)
  {
    hide SymbolAt;
    hide Zeros;
    forall i | n <= i < |f| ensures !f[i] {
      assert !Upto(f, n)[i];
    }
  }

  /** With a gap left, a codec without a matrix cannot complete. */
  lemma GapLeft(c: seq<Option<Packet>>, seen: seq<bool>, k: nat)
    requires |c| == k <= |seen| && Have(c) < k && forall i :: 0 <= i < k ==> seen[i] == c[i].Some?
    ensures Missing(seen, k) != []
  {
    CountMissing(seen, k);
    SameCount(seen, Flags(c), k);
  }

  lemma {:induction false} SameCount(f: seq<bool>, g: seq<bool>, n: nat)
    requires n <= |f| && n <= |g| && forall i :: 0 <= i < n ==> f[i] == g[i]
    ensures CountSeen(f, n) == CountSeen(g, n)
  {
    if n > 0 {
      SameCount(f, g, n - 1);
    }
  }

  /** Hand one more symbol to the decoder; one that has failed refuses it. */
  method FeedOne(decoder: FecDecoder, b: Block, c: seq<Option<Packet>>, n: nat, data: seq<byte>, matrix: Option<Matrix>,
                 ghost answered: bool)
    requires b.Valid() && !b.done && |c| == b.k && !TooLong(c, b.size) && Have(c) < b.k && n < b.k + b.r
    requires !answered ==> Feeding(decoder, b, c, n) && Fed(b, c)[n] && data == SymbolAt(b, c, n)
    requires answered ==> Answered(decoder, b, c, matrix) && decoder.failed
    requires matrix.Some? ==> Rectangle(matrix.value, b.r, b.k)
    modifies decoder
    ensures !answered && CountSeen(Fed(b, c), n + 1) < b.k ==> Feeding(decoder, b, c, n + 1)
    ensures answered || CountSeen(Fed(b, c), n + 1) >= b.k ==> Answered(decoder, b, c, matrix)
  {
    hide Field.Valid;
    hide SymbolAt;
    hide Decoded;
    hide Missing;
    hide Fed;
    hide Slots;
    hide Upto;
    hide CountSeen;
    hide TooLong;
    ghost var f := Fed(b, c);
    UptoNext(f, n);
    SlotsNext(b, c, f, n);
    CountStep(f, n);
    UptoAt(f, n);
    var outcome := decoder.AddSymbol(n, data, matrix, NO_SESSION);
    if !answered && decoder.received >= b.k {
      LastFed(b, c, n);
      SlotsFull(b, c, f, n + 1);
      FlagsFed(b, c);
      GapLeft(c, f, b.k);
    }
  }

  lemma UptoAt(f: seq<bool>, n: nat)
    requires n < |f|
    ensures !Upto(f, n)[n]
  {
  }

  lemma FlagsFed(b: Block, c: seq<Option<Packet>>)
    requires |c| == b.k
    ensures forall i :: 0 <= i < b.k ==> Fed(b, c)[i] == c[i].Some?
  {
  }

  lemma FeedingStart(b: Block, c: seq<Option<Packet>>)
    requires b.Valid() && !b.done && |c| == b.k && !TooLong(c, b.size)
    ensures Upto(Fed(b, c), 0) == Unseen(b.k + b.r)
    ensures Slots(b, c, Fed(b, c), 0) == Zeroed(b.k + b.r, b.size)
    ensures CountSeen(Fed(b, c), 0) == 0
  {
  }

  /** A symbol that is not fed changes nothing. */
  lemma FeedingSkip(decoder: FecDecoder, b: Block, c: seq<Option<Packet>>, n: nat)
    requires b.Valid() && !b.done && |c| == b.k && !TooLong(c, b.size) && n < b.k + b.r
    requires Feeding(decoder, b, c, n) && !Fed(b, c)[n]
    ensures Feeding(decoder, b, c, n + 1)
  {
    hide Field.Valid;
    hide SymbolAt;
    hide Fed;
    hide Slots;
    hide Upto;
    hide TooLong;
    UptoNext(Fed(b, c), n);
    SlotsNext(b, c, Fed(b, c), n);
  }

  /** While more is wanted, every repair present is one the decoder takes. */
  lemma RepairIsFed(b: Block, c: seq<Option<Packet>>, i: nat)
    requires |c| == b.k && i < |b.present| && CountSeen(Fed(b, c), b.k + i) < b.k
    ensures Fed(b, c)[b.k + i] == b.present[i]
  {
    hide CountSeen;
    hide Flags;
    FedCount(b, c, b.k + i);
    var taken := Taken(b.present, b.k - Have(c));
    assert Fed(b, c) == Flags(c) + taken;
    assert CountSeen(b.present, i) < b.k - Have(c);
    assert taken[i] == b.present[i];
  }

  lemma SourcesFedBelowK(b: Block, c: seq<Option<Packet>>, n: nat)
    requires |c| == b.k && n <= b.k && Have(c) < b.k
    ensures CountSeen(Fed(b, c), n) < b.k
  {
    FedCount(b, c, n);
    CountGrows(Flags(c), n, b.k);
  }

  /** Reset the decoder and feed it the cached sources. */
  method FeedSources(decoder: FecDecoder, b: Block, c: seq<Option<Packet>>, matrix: Option<Matrix>)
    requires decoder.Valid() && b.Valid() && !b.done && |c| == b.k && !TooLong(c, b.size)
    requires Have(c) < b.k <= Have(c) + CountSeen(b.present, b.r)
    requires matrix.Some? ==> Rectangle(matrix.value, b.r, b.k)
    modifies decoder
    ensures Feeding(decoder, b, c, b.k)
  {
    hide Field.Valid;
    hide Answered;
    hide Slots;
    hide Upto;
    hide Fed;
    hide Zeroed;
    hide Unseen;
    var ok := decoder.Reset(b.k, b.r, b.size, false);
    FeedingStart(b, c);
    for i := 0 to b.k
      invariant Feeding(decoder, b, c, i)
    {
      SourcesFedBelowK(b, c, i + 1);
      FlagsFed(b, c);
      if c[i].Some? {
        FeedOne(decoder, b, c, i, Pad(c[i].value, b.size), matrix, false);
      } else {
        FeedingSkip(decoder, b, c, i);
      }
    }
  }

  /** Feed the decoder the cached sources, then the repairs until it answers. */
  method RunDecoder(decoder: FecDecoder, b: Block, c: seq<Option<Packet>>, matrix: Option<Matrix>)
    requires decoder.Valid() && b.Valid() && !b.done && |c| == b.k && !TooLong(c, b.size)
    requires Have(c) < b.k <= Have(c) + CountSeen(b.present, b.r)
    requires matrix.Some? ==> Rectangle(matrix.value, b.r, b.k)
    modifies decoder
    ensures Answered(decoder, b, c, matrix)
  {
    hide Field.Valid;
    hide Answered;
    hide Slots;
    hide Upto;
    hide Fed;
    hide Zeroed;
    hide Unseen;
    FeedSources(decoder, b, c, matrix);
    var i := 0;
    ghost var answered := false;
    while i < b.r && !decoder.complete
      invariant i <= b.r
      invariant !answered ==> Feeding(decoder, b, c, b.k + i)
      invariant answered ==> Answered(decoder, b, c, matrix) && decoder.complete == !decoder.failed
    {
      if !answered {
        RepairIsFed(b, c, i);
      }
      if b.present[i] {
        FeedOne(decoder, b, c, b.k + i, b.repairs[i], matrix, answered);
        if CountSeen(Fed(b, c), b.k + i + 1) >= b.k {
          answered := true;
        }
      } else if !answered {
        FeedingSkip(decoder, b, c, b.k + i);
      }
      AnsweredFacts(decoder, b, c, matrix);
      i := i + 1;
    }
    if !answered {
      FedCount(b, c, b.k + b.r);
    }
  }

  lemma AnsweredFacts(decoder: FecDecoder, b: Block, c: seq<Option<Packet>>, matrix: Option<Matrix>)
    requires b.Valid() && !b.done && |c| == b.k && !TooLong(c, b.size)
    ensures Answered(decoder, b, c, matrix) ==> decoder.complete == !decoder.failed
  {
  }

  // ----- Reading the decoded symbols -----

  /** The media stream a receiver rebuilds. */
  datatype Stream = Stream(ssrc: nat, payloadType: nat)

  /** A decoded symbol is the packet that belongs at position `i`. */
  predicate Plausible(b: Block, i: nat, symbol: seq<byte>, media: Stream) {
    && |symbol| == b.size >= 2 && Claimed(symbol) + 2 <= b.size
    && var p := Unpad(symbol);
       && HeaderSize(p) != 0 && Ssrc(p) == media.ssrc && Timestamp(p) == b.timestamp
       && Sequence(p) == (b.base + i) % 0x1_0000 && PayloadType(p) == media.payloadType
  }

  predicate AllPlausible(b: Block, c: seq<Option<Packet>>, now: Symbols, media: Stream, n: nat)
    requires n <= |c| && n <= |now|
  {
    forall i :: 0 <= i < n && c[i].None? ==> Plausible(b, i, now[i], media)
  }

  /** The packets at the gaps below `n`, ascending. */
  function Absent(packets: seq<Packet>, c: seq<Option<Packet>>, n: nat): (s: seq<Packet>)
    requires n <= |c| && n <= |packets|
    ensures forall p :: p in s ==> p in packets
  {
    if n == 0 then [] else
      Absent(packets, c, n - 1) + if c[n - 1].None? then [packets[n - 1]] else []
  }

  function Unpadded(now: Symbols): (s: seq<Packet>)
    ensures |s| == |now|
  {
    seq(|now|, i requires 0 <= i < |now| => if |now[i]| >= 2 && Claimed(now[i]) + 2 <= |now[i]| then Unpad(now[i]) else [])
  }

  /** What a completed block yields: the packets at its gaps, or nothing if one is implausible. */
  function Harvest(b: Block, c: seq<Option<Packet>>, now: Symbols, media: Stream): seq<Packet>
    requires |c| == b.k <= |now|
  {
    if AllPlausible(b, c, now, media, b.k) then Absent(Unpadded(now), c, b.k) else []
  }

  method ReadGaps(b: Block, c: seq<Option<Packet>>, now: Symbols, media: Stream) returns (result: seq<Packet>)
    requires |c| == b.k <= |now|
    ensures result == Harvest(b, c, now, media)
  {
    hide Plausible;
    result := [];
    for i := 0 to b.k
      invariant AllPlausible(b, c, now, media, i)
      invariant result == Absent(Unpadded(now), c, i)
    {
      if c[i].None? {
        if !Plausible(b, i, now[i], media) {
          return [];
        }
        PlausibleShape(b, i, now[i], media);
        result := result + [Unpad(now[i])];
      }
    }
  }

  lemma PlausibleShape(b: Block, i: nat, symbol: seq<byte>, media: Stream)
    requires Plausible(b, i, symbol, media)
    ensures |symbol| >= 2 && Claimed(symbol) + 2 <= |symbol|
  {
  }

  // ----- TryDecode -----

  /** What TryDecode does to a block that is not done, given the decoder's answer. */
  ghost predicate Decides(b: Block, c: seq<Option<Packet>>, matrix: Option<Matrix>, media: Stream,
                          after: Block, recovered: seq<Packet>)
    requires b.Valid() && !b.done && |c| == b.k
  {
    if TooLong(c, b.size) then after == b.(done := true) && recovered == []
    else if Have(c) == b.k then after == b.(done := true, repairs := []) && recovered == []
    else if Have(c) + CountSeen(b.present, b.r) < b.k then after == b && recovered == []
    else
      && after == b.(done := true, repairs := [])
      && (matrix == None ==> recovered == [])
      && (matrix.Some? ==> exists ok, now :: Recovers(b, c, matrix.value, media, ok, now, recovered))
  }

  ghost predicate Recovers(b: Block, c: seq<Option<Packet>>, m: Matrix, media: Stream, ok: bool, now: Symbols,
                           recovered: seq<Packet>)
    requires b.Valid() && !b.done && |c| == b.k && !TooLong(c, b.size)
  {
    && Decoded(Input(b, c, m), ok, now)
    && recovered == if ok then Harvest(b, c, now, media) else []
  }

  method CountCached(sources: map<nat, Source>, b: Block) returns (tooLong: bool, have: nat, c: seq<Option<Packet>>)
    ensures c == CachedAll(sources, b)
    ensures tooLong <==> TooLong(c, b.size)
    ensures have == Have(c)
  {
    c := CachedAll(sources, b);
    tooLong, have := false, 0;
    for i := 0 to b.k
      invariant tooLong <==> exists j :: 0 <= j < i && c[j].Some? && |c[j].value| + 2 > b.size
      invariant have == CountSeen(Flags(c), i)
    {
      if c[i].Some? {
        if |c[i].value| + 2 > b.size {
          tooLong := true;
        }
        have := have + 1;
      }
    }
  }

  method CountPresentRepairs(present: seq<bool>) returns (n: nat)
    ensures n == CountSeen(present, |present|)
  {
    n := 0;
    for i := 0 to |present|
      invariant n == CountSeen(present, i)
    {
      if present[i] {
        n := n + 1;
      }
    }
  }

  method TryDecode(b: Block, sources: map<nat, Source>, decoder: FecDecoder, matrix: Option<Matrix>, media: Stream)
    returns (after: Block, recovered: seq<Packet>)
    requires decoder.Valid() && b.Valid()
    requires matrix.Some? ==> Rectangle(matrix.value, b.r, b.k)
    modifies decoder
    ensures decoder.Valid() && after.Valid()
    ensures b.done ==> after == b && recovered == []
    ensures !b.done ==> Decides(b, CachedAll(sources, b), matrix, media, after, recovered)
  {
    hide Field.Valid;
    hide Harvest;
    hide Cached;
    after, recovered := b, [];
    if b.done {
      return;
    }
    var tooLong, have, c := CountCached(sources, b);
    if tooLong {
      after := b.(done := true);
      return;
    }
    if have == b.k {
      after := b.(done := true, repairs := []);
      return;
    }
    var repairs := CountPresentRepairs(b.present);
    if have + repairs < b.k {
      return;
    }
    RunDecoder(decoder, b, c, matrix);
    after := b.(done := true, repairs := []);
    if decoder.complete {
      DecodedShape(b, c, matrix, decoder.symbols);
      recovered := ReadGaps(b, c, decoder.symbols, media);
    }
    assert matrix.Some? ==> Recovers(b, c, matrix.value, media, decoder.complete, decoder.symbols, recovered);
  }

  lemma DecodedShape(b: Block, c: seq<Option<Packet>>, matrix: Option<Matrix>, now: Symbols)
    requires b.Valid() && !b.done && |c| == b.k && !TooLong(c, b.size)
    requires matrix.Some? && Decoded(Input(b, c, matrix.value), true, now)
    ensures b.k <= |now|
  {
  }

  // ----- Against an honest sender -----

  /** A receiver block that stems from a sender block of the media stream. */
  ghost predicate Matches(b: Block, sb: SentBlock, matrix: Matrices, media: Stream)
    requires Shared(matrix)
  {
    && b.Valid() && sb.Valid() && Ssrc(sb.packets[0]) == media.ssrc
    && b.timestamp == Timestamp(sb.packets[0]) && b.base == Sequence(sb.packets[0])
    && b.k == |sb.packets| && b.r == sb.r && b.size == sb.Size()
    && (!b.done ==> forall i :: 0 <= i < b.r && b.present[i] ==> b.repairs[i] == sb.Code(matrix)[b.k + i])
  }

  /** The cached packets are ones the sender was given. */
  ghost predicate TrueSources(sources: map<nat, Source>, t: Transcript) {
    forall s :: s in sources ==>
      sources[s].bytes in t.sent && |sources[s].bytes| >= 12 && Sequence(sources[s].bytes) == s
  }

  /** What is cached for a block is part of it. */
  ghost predicate CachedFrom(c: seq<Option<Packet>>, packets: seq<Packet>) {
    |c| == |packets| && forall i :: 0 <= i < |c| && c[i].Some? ==> c[i].value == packets[i]
  }

  lemma CachedIsTrue(b: Block, sources: map<nat, Source>, t: Transcript, j: nat, matrix: Matrices, media: Stream)
    requires Shared(matrix) && t.WellFormed() && t.DistinctKeys() && j < |t.blocks|
    requires Matches(b, t.blocks[j], matrix, media) && TrueSources(sources, t)
    ensures CachedFrom(CachedAll(sources, b), t.blocks[j].packets)
  {
    hide Codeword;
    hide Timestamp;
    hide Sequence;
    hide Ssrc;
    hide HeaderSize;
    hide BlockSize;
    var packets, c := t.blocks[j].packets, CachedAll(sources, b);
    forall i | 0 <= i < b.k && c[i].Some? ensures c[i].value == packets[i] {
      ConsecutiveFrom(packets, i);
      BlockPacketSent(t, j, i);
      ProtectableLength(packets[i]);
      SameKeySamePacket(t, c[i].value, packets[i]);
    }
  }

  lemma ProtectableLength(p: Packet)
    requires Protectable(p)
    ensures |p| >= 12 && |p| + 2 <= 0x1_0000
  {
  }

  lemma HonestFits(c: seq<Option<Packet>>, sb: SentBlock)
    requires CachedFrom(c, sb.packets)
    ensures !TooLong(c, sb.Size())
  {
  }

  /** Every symbol fed is one of the block's codeword. */
  lemma InputCarries(b: Block, c: seq<Option<Packet>>, sb: SentBlock, matrix: Matrices, media: Stream)
    requires Shared(matrix) && Matches(b, sb, matrix, media) && !b.done && CachedFrom(c, sb.packets)
    requires !TooLong(c, b.size)
    ensures forall i :: 0 <= i < b.k + b.r && Fed(b, c)[i] ==>
      Slots(b, c, Fed(b, c), b.k + b.r)[i] == sb.Code(matrix)[i]
  {
    hide Timestamp;
    hide Sequence;
    hide Ssrc;
    hide HeaderSize;
    hide BlockSize;
    hide Repair;
    hide TooLong;
    forall i | 0 <= i < b.k + b.r && Fed(b, c)[i]
      ensures Slots(b, c, Fed(b, c), b.k + b.r)[i] == sb.Code(matrix)[i]
    {
      if i < b.k {
        assert sb.Code(matrix)[i] == sb.Sources()[i];
      } else {
        assert Taken(b.present, b.k - Have(c))[i - b.k];
      }
    }
  }

  lemma {:induction false} AbsentSame(x: seq<Packet>, y: seq<Packet>, c: seq<Option<Packet>>, n: nat)
    requires n <= |c| && n <= |x| && n <= |y|
    requires forall i :: 0 <= i < n && c[i].None? ==> x[i] == y[i]
    ensures Absent(x, c, n) == Absent(y, c, n)
  {
    if n > 0 {
      AbsentSame(x, y, c, n - 1);
    }
  }

  /** The right sources are harvested whole, or not at all when a payload type differs. */
  lemma HonestHarvest(b: Block, c: seq<Option<Packet>>, sb: SentBlock, now: Symbols, matrix: Matrices, media: Stream)
    requires Shared(matrix) && Matches(b, sb, matrix, media) && |c| == b.k <= |now| && now[..b.k] == sb.Sources()
    ensures Harvest(b, c, now, media) == Absent(sb.packets, c, b.k) || Harvest(b, c, now, media) == []
    ensures (forall i :: 0 <= i < b.k ==> PayloadType(sb.packets[i]) == media.payloadType) ==>
      Harvest(b, c, now, media) == Absent(sb.packets, c, b.k)
  {
    hide Codeword;
    hide Timestamp;
    hide Sequence;
    hide Ssrc;
    hide HeaderSize;
    hide BlockSize;
    hide PayloadType;
    hide Claimed;
    hide Unpad;
    hide Pad;
    forall i | 0 <= i < b.k
      ensures Unpadded(now)[i] == sb.packets[i]
      ensures PayloadType(sb.packets[i]) == media.payloadType ==> Plausible(b, i, now[i], media)
    {
      ConsecutiveFrom(sb.packets, i);
      ProtectableLength(sb.packets[i]);
      assert now[i] == now[..b.k][i] == Pad(sb.packets[i], b.size);
      UnpadPad(sb.packets[i], b.size);
    }
    AbsentSame(Unpadded(now), sb.packets, c, b.k);
  }

  /**
   For a block of an honest sender: whatever is decoded is exactly the packets
   missing from the block; and with k symbols at hand, a matrix whose square
   submatrices are non-singular and one payload type, they are decoded.
   */
  lemma HonestDecision(b: Block, c: seq<Option<Packet>>, sb: SentBlock, matrix: Matrices, codec: bool, media: Stream,
                       after: Block, recovered: seq<Packet>)
    requires Shared(matrix) && Matches(b, sb, matrix, media) && !b.done && CachedFrom(c, sb.packets)
    requires Decides(b, c, if codec then Some(matrix(b.k, b.r)) else None, media, after, recovered)
    ensures Matches(after, sb, matrix, media)
    ensures recovered == [] || recovered == Absent(sb.packets, c, b.k)
    ensures codec && Have(c) < b.k <= Have(c) + CountSeen(b.present, b.r)
      && AllSubmatricesNonSingular(matrix(b.k, b.r), b.k)
      && (forall i :: 0 <= i < b.k ==> PayloadType(sb.packets[i]) == media.payloadType)
      ==> recovered == Absent(sb.packets, c, b.k)
  {
    hide Timestamp;
    hide Sequence;
    hide Ssrc;
    hide HeaderSize;
    hide BlockSize;
    hide Codeword;
    hide Harvest;
    hide Decoded;
    hide AllSubmatricesNonSingular;
    hide PayloadType;
    HonestFits(c, sb);
    if codec && Have(c) < b.k <= Have(c) + CountSeen(b.present, b.r) {
      HonestDecode(b, c, sb, matrix, media, recovered);
    }
  }

  /** The decoding of a sender's block. */
  lemma HonestDecode(b: Block, c: seq<Option<Packet>>, sb: SentBlock, matrix: Matrices, media: Stream, recovered: seq<Packet>)
    requires Shared(matrix) && Matches(b, sb, matrix, media) && !b.done && CachedFrom(c, sb.packets)
    requires !TooLong(c, b.size) && Have(c) < b.k <= Have(c) + CountSeen(b.present, b.r)
    requires exists ok, now :: Recovers(b, c, matrix(b.k, b.r), media, ok, now, recovered)
    ensures recovered == [] || recovered == Absent(sb.packets, c, b.k)
    ensures AllSubmatricesNonSingular(matrix(b.k, b.r), b.k)
      && (forall i :: 0 <= i < b.k ==> PayloadType(sb.packets[i]) == media.payloadType)
      ==> recovered == Absent(sb.packets, c, b.k)
  {
    hide Timestamp;
    hide Sequence;
    hide Ssrc;
    hide HeaderSize;
    hide BlockSize;
    hide Codeword;
    hide Harvest;
    hide Decoded;
    hide AllSubmatricesNonSingular;
    hide PayloadType;
    hide TooLong;
    hide CachedFrom;
    hide Consecutive;
    var m := matrix(b.k, b.r);
    var ok, now :| Recovers(b, c, m, media, ok, now, recovered);
    InputCarries(b, c, sb, matrix, media);
    FedCount(b, c, b.k + b.r);
    DecodedCodeword(Input(b, c, m), sb.Sources(), ok, now);
    if ok {
      HonestHarvest(b, c, sb, now, matrix, media);
    }
  }

  // ----- The receiver -----

  /** Still inside the retention window. */
  predicate Live(arrival: int, now: int) {
    arrival <= now < arrival + WINDOW_MS
  }

  function LiveSources(sources: map<nat, Source>, now: int): map<nat, Source> {
    map s | s in sources && Live(sources[s].arrival, now) :: sources[s]
  }

  function LiveBlocks(blocks: map<Key, Block>, now: int): map<Key, Block> {
    map key | key in blocks && Live(blocks[key].arrival, now) :: blocks[key]
  }

  method ExpireSources(sources: map<nat, Source>, now: int) returns (kept: map<nat, Source>)
    ensures kept == LiveSources(sources, now)
  {
    kept := map[];
    var todo := sources.Keys;
    while todo != {}
      invariant todo <= sources.Keys
      invariant kept == map s | s in sources && s !in todo && Live(sources[s].arrival, now) :: sources[s]
      decreases todo
    {
      var s :| s in todo;
      todo := todo - {s};
      if Live(sources[s].arrival, now) {
        kept := kept[s := sources[s]];
      }
    }
  }

  method ExpireBlocks(blocks: map<Key, Block>, now: int) returns (kept: map<Key, Block>)
    ensures kept == LiveBlocks(blocks, now)
  {
    kept := map[];
    var todo := blocks.Keys;
    while todo != {}
      invariant todo <= blocks.Keys
      invariant kept == map key | key in blocks && key !in todo && Live(blocks[key].arrival, now) :: blocks[key]
      decreases todo
    {
      var key :| key in todo;
      todo := todo - {key};
      if Live(blocks[key].arrival, now) {
        kept := kept[key := blocks[key]];
      }
    }
  }

  /** The order of the map of blocks. */
  predicate NotAfter(a: Key, b: Key) {
    a.0 < b.0 || (a.0 == b.0 && a.1 <= b.1)
  }

  /** The packet that arrived first, the least numbered of several. */
  ghost predicate FirstSource(sources: map<nat, Source>, s: nat) {
    s in sources && forall q :: q in sources ==>
      sources[s].arrival < sources[q].arrival || (sources[s].arrival == sources[q].arrival && s <= q)
  }

  ghost predicate FirstBlock(blocks: map<Key, Block>, key: Key) {
    key in blocks && forall q :: q in blocks ==>
      blocks[key].arrival < blocks[q].arrival || (blocks[key].arrival == blocks[q].arrival && NotAfter(key, q))
  }

  method OldestSource(sources: map<nat, Source>) returns (oldest: nat)
    requires sources.Keys != {}
    ensures FirstSource(sources, oldest)
  {
    oldest :| oldest in sources.Keys;
    var todo := sources.Keys;
    while todo != {}
      invariant todo <= sources.Keys && oldest in sources
      invariant forall s :: s in sources && s !in todo ==>
        sources[oldest].arrival < sources[s].arrival || (sources[oldest].arrival == sources[s].arrival && oldest <= s)
      decreases todo
    {
      var s :| s in todo;
      todo := todo - {s};
      if sources[s].arrival < sources[oldest].arrival || (sources[s].arrival == sources[oldest].arrival && s < oldest) {
        oldest := s;
      }
    }
  }

  method OldestBlock(blocks: map<Key, Block>) returns (oldest: Key)
    requires blocks.Keys != {}
    ensures FirstBlock(blocks, oldest)
  {
    oldest :| oldest in blocks.Keys;
    var todo := blocks.Keys;
    while todo != {}
      invariant todo <= blocks.Keys && oldest in blocks
      invariant forall key :: key in blocks && key !in todo ==>
        blocks[oldest].arrival < blocks[key].arrival || (blocks[oldest].arrival == blocks[key].arrival && NotAfter(oldest, key))
      decreases todo
    {
      var key :| key in todo;
      todo := todo - {key};
      if blocks[key].arrival < blocks[oldest].arrival
         || (blocks[key].arrival == blocks[oldest].arrival && NotAfter(key, oldest)) {
        oldest := key;
      }
    }
  }

  /** The first of these keys in the order of the map. */
  method LeastKey(keys: set<Key>) returns (least: Key)
    requires keys != {}
    ensures least in keys && forall key :: key in keys ==> NotAfter(least, key)
  {
    least :| least in keys;
    var todo := keys;
    while todo != {}
      invariant todo <= keys && least in keys
      invariant forall key :: key in keys && key !in todo ==> NotAfter(least, key)
      decreases todo
    {
      var key :| key in todo;
      todo := todo - {key};
      if NotAfter(key, least) {
        least := key;
      }
    }
  }

  /** A full table gives up its oldest block. */
  method RoomForOne(blocks: map<Key, Block>) returns (kept: map<Key, Block>)
    requires |blocks| <= MAX_BLOCKS
    ensures |kept| < MAX_BLOCKS
    ensures |blocks| < MAX_BLOCKS ==> kept == blocks
    ensures |blocks| == MAX_BLOCKS ==> exists oldest :: FirstBlock(blocks, oldest) && kept == blocks - {oldest}
  {
    kept := blocks;
    if |blocks| >= MAX_BLOCKS {
      var oldest := OldestBlock(blocks);
      kept := blocks - {oldest};
      OneLess(blocks, oldest);
    }
  }

  ghost predicate FromSender(b: Block, t: Transcript, matrix: Matrices, media: Stream)
    requires Shared(matrix)
  {
    exists j :: 0 <= j < |t.blocks| && Matches(b, t.blocks[j], matrix, media)
  }

  /** A decision on a sender's block stays a sender's block and yields only packets sent. */
  lemma HonestBlock(b: Block, sources: map<nat, Source>, t: Transcript, matrix: Matrices, codec: bool, media: Stream,
                    after: Block, recovered: seq<Packet>)
    requires Shared(matrix) && t.WellFormed() && t.DistinctKeys() && b.Valid() && !b.done
    requires FromSender(b, t, matrix, media) && TrueSources(sources, t)
    requires Decides(b, CachedAll(sources, b), if codec then Some(matrix(b.k, b.r)) else None, media, after, recovered)
    ensures FromSender(after, t, matrix, media)
    ensures forall q :: q in recovered ==> q in t.sent
  {
    hide Matches;
    hide Decides;
    hide Transcript.WellFormed;
    hide Transcript.DistinctKeys;
    hide TrueSources;
    hide CachedAll;
    var j :| 0 <= j < |t.blocks| && Matches(b, t.blocks[j], matrix, media);
    var c := CachedAll(sources, b);
    CachedIsTrue(b, sources, t, j, matrix, media);
    HonestDecision(b, c, t.blocks[j], matrix, codec, media, after, recovered);
    forall q | q in t.blocks[j].packets ensures q in t.sent {
      PacketsSent(t, j, q);
    }
  }

  lemma PacketsSent(t: Transcript, j: nat, q: Packet)
    requires t.WellFormed() && j < |t.blocks| && q in t.blocks[j].packets
    ensures q in t.sent
  {
    var i :| 0 <= i < |t.blocks[j].packets| && t.blocks[j].packets[i] == q;
    BlockPacketSent(t, j, i);
  }

  /** A receiver block of the media stream cannot exist when that is also the repair stream. */
  lemma MediaIsNotRepair(b: Block, t: Transcript, matrix: Matrices, media: Stream, repairSsrc: nat)
    requires Shared(matrix) && t.Honest(repairSsrc) && FromSender(b, t, matrix, media)
    ensures media.ssrc != repairSsrc
  {
    hide Codeword;
    var j :| 0 <= j < |t.blocks| && Matches(b, t.blocks[j], matrix, media);
    BlockPacketSent(t, j, 0);
    var i :| 0 <= i < |t.sent| && t.sent[i] == t.blocks[j].packets[0];
    ProtectableLength(t.blocks[j].packets[0]);
  }

  lemma {:induction false} AbsentLong(packets: seq<Packet>, c: seq<Option<Packet>>, n: nat)
    requires n <= |c| && n <= |packets| && forall i :: 0 <= i < n && c[i].None? ==> |packets[i]| >= 12
    ensures forall q :: q in Absent(packets, c, n) ==> |q| >= 12
  {
    if n > 0 {
      AbsentLong(packets, c, n - 1);
    }
  }

  lemma HarvestLong(b: Block, c: seq<Option<Packet>>, now: Symbols, media: Stream)
    requires |c| == b.k <= |now|
    ensures forall q :: q in Harvest(b, c, now, media) ==> |q| >= 12
  {
    if AllPlausible(b, c, now, media, b.k) {
      AbsentLong(Unpadded(now), c, b.k);
    }
  }

  lemma DecidesLong(b: Block, c: seq<Option<Packet>>, matrix: Option<Matrix>, media: Stream, after: Block, recovered: seq<Packet>)
    requires b.Valid() && !b.done && |c| == b.k && Decides(b, c, matrix, media, after, recovered)
    ensures forall q :: q in recovered ==> |q| >= 12
  {
    hide Harvest;
    if recovered != [] {
      var ok, now :| Recovers(b, c, matrix.value, media, ok, now, recovered);
      DecodedShape(b, c, matrix, now);
      HarvestLong(b, c, now, media);
    }
  }

  // ----- Repair packets -----

  /** The numbering a repair packet carries. */
  datatype RepairInfo = RepairInfo(k: nat, r: nat, id: nat, size: nat, ssrc: nat, timestamp: nat, base: nat, data: seq<byte>)

  function ReadRepair(p: Packet, header: nat): RepairInfo
    requires 12 <= header && header + FEC_HEADER_SIZE <= |p|
  {
    var h := p[header..header + FEC_HEADER_SIZE];
    RepairInfo(h[3], h[4], h[5], Read16(h, 6), Read32(h, 8), Timestamp(p), Read16(h, 12), p[header + FEC_HEADER_SIZE..])
  }

  /** The checks on the private header. */
  predicate RepairOk(p: Packet, header: nat, mediaSsrc: nat)
    requires 12 <= header && header + FEC_HEADER_SIZE <= |p|
  {
    var h, i := p[header..header + FEC_HEADER_SIZE], ReadRepair(p, header);
    && h[0] == 77 && h[1] == 70 && h[2] == 1 && h[14] == 0 && h[15] == 0
    && SupportsSmallRs(i.k, i.r) && i.k <= i.id < i.k + i.r
    && 14 <= i.size <= MAX_MEDIA_PACKET + 2 && |i.data| == i.size && i.ssrc == mediaSsrc
  }

  /** What the i-th repair of a sender's block says. */
  ghost function InfoOf(sb: SentBlock, i: nat, matrix: Matrices): RepairInfo
    requires Shared(matrix) && sb.Valid() && i < sb.r
  {
    RepairInfo(|sb.packets|, sb.r, |sb.packets| + i, sb.Size(), Ssrc(sb.packets[0]),
      Timestamp(sb.packets[0]), Sequence(sb.packets[0]), sb.Code(matrix)[|sb.packets| + i])
  }

  /** Reading a sender's repair gives back what it says. */
  lemma RepairAtReads(sb: SentBlock, i: nat, matrix: Matrices)
    requires Shared(matrix) && sb.Valid() && i < sb.r
    ensures var p := sb.RepairAt(i, matrix);
      HeaderSize(p) != 0 && HeaderSize(p) + FEC_HEADER_SIZE <= |p| && ReadRepair(p, HeaderSize(p)) == InfoOf(sb, i, matrix)
  {
    hide HeaderSize;
    hide RepairPacket;
    hide Codeword;
    hide Read16;
    hide Read32;
    hide BlockSize;
    RepairFields(sb, i, matrix);
    SizeBound(sb);
    RepairHeaderParses(|sb.packets|, sb.r, |sb.packets| + i, sb.Size(), Ssrc(sb.packets[0]), Sequence(sb.packets[0]));
    var h := sb.HeaderOf(i);
    assert h[3] == h[..6][3] && h[4] == h[..6][4] && h[5] == h[..6][5];
  }

  lemma SizeBound(sb: SentBlock)
    requires sb.Valid()
    ensures 14 <= sb.Size() <= MAX_MEDIA_PACKET + 2
  {
    forall i | 0 <= i < |sb.packets| ensures 12 <= |sb.packets[i]| <= MAX_MEDIA_PACKET {
      assert Protectable(sb.packets[i]);
    }
  }

  /** A block with no repairs yet. */
  function EmptyBlock(i: RepairInfo, now: int): Block {
    Block(i.timestamp, i.base, i.k, i.r, i.size, now, false, seq(i.r, _ => []), Unseen(i.r))
  }

  lemma EmptyValid(i: RepairInfo, now: int)
    requires SupportsSmallRs(i.k, i.r) && 14 <= i.size <= MAX_MEDIA_PACKET + 2
    ensures EmptyBlock(i, now).Valid()
  {
  }

  function WithRepair(b: Block, i: RepairInfo): Block
    requires b.k <= i.id < b.k + b.r && |b.repairs| == |b.present| == b.r
  {
    b.(repairs := b.repairs[i.id - b.k := i.data], present := b.present[i.id - b.k := true])
  }

  lemma FiledValid(b: Block, i: RepairInfo)
    requires b.Valid() && !b.done && b.k == i.k && b.r == i.r && b.size == i.size
    requires i.k <= i.id < i.k + i.r && |i.data| == i.size
    ensures var f := WithRepair(b, i); f.Valid() && f.timestamp == b.timestamp && f.base == b.base
  {
  }

  /** Storing a sender's repair in its block keeps the block a sender's block. */
  lemma StoreHonest(b: Block, sb: SentBlock, i: nat, matrix: Matrices, media: Stream)
    requires Shared(matrix) && sb.Valid() && i < sb.r && Matches(b, sb, matrix, media) && !b.done
    ensures var info := InfoOf(sb, i, matrix);
      b.k <= info.id < b.k + b.r && Matches(WithRepair(b, info), sb, matrix, media)
  {
    hide Codeword;
    hide Consecutive;
    hide BlockSize;
    hide Timestamp;
    hide Sequence;
    hide Ssrc;
  }

  /** A fresh block for a sender's repair is a sender's block. */
  lemma EmptyHonest(sb: SentBlock, i: nat, matrix: Matrices, media: Stream, now: int)
    requires Shared(matrix) && sb.Valid() && i < sb.r && Ssrc(sb.packets[0]) == media.ssrc
    ensures Matches(EmptyBlock(InfoOf(sb, i, matrix), now), sb, matrix, media)
  {
    hide Codeword;
    hide Consecutive;
    hide BlockSize;
    hide Timestamp;
    hide Sequence;
    hide Ssrc;
    SizeBound(sb);
  }

  /** The block filed under a repair's key is the one the repair was cut from. */
  lemma SameBlock(b: Block, t: Transcript, j: nat, i: nat, matrix: Matrices, media: Stream)
    requires Shared(matrix) && t.WellFormed() && t.DistinctKeys() && j < |t.blocks| && i < t.blocks[j].r
    requires FromSender(b, t, matrix, media)
    requires b.timestamp == InfoOf(t.blocks[j], i, matrix).timestamp && b.base == InfoOf(t.blocks[j], i, matrix).base
    ensures Matches(b, t.blocks[j], matrix, media)
  {
    hide Codeword;
    hide BlockSize;
    hide Timestamp;
    hide Sequence;
    hide Ssrc;
    hide HeaderSize;
    var l :| 0 <= l < |t.blocks| && Matches(b, t.blocks[l], matrix, media);
    SameKeySameBlock(t, l, j);
  }

  // ----- The receiver -----

  /** Everything the receiver holds stems from the sender. */
  ghost predicate Faithful(sources: map<nat, Source>, blocks: map<Key, Block>, t: Transcript, matrix: Matrices,
                           media: Stream, repairSsrc: nat)
    requires Shared(matrix)
  {
    && (media.ssrc != repairSsrc ==> TrueSources(sources, t))
    && forall key :: key in blocks ==> FromSender(blocks[key], t, matrix, media)
  }

  ghost predicate AllSent(packets: seq<Packet>, t: Transcript) {
    forall q :: q in packets ==> q in t.sent
  }

  ghost predicate LongEnough(packets: seq<Packet>) {
    forall q :: q in packets ==> |q| >= 12
  }

  lemma ExpiryKeeps(sources: map<nat, Source>, blocks: map<Key, Block>, now: int, t: Transcript, matrix: Matrices,
                    media: Stream, repairSsrc: nat)
    requires Shared(matrix) && Faithful(sources, blocks, t, matrix, media, repairSsrc)
    ensures Faithful(LiveSources(sources, now), LiveBlocks(blocks, now), t, matrix, media, repairSsrc)
  {
    hide FromSender;
  }

  /** What a receiver holds. */
  datatype Held = Held(sources: map<nat, Source>, blocks: map<Key, Block>)
  {
    ghost predicate Valid() {
      && (forall key :: key in blocks ==> blocks[key].Valid() && key == (blocks[key].timestamp, blocks[key].base))
      && |sources| <= MAX_CACHED && |blocks| <= MAX_BLOCKS
    }

    /** What is still inside the retention window. */
    function Live(now: int): Held {
      Held(LiveSources(sources, now), LiveBlocks(blocks, now))
    }
  }

  predicate IsMedia(p: Packet, media: Stream) {
    && HeaderSize(p) != 0 && |p| <= MAX_MEDIA_PACKET
    && PayloadType(p) == media.payloadType && Ssrc(p) == media.ssrc
  }

  predicate IsRepair(p: Packet, media: Stream, repairSsrc: nat) {
    && HeaderSize(p) != 0 && |p| <= MAX_WIRE_PACKET
    && PayloadType(p) == REPAIR_PAYLOAD_TYPE as nat && Ssrc(p) == repairSsrc
    && HeaderSize(p) + FEC_HEADER_SIZE <= |p| && RepairOk(p, HeaderSize(p), media.ssrc)
  }

  /**
   What a receiver does with a packet.  Everything out of the retention window
   goes.  A media packet is kept and every block tried with it; a repair is
   filed and its block tried; what is recovered is kept too.
   */
  ghost predicate Hears(was: Held, p: Packet, now: int, codec: bool, matrix: Matrices, media: Stream, repairSsrc: nat,
                        after: Held, recovered: seq<Packet>)
    requires Shared(matrix)
  {
    exists cache :: HearsWith(was.Live(now), p, now, codec, matrix, media, repairSsrc, cache, after, recovered)
  }

  /** The same, after expiry; `cache` is what is kept when the blocks are tried. */
  ghost predicate HearsWith(live: Held, p: Packet, now: int, codec: bool, matrix: Matrices, media: Stream, repairSsrc: nat,
                            cache: map<nat, Source>, after: Held, recovered: seq<Packet>)
    requires Shared(matrix)
  {
    && LongEnough(recovered) && CachesAll(cache, recovered, now, after.sources)
    && (if IsMedia(p, media) then
          Caches(live.sources, p, now, cache) && Listened(live.blocks, cache, matrix, codec, media, after.blocks, recovered)
        else if IsRepair(p, media, repairSsrc) then
          && cache == live.sources
          && Repaired(live.blocks, ReadRepair(p, HeaderSize(p)), now, cache, matrix, codec, media, after.blocks, recovered)
        else recovered == [] && cache == live.sources && after.blocks == live.blocks)
  }

  class RtpFecReceiver {
    const media: Stream
    const repairSsrc: nat
    const matrix: Matrices
    const decoder: FecDecoder
    var sources: map<nat, Source>
    var blocks: map<Key, Block>
    /** Every packet recovered so far. */
    ghost var reported: seq<Packet>

    ghost function Value(): Held
      reads this
    {
      Held(sources, blocks)
    }

    ghost predicate Valid()
      reads this, decoder
    {
      Shared(matrix) && decoder.Valid() && Value().Valid()
    }

    constructor (media: Stream, repairSsrc: nat, matrix: Matrices, gf: Field, neon: bool)
      requires gf.Valid() && Shared(matrix)
      ensures Valid() && fresh(decoder) && Value() == Held(map[], map[]) && reported == []
      ensures this.media == media && this.repairSsrc == repairSsrc && this.matrix == matrix
    {
      hide Field.Valid;
      hide Shared;
      this.media, this.repairSsrc, this.matrix := media, repairSsrc, matrix;
      decoder := new FecDecoder(gf, neon);
      sources, blocks, reported := map[], map[], [];
    }

    /** Drop everything outside the retention window. */
    method Expire(now: int)
      requires Valid()
      modifies `sources, `blocks
      ensures Valid() && Value() == old(Value()).Live(now)
    {
      hide Field.Valid;
      hide Shared;
      hide Block.Valid;
      ghost var s, b := sources, blocks;
      sources := ExpireSources(sources, now);
      blocks := ExpireBlocks(blocks, now);
      SmallerMap(s, sources);
      SmallerMap(b, blocks);
    }

    /** Keep a packet; a duplicate does not refresh its arrival, and a full cache drops its oldest entry. */
    method Cache(packet: Packet, now: int)
      requires Valid() && |packet| >= 12
      modifies `sources
      ensures Valid()
      ensures Caches(old(sources), packet, now, sources)
    {
      hide Field.Valid;
      hide Shared;
      hide Block.Valid;
      hide Sequence;
      hide FirstSource;
      var key := Sequence(packet);
      if key in sources {
        return;
      }
      ghost var was := sources;
      if |sources| >= MAX_CACHED {
        var oldest := OldestSource(sources);
        FirstIn(sources, oldest);
        sources := sources - {oldest};
        OneLess(was, oldest);
      }
      OneMore(sources, key, Source(packet, now));
      sources := sources[key := Source(packet, now)];
    }

    /** Try every block, in the order of the map, after a media packet arrived. */
    method DecodeAll(codec: bool) returns (recovered: seq<Packet>)
      requires Valid()
      modifies `blocks, decoder
      ensures Valid() && LongEnough(recovered)
      ensures Listened(old(blocks), sources, matrix, codec, media, blocks, recovered)
    {
      hide Field.Valid;
      hide Shared;
      hide FecDecoder.Valid;
      hide Block.Valid;
      hide Reports;
      hide Tried;
      hide Listened;
      hide NotAfter;
      recovered := [];
      ghost var was := blocks;
      ghost var order: seq<Key>, parts: map<Key, seq<Packet>> := [], map[];
      var todo := blocks.Keys;
      NoneTried(was, sources, matrix, codec, media);
      while todo != {}
        invariant Valid() && LongEnough(recovered) && todo <= blocks.Keys
        invariant Tried(was, sources, matrix, codec, media, blocks, recovered, order, parts, todo)
        decreases todo
      {
        TriedFacts(was, sources, matrix, codec, media, blocks, recovered, order, parts, todo);
        var key := LeastKey(todo);
        ghost var now, all := blocks, recovered;
        var more := DecodeBlock(key, codec);
        TriedNext(was, sources, matrix, codec, media, now, all, order, parts, todo, key, blocks[key], more);
        todo := todo - {key};
        recovered := recovered + more;
        parts := parts[key := more];
        order := order + [key];
      }
      AllTried(was, sources, matrix, codec, media, blocks, recovered, order, parts);
    }

    /** AddPacket: expire, then take the packet as media or as a repair, and keep what is recovered. */
    method AddPacket(p: Packet, now: int, codec: bool) returns (recovered: seq<Packet>)
      requires Valid()
      modifies `sources, `blocks, `reported, decoder
      ensures Valid() && reported == old(reported) + recovered
      ensures Hears(old(Value()), p, now, codec, matrix, media, repairSsrc, Value(), recovered)
    {
      hide Field.Valid;
      hide Shared;
      hide FecDecoder.Valid;
      hide Block.Valid;
      hide LiveSources;
      hide LiveBlocks;
      hide HeaderSize;
      hide RepairOk;
      hide ReadRepair;
      hide Ssrc;
      hide PayloadType;
      hide Caches;
      hide CachesAll;
      hide Repaired;
      hide Listened;
      Expire(now);
      ghost var live := Value();
      recovered := [];
      if IsMedia(p, media) {
        MediaSize(p, media);
        Cache(p, now);
        recovered := DecodeAll(codec);
      } else if IsRepair(p, media, repairSsrc) {
        RepairOkFacts(p, HeaderSize(p), media.ssrc);
        recovered := ReceiveRepair(ReadRepair(p, HeaderSize(p)), now, codec);
      }
      ghost var cache := sources;
      CacheAll(recovered, now);
      reported := reported + recovered;
      assert HearsWith(live, p, now, codec, matrix, media, repairSsrc, cache, Value(), recovered);
    }

    /** Cache what was recovered. */
    method CacheAll(packets: seq<Packet>, now: int)
      requires Valid() && LongEnough(packets)
      modifies `sources
      ensures Valid() && CachesAll(old(sources), packets, now, sources)
    {
      hide Field.Valid;
      hide Shared;
      hide FecDecoder.Valid;
      hide Block.Valid;
      hide Caches;
      hide Sequence;
      NoneCached(sources, packets, now);
      hide CachesAll;
      for i := 0 to |packets|
        invariant Valid() && LongEnough(packets[..i]) && CachesAll(old(sources), packets[..i], now, sources)
      {
        assert packets[i] in packets;
        ghost var mid := sources;
        Cache(packets[i], now);
        CachesNext(old(sources), packets, i, now, mid, sources);
      }
      assert packets[..|packets|] == packets;
    }

    /** The block a repair belongs to, created if it is new; a full table drops its oldest block. */
    method FindBlock(info: RepairInfo, now: int) returns (key: Key)
      requires Valid() && SupportsSmallRs(info.k, info.r) && 14 <= info.size <= MAX_MEDIA_PACKET + 2
      modifies `blocks
      ensures Valid() && key == (info.timestamp, info.base) && key in blocks
      ensures Opens(old(blocks), info, now, blocks)
    {
      hide Field.Valid;
      hide Shared;
      hide FecDecoder.Valid;
      hide Block.Valid;
      hide FirstBlock;
      EmptyValid(info, now);
      key := (info.timestamp, info.base);
      if key in blocks {
        return;
      }
      var kept := RoomForOne(blocks);
      OneMore(kept, key, EmptyBlock(info, now));
      blocks := kept[key := EmptyBlock(info, now)];
    }

    /** File a repair in its block. */
    method FileRepair(key: Key, info: RepairInfo)
      requires Valid() && key in blocks && key == (info.timestamp, info.base) && |info.data| == info.size
      requires Files(blocks[key], info)
      modifies `blocks
      ensures Valid() && blocks == old(blocks)[key := WithRepair(old(blocks)[key], info)]
    {
      hide Field.Valid;
      hide Shared;
      hide FecDecoder.Valid;
      hide WithRepair;
      var b := blocks[key];
      FiledValid(b, info);
      OneMore(blocks, key, WithRepair(b, info));
      blocks := blocks[key := WithRepair(b, info)];
    }

    /** A repair packet: file it, and try its block. */
    method ReceiveRepair(info: RepairInfo, now: int, codec: bool) returns (recovered: seq<Packet>)
      requires Valid() && SupportsSmallRs(info.k, info.r) && 14 <= info.size <= MAX_MEDIA_PACKET + 2
      requires info.k <= info.id < info.k + info.r && |info.data| == info.size
      modifies `blocks, decoder
      ensures Valid() && LongEnough(recovered)
      ensures Repaired(old(blocks), info, now, sources, matrix, codec, media, blocks, recovered)
    {
      hide Field.Valid;
      hide Shared;
      hide FecDecoder.Valid;
      hide Reports;
      hide EmptyBlock;
      hide WithRepair;
      hide Opens;
      hide Block.Valid;
      recovered := [];
      var key := FindBlock(info, now);
      ghost var filed := blocks;
      var b := blocks[key];
      if !b.done {
        BlockShape(b);
      }
      if !b.done && b.k == info.k && b.r == info.r && b.size == info.size && !b.present[info.id - b.k] {
        FileRepair(key, info);
        recovered := DecodeBlock(key, codec);
      }
      assert Files(b, info) || blocks == filed;
    }

    /** Try one block in place. */
    method DecodeBlock(key: Key, codec: bool) returns (recovered: seq<Packet>)
      requires Valid() && key in blocks
      modifies `blocks, decoder
      ensures Valid() && key in blocks && blocks == old(blocks)[key := blocks[key]] && LongEnough(recovered)
      ensures Reports(old(blocks)[key], sources, matrix, codec, media, blocks[key], recovered)
    {
      hide Field.Valid;
      hide Shared;
      hide FecDecoder.Valid;
      hide Reports;
      hide Block.Valid;
      var b := blocks[key];
      var after;
      after, recovered := DecideBlock(b, sources, decoder, matrix, codec, media);
      OneMore(blocks, key, after);
      blocks := blocks[key := after];
    }
  }

  lemma FirstIn(sources: map<nat, Source>, s: nat)
    requires FirstSource(sources, s)
    ensures s in sources
  {
  }

  lemma MediaSize(p: Packet, media: Stream)
    requires IsMedia(p, media)
    ensures |p| >= 12
  {
  }

  /** `info` numbers the i-th repair of a sender block of the media stream. */
  ghost predicate NumbersRepair(info: RepairInfo, sb: SentBlock, i: nat, matrix: Matrices, media: Stream)
    requires Shared(matrix)
  {
    sb.Valid() && i < sb.r && Ssrc(sb.packets[0]) == media.ssrc && info == InfoOf(sb, i, matrix)
  }

  /** The numbering is that of a repair the sender cut from its media stream. */
  ghost predicate IsInfo(info: RepairInfo, t: Transcript, matrix: Matrices, media: Stream)
    requires Shared(matrix)
  {
    exists j: nat, i: nat :: j < |t.blocks| && NumbersRepair(info, t.blocks[j], i, matrix, media)
  }

  lemma FaithfulLess(sources: map<nat, Source>, was: map<Key, Block>, now: map<Key, Block>, t: Transcript,
                     matrix: Matrices, media: Stream, repairSsrc: nat)
    requires Shared(matrix) && Faithful(sources, was, t, matrix, media, repairSsrc)
    requires forall key :: key in now ==> key in was && now[key] == was[key]
    ensures Faithful(sources, now, t, matrix, media, repairSsrc)
  {
    hide FromSender;
  }

  lemma FaithfulWith(sources: map<nat, Source>, blocks: map<Key, Block>, key: Key, b: Block, t: Transcript,
                     matrix: Matrices, media: Stream, repairSsrc: nat)
    requires Shared(matrix) && Faithful(sources, blocks, t, matrix, media, repairSsrc) && FromSender(b, t, matrix, media)
    ensures Faithful(sources, blocks[key := b], t, matrix, media, repairSsrc)
  {
    hide FromSender;
  }

  /** A sender's repair opens a sender's block. */
  lemma NewHonest(info: RepairInfo, t: Transcript, matrix: Matrices, media: Stream, repairSsrc: nat, now: int)
    requires Shared(matrix) && IsInfo(info, t, matrix, media)
    ensures FromSender(EmptyBlock(info, now), t, matrix, media)
  {
    hide Matches;
    hide InfoOf;
    hide EmptyBlock;
    hide Consecutive;
    hide Codeword;
    var j: nat, i: nat :| j < |t.blocks| && NumbersRepair(info, t.blocks[j], i, matrix, media);
    EmptyHonest(t.blocks[j], i, matrix, media, now);
  }

  /** A sender's repair goes to the sender's block it was cut from. */
  lemma FiledHonest(sources: map<nat, Source>, blocks: map<Key, Block>, key: Key, info: RepairInfo, t: Transcript,
                    matrix: Matrices, media: Stream, repairSsrc: nat)
    requires Shared(matrix) && t.Honest(repairSsrc) && IsInfo(info, t, matrix, media)
    requires Faithful(sources, blocks, t, matrix, media, repairSsrc) && key in blocks && !blocks[key].done
    requires blocks[key].timestamp == info.timestamp && blocks[key].base == info.base
    requires var b := blocks[key]; b.k <= info.id < b.k + b.r && |b.repairs| == |b.present| == b.r
    ensures Faithful(sources, blocks[key := WithRepair(blocks[key], info)], t, matrix, media, repairSsrc)
  {
    hide Matches;
    hide InfoOf;
    hide Consecutive;
    hide Codeword;
    hide TrueSources;
    hide WithRepair;
    var j: nat, i: nat :| j < |t.blocks| && NumbersRepair(info, t.blocks[j], i, matrix, media);
    SameBlock(blocks[key], t, j, i, matrix, media);
    StoreHonest(blocks[key], t.blocks[j], i, matrix, media);
    FaithfulWith(sources, blocks, key, WithRepair(blocks[key], info), t, matrix, media, repairSsrc);
  }

  lemma ArrivesHonest(p: Packet, t: Transcript, matrix: Matrices, repairSsrc: nat)
    requires Shared(matrix) && Arrives(p, t, matrix, repairSsrc)
    ensures t.Honest(repairSsrc)
  {
  }

  /** On the media stream an honest wire carries only packets sent. */
  lemma HonestMedia(p: Packet, t: Transcript, matrix: Matrices, repairSsrc: nat)
    requires Shared(matrix) && Arrives(p, t, matrix, repairSsrc) && |p| >= 12 && Ssrc(p) != repairSsrc
    ensures p in t.sent
  {
    hide SentBlock.RepairAt;
    hide Ssrc;
    if t.IsRepair(p, matrix) {
      var j, i :| 0 <= j < |t.blocks| && 0 <= i < t.blocks[j].r && p == t.blocks[j].RepairAt(i, matrix);
      RepairFields(t.blocks[j], i, matrix);
    }
  }

  /** On the repair stream an honest wire carries only repairs of the sender's blocks. */
  lemma HonestRepair(p: Packet, t: Transcript, matrix: Matrices, repairSsrc: nat, media: Stream)
    requires Shared(matrix) && Arrives(p, t, matrix, repairSsrc)
    requires HeaderSize(p) != 0 && Ssrc(p) == repairSsrc && HeaderSize(p) + FEC_HEADER_SIZE <= |p|
    requires ReadRepair(p, HeaderSize(p)).ssrc == media.ssrc
    ensures IsInfo(ReadRepair(p, HeaderSize(p)), t, matrix, media)
  {
    hide SentBlock.RepairAt;
    hide Ssrc;
    hide HeaderSize;
    hide ReadRepair;
    assert p !in t.sent;
    var j, i :| 0 <= j < |t.blocks| && 0 <= i < t.blocks[j].r && p == t.blocks[j].RepairAt(i, matrix);
    RepairAtReads(t.blocks[j], i, matrix);
    assert NumbersRepair(ReadRepair(p, HeaderSize(p)), t.blocks[j], i, matrix, media);
  }

  /** What TryDecode made of one block, and the packets it yielded. */
  ghost predicate Reports(b: Block, cache: map<nat, Source>, matrix: Matrices, codec: bool, media: Stream, after: Block,
                          packets: seq<Packet>)
    requires Shared(matrix)
  {
    && b.Valid()
    && (b.done ==> after == b && packets == [])
    && (!b.done ==> Decides(b, CachedAll(cache, b), MatrixIf(matrix, b, codec), media, after, packets))
  }

  ghost predicate Ascending(order: seq<Key>) {
    forall i, j :: 0 <= i < j < |order| ==> order[i] != order[j] && NotAfter(order[i], order[j])
  }

  ghost predicate Before(order: seq<Key>, todo: set<Key>) {
    forall i, next :: 0 <= i < |order| && next in todo ==> NotAfter(order[i], next)
  }

  lemma OrderMore(order: seq<Key>, todo: set<Key>, key: Key)
    requires Ascending(order) && Before(order, todo) && key in todo && key !in order
    requires forall next :: next in todo ==> NotAfter(key, next)
    ensures Ascending(order + [key]) && Before(order + [key], todo - {key})
  {
    hide NotAfter;
  }

  /** What the blocks yielded, one after the other. */
  ghost function Strung(order: seq<Key>, parts: map<Key, seq<Packet>>): (all: seq<Packet>)
    requires forall key :: key in order ==> key in parts
    ensures forall q :: q in all ==> exists key :: key in order && q in parts[key]
  {
    if order == [] then []
    else
      var n := |order| - 1;
      assert forall key :: key in order[..n] ==> key in order;
      Strung(order[..n], parts) + parts[order[n]]
  }

  lemma {:induction false} StrungSame(order: seq<Key>, parts: map<Key, seq<Packet>>, more: map<Key, seq<Packet>>)
    requires forall key :: key in order ==> key in parts && key in more && more[key] == parts[key]
    ensures Strung(order, more) == Strung(order, parts)
  {
    if order != [] {
      assert forall key :: key in order[..|order| - 1] ==> key in order;
      StrungSame(order[..|order| - 1], parts, more);
    }
  }

  lemma StrungMore(order: seq<Key>, parts: map<Key, seq<Packet>>, key: Key, more: seq<Packet>)
    requires (forall k :: k in order ==> k in parts) && key !in order
    ensures Strung(order + [key], parts[key := more]) == Strung(order, parts) + more
  {
    assert (order + [key])[..|order|] == order;
    StrungSame(order, parts, parts[key := more]);
  }

  lemma NoneCached(was: map<nat, Source>, packets: seq<Packet>, now: int)
    ensures LongEnough(packets[..0]) && CachesAll(was, packets[..0], now, was)
  {
    assert packets[..0] == [];
  }

  /** Keeping a packet that was sent leaves everything held true. */
  lemma CachesHonest(was: map<nat, Source>, p: Packet, now: int, after: map<nat, Source>, blocks: map<Key, Block>, t: Transcript,
                     matrix: Matrices, media: Stream, repairSsrc: nat)
    requires Shared(matrix) && |p| >= 12 && Caches(was, p, now, after) && (media.ssrc != repairSsrc ==> p in t.sent)
    requires Faithful(was, blocks, t, matrix, media, repairSsrc)
    ensures Faithful(after, blocks, t, matrix, media, repairSsrc)
  {
    hide FromSender;
    hide Sequence;
  }

  lemma CachesNext(was: map<nat, Source>, packets: seq<Packet>, i: nat, now: int, mid: map<nat, Source>, after: map<nat, Source>)
    requires LongEnough(packets) && i < |packets| && LongEnough(packets[..i]) && CachesAll(was, packets[..i], now, mid)
    requires Caches(mid, packets[i], now, after)
    ensures LongEnough(packets[..i + 1]) && CachesAll(was, packets[..i + 1], now, after)
  {
    hide Caches;
    assert packets[..i + 1][..i] == packets[..i] && packets[..i + 1][i] == packets[i];
    assert forall q :: q in packets[..i + 1] ==> q in packets;
  }

  /** The cache once a packet is kept: an entry stays as it was, and a full cache drops an oldest one. */
  ghost predicate Caches(was: map<nat, Source>, p: Packet, now: int, after: map<nat, Source>)
    requires |p| >= 12
  {
    var key := Sequence(p);
    if key in was then after == was
    else if |was| < MAX_CACHED then after == was[key := Source(p, now)]
    else exists oldest: nat :: FirstSource(was, oldest) && after == (was - {oldest})[key := Source(p, now)]
  }

  /** The cache once packets are kept one after the other. */
  ghost predicate CachesAll(was: map<nat, Source>, packets: seq<Packet>, now: int, after: map<nat, Source>)
    requires LongEnough(packets)
  {
    if packets == [] then after == was
    else
      var n := |packets| - 1;
      exists mid :: CachesAll(was, packets[..n], now, mid) && Caches(mid, packets[n], now, after)
  }

  /** The table once a repair's block is there: new ones are empty, and a full table drops an oldest one. */
  ghost predicate Opens(was: map<Key, Block>, info: RepairInfo, now: int, after: map<Key, Block>) {
    var key := (info.timestamp, info.base);
    if key in was then after == was
    else if |was| < MAX_BLOCKS then after == was[key := EmptyBlock(info, now)]
    else exists oldest :: FirstBlock(was, oldest) && after == (was - {oldest})[key := EmptyBlock(info, now)]
  }

  /** The repair is new to a block still open, and agrees with it. */
  predicate Files(b: Block, info: RepairInfo) {
    && !b.done && b.k == info.k && b.r == info.r && b.size == info.size
    && b.k <= info.id < b.k + b.r && |b.present| == |b.repairs| == b.r && !b.present[info.id - b.k]
  }

  lemma BlockShape(b: Block)
    requires b.Valid() && !b.done
    ensures |b.present| == |b.repairs| == b.r
  {
  }

  /** What a repair packet does: its block is found or opened; a repair new to it is filed, and the block tried. */
  ghost predicate Repaired(was: map<Key, Block>, info: RepairInfo, now: int, cache: map<nat, Source>, matrix: Matrices, codec: bool,
                           media: Stream, after: map<Key, Block>, recovered: seq<Packet>)
    requires Shared(matrix)
  {
    var key := (info.timestamp, info.base);
    exists mid: map<Key, Block> ::
      && Opens(was, info, now, mid) && key in mid && key in after
      && (if Files(mid[key], info) then
            && after == mid[key := after[key]]
            && Reports(WithRepair(mid[key], info), cache, matrix, codec, media, after[key], recovered)
          else after == mid && recovered == [])
  }

  /** What trying every block does, one after the other in the order of the map. */
  ghost predicate Listened(was: map<Key, Block>, cache: map<nat, Source>, matrix: Matrices, codec: bool, media: Stream,
                           after: map<Key, Block>, recovered: seq<Packet>)
    requires Shared(matrix)
  {
    exists order, parts :: InOrder(was, cache, matrix, codec, media, after, recovered, order, parts)
  }

  ghost predicate InOrder(was: map<Key, Block>, cache: map<nat, Source>, matrix: Matrices, codec: bool, media: Stream,
                          after: map<Key, Block>, recovered: seq<Packet>, order: seq<Key>, parts: map<Key, seq<Packet>>)
    requires Shared(matrix)
  {
    && after.Keys == was.Keys == parts.Keys && Ascending(order) && (forall key :: key in order <==> key in was)
    && (forall key :: key in was ==> Reports(was[key], cache, matrix, codec, media, after[key], parts[key]))
    && recovered == Strung(order, parts)
  }

  /** The blocks tried so far: all but those still to do, in order. */
  ghost predicate Tried(was: map<Key, Block>, cache: map<nat, Source>, matrix: Matrices, codec: bool, media: Stream,
                        now: map<Key, Block>, recovered: seq<Packet>, order: seq<Key>, parts: map<Key, seq<Packet>>, todo: set<Key>)
    requires Shared(matrix)
  {
    && now.Keys == was.Keys && todo <= was.Keys && parts.Keys == was.Keys - todo
    && Ascending(order) && Before(order, todo) && (forall key :: key in order <==> key in parts)
    && (forall key :: key in todo ==> now[key] == was[key])
    && (forall key :: key in parts ==> Reports(was[key], cache, matrix, codec, media, now[key], parts[key]))
    && recovered == Strung(order, parts)
  }

  lemma NoneTried(was: map<Key, Block>, cache: map<nat, Source>, matrix: Matrices, codec: bool, media: Stream)
    requires Shared(matrix)
    ensures Tried(was, cache, matrix, codec, media, was, [], [], map[], was.Keys)
  {
  }

  lemma TriedFacts(was: map<Key, Block>, cache: map<nat, Source>, matrix: Matrices, codec: bool, media: Stream,
                   now: map<Key, Block>, recovered: seq<Packet>, order: seq<Key>, parts: map<Key, seq<Packet>>, todo: set<Key>)
    requires Shared(matrix) && Tried(was, cache, matrix, codec, media, now, recovered, order, parts, todo)
    ensures now.Keys == was.Keys && forall key :: key in todo ==> key in was && now[key] == was[key]
  {
    hide Reports;
  }

  lemma TriedNext(was: map<Key, Block>, cache: map<nat, Source>, matrix: Matrices, codec: bool, media: Stream,
                  now: map<Key, Block>, recovered: seq<Packet>, order: seq<Key>, parts: map<Key, seq<Packet>>, todo: set<Key>,
                  key: Key, after: Block, more: seq<Packet>)
    requires Shared(matrix) && Tried(was, cache, matrix, codec, media, now, recovered, order, parts, todo)
    requires key in todo && key in was && Reports(was[key], cache, matrix, codec, media, after, more)
    requires forall next :: next in todo ==> NotAfter(key, next)
    ensures Tried(was, cache, matrix, codec, media, now[key := after], recovered + more, order + [key], parts[key := more], todo - {key})
  {
    hide Reports;
    hide NotAfter;
    hide Strung;
    OrderMore(order, todo, key);
    StrungMore(order, parts, key, more);
    hide Ascending;
    hide Before;
  }

  lemma AllTried(was: map<Key, Block>, cache: map<nat, Source>, matrix: Matrices, codec: bool, media: Stream,
                 now: map<Key, Block>, recovered: seq<Packet>, order: seq<Key>, parts: map<Key, seq<Packet>>)
    requires Shared(matrix) && Tried(was, cache, matrix, codec, media, now, recovered, order, parts, {})
    ensures Listened(was, cache, matrix, codec, media, now, recovered)
  {
    hide Reports;
    hide Ascending;
    assert parts.Keys == was.Keys;
    assert InOrder(was, cache, matrix, codec, media, now, recovered, order, parts);
  }

  /** The matrix a decode gets: none when the codec cannot build it. */
  function MatrixIf(matrix: Matrices, b: Block, codec: bool): Option<Matrix> {
    if codec then Some(matrix(b.k, b.r)) else None
  }

  /** TryDecode, with the matrix of the block. */
  method DecideBlock(b: Block, sources: map<nat, Source>, decoder: FecDecoder, matrix: Matrices, codec: bool, media: Stream)
    returns (after: Block, recovered: seq<Packet>)
    requires Shared(matrix) && decoder.Valid() && b.Valid()
    modifies decoder
    ensures decoder.Valid() && after.Valid() && after.timestamp == b.timestamp && after.base == b.base
    ensures LongEnough(recovered) && Reports(b, sources, matrix, codec, media, after, recovered)
  {
    hide Field.Valid;
    hide FecDecoder.Valid;
    hide CachedAll;
    hide Decides;
    var m := MatrixIf(matrix, b, codec);
    after, recovered := TryDecode(b, sources, decoder, m, media);
    if !b.done {
      DecidesLong(b, CachedAll(sources, b), m, media, after, recovered);
      DecidesKey(b, CachedAll(sources, b), m, media, after, recovered);
    }
  }

  lemma DecidesKey(b: Block, c: seq<Option<Packet>>, matrix: Option<Matrix>, media: Stream, after: Block, recovered: seq<Packet>)
    requires b.Valid() && !b.done && |c| == b.k && Decides(b, c, matrix, media, after, recovered)
    ensures after.timestamp == b.timestamp && after.base == b.base
  {
  }

  lemma MediaKept(p: Packet, now: int, sources: map<nat, Source>, blocks: map<Key, Block>, t: Transcript, matrix: Matrices,
                  media: Stream, repairSsrc: nat)
    requires Shared(matrix) && Arrives(p, t, matrix, repairSsrc) && |p| >= 12 && Ssrc(p) == media.ssrc
    ensures media.ssrc != repairSsrc ==> p in t.sent
  {
    if media.ssrc != repairSsrc {
      HonestMedia(p, t, matrix, repairSsrc);
    }
  }

  /** A decision on a sender's block, for an honest sender. */
  lemma ReportsHonest(b: Block, sources: map<nat, Source>, matrix: Matrices, codec: bool, media: Stream, repairSsrc: nat,
                      t: Transcript, after: Block, recovered: seq<Packet>)
    requires Shared(matrix) && t.Honest(repairSsrc) && Reports(b, sources, matrix, codec, media, after, recovered)
    requires FromSender(b, t, matrix, media) && (media.ssrc != repairSsrc ==> TrueSources(sources, t))
    ensures FromSender(after, t, matrix, media) && AllSent(recovered, t)
  {
    hide FromSender;
    hide TrueSources;
    hide CachedAll;
    hide Decides;
    hide Transcript.WellFormed;
    hide Transcript.DistinctKeys;
    hide Transcript.OneRepairStream;
    if !b.done {
      MediaIsNotRepair(b, t, matrix, media, repairSsrc);
      HonestBlock(b, sources, t, matrix, codec, media, after, recovered);
    }
  }

  lemma ListenedHonest(was: map<Key, Block>, cache: map<nat, Source>, matrix: Matrices, codec: bool, media: Stream,
                       repairSsrc: nat, t: Transcript, after: map<Key, Block>, recovered: seq<Packet>)
    requires Shared(matrix) && t.Honest(repairSsrc) && Listened(was, cache, matrix, codec, media, after, recovered)
    requires Faithful(cache, was, t, matrix, media, repairSsrc)
    ensures Faithful(cache, after, t, matrix, media, repairSsrc) && AllSent(recovered, t)
  {
    hide FromSender;
    hide TrueSources;
    hide Reports;
    hide Transcript.Honest;
    hide NotAfter;
    var order, parts :| InOrder(was, cache, matrix, codec, media, after, recovered, order, parts);
    forall key | key in was ensures FromSender(after[key], t, matrix, media) && AllSent(parts[key], t) {
      ReportsHonest(was[key], cache, matrix, codec, media, repairSsrc, t, after[key], parts[key]);
    }
  }

  lemma OpensHonest(sources: map<nat, Source>, was: map<Key, Block>, info: RepairInfo, now: int, after: map<Key, Block>, t: Transcript,
                    matrix: Matrices, media: Stream, repairSsrc: nat)
    requires Shared(matrix) && Opens(was, info, now, after) && IsInfo(info, t, matrix, media)
    requires Faithful(sources, was, t, matrix, media, repairSsrc)
    ensures Faithful(sources, after, t, matrix, media, repairSsrc)
  {
    hide IsInfo;
    hide FirstBlock;
    hide Faithful;
    hide EmptyBlock;
    var key := (info.timestamp, info.base);
    if key !in was {
      var kept := after - {key};
      FaithfulLess(sources, was, kept, t, matrix, media, repairSsrc);
      NewHonest(info, t, matrix, media, repairSsrc, now);
      FaithfulWith(sources, kept, key, EmptyBlock(info, now), t, matrix, media, repairSsrc);
      assert kept[key := EmptyBlock(info, now)] == after;
    }
  }

  lemma RepairedHonest(was: map<Key, Block>, info: RepairInfo, now: int, cache: map<nat, Source>, matrix: Matrices, codec: bool,
                       media: Stream, repairSsrc: nat, t: Transcript, after: map<Key, Block>, recovered: seq<Packet>)
    requires Shared(matrix) && t.Honest(repairSsrc) && IsInfo(info, t, matrix, media)
    requires Repaired(was, info, now, cache, matrix, codec, media, after, recovered) && Keyed(was)
    requires Faithful(cache, was, t, matrix, media, repairSsrc)
    ensures Faithful(cache, after, t, matrix, media, repairSsrc) && AllSent(recovered, t)
  {
    hide IsInfo;
    hide Opens;
    hide FromSender;
    hide TrueSources;
    hide Reports;
    hide Transcript.Honest;
    hide WithRepair;
    var key := (info.timestamp, info.base);
    var mid: map<Key, Block> :| Opens(was, info, now, mid) && key in mid && key in after
      && (if Files(mid[key], info) then
            && after == mid[key := after[key]]
            && Reports(WithRepair(mid[key], info), cache, matrix, codec, media, after[key], recovered)
          else after == mid && recovered == []);
    OpensHonest(cache, was, info, now, mid, t, matrix, media, repairSsrc);
    OpensKeyed(was, info, now, mid);
    if Files(mid[key], info) {
      FiledHonest(cache, mid, key, info, t, matrix, media, repairSsrc);
      var b := WithRepair(mid[key], info);
      assert FromSender(mid[key := b][key], t, matrix, media);
      ReportsHonest(b, cache, matrix, codec, media, repairSsrc, t, after[key], recovered);
    }
  }

  /** Every block is filed under its own timestamp and base. */
  ghost predicate Keyed(blocks: map<Key, Block>) {
    forall key :: key in blocks ==> key == (blocks[key].timestamp, blocks[key].base)
  }

  lemma OpensKeyed(was: map<Key, Block>, info: RepairInfo, now: int, after: map<Key, Block>)
    requires Opens(was, info, now, after) && Keyed(was)
    ensures Keyed(after)
  {
    hide FirstBlock;
  }

  lemma {:induction false} CachesAllHonest(was: map<nat, Source>, packets: seq<Packet>, now: int, after: map<nat, Source>,
                       blocks: map<Key, Block>, t: Transcript, matrix: Matrices, media: Stream, repairSsrc: nat)
    requires Shared(matrix) && LongEnough(packets) && CachesAll(was, packets, now, after) && AllSent(packets, t)
    requires Faithful(was, blocks, t, matrix, media, repairSsrc)
    ensures Faithful(after, blocks, t, matrix, media, repairSsrc)
  {
    hide Faithful;
    hide Caches;
    if packets != [] {
      var n := |packets| - 1;
      var mid :| CachesAll(was, packets[..n], now, mid) && Caches(mid, packets[n], now, after);
      CachesAllHonest(was, packets[..n], now, mid, blocks, t, matrix, media, repairSsrc);
      CachesHonest(mid, packets[n], now, after, blocks, t, matrix, media, repairSsrc);
    }
  }

  /**
   If the packet comes from an honest sender, and everything held so far did,
   then everything held still does, and every packet recovered is one the sender
   was given.
   */
  lemma HearsHonest(was: Held, p: Packet, now: int, codec: bool, matrix: Matrices, media: Stream, repairSsrc: nat,
                    after: Held, recovered: seq<Packet>, t: Transcript)
    requires Shared(matrix) && Arrives(p, t, matrix, repairSsrc) && Keyed(was.blocks)
    requires Hears(was, p, now, codec, matrix, media, repairSsrc, after, recovered)
    requires Faithful(was.sources, was.blocks, t, matrix, media, repairSsrc)
    ensures Faithful(after.sources, after.blocks, t, matrix, media, repairSsrc) && AllSent(recovered, t)
  {
    hide Faithful;
    hide AllSent;
    hide Caches;
    hide CachesAll;
    hide Repaired;
    hide Listened;
    hide Transcript.Honest;
    hide Arrives;
    hide HeaderSize;
    hide RepairOk;
    hide ReadRepair;
    hide Ssrc;
    hide PayloadType;
    hide IsInfo;
    var live := was.Live(now);
    var cache :| HearsWith(live, p, now, codec, matrix, media, repairSsrc, cache, after, recovered);
    ArrivesHonest(p, t, matrix, repairSsrc);
    ExpiryKeeps(was.sources, was.blocks, now, t, matrix, media, repairSsrc);
    if IsMedia(p, media) {
      MediaSize(p, media);
      MediaKept(p, now, was.sources, was.blocks, t, matrix, media, repairSsrc);
      CachesHonest(live.sources, p, now, cache, live.blocks, t, matrix, media, repairSsrc);
      ListenedHonest(live.blocks, cache, matrix, codec, media, repairSsrc, t, after.blocks, recovered);
    } else if IsRepair(p, media, repairSsrc) {
      RepairOkFacts(p, HeaderSize(p), media.ssrc);
      HonestRepair(p, t, matrix, repairSsrc, media);
      RepairedHonest(live.blocks, ReadRepair(p, HeaderSize(p)), now, cache, matrix, codec, media, repairSsrc, t, after.blocks, recovered);
    } else {
      assert AllSent([], t) by {
        NoneSent(t);
      }
    }
    CachesAllHonest(cache, recovered, now, after.sources, after.blocks, t, matrix, media, repairSsrc);
  }

  /** Every block stays filed under its own timestamp and base. */
  lemma HearsKeyed(was: Held, p: Packet, now: int, codec: bool, matrix: Matrices, media: Stream, repairSsrc: nat,
                   after: Held, recovered: seq<Packet>)
    requires Shared(matrix) && Keyed(was.blocks) && Hears(was, p, now, codec, matrix, media, repairSsrc, after, recovered)
    ensures Keyed(after.blocks)
  {
    hide Caches;
    hide CachesAll;
    hide Opens;
    hide Decides;
    hide HeaderSize;
    hide ReadRepair;
    hide RepairOk;
    hide Reports;
    var live := was.Live(now);
    var cache :| HearsWith(live, p, now, codec, matrix, media, repairSsrc, cache, after, recovered);
    assert Keyed(live.blocks);
    if IsMedia(p, media) {
      var order, parts :| InOrder(live.blocks, cache, matrix, codec, media, after.blocks, recovered, order, parts);
      forall key | key in after.blocks ensures key == (after.blocks[key].timestamp, after.blocks[key].base) {
        ReportsKey(live.blocks[key], cache, matrix, codec, media, after.blocks[key], parts[key]);
      }
    } else if IsRepair(p, media, repairSsrc) {
      RepairedKeyed(live.blocks, ReadRepair(p, HeaderSize(p)), now, cache, matrix, codec, media, after.blocks, recovered);
    }
  }

  lemma ReportsKey(b: Block, cache: map<nat, Source>, matrix: Matrices, codec: bool, media: Stream, after: Block, packets: seq<Packet>)
    requires Shared(matrix) && Reports(b, cache, matrix, codec, media, after, packets)
    ensures after.timestamp == b.timestamp && after.base == b.base
  {
    hide Decides;
    if !b.done {
      DecidesKey(b, CachedAll(cache, b), MatrixIf(matrix, b, codec), media, after, packets);
    }
  }

  lemma RepairedKeyed(was: map<Key, Block>, info: RepairInfo, now: int, cache: map<nat, Source>, matrix: Matrices, codec: bool,
                      media: Stream, after: map<Key, Block>, recovered: seq<Packet>)
    requires Shared(matrix) && Keyed(was) && Repaired(was, info, now, cache, matrix, codec, media, after, recovered)
    ensures Keyed(after)
  {
    hide Opens;
    hide Reports;
    var key := (info.timestamp, info.base);
    var mid: map<Key, Block> :| Opens(was, info, now, mid) && key in mid && key in after
      && (if Files(mid[key], info) then
            && after == mid[key := after[key]]
            && Reports(WithRepair(mid[key], info), cache, matrix, codec, media, after[key], recovered)
          else after == mid && recovered == []);
    OpensKeyed(was, info, now, mid);
    if Files(mid[key], info) {
      ReportsKey(WithRepair(mid[key], info), cache, matrix, codec, media, after[key], recovered);
    }
  }

  lemma NoneSent(t: Transcript)
    ensures AllSent([], t)
  {
  }

  lemma RepairOkFacts(p: Packet, header: nat, mediaSsrc: nat)
    requires 12 <= header && header + FEC_HEADER_SIZE <= |p| && RepairOk(p, header, mediaSsrc)
    ensures var i := ReadRepair(p, header);
      && SupportsSmallRs(i.k, i.r) && i.k <= i.id < i.k + i.r && 14 <= i.size <= MAX_MEDIA_PACKET + 2
      && |i.data| == i.size && i.ssrc == mediaSsrc
  {
  }

  lemma OneLess<K, V>(m: map<K, V>, k: K)
    requires k in m
    ensures |m - {k}| == |m| - 1
  {
    assert (m - {k}).Keys == m.Keys - {k};
    assert |m - {k}| == |(m - {k}).Keys| && |m| == |m.Keys|;
  }

  lemma OneMore<K, V>(m: map<K, V>, k: K, v: V)
    ensures |m[k := v]| == |m| + if k in m then 0 else 1
  {
    assert m[k := v].Keys == m.Keys + {k};
    assert |m[k := v]| == |m[k := v].Keys| && |m| == |m.Keys|;
    if k in m {
      assert m.Keys + {k} == m.Keys;
    }
  }

  lemma SmallerMap<K, V>(m: map<K, V>, n: map<K, V>)
    requires n.Keys <= m.Keys
    ensures |n| <= |m|
  {
    SmallerSet(n.Keys, m.Keys);
    assert |n| == |n.Keys| && |m| == |m.Keys|;
  }

  lemma SmallerSet<K>(a: set<K>, b: set<K>)
    requires a <= b
    ensures |a| <= |b|
  {
    assert b == a + (b - a);
  }
}
