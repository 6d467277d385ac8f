/**
 RtpFecSender of src/fec/rtp_fec.cpp.  Ghost fields record what the sender was
 given and what it emitted, so that its invariant can state both the block
 structure the receiver relies on and the repair budget.
 */
module RtpSender {
  import opened Common
  import opened GF256
  import opened RsKernels
  import opened LinearSystem
  import opened RsCode
  import opened RsSmall
  import opened FecCodec
  import opened RtpWire
  import opened FecTranscript
  import opened RateBudget

  const OVERHEAD := 64

  /** FecProtectionConfig, less its reporting fields. */
  datatype Protection = Protection(version: nat, ratio: real, fecBps: int, windowMs: int, keyframePriority: bool)
  {
    predicate Valid() {
      0.0 <= ratio <= 0.25
    }

    predicate Off() {
      ratio == 0.0 || fecBps == 0
    }
  }

  /** The ranges SetProtection enforces. */
  function Clamped(c: Protection): (d: Protection)
    ensures d.Valid() && 20 <= d.windowMs <= 150 && d.version == c.version && d.fecBps == c.fecBps
    ensures c.Valid() && 20 <= c.windowMs <= 150 ==> d == c
    ensures d.keyframePriority == c.keyframePriority
    ensures d.ratio == if c.ratio < 0.0 then 0.0 else if c.ratio > 0.25 then 0.25 else c.ratio
    ensures d.windowMs == if c.windowMs < 20 then 20 else if c.windowMs > 150 then 150 else c.windowMs
  {
    c.(ratio := if c.ratio < 0.0 then 0.0 else Min(c.ratio, 0.25), windowMs := Clamp(c.windowMs, 20, 150))
  }

  /** Credit shrunk in proportion to a smaller ratio. */
  function Scaled(x: real, a: real, b: real): (y: real)
    requires 0.0 <= x && 0.0 <= a < b
    ensures 0.0 <= y <= x
    ensures y * b == x * a
  {
    var f := a / b;
    assert f * b == a;
    assert 0.0 <= f <= 1.0;
    ProductGrows(x, f, 1.0);
    assert (x * f) * b == x * (f * b);
    x * f
  }

  /** What a packet of `size` bytes earns. */
  function Earned(size: nat, ratio: real): real {
    size as real * ratio
  }

  /** Credit once a packet of `size` bytes is admitted. */
  function Topped(credit: real, size: nat, ratio: real): real {
    Min(credit + Earned(size, ratio), MAX_CREDIT)
  }

  /** What `n` repairs cost. */
  function Charge(n: nat, cost: nat): nat {
    n * cost
  }

  const DEFAULT_PROTECTION := Protection(0, 0.25, -1, 150, false)

  function Ceil(x: real): int {
    -((-x).Floor)
  }

  function MinInt(a: int, b: int): int {
    if a <= b then a else b
  }

  /** So many repairs are allowed: no more than four, the share of the packets rounded up, and what the credit covers. */
  predicate Allowed(n: nat, count: nat, ratio: real, credit: real, cost: nat) {
    n <= MAX_REPAIRS && n as real < count as real * ratio + 1.0 && Charge(n, cost) as real <= credit
  }

  /** How many repairs a block wants before the rate budget is asked: the most that are allowed. */
  function Wanted(count: nat, ratio: real, credit: real, cost: nat): (n: nat)
    requires ratio >= 0.0 && credit >= 0.0 && cost > 0
    ensures Allowed(n, count, ratio, credit, cost) && !Allowed(n + 1, count, ratio, credit, cost)
  {
    var byRatio := Ceil(count as real * ratio);
    var byCredit := (credit / cost as real).Floor;
    var n := MinInt(MAX_REPAIRS, MinInt(byRatio, byCredit));
    assert byRatio >= 0;
    assert byCredit >= 0;
    WithinCredit(n, credit, cost);
    WithinCredit(n + 1, credit, cost);
    n
  }

  lemma WithinCredit(n: nat, credit: real, cost: nat)
    requires cost > 0
    ensures n <= (credit / cost as real).Floor <==> Charge(n, cost) as real <= credit
  {
    var share := credit / cost as real;
    assert share * cost as real == credit;
    if n as real <= share {
      assert n as real * cost as real <= share * cost as real;
    } else {
      assert (n as real - share) * cost as real > 0.0;
    }
  }

  // ----- The rate budget under repeated requests -----

  function Affordable(s: RateState, cost: nat, now: int, wanted: nat): (n: nat)
    ensures n <= wanted
    decreases wanted
  {
    if wanted == 0 || !s.Grants(cost, now) then 0 else 1 + Affordable(s.Consumed(cost, now), cost, now, wanted - 1)
  }

  function AfterAffording(s: RateState, cost: nat, now: int, wanted: nat): RateState
    decreases wanted
  {
    if wanted == 0 then s
    else if !s.Grants(cost, now) then s.Consumed(cost, now)
    else AfterAffording(s.Consumed(cost, now), cost, now, wanted - 1)
  }

  method Afford(rate: FecRateBudget, cost: nat, now: int, wanted: nat) returns (n: nat)
    modifies rate
    ensures n == Affordable(old(rate.View()), cost, now, wanted)
    ensures rate.View() == AfterAffording(old(rate.View()), cost, now, wanted)
  {
    n := 0;
    var going := true;
    while going && n < wanted
      invariant n <= wanted
      invariant going ==>
        && n + Affordable(rate.View(), cost, now, wanted - n) == Affordable(old(rate.View()), cost, now, wanted)
        && AfterAffording(rate.View(), cost, now, wanted - n) == AfterAffording(old(rate.View()), cost, now, wanted)
      invariant !going ==>
        && n == Affordable(old(rate.View()), cost, now, wanted)
        && rate.View() == AfterAffording(old(rate.View()), cost, now, wanted)
      decreases wanted - n, going
    {
      going := rate.Consume(cost, now);
      if going {
        n := n + 1;
      }
    }
  }

  // ----- Building the packets of a block -----

  /** Sources padded to the block size. */
  method PadAll(packets: seq<Packet>, size: nat) returns (sources: Symbols)
    requires forall i :: 0 <= i < |packets| ==> |packets[i]| + 2 <= size
    ensures |sources| == |packets|
    ensures forall i :: 0 <= i < |packets| ==> sources[i] == Pad(packets[i], size)
  {
    sources := [];
    for i := 0 to |packets|
      invariant |sources| == i
      invariant forall j :: 0 <= j < i ==> sources[j] == Pad(packets[j], size)
    {
      sources := sources + [Pad(packets[i], size)];
    }
  }

  /** The repair symbols of a block through the codec's buffers. */
  method EncodeBlock(sources: Symbols, size: nat, r: nat, matrix: Option<Matrix>, gf: Field, neon: bool)
    returns (ok: bool, repairs: Symbols)
    requires gf.Valid() && SupportsSmallRs(|sources|, r) && Rectangle(sources, |sources|, size)
    requires 0 < size <= MAX_SYMBOL_SIZE
    requires matrix.Some? ==> Rectangle(matrix.value, r, |sources|)
    ensures ok <==> matrix.Some?
    ensures ok ==> sources + repairs == Codeword(matrix.value, sources, size)
  {
    hide Field.Valid;
    hide Codeword;
    var bufs := BuffersOf(sources, size);
    var out;
    ok, out := EncodeSymbols(bufs, r, matrix, None, gf, neon);
    repairs := [];
    if ok {
      assert Contents(bufs) == sources;
      repairs := BytesOf(out, size);
    }
  }

  /** Number one repair symbol on the wire. */
  method BuildRepair(last: Packet, header: nat, repairSsrc: nat, k: nat, r: nat, id: nat, size: nat, ssrc: nat,
                     base: nat, data: seq<byte>)
    returns (packet: Packet)
    requires header == HeaderSize(last) != 0 && k <= 16 && r <= 4 && id < 20
    ensures packet == RepairPacket(last, repairSsrc, RepairHeader(k, r, id, size, ssrc, base), data)
  {
    packet := last[..header];
    packet := packet[1 := REPAIR_PAYLOAD_TYPE];
    packet := packet[..2] + Write16(0) + packet[4..];
    packet := packet[..8] + Write32(repairSsrc) + packet[12..];
    assert Write16(0) == [0, 0];
    packet := packet + RepairHeader(k, r, id, size, ssrc, base) + data;
  }

  function TotalCost(packets: seq<Packet>): nat {
    if packets == [] then 0 else TotalCost(packets[..|packets| - 1]) + |packets[|packets| - 1]| + OVERHEAD
  }

  lemma {:induction false} TotalCostAppend(a: seq<Packet>, b: seq<Packet>, size: nat)
    requires forall i :: 0 <= i < |b| ==> |b[i]| == size
    ensures TotalCost(a + b) == TotalCost(a) + |b| * (size + OVERHEAD)
  {
    if b == [] {
      assert a + b == a;
    } else {
      var n := |b| - 1;
      TotalCostAppend(a, b[..n], size);
      assert (a + b)[..|a + b| - 1] == a + b[..n];
      OneMore(n, size + OVERHEAD);
    }
  }

  lemma OneMore(n: nat, c: nat)
    ensures (n + 1) * c == n * c + c
  {
  }

  /** Number the repair symbols of a block. */
  method NumberRepairs(cut: seq<Packet>, r: nat, repairSsrc: nat, symbols: Symbols, ghost b: SentBlock, ghost matrix: Matrices)
    returns (packets: seq<Packet>)
    requires Shared(matrix) && b.Valid() && b.packets == cut && b.r == r && b.repairSsrc == repairSsrc
    requires |symbols| == r && forall i :: 0 <= i < r ==> symbols[i] == b.Code(matrix)[|cut| + i]
    ensures packets == b.Repairs(matrix)
  {
    hide SentBlock.Code;
    hide RepairPacket;
    hide RepairHeader;
    hide HeaderSize;
    hide BlockSize;
    var k, size := |cut|, BlockSize(cut);
    var last := cut[k - 1];
    packets := [];
    for i := 0 to r
      invariant |packets| == i
      invariant forall j :: 0 <= j < i ==> packets[j] == b.RepairAt(j, matrix)
    {
      var packet := BuildRepair(last, HeaderSize(last), repairSsrc, k, r, k + i, size, Ssrc(cut[0]), Sequence(cut[0]), symbols[i]);
      packets := packets + [packet];
    }
  }

  /** Encode a block and number its repairs. */
  method BuildRepairs(cut: seq<Packet>, r: nat, repairSsrc: nat, matrix: Matrices, codec: bool, gf: Field, neon: bool,
                      ghost b: SentBlock)
    returns (ok: bool, packets: seq<Packet>)
    requires gf.Valid() && Shared(matrix) && b.Valid() && BlockSize(cut) <= MAX_SYMBOL_SIZE
    requires b.packets == cut && b.r == r && b.repairSsrc == repairSsrc
    ensures ok == codec
    ensures ok ==> packets == b.Repairs(matrix)
    ensures !ok ==> packets == []
  {
    hide Field.Valid;
    hide Codeword;
    hide RepairPacket;
    hide HeaderSize;
    hide BlockSize;
    var size := BlockSize(cut);
    var sources := PadAll(cut, size);
    assert sources == b.Sources();
    var symbols;
    ok, symbols := EncodeBlock(sources, size, r, if codec then Some(matrix(|cut|, r)) else None, gf, neon);
    packets := [];
    if ok {
      assert sources + symbols == b.Code(matrix);
      packets := NumberRepairs(cut, r, repairSsrc, symbols, b, matrix);
    }
  }

  // ----- What every operation keeps -----

  /** The pending packets are the last ones sent, and belong to no block yet. */
  ghost predicate PendingIsTail(t: Transcript, pending: seq<Packet>) {
    && |pending| <= MAX_SOURCES && |pending| <= |t.sent|
    && pending == t.sent[|t.sent| - |pending|..]
    && Consecutive(pending)
    && forall j :: 0 <= j < |t.blocks| ==> t.blocks[j].start + |t.blocks[j].packets| <= |t.sent| - |pending|
  }

  /** Repairs were paid for out of a quarter of the source bytes. */
  ghost predicate WithinBudget(emitted: seq<Packet>, credit: real, admitted: nat) {
    && 0.0 <= credit <= MAX_CREDIT
    && TotalCost(emitted) as real + credit <= 0.25 * admitted as real
  }

  /** Everything emitted is a repair of some block, and fits the wire. */
  ghost predicate EmitsRepairs(t: Transcript, emitted: seq<Packet>, matrix: Matrices)
    requires Shared(matrix) && t.WellFormed()
  {
    forall i :: 0 <= i < |emitted| ==> |emitted[i]| <= MAX_WIRE_PACKET && t.IsRepair(emitted[i], matrix)
  }

  lemma BlockCut(t: Transcript, pending: seq<Packet>, r: nat, repairSsrc: nat)
    requires t.WellFormed() && PendingIsTail(t, pending) && pending != []
    requires 0 < r <= MAX_REPAIRS && repairSsrc < 0x1_0000_0000
    ensures var b := SentBlock(|t.sent| - |pending|, pending, r, repairSsrc);
      b.Valid() && t.(blocks := t.blocks + [b]).WellFormed() && PendingIsTail(t.(blocks := t.blocks + [b]), [])
  {
    hide Codeword;
    hide HeaderSize;
    hide Ssrc;
    hide Timestamp;
    hide Sequence;
    var b := SentBlock(|t.sent| - |pending|, pending, r, repairSsrc);
    var u := t.(blocks := t.blocks + [b]);
    forall j | 0 <= j < |u.blocks|
      ensures u.blocks[j].Valid() && u.blocks[j].start + |u.blocks[j].packets| <= |t.sent|
      ensures u.blocks[j].packets == t.sent[u.blocks[j].start..u.blocks[j].start + |u.blocks[j].packets|]
    {
      if j < |t.blocks| {
        assert u.blocks[j] == t.blocks[j];
      }
    }
  }

  /** Earlier repairs stay repairs as the transcript grows. */
  lemma StillRepairs(t: Transcript, u: Transcript, emitted: seq<Packet>, matrix: Matrices)
    requires Shared(matrix) && t.WellFormed() && u.WellFormed() && t.blocks <= u.blocks
    requires EmitsRepairs(t, emitted, matrix)
    ensures EmitsRepairs(u, emitted, matrix)
  {
    hide Codeword;
    hide RepairPacket;
    forall x | 0 <= x < |emitted| ensures u.IsRepair(emitted[x], matrix) {
      var j, i :| 0 <= j < |t.blocks| && 0 <= i < t.blocks[j].r && emitted[x] == t.blocks[j].RepairAt(i, matrix);
      assert u.blocks[j] == t.blocks[j];
    }
  }

  lemma EmitsMore(t: Transcript, u: Transcript, b: SentBlock, emitted: seq<Packet>, matrix: Matrices)
    requires Shared(matrix) && t.WellFormed() && u.WellFormed() && u.blocks == t.blocks + [b] && b.Valid()
    requires EmitsRepairs(t, emitted, matrix) && b.WireSize() <= MAX_WIRE_PACKET
    ensures EmitsRepairs(u, emitted + b.Repairs(matrix), matrix)
    ensures forall i :: 0 <= i < b.r ==> |b.Repairs(matrix)[i]| == b.WireSize()
  {
    hide RepairPacket;
    hide Codeword;
    StillRepairs(t, u, emitted, matrix);
    var packets := b.Repairs(matrix);
    forall i | 0 <= i < b.r ensures |packets[i]| == b.WireSize() && u.IsRepair(packets[i], matrix) {
      RepairFields(b, i, matrix);
      assert u.blocks[|t.blocks|] == b;
    }
  }

  lemma BudgetSpent(emitted: seq<Packet>, packets: seq<Packet>, size: nat, credit: real, admitted: nat)
    requires WithinBudget(emitted, credit, admitted)
    requires forall i :: 0 <= i < |packets| ==> |packets[i]| == size
    requires Charge(|packets|, size + OVERHEAD) as real <= credit
    ensures WithinBudget(emitted + packets, credit - Charge(|packets|, size + OVERHEAD) as real, admitted)
  {
    TotalCostAppend(emitted, packets, size);
  }

  lemma AffordedWithin(s: RateState, cost: nat, now: int, wanted: nat, credit: real)
    requires Charge(wanted, cost) as real <= credit
    ensures Charge(Affordable(s, cost, now, wanted), cost) as real <= credit
  {
    hide Affordable;
    FewerCostsLess(Affordable(s, cost, now, wanted), wanted, cost);
  }

  lemma FewerCostsLess(n: nat, m: nat, c: nat)
    requires n <= m
    ensures Charge(n, c) <= Charge(m, c)
  {
  }

  lemma {:induction false} AffordingKeepsValid(s: RateState, cost: nat, now: int, wanted: nat)
    requires s.Valid()
    ensures AfterAffording(s, cost, now, wanted).Valid()
    decreases wanted
  {
    if wanted > 0 {
      StepBalance(s, Consume(cost, now));
      if s.Grants(cost, now) {
        AffordingKeepsValid(s.Consumed(cost, now), cost, now, wanted - 1);
      }
    }
  }

  lemma EmptyTranscript(matrix: Matrices)
    requires Shared(matrix)
    ensures var t := Transcript([], []);
      t.WellFormed() && PendingIsTail(t, []) && EmitsRepairs(t, [], matrix) && WithinBudget([], 0.0, 0)
  {
  }

  // ----- The sender as a value -----

  datatype Sender = Sender(pending: seq<Packet>, firstMs: int, credit: real, config: Protection, blockConfig: Protection,
                           rate: RateState, keyframe: bool, lastPacketMs: int, repairDeadlineMs: int,
                           sent: seq<Packet>, blocks: seq<SentBlock>, emitted: seq<Packet>, admitted: nat)
  {
    function Log(): Transcript {
      Transcript(sent, blocks)
    }

    /** What every operation keeps: the block structure the receiver relies on, and the repair budget. */
    ghost predicate Valid(matrix: Matrices) {
      && Shared(matrix) && rate.Valid() && config.Valid() && blockConfig.Valid()
      && Log().WellFormed() && PendingIsTail(Log(), pending)
      && (config.Off() ==> pending == [])
      && WithinBudget(emitted, credit, admitted)
      && EmitsRepairs(Log(), emitted, matrix)
    }

    function DeadlineMs(): int {
      firstMs + MinInt(config.windowMs, blockConfig.windowMs)
    }

    function BlockRatio(): (x: real)
      requires config.Valid() && blockConfig.Valid()
      ensures 0.0 <= x <= 0.25
    {
      var ratio := Min(config.ratio, blockConfig.ratio);
      if keyframe && blockConfig.keyframePriority && ratio > 0.0 then Min(0.25, ratio + 0.05) else ratio
    }

    /** The wire size a repair of the pending packets would have. */
    function PendingWireSize(): nat
      requires pending != []
    {
      HeaderSize(pending[|pending| - 1]) + FEC_HEADER_SIZE + BlockSize(pending)
    }

    /** What each repair of the pending packets costs. */
    function Cost(): nat
      requires pending != []
    {
      PendingWireSize() + OVERHEAD
    }

    /** A flush that gets as far as asking the rate budget. */
    predicate Attempts(now: int) {
      pending != [] && now < DeadlineMs() && PendingWireSize() <= MAX_WIRE_PACKET
    }

    function RepairsWanted(): nat
      requires config.Valid() && blockConfig.Valid() && 0.0 <= credit && pending != []
    {
      Wanted(|pending|, BlockRatio(), credit, Cost())
    }

    /** How many repairs the rate budget allows for the pending packets. */
    function RepairCount(now: int): nat
      requires config.Valid() && blockConfig.Valid() && 0.0 <= credit && pending != []
    {
      Affordable(rate, Cost(), now, RepairsWanted())
    }

    function PendingBlock(repairSsrc: nat, r: nat): SentBlock
      requires |pending| <= |sent|
    {
      SentBlock(|sent| - |pending|, pending, r, repairSsrc)
    }

    /** A block is cut, its repairs charged and emitted. */
    ghost function Recorded(b: SentBlock, matrix: Matrices): Sender
      requires Shared(matrix) && b.Valid() && pending != []
    {
      this.(pending := [], blocks := blocks + [b], emitted := emitted + b.Repairs(matrix),
            credit := credit - Charge(b.r, Cost()) as real,
            repairDeadlineMs := if repairDeadlineMs < 0 then DeadlineMs() else MinInt(repairDeadlineMs, DeadlineMs()))
    }

    /** Flush: the pending packets become a block with as many repairs as the budgets allow, or none. */
    ghost function Flushed(matrix: Matrices, repairSsrc: nat, now: int, codec: bool): Sender
      requires Valid(matrix) && repairSsrc < 0x1_0000_0000
    {
      BudgetFacts(emitted, credit, admitted);
      if !Attempts(now) then this.(pending := [])
      else
        var n := RepairCount(now);
        var s := this.(rate := AfterAffording(rate, Cost(), now, RepairsWanted()));
        if n == 0 || !codec then s.(pending := [])
        else
          BlockCut(Log(), pending, n, repairSsrc);
          s.Recorded(PendingBlock(repairSsrc, n), matrix)
    }

    /** FlushExpired: a block that has been open for 20 ms. */
    ghost function Expired(matrix: Matrices, repairSsrc: nat, now: int, codec: bool): Sender
      requires Valid(matrix) && repairSsrc < 0x1_0000_0000
    {
      var s := this.(repairDeadlineMs := -1);
      if pending == [] || now - firstMs < 20 then s else s.Flushed(matrix, repairSsrc, now, codec)
    }

    /** Reset. */
    function Cleared(): Sender {
      this.(pending := [], credit := 0.0, lastPacketMs := -1, rate := RateState(-1, -1, 0.0))
    }

    /** SetProtection: a newer configuration, with the credit scaled down to a smaller ratio. */
    function Configured(c: Protection, now: int): Sender
      requires config.Valid() && 0.0 <= credit
    {
      if c.version < config.version then this
      else
        var next := Clamped(c);
        var left := if config.ratio > 0.0 && next.ratio < config.ratio then Scaled(credit, next.ratio, config.ratio) else credit;
        this.(config := next, pending := if next.Off() then [] else pending, credit := if next.Off() then 0.0 else left,
              rate := if next.fecBps >= 0 then rate.WithRate(next.fecBps, now) else rate)
    }

    /** Does `p` extend the pending block? */
    predicate Continues(p: Packet, now: int) {
      && pending != [] && |p| >= 12 && |pending[|pending| - 1]| >= 12
      && Follows(pending[|pending| - 1], p) && firstMs <= now < firstMs + 20
    }

    /** Time ran backwards, or a second passed without a packet. */
    predicate Gap(now: int) {
      lastPacketMs >= 0 && (now < lastPacketMs || now - lastPacketMs > 1000)
    }

    /** A packet that is not protected still goes out, and breaks the run. */
    function Refused(p: Packet): Sender {
      this.(pending := [], sent := sent + [p])
    }

    /** Credit is earned for an admitted packet, after everything is dropped across a gap. */
    function Admitted(size: nat, now: int): Sender {
      this.(rate := if lastPacketMs < 0 && config.fecBps >= 0 then rate.WithRate(config.fecBps, now) else rate,
            pending := if Gap(now) then [] else pending,
            credit := Topped(if Gap(now) then 0.0 else credit, size, config.ratio),
            lastPacketMs := now, admitted := admitted + size)
    }

    /** The pending block is flushed when `p` does not continue it. */
    ghost function Roomy(matrix: Matrices, p: Packet, repairSsrc: nat, now: int, codec: bool): Sender
      requires Valid(matrix) && repairSsrc < 0x1_0000_0000
    {
      if pending != [] && !Continues(p, now) then Flushed(matrix, repairSsrc, now, codec) else this
    }

    function Appended(p: Packet, now: int, isKeyframe: bool): Sender {
      var s := if pending == [] then this.(firstMs := now, blockConfig := config, keyframe := isKeyframe) else this;
      s.(pending := pending + [p], sent := sent + [p])
    }

    /** The block is flushed when it is full or the marker bit of its last packet ends the frame. */
    ghost function Completed(matrix: Matrices, p: Packet, repairSsrc: nat, now: int, codec: bool): Sender
      requires Valid(matrix) && repairSsrc < 0x1_0000_0000 && |p| >= 12
    {
      if |pending| == MAX_SOURCES || Marker(p) then Flushed(matrix, repairSsrc, now, codec) else this
    }

    /** Between operations a block is never full. */
    ghost predicate Open(matrix: Matrices) {
      Valid(matrix) && |pending| < MAX_SOURCES
    }

    /** AddPacket. */
    ghost function Added(matrix: Matrices, p: Packet, repairSsrc: nat, now: int, isKeyframe: bool, codec: bool): Sender
      requires Open(matrix) && repairSsrc < 0x1_0000_0000
    {
      var s := this.(repairDeadlineMs := -1);
      if !Takes(p, repairSsrc) || config.Off() then s.Refused(p)
      else
        AdmittedKeeps(s, matrix, |p|, now);
        var a := s.Admitted(|p|, now);
        RoomyKeeps(a, matrix, p, repairSsrc, now, codec);
        var b := a.Roomy(matrix, p, repairSsrc, now, codec);
        AppendedKeeps(b, matrix, p, now, isKeyframe);
        ProtectableSize(p);
        b.Appended(p, now, isKeyframe).Completed(matrix, p, repairSsrc, now, codec)
    }
  }

  /** The packet is one the sender takes, for this repair stream. */
  predicate Takes(p: Packet, repairSsrc: nat) {
    Protectable(p) && repairSsrc != 0 && repairSsrc != Ssrc(p)
  }

  lemma ProtectableSize(p: Packet)
    requires Protectable(p)
    ensures |p| >= 12
  {
  }

  const NEW_SENDER := Sender([], 0, 0.0, DEFAULT_PROTECTION, DEFAULT_PROTECTION, RateState(-1, -1, 0.0), false, -1, -1,
                             [], [], [], 0)

  lemma NewKeeps(matrix: Matrices)
    requires Shared(matrix)
    ensures NEW_SENDER.Open(matrix)
  {
    EmptyTranscript(matrix);
    var s := NEW_SENDER;
    assert s.Log() == Transcript([], []) && s.pending == [] && s.emitted == [] && s.credit == 0.0 && s.admitted == 0;
    assert s.rate.Valid() && s.config.Valid() && s.blockConfig.Valid();
    hide Shared;
    hide EmitsRepairs;
    hide WithinBudget;
    hide PendingIsTail;
    hide Transcript.WellFormed;
    hide RateState.Valid;
    hide Protection.Valid;
    hide Protection.Off;
  }

  lemma FlushedKeeps(s: Sender, matrix: Matrices, repairSsrc: nat, now: int, codec: bool)
    requires s.Valid(matrix) && repairSsrc < 0x1_0000_0000
    ensures s.Flushed(matrix, repairSsrc, now, codec).Valid(matrix)
    ensures s.Flushed(matrix, repairSsrc, now, codec).pending == []
  {
    hide Affordable;
    hide AfterAffording;
    hide Wanted;
    hide HeaderSize;
    hide BlockSize;
    hide Charge;
    hide EmitsRepairs;
    hide WithinBudget;
    hide PendingIsTail;
    hide Transcript.WellFormed;
    hide Shared;
    hide SentBlock.Valid;
    BudgetFacts(s.emitted, s.credit, s.admitted);
    PendingFacts(s.Log(), s.pending);
    if s.Attempts(now) {
      var n := s.RepairCount(now);
      AffordingKeepsValid(s.rate, s.Cost(), now, s.RepairsWanted());
      AffordedWithin(s.rate, s.Cost(), now, s.RepairsWanted(), s.credit);
      if n != 0 && codec {
        BlockCut(s.Log(), s.pending, n, repairSsrc);
        RecordedKeeps(s, s.PendingBlock(repairSsrc, n), matrix);
      }
    }
  }

  lemma RecordedKeeps(s: Sender, b: SentBlock, matrix: Matrices)
    requires s.Valid(matrix) && b.Valid() && b.packets == s.pending && s.PendingWireSize() <= MAX_WIRE_PACKET
    requires Charge(b.r, s.Cost()) as real <= s.credit
    requires s.Log().(blocks := s.blocks + [b]).WellFormed()
    ensures var r := s.Recorded(b, matrix);
      WithinBudget(r.emitted, r.credit, r.admitted) && EmitsRepairs(r.Log(), r.emitted, matrix)
  {
    hide HeaderSize;
    hide BlockSize;
    hide Charge;
    hide EmitsRepairs;
    hide WithinBudget;
    hide Transcript.WellFormed;
    hide Consecutive;
    EmitsMore(s.Log(), s.Log().(blocks := s.blocks + [b]), b, s.emitted, matrix);
    BudgetSpent(s.emitted, b.Repairs(matrix), b.WireSize(), s.credit, s.admitted);
  }

  lemma ExpiredKeeps(s: Sender, matrix: Matrices, repairSsrc: nat, now: int, codec: bool)
    requires s.Open(matrix) && repairSsrc < 0x1_0000_0000
    ensures s.Expired(matrix, repairSsrc, now, codec).Open(matrix)
  {
    hide Sender.Flushed;
    if s.pending != [] && now - s.firstMs >= 20 {
      FlushedKeeps(s.(repairDeadlineMs := -1), matrix, repairSsrc, now, codec);
    }
  }

  lemma ClearedKeeps(s: Sender, matrix: Matrices)
    requires s.Open(matrix)
    ensures s.Cleared().Open(matrix)
  {
    hide EmitsRepairs;
    hide Transcript.WellFormed;
    PendingFacts(s.Log(), s.pending);
    LessCredit(s.emitted, s.credit, 0.0, s.admitted);
  }

  lemma ConfiguredKeeps(s: Sender, matrix: Matrices, c: Protection, now: int)
    requires s.Open(matrix)
    ensures s.config.Valid() && 0.0 <= s.credit && s.Configured(c, now).Open(matrix)
  {
    hide EmitsRepairs;
    hide WithinBudget;
    hide PendingIsTail;
    hide Transcript.WellFormed;
    BudgetFacts(s.emitted, s.credit, s.admitted);
    PendingFacts(s.Log(), s.pending);
    if c.version >= s.config.version {
      LessCredit(s.emitted, s.credit, s.Configured(c, now).credit, s.admitted);
      StepBalance(s.rate, RateBudget.SetRate(Clamped(c).fecBps, now));
    }
  }

  lemma RefusedKeeps(s: Sender, matrix: Matrices, p: Packet)
    requires s.Valid(matrix)
    ensures s.Refused(p).Open(matrix)
  {
    hide EmitsRepairs;
    hide WithinBudget;
    hide PendingIsTail;
    hide Transcript.WellFormed;
    PendingFacts(s.Log(), s.pending);
    TranscriptGrows(s.Log(), p, s.emitted, matrix);
  }

  lemma AdmittedKeeps(s: Sender, matrix: Matrices, size: nat, now: int)
    requires s.Open(matrix)
    ensures s.Admitted(size, now).Open(matrix)
  {
    hide EmitsRepairs;
    hide WithinBudget;
    hide PendingIsTail;
    hide Transcript.WellFormed;
    hide Topped;
    BudgetFacts(s.emitted, s.credit, s.admitted);
    PendingFacts(s.Log(), s.pending);
    var left := if s.Gap(now) then 0.0 else s.credit;
    LessCredit(s.emitted, s.credit, left, s.admitted);
    CreditEarned(s.emitted, left, s.admitted, size, s.config.ratio);
    StepBalance(s.rate, RateBudget.SetRate(s.config.fecBps, now));
  }

  lemma RoomyKeeps(s: Sender, matrix: Matrices, p: Packet, repairSsrc: nat, now: int, codec: bool)
    requires s.Open(matrix) && repairSsrc < 0x1_0000_0000
    ensures var r := s.Roomy(matrix, p, repairSsrc, now, codec);
      && r.Open(matrix) && r.config == s.config
      && (r.pending == [] || r.Continues(p, now))
  {
    hide Sender.Valid;
    if s.pending != [] && !s.Continues(p, now) {
      FlushedKeeps(s, matrix, repairSsrc, now, codec);
    }
  }

  lemma AppendedKeeps(s: Sender, matrix: Matrices, p: Packet, now: int, isKeyframe: bool)
    requires s.Open(matrix) && Protectable(p) && !s.config.Off()
    requires s.pending == [] || s.Continues(p, now)
    ensures s.Appended(p, now, isKeyframe).Valid(matrix)
    ensures |s.Appended(p, now, isKeyframe).pending| <= MAX_SOURCES
  {
    hide EmitsRepairs;
    hide WithinBudget;
    hide PendingIsTail;
    hide Transcript.WellFormed;
    hide Protectable;
    hide Follows;
    PendingFacts(s.Log(), s.pending);
    TranscriptGrows(s.Log(), p, s.emitted, matrix);
    PendingGrows(s.Log(), s.pending, p);
  }

  lemma DeadlineFree(s: Sender, matrix: Matrices, deadline: int)
    ensures s.(repairDeadlineMs := deadline).Log() == s.Log()
    ensures s.Valid(matrix) <==> s.(repairDeadlineMs := deadline).Valid(matrix)
  {
    hide EmitsRepairs;
    hide WithinBudget;
    hide PendingIsTail;
    hide Transcript.WellFormed;
  }

  /** The two ways a flush goes. */
  lemma FlushedIs(s: Sender, matrix: Matrices, repairSsrc: nat, now: int, codec: bool)
    requires s.Valid(matrix) && repairSsrc < 0x1_0000_0000
    ensures 0.0 <= s.credit && |s.pending| <= |s.sent| && Consecutive(s.pending)
    ensures !s.Attempts(now) ==> s.Flushed(matrix, repairSsrc, now, codec) == s.(pending := [])
    ensures s.Attempts(now) ==>
      var n := s.RepairCount(now);
      var t := s.(rate := AfterAffording(s.rate, s.Cost(), now, s.RepairsWanted()));
      && (n == 0 || !codec ==> s.Flushed(matrix, repairSsrc, now, codec) == t.(pending := []))
      && (n != 0 ==> n <= MAX_REPAIRS && s.PendingBlock(repairSsrc, n).Valid())
      && (n != 0 && codec ==> s.Flushed(matrix, repairSsrc, now, codec) == t.Recorded(s.PendingBlock(repairSsrc, n), matrix))
  {
    hide Affordable;
    hide AfterAffording;
    hide Wanted;
    hide HeaderSize;
    hide BlockSize;
    hide EmitsRepairs;
    hide Transcript.WellFormed;
    BudgetFacts(s.emitted, s.credit, s.admitted);
    PendingFacts(s.Log(), s.pending);
    if s.Attempts(now) && s.RepairCount(now) != 0 {
      BlockCut(s.Log(), s.pending, s.RepairCount(now), repairSsrc);
    }
  }

  // ----- How many repairs a flush emits -----

  /**
   Repairs a block is due for each of its packets: the smaller of the ratio now
   and the ratio when it was begun, and a twentieth more, up to a quarter, for a
   keyframe given priority.
   */
  function Quota(s: Sender): real {
    var low := if s.config.ratio < s.blockConfig.ratio then s.config.ratio else s.blockConfig.ratio;
    if low <= 0.0 || !s.keyframe || !s.blockConfig.keyframePriority then low
    else if low > 0.20 then 0.25
    else low + 0.05
  }

  /** The credit and the rate budget both cover so many repairs. */
  predicate Pays(s: Sender, n: nat, cost: nat, now: int) {
    (n * cost) as real <= s.credit && s.rate.Grants(n * cost, now)
  }

  /** As many of four repairs as the quota asks for, rounded up, and both budgets pay. */
  ghost predicate Fills(s: Sender, n: nat, cost: nat, now: int) {
    && n <= 4 && n as real < |s.pending| as real * Quota(s) + 1.0 && Pays(s, n, cost, now)
    && (n == 4 || n as real >= |s.pending| as real * Quota(s) || !Pays(s, n + 1, cost, now))
  }

  /**
   `n` repairs come of a flush: none once either window is over, when a repair
   would not fit a packet or when the codec fails, and otherwise the quota, each
   repair charged its bytes on the wire and 64 more.
   */
  ghost predicate RepairsDue(s: Sender, now: int, codec: bool, n: nat) {
    if s.pending == [] then n == 0
    else
      var wire := HeaderSize(s.pending[|s.pending| - 1]) + 16 + BlockSize(s.pending);
      if now >= s.firstMs + s.config.windowMs || now >= s.firstMs + s.blockConfig.windowMs || wire > 1184 || !codec then
        n == 0
      else
        Fills(s, n, wire + 64, now)
  }

  lemma OneSpent(s: RateState, cost: nat, now: int, n: nat)
    requires s.Valid() && s.Grants(cost, now)
    ensures s.Consumed(cost, now).Valid()
    ensures s.Consumed(cost, now).Grants(n * cost, now) <==> s.Grants((n + 1) * cost, now)
  {
    assert (n + 1) * cost == n * cost + cost;
    StepBalance(s, Consume(cost, now));
  }

  /** Asking again and again ends with the most that the budget would have granted at once. */
  lemma {:induction false} AffordableMost(s: RateState, cost: nat, now: int, wanted: nat)
    requires s.Valid()
    ensures var n := Affordable(s, cost, now, wanted);
      s.Grants(n * cost, now) && (n == wanted || !s.Grants((n + 1) * cost, now))
    decreases wanted
  {
    if wanted == 0 || !s.Grants(cost, now) {
      RefillBalance(s, now);
      assert 1 * cost == cost;
    } else {
      var t := s.Consumed(cost, now);
      var n := Affordable(t, cost, now, wanted - 1);
      OneSpent(s, cost, now, n);
      OneSpent(s, cost, now, n + 1);
      AffordableMost(t, cost, now, wanted - 1);
    }
  }

  lemma CountFills(s: Sender, now: int)
    requires s.rate.Valid() && s.config.Valid() && s.blockConfig.Valid() && 0.0 <= s.credit && s.pending != []
    ensures Fills(s, s.RepairCount(now), s.Cost(), now)
  {
    var w, cost := s.RepairsWanted(), s.Cost();
    AffordableMost(s.rate, cost, now, w);
    var n := Affordable(s.rate, cost, now, w);
    AffordedWithin(s.rate, cost, now, w, s.credit);
    WantedMost(s);
    hide Wanted;
    hide Affordable;
    hide RateState.Grants;
    hide Sender.Cost;
    hide Quota;
    assert Charge(n, cost) == n * cost && Charge(w + 1, cost) == (w + 1) * cost;
  }

  lemma WantedMost(s: Sender)
    requires s.config.Valid() && s.blockConfig.Valid() && 0.0 <= s.credit && s.pending != []
    ensures var w, k := s.RepairsWanted(), |s.pending| as real * Quota(s);
      && w <= 4 && w as real < k + 1.0
      && (w == 4 || w as real >= k || Charge(w + 1, s.Cost()) as real > s.credit)
  {
    hide HeaderSize;
    hide BlockSize;
    hide Charge;
    assert s.BlockRatio() == Quota(s);
    hide Sender.BlockRatio;
  }

  lemma EmittedBy(s: Sender, matrix: Matrices, repairSsrc: nat, now: int, codec: bool)
    requires s.Valid(matrix) && repairSsrc < 0x1_0000_0000
    ensures 0.0 <= s.credit
    ensures |s.Flushed(matrix, repairSsrc, now, codec).emitted| == |s.emitted|
      + if s.Attempts(now) && codec then s.RepairCount(now) else 0
  {
    hide Sender.Flushed;
    hide Sender.RepairCount;
    hide Sender.DeadlineMs;
    hide HeaderSize;
    hide BlockSize;
    hide AfterAffording;
    hide Sender.Valid;
    hide Consecutive;
    hide Charge;
    FlushedIs(s, matrix, repairSsrc, now, codec);
  }

  lemma FlushedCount(s: Sender, matrix: Matrices, repairSsrc: nat, now: int, codec: bool)
    requires s.Valid(matrix) && repairSsrc < 0x1_0000_0000
    ensures var r := s.Flushed(matrix, repairSsrc, now, codec);
      |s.emitted| <= |r.emitted| && RepairsDue(s, now, codec, |r.emitted| - |s.emitted|)
  {
    hide Sender.Flushed;
    hide Sender.RepairCount;
    hide Fills;
    hide HeaderSize;
    hide BlockSize;
    hide Shared;
    hide EmitsRepairs;
    hide WithinBudget;
    hide Transcript.WellFormed;
    hide PendingIsTail;
    hide RateState.Valid;
    hide Protection.Valid;
    hide Protection.Off;
    EmittedBy(s, matrix, repairSsrc, now, codec);
    if s.pending != [] {
      CountFills(s, now);
    }
  }

  /** Two senders that agree on the block, the configurations, the credit and the rate budget. */
  predicate SameStanding(s: Sender, t: Sender) {
    && s.pending == t.pending && s.firstMs == t.firstMs && s.keyframe == t.keyframe
    && s.config == t.config && s.blockConfig == t.blockConfig && s.credit == t.credit && s.rate == t.rate
  }

  /** Nothing else has a part in it. */
  lemma DueWhatever(s: Sender, t: Sender, now: int, codec: bool, n: nat)
    requires SameStanding(s, t)
    ensures RepairsDue(t, now, codec, n) <==> RepairsDue(s, now, codec, n)
  {
    hide HeaderSize;
    hide BlockSize;
    hide Quota;
    hide Pays;
    SameFills(s, t, n, HeaderOfLast(s) + BlockSize(s.pending) + 80, now);
    hide Fills;
  }

  function HeaderOfLast(s: Sender): nat {
    if s.pending == [] then 0 else HeaderSize(s.pending[|s.pending| - 1])
  }

  lemma SameFills(s: Sender, t: Sender, n: nat, cost: nat, now: int)
    requires SameStanding(s, t)
    ensures Fills(t, n, cost, now) <==> Fills(s, n, cost, now)
  {
    assert Quota(t) == Quota(s);
    assert Pays(t, n, cost, now) == Pays(s, n, cost, now);
    assert Pays(t, n + 1, cost, now) == Pays(s, n + 1, cost, now);
    hide Quota;
    hide Pays;
  }

  /**
   With both ratios positive, in time, small enough and with a working codec, a
   block gets a repair when both budgets pay for one; and it gets the smaller
   ratio of its packets unless four repairs or a budget stop it, the ratio being
   a twentieth higher, up to a quarter, for a keyframe given priority.
   */
  lemma BlockProtected(s: Sender, now: int, n: nat)
    requires s.config.Valid() && s.blockConfig.Valid() && s.pending != []
    requires now < s.firstMs + s.config.windowMs && now < s.firstMs + s.blockConfig.windowMs
    requires HeaderSize(s.pending[|s.pending| - 1]) + 16 + BlockSize(s.pending) <= 1184
    requires RepairsDue(s, now, true, n)
    ensures var cost := HeaderSize(s.pending[|s.pending| - 1]) + BlockSize(s.pending) + 80;
      var k, low := |s.pending| as real, Min(s.config.ratio, s.blockConfig.ratio);
      var stopped := n == 4 || !Pays(s, n + 1, cost, now);
      && Pays(s, n, cost, now)
      && (low > 0.0 && Pays(s, 1, cost, now) ==> n >= 1)
      && (n as real >= k * low || stopped)
      && (low > 0.0 && s.keyframe && s.blockConfig.keyframePriority ==> n as real >= k * Min(low + 0.05, 0.25) || stopped)
      && (s.keyframe && s.blockConfig.keyframePriority ==> n as real < k * Min(low + 0.05, 0.25) + 1.0)
      && (!s.keyframe || !s.blockConfig.keyframePriority || low == 0.0 ==> n as real < k * low + 1.0)
  {
    hide HeaderSize;
    hide BlockSize;
    hide Pays;
    hide Quota;
    hide Min;
    hide Protection.Valid;
    QuotaBounds(s);
    var k, low := |s.pending| as real, Min(s.config.ratio, s.blockConfig.ratio);
    ProductGrows(k, low, Quota(s));
    ProductGrows(k, Quota(s), Min(low + 0.05, 0.25));
    ProductPositive(k, Quota(s));
    hide RepairsDue;
  }

  lemma ProductPositive(x: real, y: real)
    requires x > 0.0 && y >= 0.0
    ensures y > 0.0 ==> x * y > 0.0
  {
  }

  lemma QuotaBounds(s: Sender)
    requires s.config.Valid() && s.blockConfig.Valid()
    ensures var low, high := Min(s.config.ratio, s.blockConfig.ratio), Min(Min(s.config.ratio, s.blockConfig.ratio) + 0.05, 0.25);
      && 0.0 <= low <= Quota(s) <= high
      && (!s.keyframe || !s.blockConfig.keyframePriority || low == 0.0 ==> Quota(s) == low)
      && (low > 0.0 && s.keyframe && s.blockConfig.keyframePriority ==> Quota(s) == high)
  {
  }

  /** A flush cuts at most one block, and takes no packet. */
  ghost predicate CutsOne(s: Sender, r: Sender, repairSsrc: nat) {
    && r.sent == s.sent && r.config == s.config && r.admitted == s.admitted && s.emitted <= r.emitted
    && (r.blocks == s.blocks || exists b: SentBlock :: b.repairSsrc == repairSsrc && b.packets == s.pending && r.blocks == s.blocks + [b])
  }

  lemma FlushedCuts(s: Sender, matrix: Matrices, repairSsrc: nat, now: int, codec: bool)
    requires s.Valid(matrix) && repairSsrc < 0x1_0000_0000
    ensures CutsOne(s, s.Flushed(matrix, repairSsrc, now, codec), repairSsrc)
  {
    hide Affordable;
    hide AfterAffording;
    hide Wanted;
    hide HeaderSize;
    hide BlockSize;
    hide Charge;
    hide EmitsRepairs;
    hide Transcript.WellFormed;
    hide Shared;
    BudgetFacts(s.emitted, s.credit, s.admitted);
    PendingFacts(s.Log(), s.pending);
    if s.Attempts(now) && s.RepairCount(now) != 0 && codec {
      var b := s.PendingBlock(repairSsrc, s.RepairCount(now));
      BlockCut(s.Log(), s.pending, b.r, repairSsrc);
      assert b.repairSsrc == repairSsrc && b.packets == s.pending;
    }
  }

  lemma AddedKeeps(s: Sender, matrix: Matrices, p: Packet, repairSsrc: nat, now: int, isKeyframe: bool, codec: bool)
    requires s.Open(matrix) && repairSsrc < 0x1_0000_0000
    ensures s.Added(matrix, p, repairSsrc, now, isKeyframe, codec).Open(matrix)
  {
    hide Sender.Valid;
    hide Protectable;
    hide Ssrc;
    hide Marker;
    hide Sender.Continues;
    hide Sender.Admitted;
    hide Sender.Refused;
    hide Sender.Roomy;
    hide Sender.Flushed;
    hide Sender.Appended;
    DeadlineFree(s, matrix, -1);
    var t := s.(repairDeadlineMs := -1);
    if !Takes(p, repairSsrc) || s.config.Off() {
      RefusedKeeps(t, matrix, p);
    } else {
      AdmittedKeeps(t, matrix, |p|, now);
      AdmittedFrame(t, |p|, now);
      var a := t.Admitted(|p|, now);
      RoomyKeeps(a, matrix, p, repairSsrc, now, codec);
      var b := a.Roomy(matrix, p, repairSsrc, now, codec);
      AppendedKeeps(b, matrix, p, now, isKeyframe);
      var c := b.Appended(p, now, isKeyframe);
      ProtectableSize(p);
      if |c.pending| == MAX_SOURCES || Marker(p) {
        FlushedKeeps(c, matrix, repairSsrc, now, codec);
      }
    }
  }

  lemma AdmittedFrame(s: Sender, size: nat, now: int)
    ensures var a := s.Admitted(size, now);
      && a.config == s.config && a.sent == s.sent && a.blocks == s.blocks && a.emitted == s.emitted
      && a.admitted == s.admitted + size
  {
  }

  /** A flush, a refusal or an admission: what was sent and cut stays, and new blocks go out on this repair stream. */
  ghost predicate GoesOn(s: Sender, r: Sender, repairSsrc: nat) {
    && s.blocks <= r.blocks && s.emitted <= r.emitted
    && forall j :: |s.blocks| <= j < |r.blocks| ==> r.blocks[j].repairSsrc == repairSsrc
  }

  /** One packet more is sent, and no more credited than it weighs. */
  lemma AddedGoesOn(s: Sender, matrix: Matrices, p: Packet, repairSsrc: nat, now: int, isKeyframe: bool, codec: bool)
    requires s.Open(matrix) && repairSsrc < 0x1_0000_0000
    ensures var r := s.Added(matrix, p, repairSsrc, now, isKeyframe, codec);
      GoesOn(s, r, repairSsrc) && r.sent == s.sent + [p] && r.admitted <= s.admitted + |p|
  {
    hide Sender.Valid;
    hide Protectable;
    hide Ssrc;
    hide Marker;
    hide Sender.Continues;
    hide Sender.Flushed;
    hide Sender.Admitted;
    DeadlineFree(s, matrix, -1);
    var t := s.(repairDeadlineMs := -1);
    if Takes(p, repairSsrc) && !s.config.Off() {
      AdmittedKeeps(t, matrix, |p|, now);
      AdmittedFrame(t, |p|, now);
      var a := t.Admitted(|p|, now);
      RoomyKeeps(a, matrix, p, repairSsrc, now, codec);
      FlushedCuts(a, matrix, repairSsrc, now, codec);
      var b := a.Roomy(matrix, p, repairSsrc, now, codec);
      AppendedKeeps(b, matrix, p, now, isKeyframe);
      FlushedCuts(b.Appended(p, now, isKeyframe), matrix, repairSsrc, now, codec);
    }
  }

  lemma ExpiredGoesOn(s: Sender, matrix: Matrices, repairSsrc: nat, now: int, codec: bool)
    requires s.Open(matrix) && repairSsrc < 0x1_0000_0000
    ensures var r := s.Expired(matrix, repairSsrc, now, codec);
      GoesOn(s, r, repairSsrc) && r.sent == s.sent && r.admitted == s.admitted
  {
    hide Sender.Valid;
    hide Sender.Flushed;
    DeadlineFree(s, matrix, -1);
    FlushedCuts(s.(repairDeadlineMs := -1), matrix, repairSsrc, now, codec);
  }

  // ----- The sender -----

  class RtpFecSender {
    var pending: seq<Packet>
    var firstMs: int
    var credit: real
    var config: Protection
    var blockConfig: Protection
    const rate: FecRateBudget
    var keyframe: bool
    var lastPacketMs: int
    var repairDeadlineMs: int
    const matrix: Matrices
    const gf: Field
    const neon: bool

    /** Every packet given to AddPacket. */
    ghost var sent: seq<Packet>
    /** Every block repaired, every repair emitted, and the source bytes credited. */
    ghost var blocks: seq<SentBlock>
    ghost var emitted: seq<Packet>
    ghost var admitted: nat

    ghost function Value(): Sender
      reads this, rate
    {
      Sender(pending, firstMs, credit, config, blockConfig, rate.View(), keyframe, lastPacketMs, repairDeadlineMs,
        sent, blocks, emitted, admitted)
    }

    /** Valid, though the block may be full. */
    ghost predicate Loose()
      reads this, rate
    {
      gf.Valid() && Value().Valid(matrix)
    }

    ghost predicate Valid()
      reads this, rate
    {
      gf.Valid() && Value().Open(matrix)
    }

    constructor (matrix: Matrices, gf: Field, neon: bool)
      requires gf.Valid() && Shared(matrix)
      ensures fresh(rate) && this.matrix == matrix
      ensures Valid() && Value() == NEW_SENDER
      ensures pending == [] && credit == 0.0 && lastPacketMs == -1 && rate.rate == -1
      ensures config == blockConfig && config.ratio == 0.25 && config.fecBps == -1 && config.windowMs == 150 && !config.keyframePriority
    {
      hide Field.Valid;
      hide Sender.Open;
      NewKeeps(matrix);
      var budget := new FecRateBudget();
      rate := budget;
      pending, firstMs, credit := [], 0, 0.0;
      config, blockConfig := DEFAULT_PROTECTION, DEFAULT_PROTECTION;
      keyframe, lastPacketMs, repairDeadlineMs := false, -1, -1;
      this.matrix, this.gf, this.neon := matrix, gf, neon;
      sent, blocks, emitted, admitted := [], [], [], 0;
    }

    /** Cut the pending packets into a block and emit its repairs, budgets permitting. */
    method Flush(repairSsrc: nat, now: int, codec: bool) returns (packets: seq<Packet>)
      requires Loose() && repairSsrc < 0x1_0000_0000
      modifies `pending, `credit, `repairDeadlineMs, `blocks, `emitted, rate
      ensures Valid() && Value() == old(Value()).Flushed(matrix, repairSsrc, now, codec)
      ensures emitted == old(emitted) + packets && RepairsDue(old(Value()), now, codec, |packets|)
    {
      hide Field.Valid;
      hide Codeword;
      hide RepairPacket;
      hide HeaderSize;
      hide Wanted;
      hide EmitsRepairs;
      hide WithinBudget;
      hide PendingIsTail;
      hide Transcript.WellFormed;
      hide Consecutive;
      hide BlockSize;
      hide Charge;
      hide Affordable;
      hide AfterAffording;
      hide Sender.Flushed;
      ghost var was := Value();
      FlushedKeeps(was, matrix, repairSsrc, now, codec);
      FlushedIs(was, matrix, repairSsrc, now, codec);
      FlushedCount(was, matrix, repairSsrc, now, codec);
      hide RepairsDue;
      packets := [];
      if |pending| != 0 {
        var cut := pending;
        var deadline := firstMs + MinInt(config.windowMs, blockConfig.windowMs);
        var size := BlockSize(cut);
        var wireSize := HeaderSize(cut[|cut| - 1]) + FEC_HEADER_SIZE + size;
        pending := [];
        if now < deadline && wireSize <= MAX_WIRE_PACKET {
          var ratio := Min(config.ratio, blockConfig.ratio);
          var blockRatio := if keyframe && blockConfig.keyframePriority && ratio > 0.0 then Min(0.25, ratio + 0.05) else ratio;
          var wanted := Wanted(|cut|, blockRatio, credit, wireSize + OVERHEAD);
          var count := Afford(rate, wireSize + OVERHEAD, now, wanted);
          assert was.Attempts(now) && count == was.RepairCount(now);
          if count != 0 {
            packets := EmitRepairs(cut, count, wireSize, deadline, repairSsrc, codec,
              was.(rate := AfterAffording(was.rate, was.Cost(), now, was.RepairsWanted())), was.PendingBlock(repairSsrc, count));
          }
        }
      }
    }

    /** Build a block's repairs, charge them and remember the block. */
    method EmitRepairs(cut: seq<Packet>, count: nat, wireSize: nat, deadline: int, repairSsrc: nat, codec: bool,
                       ghost t: Sender, ghost b: SentBlock)
      returns (packets: seq<Packet>)
      requires gf.Valid() && Shared(matrix) && Value() == t.(pending := []) && t.pending == cut
      requires b.Valid() && b.packets == cut && b.r == count && b.repairSsrc == repairSsrc
      requires deadline == t.DeadlineMs() && wireSize == t.PendingWireSize() <= MAX_WIRE_PACKET
      modifies `credit, `repairDeadlineMs, `blocks, `emitted
      ensures Value() == if codec then t.Recorded(b, matrix) else t.(pending := [])
      ensures emitted == old(emitted) + packets
    {
      hide Field.Valid;
      hide Shared;
      hide Codeword;
      hide SentBlock.RepairAt;
      hide HeaderSize;
      hide BlockSize;
      hide Charge;
      hide Consecutive;
      var ok;
      ok, packets := BuildRepairs(cut, count, repairSsrc, matrix, codec, gf, neon, b);
      if ok {
        credit := credit - Charge(|packets|, wireSize + OVERHEAD) as real;
        repairDeadlineMs := if repairDeadlineMs < 0 then deadline else MinInt(repairDeadlineMs, deadline);
        blocks := blocks + [b];
        emitted := emitted + packets;
      }
    }

    /** FlushExpired: flush a block that has been open for 20 ms. */
    method FlushExpired(repairSsrc: nat, now: int, codec: bool) returns (packets: seq<Packet>)
      requires Valid() && repairSsrc < 0x1_0000_0000
      modifies `pending, `credit, `repairDeadlineMs, `blocks, `emitted, rate
      ensures Valid() && Value() == old(Value()).Expired(matrix, repairSsrc, now, codec)
      ensures emitted == old(emitted) + packets
      ensures old(pending) == [] || now < old(firstMs) + 20 ==> packets == [] && pending == old(pending)
      ensures old(pending) != [] && now >= old(firstMs) + 20 ==> pending == [] && RepairsDue(old(Value()), now, codec, |packets|)
    {
      hide Field.Valid;
      hide Sender.Valid;
      hide Sender.Flushed;
      ghost var was := Value();
      DeadlineFree(was, matrix, -1);
      repairDeadlineMs := -1;
      assert Value() == was.(repairDeadlineMs := -1);
      hide RepairsDue;
      packets := [];
      if pending != [] && now - firstMs >= 20 {
        packets := Flush(repairSsrc, now, codec);
        DueWhatever(was, was.(repairDeadlineMs := -1), now, codec, |packets|);
        FlushedKeeps(was.(repairDeadlineMs := -1), matrix, repairSsrc, now, codec);
      }
    }

    /** Reset: forget the block, the credit and the rate. */
    method Reset()
      requires Valid()
      modifies `pending, `credit, `lastPacketMs, rate
      ensures Valid() && Value() == old(Value()).Cleared()
      ensures pending == [] && credit == 0.0 && lastPacketMs == -1 && rate.rate == -1
    {
      hide Field.Valid;
      hide Sender.Valid;
      ClearedKeeps(Value(), matrix);
      pending, credit, lastPacketMs := [], 0.0, -1;
      rate.Clear();
    }

    /** SetProtection: a newer configuration, with the credit scaled down to a smaller ratio. */
    method SetProtection(c: Protection, now: int)
      requires Valid()
      modifies `pending, `credit, `config, rate
      ensures Valid() && old(Value()).config.Valid() && 0.0 <= old(Value()).credit
      ensures Value() == old(Value()).Configured(c, now)
      ensures c.version < old(config).version ==> Value() == old(Value())
      ensures c.version >= old(config).version ==>
        && config == Clamped(c) && pending == (if config.ratio == 0.0 || config.fecBps == 0 then [] else old(pending))
        && (config.ratio == 0.0 || config.fecBps == 0 ==> credit == 0.0)
        && (config.fecBps != 0 && 0.0 < config.ratio < old(config).ratio ==> credit * old(config).ratio == old(credit) * config.ratio)
        && (config.fecBps != 0 && 0.0 < config.ratio && old(config).ratio <= config.ratio ==> credit == old(credit))
    {
      hide Field.Valid;
      hide Sender.Valid;
      hide Scaled;
      ConfiguredKeeps(Value(), matrix, c, now);
      if c.version >= config.version {
        var next := Clamped(c);
        if config.ratio > 0.0 && next.ratio < config.ratio {
          credit := Scaled(credit, next.ratio, config.ratio);
        }
        if next.Off() {
          pending := [];
          credit := 0.0;
        }
        if next.fecBps >= 0 {
          rate.SetRate(next.fecBps, now);
        }
        config := next;
      }
    }

    /** Earn credit for an admitted packet, after dropping everything across a gap. */
    method Admit(size: nat, now: int)
      requires Valid()
      modifies `pending, `credit, `lastPacketMs, `admitted, rate
      ensures Valid() && Value() == old(Value()).Admitted(size, now)
    {
      hide Field.Valid;
      hide Sender.Valid;
      hide Topped;
      AdmittedKeeps(Value(), matrix, size, now);
      if lastPacketMs < 0 && config.fecBps >= 0 {
        rate.SetRate(config.fecBps, now);
      }
      if lastPacketMs >= 0 && (now < lastPacketMs || now - lastPacketMs > 1000) {
        credit := 0.0;
        pending := [];
      }
      lastPacketMs := now;
      credit := Topped(credit, size, config.ratio);
      admitted := admitted + size;
    }

    /**
     AddPacket.  The packet joins the pending block or starts a new one; a block
     is flushed when a packet does not continue it, when it is full, and when
     the marker bit ends the frame.
     */
    method AddPacket(p: Packet, repairSsrc: nat, now: int, isKeyframe: bool, codec: bool) returns (result: seq<Packet>)
      requires Valid() && repairSsrc < 0x1_0000_0000
      modifies this, rate
      ensures Valid() && Value() == old(Value()).Added(matrix, p, repairSsrc, now, isKeyframe, codec)
      ensures emitted == old(emitted) + result
    {
      hide Field.Valid;
      hide Sender.Valid;
      hide Sender.Admitted;
      hide Sender.Flushed;
      hide Sender.Appended;
      hide Sender.Roomy;
      hide Protectable;
      hide Ssrc;
      hide Marker;
      hide RepairsDue;
      AddedKeeps(Value(), matrix, p, repairSsrc, now, isKeyframe, codec);
      DeadlineFree(Value(), matrix, -1);
      result := [];
      repairDeadlineMs := -1;
      ghost var s := Value();
      if !Takes(p, repairSsrc) || config.Off() {
        pending := [];
        sent := sent + [p];
        return;
      }
      ProtectableSize(p);
      Admit(|p|, now);
      ghost var a := Value();
      AdmittedFrame(s, |p|, now);
      RoomyKeeps(a, matrix, p, repairSsrc, now, codec);
      result := MakeRoom(p, repairSsrc, now, codec);
      ghost var b := Value();
      AppendedKeeps(b, matrix, p, now, isKeyframe);
      Append(p, now, isKeyframe);
      if |pending| == MAX_SOURCES || Marker(p) {
        var tail := Flush(repairSsrc, now, codec);
        result := result + tail;
      }
    }

    /** Append a packet to the block. */
    method Append(p: Packet, now: int, isKeyframe: bool)
      requires Valid() && Value().Appended(p, now, isKeyframe).Valid(matrix)
      modifies `pending, `firstMs, `blockConfig, `keyframe, `sent
      ensures Loose() && Value() == old(Value()).Appended(p, now, isKeyframe)
    {
      hide Field.Valid;
      hide Sender.Valid;
      if |pending| == 0 {
        firstMs, blockConfig, keyframe := now, config, isKeyframe;
      }
      pending := pending + [p];
      sent := sent + [p];
    }

    /** Flush the pending block when `p` does not continue it. */
    method MakeRoom(p: Packet, repairSsrc: nat, now: int, codec: bool) returns (packets: seq<Packet>)
      requires Valid() && repairSsrc < 0x1_0000_0000 && |p| >= 12
      modifies `pending, `credit, `repairDeadlineMs, `blocks, `emitted, rate
      ensures Valid() && Value() == old(Value()).Roomy(matrix, p, repairSsrc, now, codec)
      ensures emitted == old(emitted) + packets
    {
      hide Field.Valid;
      hide Sender.Flushed;
      hide Follows;
      hide EmitsRepairs;
      hide WithinBudget;
      hide PendingIsTail;
      hide Transcript.WellFormed;
      hide RepairsDue;
      PendingFacts(Value().Log(), pending);
      packets := [];
      if pending != [] && (!Follows(pending[|pending| - 1], p) || now < firstMs || now - firstMs >= 20) {
        packets := Flush(repairSsrc, now, codec);
      }
    }
  }

  /** A packet that joins no block leaves the blocks as they were. */
  lemma TranscriptGrows(t: Transcript, p: Packet, emitted: seq<Packet>, matrix: Matrices)
    requires Shared(matrix) && t.WellFormed() && PendingIsTail(t, []) && EmitsRepairs(t, emitted, matrix)
    ensures var u := Transcript(t.sent + [p], t.blocks);
      u.WellFormed() && PendingIsTail(u, []) && EmitsRepairs(u, emitted, matrix)
  {
    hide Consecutive;
    hide Codeword;
    hide RepairPacket;
    hide Ssrc;
    var u := Transcript(t.sent + [p], t.blocks);
    forall j | 0 <= j < |t.blocks|
      ensures t.blocks[j].packets == u.sent[t.blocks[j].start..t.blocks[j].start + |t.blocks[j].packets|]
    {
      assert t.blocks[j].start + |t.blocks[j].packets| <= |t.sent|;
    }
    StillRepairs(t, u, emitted, matrix);
  }

  lemma PendingGrows(t: Transcript, pending: seq<Packet>, p: Packet)
    requires t.WellFormed() && PendingIsTail(t, pending) && |pending| < MAX_SOURCES
    requires Protectable(p)
    requires pending != [] ==> Follows(pending[|pending| - 1], p)
    ensures PendingIsTail(Transcript(t.sent + [p], t.blocks), pending + [p])
  {
    hide Transcript.WellFormed;
    hide Ssrc;
    hide Follows;
    hide HeaderSize;
    var u, more := Transcript(t.sent + [p], t.blocks), pending + [p];
    assert more == u.sent[|u.sent| - |more|..];
  }

  lemma ProductGrows(x: real, r: real, q: real)
    requires 0.0 <= x && 0.0 <= r <= q
    ensures 0.0 <= x * r <= x * q
  {
    assert x * (q - r) >= 0.0;
    assert x * q == x * r + x * (q - r);
  }

  lemma CreditEarned(emitted: seq<Packet>, credit: real, admitted: nat, size: nat, ratio: real)
    requires WithinBudget(emitted, credit, admitted) && 0.0 <= ratio <= 0.25
    ensures WithinBudget(emitted, Topped(credit, size, ratio), admitted + size)
  {
    QuarterAdds(admitted, size);
    ToppedAtMost(credit, size, ratio);
    hide TotalCost;
    hide Topped;
  }

  /** A quarter of a sum. */
  lemma QuarterAdds(a: nat, b: nat)
    ensures 0.25 * (a + b) as real == 0.25 * a as real + 0.25 * b as real
  {
  }

  lemma EarnedAtMostQuarter(size: nat, ratio: real)
    requires 0.0 <= ratio <= 0.25
    ensures 0.0 <= Earned(size, ratio) <= 0.25 * size as real
  {
    QuarterAtMost(size as real, ratio);
  }

  lemma QuarterAtMost(x: real, r: real)
    requires 0.0 <= x && 0.0 <= r <= 0.25
    ensures 0.0 <= x * r <= 0.25 * x
  {
    assert x * (0.25 - r) >= 0.0;
    assert x * (0.25 - r) == 0.25 * x - x * r;
  }

  lemma ToppedAtMost(credit: real, size: nat, ratio: real)
    requires 0.0 <= ratio <= 0.25 && 0.0 <= credit <= MAX_CREDIT
    ensures 0.0 <= Topped(credit, size, ratio) <= MAX_CREDIT && Topped(credit, size, ratio) <= credit + 0.25 * size as real
  {
    EarnedAtMostQuarter(size, ratio);
    hide Earned;
  }

  lemma LessCredit(emitted: seq<Packet>, credit: real, less: real, admitted: nat)
    requires WithinBudget(emitted, credit, admitted) && 0.0 <= less <= credit
    ensures WithinBudget(emitted, less, admitted)
  {
  }

  lemma BudgetFacts(emitted: seq<Packet>, credit: real, admitted: nat)
    requires WithinBudget(emitted, credit, admitted)
    ensures 0.0 <= credit <= MAX_CREDIT
  {
  }

  lemma PendingFacts(t: Transcript, pending: seq<Packet>)
    requires PendingIsTail(t, pending)
    ensures PendingIsTail(t, [])
    ensures |pending| <= |t.sent| && Consecutive(pending)
    ensures pending != [] ==> |pending[|pending| - 1]| >= 12
    ensures pending != [] ==> 12 <= BlockSize(pending) <= MAX_MEDIA_PACKET + 2
  {
  }
}
