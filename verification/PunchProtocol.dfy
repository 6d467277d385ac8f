/**
 The packet codec of src/ice/punch_protocol.cpp.  SHA-256, HMAC and the JSON
 library are foreign code: they are the fields of a `Suite`.
 */
module PunchProtocol {
  import opened Common
  import opened PunchValues

  const HEADER_SIZE := 44
  const TAG_SIZE := 16
  const CONTROL_MAX := 1200
  const PROBE_SIZE := 80
  const PAYLOAD_MAX := CONTROL_MAX - HEADER_SIZE - TAG_SIZE

  function Zeros(n: nat): (s: Bytes)
    ensures |s| == n
  {
    seq(n, _ => 0)
  }

  type Id = s: Bytes | |s| == 16 witness Zeros(16)
  type Key = s: Bytes | |s| == 32 witness Zeros(32)
  type Sequence = n: int | 0 <= n < 0x1_0000_0000

  const MAGIC: Bytes := [0xf3, 0x4d, 0x50, 0x31]

  predicate IsZero(id: Bytes) {
    forall i :: 0 <= i < |id| ==> id[i] == 0
  }

  datatype Domain = Control | Probing

  datatype Packet = Packet(kind: Kind, generation: Id, round: Id, sequence: Sequence, payload: Bytes)

  datatype ProbeBody = ProbeBody(socket: nat, nonce: Bytes)
  {
    predicate Valid() {
      socket < 0x1_0000_0000_0000_0000 && |nonce| == 12
    }
  }

  /** The foreign functions: HMAC-SHA-256, SHA-256, and reading and writing JSON text. */
  datatype Suite = Suite(tag: (Bytes, Key) -> Key, sha: Bytes -> Key, read: Bytes -> Option<Value>, write: Value -> Bytes)
  {
    /** Written JSON reads back as what was written, and the empty text is not JSON. */
    ghost predicate ReadsBack() {
      read([]) == None && forall v: Value :: read(write(v)) == Some(v)
    }

    /** Two byte strings share a digest. */
    predicate Collide(a: Bytes, b: Bytes) {
      a != b && sha(a) == sha(b)
    }
  }

  // ----- Big-endian numbers -----

  function Put(n: nat, count: nat): (s: Bytes)
    ensures |s| == count
  {
    if count == 0 then [] else Put(n / 256, count - 1) + [n % 256]
  }

  function Get(s: Bytes): nat {
    if s == [] then 0 else Get(s[..|s| - 1]) * 256 + s[|s| - 1]
  }

  function Power256(n: nat): (p: nat)
    ensures p > 0
  {
    if n == 0 then 1 else 256 * Power256(n - 1)
  }

  lemma {:induction false} GetPut(n: nat, count: nat)
    requires n < Power256(count)
    ensures Get(Put(n, count)) == n
  {
    if count > 0 {
      GetPut(n / 256, count - 1);
      assert Put(n, count)[..count - 1] == Put(n / 256, count - 1);
    }
  }

  lemma {:induction false} PutGet(s: Bytes)
    ensures Put(Get(s), |s|) == s && Get(s) < Power256(|s|)
  {
    if s != [] {
      PutGet(s[..|s| - 1]);
      assert Get(s) / 256 == Get(s[..|s| - 1]) && Get(s) % 256 == s[|s| - 1];
    }
  }

  lemma Powers()
    ensures Power256(2) == 0x1_0000 && Power256(4) == 0x1_0000_0000 && Power256(8) == 0x1_0000_0000_0000_0000
  {
    assert Power256(1) == 256 && Power256(2) == 0x1_0000 && Power256(3) == 0x100_0000 && Power256(4) == 0x1_0000_0000;
    assert Power256(5) == 0x100_0000_0000 && Power256(6) == 0x1_0000_0000_0000 && Power256(7) == 0x100_0000_0000_0000;
  }

  /** `n` shifted right by `i` bytes. */
  function ShiftRight(n: nat, i: nat): nat {
    if i == 0 then n else ShiftRight(n, i - 1) / 256
  }

  /** Append a number of `count` bytes, highest first. */
  method PutBytes(out: Bytes, n: nat, count: nat) returns (longer: Bytes)
    ensures longer == out + Put(n, count)
  {
    longer := out;
    var i := count;
    while i > 0
      invariant 0 <= i <= count
      invariant longer == out + Put(ShiftRight(n, i), count - i)
    {
      i := i - 1;
      longer := longer + [ShiftRight(n, i) % 256];
    }
  }

  /** Read a number, highest byte first. */
  method GetBytes(s: Bytes) returns (n: nat)
    ensures n == Get(s)
  {
    n := 0;
    for i := 0 to |s|
      invariant n == Get(s[..i])
    {
      assert s[..i + 1][..i] == s[..i];
      n := n * 256 + s[i];
    }
    assert s[..|s|] == s;
  }

  // ----- Kinds, domains, payloads -----

  function Code(kind: Kind): (b: byte)
    ensures 0 < b
  {
    match kind
    case Hello => 1 case Prepare => 2 case Ready => 3 case Start => 4 case Started => 5 case Cancel => 7
    case Probe => 0x20 case Ack => 0x21
  }

  /** The kind a code stands for. */
  function KindOf(b: byte): (kind: Option<Kind>)
    ensures forall k: Kind :: Code(k) == b <==> kind == Some(k)
  {
    if b == 1 then Some(Hello) else if b == 2 then Some(Prepare) else if b == 3 then Some(Ready)
    else if b == 4 then Some(Start) else if b == 5 then Some(Started) else if b == 7 then Some(Cancel)
    else if b == 0x20 then Some(Probe) else if b == 0x21 then Some(Ack) else None
  }

  function DomainOf(kind: Kind): Domain {
    if kind == Probe || kind == Ack then Probing else Control
  }

  function ParseControl(kind: Kind, payload: Bytes, suite: Suite): Option<Value> {
    if DomainOf(kind) != Control || |payload| > PAYLOAD_MAX then None
    else
      match suite.read(payload)
      case Some(v) => if Schema(kind, v) then Some(v) else None
      case None => None
  }

  /** The text of a message body, empty when the schema or the size forbids it. */
  function ControlPayload(kind: Kind, v: Value, suite: Suite): Bytes {
    if !Schema(kind, v) || |suite.write(v)| > PAYLOAD_MAX then [] else suite.write(v)
  }

  /** A body that prints is the one its text parses to; a body that does not print has no text. */
  lemma PayloadReadsBack(kind: Kind, v: Value, suite: Suite)
    requires suite.ReadsBack()
    ensures ControlPayload(kind, v, suite) != [] ==> ParseControl(kind, ControlPayload(kind, v, suite), suite) == Some(v)
    ensures ControlPayload(kind, v, suite) == [] ==> ParseControl(kind, ControlPayload(kind, v, suite), suite) == None
  {
    hide OfferOk;
    hide PlanOk;
    hide HexDigest;
    hide Text;
  }

  function ProbePayload(p: ProbeBody): Bytes
    requires p.Valid()
  {
    if p.socket == 0 then [] else Put(p.socket, 8) + p.nonce
  }

  function ParseProbe(payload: Bytes): Option<ProbeBody> {
    if |payload| != 20 || Get(payload[..8]) == 0 then None else Some(ProbeBody(Get(payload[..8]), payload[8..]))
  }

  /** Every probe with a socket survives the wire. */
  lemma ProbeReadsBack(p: ProbeBody)
    requires p.Valid()
    ensures p.socket == 0 ==> ProbePayload(p) == []
    ensures p.socket != 0 ==> ParseProbe(ProbePayload(p)) == Some(p)
  {
    if p.socket != 0 {
      Powers();
      GetPut(p.socket, 8);
      assert ProbePayload(p)[..8] == Put(p.socket, 8);
      assert ProbePayload(p)[8..] == p.nonce;
    }
  }

  /** Every payload that parses is the one its probe prints. */
  lemma ProbePrintsBack(payload: Bytes)
    requires ParseProbe(payload).Some?
    ensures ParseProbe(payload).value.Valid() && ProbePayload(ParseProbe(payload).value) == payload
  {
    Powers();
    PutGet(payload[..8]);
    assert payload == payload[..8] + payload[8..];
  }

  predicate PayloadOk(kind: Kind, payload: Bytes, suite: Suite) {
    if DomainOf(kind) == Control then ParseControl(kind, payload, suite).Some? else ParseProbe(payload).Some?
  }

  // ----- Packets -----

  predicate RoundOk(kind: Kind, round: Bytes) {
    if kind == Hello then IsZero(round) else !IsZero(round)
  }

  predicate Encodable(p: Packet, suite: Suite) {
    && p.sequence != 0 && !IsZero(p.generation) && RoundOk(p.kind, p.round) && PayloadOk(p.kind, p.payload, suite)
  }

  /** Everything but the tag. */
  function Body(p: Packet): (s: Bytes)
    ensures |s| == HEADER_SIZE + |p.payload|
  {
    MAGIC + [1, Code(p.kind)] + Put(|p.payload|, 2) + p.generation + p.round + Put(p.sequence, 4) + p.payload
  }

  function Encode(p: Packet, key: Key, suite: Suite): Bytes {
    if Encodable(p, suite) then Body(p) + suite.tag(Body(p), key)[..TAG_SIZE] else []
  }

  predicate IsMagic(data: Bytes) {
    |data| >= 4 && data[..4] == MAGIC
  }

  predicate Framed(data: Bytes, domain: Domain, generation: Id) {
    && IsMagic(data) && HEADER_SIZE + TAG_SIZE <= |data| <= CONTROL_MAX && data[4] == 1
    && KindOf(data[5]).Some? && DomainOf(KindOf(data[5]).value) == domain
    && |data| == HEADER_SIZE + Get(data[6..8]) + TAG_SIZE
    && (domain == Probing ==> |data| == PROBE_SIZE)
    && !IsZero(generation) && data[8..24] == generation
  }

  function Unframed(data: Bytes, domain: Domain, generation: Id): (p: Packet)
    requires Framed(data, domain, generation)
  {
    assert Get(data[40..44]) < 0x1_0000_0000 by {
      Powers();
      PutGet(data[40..44]);
    }
    Packet(KindOf(data[5]).value, generation, data[24..40], Get(data[40..44]), data[HEADER_SIZE..|data| - TAG_SIZE])
  }

  predicate Authentic(data: Bytes, key: Key, suite: Suite)
    requires |data| >= TAG_SIZE
  {
    suite.tag(data[..|data| - TAG_SIZE], key)[..TAG_SIZE] == data[|data| - TAG_SIZE..]
  }

  function Decode(data: Bytes, key: Key, domain: Domain, generation: Id, suite: Suite): (p: Option<Packet>) {
    if !Framed(data, domain, generation) || !Authentic(data, key, suite) then None
    else
      var p := Unframed(data, domain, generation);
      if p.sequence == 0 || !RoundOk(p.kind, p.round) || !PayloadOk(p.kind, p.payload, suite) then None else Some(p)
  }

  /** Build a packet by appending its fields. */
  method EncodePacket(p: Packet, key: Key, suite: Suite) returns (out: Bytes)
    ensures out == Encode(p, key, suite)
  {
    if !Encodable(p, suite) {
      return [];
    }
    out := MAGIC;
    out := out + [1];
    out := out + [Code(p.kind)];
    out := PutBytes(out, |p.payload|, 2);
    out := out + p.generation;
    out := out + p.round;
    out := PutBytes(out, p.sequence, 4);
    out := out + p.payload;
    assert out == Body(p);
    out := out + suite.tag(out, key)[..TAG_SIZE];
  }

  /** Where each field of a body lies. */
  lemma BodyFields(p: Packet, data: Bytes)
    requires Body(p) <= data
    ensures data[..4] == MAGIC && data[4] == 1 && data[5] == Code(p.kind) && data[6..8] == Put(|p.payload|, 2)
    ensures data[8..24] == p.generation && data[24..40] == p.round && data[40..44] == Put(p.sequence, 4)
    ensures data[44..44 + |p.payload|] == p.payload
  {
    var b := Body(p);
    assert b[..4] == MAGIC && b[4] == 1 && b[5] == Code(p.kind) && b[6..8] == Put(|p.payload|, 2);
    assert b[8..24] == p.generation && b[24..40] == p.round && b[40..44] == Put(p.sequence, 4);
    assert b[44..44 + |p.payload|] == p.payload;
    assert b == data[..|b|];
  }

  /** A body is determined by its fields. */
  lemma BodyIs(p: Packet, data: Bytes)
    requires |data| == HEADER_SIZE + |p.payload|
    requires data[..4] == MAGIC && data[4] == 1 && data[5] == Code(p.kind) && data[6..8] == Put(|p.payload|, 2)
    requires data[8..24] == p.generation && data[24..40] == p.round && data[40..44] == Put(p.sequence, 4)
    requires data[44..] == p.payload
    ensures data == Body(p)
  {
    hide Put;
    assert data == data[..4] + [data[4], data[5]] + data[6..8] + data[8..24] + data[24..40] + data[40..44] + data[44..];
    assert MAGIC + [1, Code(p.kind)] == data[..4] + [data[4], data[5]];
  }

  /** Decoding what was encoded gives back the packet. */
  lemma DecodeEncode(p: Packet, key: Key, suite: Suite)
    requires Encode(p, key, suite) != []
    ensures Decode(Encode(p, key, suite), key, DomainOf(p.kind), p.generation, suite) == Some(p)
  {
    hide Schema;
    hide Body;
    hide Get;
    hide Put;
    var data, body := Encode(p, key, suite), Body(p);
    assert data[..|body|] == body && data[|body|..] == suite.tag(body, key)[..TAG_SIZE];
    BodyFields(p, data);
    Powers();
    GetPut(|p.payload|, 2);
    GetPut(p.sequence, 4);
    assert KindOf(data[5]) == Some(p.kind);
  }

  /** Every byte string that decodes is exactly the encoding of its packet. */
  lemma EncodeDecode(data: Bytes, key: Key, domain: Domain, generation: Id, suite: Suite)
    requires Decode(data, key, domain, generation, suite).Some?
    ensures var p := Decode(data, key, domain, generation, suite).value;
      Encode(p, key, suite) == data && p.generation == generation && DomainOf(p.kind) == domain
  {
    hide Schema;
    hide Body;
    hide Get;
    hide Put;
    var p, n := Decode(data, key, domain, generation, suite).value, |data| - TAG_SIZE;
    var body := data[..n];
    PutGet(data[6..8]);
    PutGet(data[40..44]);
    assert body[..4] == data[..4] && body[6..8] == data[6..8] && body[8..24] == data[8..24];
    assert body[24..40] == data[24..40] && body[40..44] == data[40..44] && body[44..] == data[44..n];
    BodyIs(p, body);
    assert data == body + data[n..];
  }

  /** Under one key, an accepted byte string has one reading and a packet one spelling. */
  lemma DecodeInjective(a: Bytes, b: Bytes, key: Key, domain: Domain, generation: Id, suite: Suite)
    requires Decode(a, key, domain, generation, suite).Some?
    requires Decode(a, key, domain, generation, suite) == Decode(b, key, domain, generation, suite)
    ensures a == b
  {
    EncodeDecode(a, key, domain, generation, suite);
    EncodeDecode(b, key, domain, generation, suite);
  }

  // ----- What the tag protects -----

  /** An encoding ends in the first 16 bytes of the tag of everything before it. */
  lemma EndsInTag(p: Packet, key: Key, suite: Suite)
    requires Encode(p, key, suite) != []
    ensures var e := Encode(p, key, suite);
      |e| >= 60 && e[|e| - 16..] == suite.tag(e[..|e| - 16], key)[..16]
  {
    hide Encodable;
    hide Body;
    var e, body := Encode(p, key, suite), Body(p);
    assert e[..|e| - 16] == body && e[|e| - 16..] == suite.tag(body, key)[..16];
  }

  /** Two different byte strings carry tags that agree in their first 16 bytes. */
  predicate TagsAgree(a: Bytes, b: Bytes, key: Key, suite: Suite) {
    a != b && suite.tag(a, key)[..16] == suite.tag(b, key)[..16]
  }

  /**
   The tag binds every byte before it: two accepted byte strings that end alike
   are the same, or the tags of what comes before their ends agree.
   */
  lemma TagBinds(a: Bytes, b: Bytes, key: Key, da: Domain, db: Domain, ga: Id, gb: Id, suite: Suite)
    requires Decode(a, key, da, ga, suite).Some? && Decode(b, key, db, gb, suite).Some?
    requires |a| >= 16 && |b| >= 16 && a[|a| - 16..] == b[|b| - 16..]
    ensures a == b || TagsAgree(a[..|a| - 16], b[..|b| - 16], key, suite)
  {
    EncodeDecode(a, key, da, ga, suite);
    EncodeDecode(b, key, db, gb, suite);
    EndsInTag(Decode(a, key, da, ga, suite).value, key, suite);
    EndsInTag(Decode(b, key, db, gb, suite).value, key, suite);
    assert a == a[..|a| - 16] + a[|a| - 16..] && b == b[..|b| - 16] + b[|b| - 16..];
  }

  /** So an accepted byte string that differs from the packet sent with this tag is a forgery of the tag. */
  lemma OnlyThisPacket(p: Packet, data: Bytes, key: Key, domain: Domain, generation: Id, suite: Suite)
    requires var e := Encode(p, key, suite);
      e != [] && |data| >= 16 && |e| >= 16 && data[|data| - 16..] == e[|e| - 16..]
    requires Decode(data, key, domain, generation, suite).Some?
    ensures var e := Encode(p, key, suite);
      Decode(data, key, domain, generation, suite) == Some(p) || TagsAgree(e[..|e| - 16], data[..|data| - 16], key, suite)
  {
    var e := Encode(p, key, suite);
    DecodeEncode(p, key, suite);
    TagBinds(e, data, key, DomainOf(p.kind), domain, p.generation, generation, suite);
    if e == data {
      EncodeDecode(data, key, domain, generation, suite);
      SameHeader(p, Decode(data, key, domain, generation, suite).value, key, suite);
    }
  }

  /** Packets with the same encoding are the same. */
  lemma SameHeader(p: Packet, q: Packet, key: Key, suite: Suite)
    requires Encode(p, key, suite) == Encode(q, key, suite) != []
    ensures p == q
  {
    var e := Encode(p, key, suite);
    DecodeEncode(p, key, suite);
    DecodeEncode(q, key, suite);
    WireFields(p, key, suite);
    WireFields(q, key, suite);
    assert p.generation == q.generation && Code(p.kind) == Code(q.kind);
    assert KindOf(e[5]) == Some(p.kind) && KindOf(e[5]) == Some(q.kind);
    hide Decode;
    hide Encode;
  }

  /** The number the protocol gives each kind of packet. */
  predicate IsNumberOf(kind: Kind, b: byte) {
    match kind
    case Hello => b == 1 case Prepare => b == 2 case Ready => b == 3 case Start => b == 4 case Started => b == 5
    case Cancel => b == 7 case Probe => b == 32 case Ack => b == 33
  }

  /** Where each field lies on the wire. */
  lemma WireFields(p: Packet, key: Key, suite: Suite)
    requires Encode(p, key, suite) != []
    ensures var e := Encode(p, key, suite);
      && |e| == 60 + |p.payload| <= 1200
      && e[..4] == [0xf3, 0x4d, 0x50, 0x31] && e[4] == 1 && IsNumberOf(p.kind, e[5]) && e[5] == Code(p.kind)
      && e[6] as int * 256 + e[7] == |p.payload| && e[8..24] == p.generation && e[24..40] == p.round
      && e[40] as int * 0x100_0000 + e[41] as int * 0x1_0000 + e[42] as int * 256 + e[43] == p.sequence && e[44..44 + |p.payload|] == p.payload
  {
    var e := Encode(p, key, suite);
    PayloadSize(p, suite);
    hide Encodable;
    assert |e| == 60 + |p.payload|;
    BodyFields(p, e);
    Powers();
    GetPut(|p.payload|, 2);
    GetPut(p.sequence, 4);
    GetTwo(e[6..8]);
    GetFour(e[40..44]);
    hide Encode;
    hide Body;
    hide Get;
    hide Put;
  }

  lemma PayloadSize(p: Packet, suite: Suite)
    requires Encodable(p, suite)
    ensures |p.payload| <= 1140
  {
  }

  lemma GetTwo(s: Bytes)
    requires |s| == 2
    ensures Get(s) == s[0] as int * 256 + s[1]
  {
    assert s[..1] == [s[0]];
    assert Get([s[0]]) == s[0] by {
      assert [s[0]][..0] == [];
    }
  }

  lemma GetFour(s: Bytes)
    requires |s| == 4
    ensures Get(s) == s[0] as int * 0x100_0000 + s[1] as int * 0x1_0000 + s[2] as int * 256 + s[3]
  {
    assert s[..3][..2] == s[..2];
    GetTwo(s[..2]);
    assert Get(s[..3]) == Get(s[..2]) * 256 + s[2];
  }

  /** What the schema, the two kinds of payload and the fields admit goes on the wire, and nothing else does. */
  lemma GoesOut(p: Packet, key: Key, suite: Suite)
    ensures Encode(p, key, suite) != [] <==>
      && p.sequence != 0 && !IsZero(p.generation) && (p.kind == Hello <==> IsZero(p.round))
      && if p.kind == Probe || p.kind == Ack then |p.payload| == 20 && !IsZero(p.payload[..8])
         else |p.payload| <= 1140 && suite.read(p.payload).Some? && Schema(p.kind, suite.read(p.payload).value)
  {
    hide Schema;
    if |p.payload| == 20 {
      ZeroIsZero(p.payload[..8]);
    }
    assert |Body(p)| >= 44;
    hide Body;
    hide IsZero;
  }

  lemma {:induction false} ZeroIsZero(s: Bytes)
    ensures IsZero(s) <==> Get(s) == 0
  {
    if s != [] {
      var n := |s| - 1;
      ZeroIsZero(s[..n]);
      assert forall i :: 0 <= i < n ==> s[..n][i] == s[i];
    }
  }

  // ----- Generations -----

  /** A username fragment the context admits: 1 to 256 bytes, no blank, no line end, no zero byte. */
  predicate Fragment(u: Bytes) {
    0 < |u| <= 256 && forall i :: 0 <= i < |u| ==> u[i] !in {32, 9, 13, 10, 0}
  }

  function GenerationContext(offer: Bytes, answer: Bytes): Bytes {
    if !Fragment(offer) || !Fragment(answer) then []
    else Put(|offer|, 2) + offer + Put(|answer|, 2) + answer
  }

  /** Different fragments never share a context. */
  lemma ContextInjective(offer: Bytes, answer: Bytes, offer': Bytes, answer': Bytes)
    requires GenerationContext(offer, answer) == GenerationContext(offer', answer') != []
    ensures offer == offer' && answer == answer'
  {
    var c := GenerationContext(offer, answer);
    ContextFields(offer, answer);
    ContextFields(offer', answer');
    Powers();
    GetPut(|offer|, 2);
    GetPut(|offer'|, 2);
  }

  lemma ContextFields(offer: Bytes, answer: Bytes)
    requires GenerationContext(offer, answer) != []
    ensures var c := GenerationContext(offer, answer);
      && |c| == 4 + |offer| + |answer| && c[..2] == Put(|offer|, 2) && c[2..2 + |offer|] == offer
      && c[4 + |offer|..] == answer
  {
    hide Put;
    hide Fragment;
    var head := Put(|offer|, 2) + offer;
    var c := GenerationContext(offer, answer);
    assert c == head + (Put(|answer|, 2) + answer);
    assert c[..2 + |offer|] == head;
    assert c[..2] == head[..2] && c[2..2 + |offer|] == head[2..];
  }

  /** The first half of a digest of the context, zero for a refused one. */
  function GenerationId(context: Bytes, suite: Suite): Id {
    if context == [] then Zeros(16) else suite.sha(context)[..16]
  }

  // ----- Digests -----

  function HexChar(n: nat): (c: char)
    requires n < 16
    ensures HexDigit(c)
  {
    "0123456789abcdef"[n]
  }

  function Hex(s: Bytes): (t: string)
    ensures |t| == 2 * |s| && forall i :: 0 <= i < |t| ==> HexDigit(t[i])
  {
    if s == [] then "" else Hex(s[..|s| - 1]) + [HexChar(s[|s| - 1] / 16), HexChar(s[|s| - 1] % 16)]
  }

  lemma HexStep(s: Bytes, n: nat)
    requires |s| == n + 1
    ensures Hex(s)[..2 * n] == Hex(s[..n])
    ensures Hex(s)[2 * n] == HexChar(s[n] / 16) && Hex(s)[2 * n + 1] == HexChar(s[n] % 16)
  {
    hide HexChar;
  }

  lemma {:induction false} HexInjective(s: Bytes, t: Bytes)
    requires Hex(s) == Hex(t)
    ensures s == t
  {
    hide HexChar;
    assert |t| == |s|;
    if s != [] {
      var n := |s| - 1;
      HexStep(s, n);
      HexStep(t, n);
      HexInjective(s[..n], t[..n]);
      HexCharInjective(s[n] / 16, t[n] / 16);
      HexCharInjective(s[n] % 16, t[n] % 16);
      assert s == s[..n] + [s[n]] && t == t[..n] + [t[n]];
    }
  }

  lemma HexCharInjective(m: nat, n: nat)
    requires m < 16 && n < 16 && HexChar(m) == HexChar(n)
    ensures m == n
  {
  }

  /** A digest as the schema spells it. */
  function Digest(s: Bytes, suite: Suite): (d: string)
    ensures HexDigest(d)
  {
    Hex(suite.sha(s))
  }

  /** Equal digests mean equal bytes, unless the hash collides on the two. */
  lemma DigestBinds(s: Bytes, t: Bytes, suite: Suite)
    ensures Digest(s, suite) == Digest(t, suite) <==> s == t || suite.Collide(s, t)
  {
    if Digest(s, suite) == Digest(t, suite) {
      HexInjective(suite.sha(s), suite.sha(t));
    }
  }

  /** So ends that agree on the digest of a plan agree on the plan. */
  lemma PlanDigestBinds(p: Plan, q: Plan, suite: Suite)
    requires suite.ReadsBack()
    requires ControlPayload(Kind.Prepare, PlanBody(p), suite) != [] && ControlPayload(Kind.Prepare, PlanBody(q), suite) != []
    ensures var s, t := ControlPayload(Kind.Prepare, PlanBody(p), suite), ControlPayload(Kind.Prepare, PlanBody(q), suite);
      Digest(s, suite) == Digest(t, suite) && !suite.Collide(s, t) ==> p == q
  {
    hide PlanOk;
    hide Digest;
    PayloadReadsBack(Kind.Prepare, PlanBody(p), suite);
    PayloadReadsBack(Kind.Prepare, PlanBody(q), suite);
    DigestBinds(ControlPayload(Kind.Prepare, PlanBody(p), suite), ControlPayload(Kind.Prepare, PlanBody(q), suite), suite);
  }

  /** Refused fragments give the zero generation, for which nothing is encoded and nothing decodes. */
  lemma RefusedGeneration(offer: Bytes, answer: Bytes, p: Packet, data: Bytes, key: Key, domain: Domain, suite: Suite)
    requires !Fragment(offer) || !Fragment(answer)
    ensures var g := GenerationId(GenerationContext(offer, answer), suite);
      Encode(p.(generation := g), key, suite) == [] && Decode(data, key, domain, g, suite) == None
  {
    hide PayloadOk;
    hide Fragment;
  }

  /** Fragments the context admits share a generation only if the hash agrees on the first half for two contexts. */
  lemma GenerationBinds(offer: Bytes, answer: Bytes, offer': Bytes, answer': Bytes, suite: Suite)
    requires Fragment(offer) && Fragment(answer) && Fragment(offer') && Fragment(answer')
    ensures var c, d := GenerationContext(offer, answer), GenerationContext(offer', answer');
      GenerationId(c, suite) == GenerationId(d, suite)
      ==> (offer == offer' && answer == answer') || (c != d && suite.sha(c)[..16] == suite.sha(d)[..16])
  {
    hide Put;
    hide Fragment;
    var c, d := GenerationContext(offer, answer), GenerationContext(offer', answer');
    assert |c| >= 4 && |d| >= 4;
    if c == d {
      ContextInjective(offer, answer, offer', answer');
    }
  }
}
