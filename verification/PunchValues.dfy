/**
 The control messages of src/ice/punch_protocol.cpp as values: what the JSON
 schema admits, field by field.
 */
module PunchValues {
  import opened Common

  type Bytes = seq<byte>

  datatype Kind = Hello | Prepare | Ready | Start | Started | Cancel | Probe | Ack

  datatype Budget = Budget(poolSize: int, targetPorts: int, probePps: int, burstPackets: int, probeRounds: int,
                           roundMs: int, reserveMs: int, probePackets: int, controlPackets: int, promoted: int)
  {
    predicate Valid() {
      && 1 <= poolSize <= 128 && 1 <= targetPorts <= 1024 && 1 <= probePps <= 200 && 1 <= burstPackets <= 8
      && 1 <= probeRounds <= 3 && 1 <= roundMs <= 15000 && 3000 <= reserveMs <= 15000 && 1 <= probePackets <= 1024
      && 1 <= controlPackets <= 48 && 1 <= promoted <= 8
    }
  }

  datatype Sample = Sample(server: string, serverPort: int, ip: string, port: int, ageMs: int, sequence: int)

  datatype Base = Base(ip: string, port: int, socket: int, foundation: string, component: int)

  datatype Mode = PoolWide | PoolWideRetry

  datatype Offer = Offer(base: Base, samples: seq<Sample>, budget: Budget, remainingMs: int, mode: Mode)

  datatype Plan = Plan(anchorIsOffer: bool, anchorIp: string, anchorPort: int, peerIp: string, budget: Budget,
                       durationMs: int, offerHello: string, answerHello: string)

  /** A message body: one constructor for each shape the schema knows. */
  datatype Value =
    | HelloBody(hello: Offer)
    | PlanBody(plan: Plan)
    | ReadyBody(digest: string, budget: Budget)
    | DigestBody(digest: string)
    | ReasonBody(reason: string)

  const REASONS: set<string> := {
    "timeout", "state-change", "ineligible", "resources", "conflict", "disconnect", "interface-change",
    "generation-change", "budget"
  }

  /** A run of decimal digits at `i`: its value, and where it ends; at most three digits, at most 255. */
  function Octet(s: string, i: nat, n: nat, start: nat): (end: nat)
    requires start <= i <= |s|
    ensures end == 0 || i <= end <= |s|
    decreases |s| - i
  {
    if i < |s| && '0' <= s[i] <= '9' then
      var m := n * 10 + (s[i] as int - '0' as int);
      if m > 255 || i + 1 - start > 3 then 0 else Octet(s, i + 1, m, start)
    else if i == start || (i - start > 1 && s[start] == '0') then 0
    else i
  }

  /** `count` octets from `i` on, separated by dots, to the end. */
  predicate Octets(s: string, i: nat, count: nat)
    requires i <= |s| && count > 0
    decreases count
  {
    var end := Octet(s, i, 0, i);
    && end != 0
    && if count == 1 then end == |s| else end < |s| && s[end] == '.' && Octets(s, end + 1, count - 1)
  }

  predicate ValidIpv4(s: string) {
    Octets(s, 0, 4)
  }

  predicate Text(s: string, low: nat, high: nat) {
    low <= |s| <= high && '\0' !in s
  }

  predicate Address(s: string) {
    Text(s, 7, 15) && ValidIpv4(s)
  }

  predicate HexDigit(c: char) {
    '0' <= c <= '9' || 'a' <= c <= 'f'
  }

  predicate HexDigest(s: string) {
    |s| == 64 && forall i :: 0 <= i < |s| ==> HexDigit(s[i])
  }

  predicate SampleOk(s: Sample) {
    && Address(s.server) && 1 <= s.serverPort <= 65535 && Address(s.ip) && 1 <= s.port <= 65535
    && 0 <= s.ageMs <= 15000 && 0 <= s.sequence < 0x1_0000_0000
  }

  predicate OfferOk(h: Offer) {
    && h.budget.Valid() && 1 <= h.remainingMs <= 30000
    && Address(h.base.ip) && 1 <= h.base.port <= 65535 && 1 <= h.base.socket < 0x1_0000_0000_0000_0000
    && Text(h.base.foundation, 1, 32) && h.base.component == 1
    && |h.samples| <= 3 && forall i :: 0 <= i < |h.samples| ==> SampleOk(h.samples[i])
  }

  predicate PlanOk(p: Plan) {
    && Address(p.anchorIp) && 1 <= p.anchorPort <= 65535 && Address(p.peerIp) && p.budget.Valid()
    && 1 <= p.durationMs <= 15000 && HexDigest(p.offerHello) && HexDigest(p.answerHello)
  }

  /** The bodies each kind of message may carry. */
  predicate Schema(kind: Kind, v: Value) {
    match kind
    case Hello => v.HelloBody? && OfferOk(v.hello)
    case Prepare => v.PlanBody? && PlanOk(v.plan)
    case Ready => v.ReadyBody? && HexDigest(v.digest) && v.budget.Valid()
    case Start | Started => v.DigestBody? && HexDigest(v.digest)
    case Cancel => v.ReasonBody? && Text(v.reason, 1, 32) && v.reason in REASONS
    case Probe | Ack => false
  }
}
