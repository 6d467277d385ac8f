# Verified models of MiniRTC

Dafny models of the parts of MiniRTC whose correctness is hard to see from the
code, with proofs of what those parts are for. `dafny verify dfyconfig.toml`
checks everything.

## What is modelled

**Forward error correction** (`src/fec`). `GfBits` and `GF256` build GF(256)
with the polynomial 0x11d from the shift-and-xor table and prove it a field;
`RsKernels` proves the vector, word and table loops compute the plain product
byte by byte. `LinearSystem`, `RsCode` and `RsSmall` model the systematic
Reed-Solomon codec on buffers, with its in-place elimination; `FecCodec` the
encoder's checks and the incremental decoder. `RateBudget` is the time budget of
repairs. `RtpWire`, `FecTranscript`, `RtpSender` and `RtpReceiver` model the
sender that cuts RTP packets into blocks and the receiver that rebuilds lost
ones: the sender as a value with functions for its operations and an object equal
to them, the receiver as an object and the relation `Hears` it satisfies.
`FecLink` joins the two by an arbitrary schedule and proves that only packets sent
are recovered; `FecDelivery` that what can be recovered is, `FecRetention` that what
is delivered in time is kept for it, and `FecPace` that the repairs keep to the rate.
`FecShare` says what protection a frame gets, and `FecReceipt` what the receiver
keeps and reports whatever arrives, and the bytes of a repair.
The repair matrix is an arbitrary parameter shared by both ends: soundness holds for
every matrix, and only success of decoding needs non-singular submatrices.
`FecAdaptation` is the controller that chooses the protection ratio, over single
updates and over runs, and `FecWishes` what it chooses, said of the updates alone.

**The UDP punch negotiation** (`src/ice/punch_*`). `PunchValues` and
`PunchProtocol` are the messages, their schema and the packet codec, `PunchAddresses`
what the schema takes for an address; `Replay` the
replay window. `PunchMachine` gives the negotiation as functions of one
endpoint's state, `PunchNegotiation` as the object, method by method equal to
those functions. `PunchInvariant`, `PunchEffects` and `PunchRuns` prove what one
endpoint keeps over every run; `PunchSystem`, `PunchConflict` and `PunchProgress`
what two endpoints keep over a channel that loses, copies, delays and reorders.
`PunchAnswers` says of every message and of every tick of the timer what the endpoint
sends and what becomes of it.
HMAC, SHA-256 and the JSON library are the fields of a `Suite`. That tags cannot
be forged is the predicate `PunchSystem.Unforged`; that printed JSON reads back is
`Suite.ReadsBack`. No result about the negotiation needs SHA-256 to be free of
collisions; the lemmas that say what a digest binds name the collision instead.
`PunchSchedule` and `PunchBudgets` are the deadlines, the port sampling, the probe
schedule and the rate limits.

**The pacer queue and transport feedback** (`src/qos`). `QueueBooks` is the queue
as one list of packets in the order pushed; `PacketQueue` the real structure of
per-stream FIFOs, round-robin tables, top level, counters, time sum and list of
enqueue times, every method of which keeps agreeing with that list and goes where
the queue as a value, `State`, goes. `QueueRuns` proves what holds over whole runs
of that value, `QueueLimits` when its packets are dropped and `QueueOrder` which is
served next. `FeedbackTracker` is the
RFC 8888 report of one stream, over single reports and over runs.

**Connection lifecycle** (`src/pc/peer_connection.cpp`). `PeerLifecycle` takes what a
thread does under a lock as one step of the protocol as a value, and proves what
holds under every interleaving of steps; the object's methods are those steps. A
clear or a replace does not report through the worker: a replaced connection yields
no terminal status at all, and a cleared one is reported by the clearing thread.

## Where code and comments differ

The model follows the code; where a documented property fails, there is an input
for it and the exact condition under which it holds.

- The time limits of the queue are documented as how long a packet may stay in it
  (`src/qos/prioritized_packet_queue.h:33-38`). Two things break that. Only a push to
  a level, and a queue that settles, purge it: Pop serves what it finds
  (`src/qos/prioritized_packet_queue.cc:217-236`), so a packet can be popped however
  late (`QueueLimits.PoppedLate`). Every packet was within the limit at the last purge
  of its level (`QueueLimits.WithinAtLastPurge`), and stays past the limit exactly when
  no purge came after it expired (`QueueLimits.StaysUntilPurged`). And a purge compares
  the time with a push time shifted by every pause before the push, so a packet can be
  dropped after a millisecond (`QueueLimits.DroppedAtOnce`). What purges drop from now
  on is decided by the time in the queue exactly when each packet waiting was pushed
  before any pause or is past the limit already (`QueueLimits.WallLimit`,
  `QueueLimits.Stamp`), and by the unpaused time exactly when there has been no pause
  and is none, or each is past the limit already (`QueueLimits.UnpausedLimit`;
  `QueueLimits.DroppedInPause` fails it).
- `HasKeyframePackets` is documented not to count retransmissions
  (`src/qos/prioritized_packet_queue.h:100-102`); the code counts every packet flagged
  as a keyframe (`QueueRuns.RetransmissionCounts`). The answer is the documented one
  exactly when a flagged video packet of the stream waits, or no other flagged one does
  (`QueueRuns.KeyframeAnswer`), and the counter behind it exactly when no other does
  (`QueueRuns.KeyframesAreVideo`).
- `StreamQueue` stores its creation time as the last enqueue time and never
  updates it (`src/qos/prioritized_packet_queue.cc:87-88`), so an idle stream can be
  forgotten 200 ms after its last packet (`QueueRuns.ForgottenEarly`). Culling is by
  the last enqueue exactly when the stream got no packet after it was created
  (`QueueRuns.CullingIsByLastPush`).
- The tracker cites the rule of RFC 8888 that the first copy's arrival is reported
  (`src/qos/congestion_control_feedback_tracker.cc:107-112`) and reports the latest
  copy's (`FeedbackTracker.DuplicateReported`), or that of a copy that came after the
  tracker forgot the packet (`FeedbackTracker.ForgottenReported`), or that a packet
  forgotten was not received (`FeedbackTracker.ForgottenMissing`). The two agree exactly
  when the packet is in the batch or remembered, no copy in the batch arrived after the
  first, and what is remembered of the packet, if anything, goes back to a first copy
  (`FeedbackTracker.FirstCopyReported`).
- The same rule asks for the mark of the first copy to arrive, unless a copy was marked
  congestion-experienced. The code takes the first to come since the packet was last
  forgotten (`FeedbackTracker.OvertakenMarked`, `FeedbackTracker.ForgottenMarked`), and
  one that was not ECN-capable gives way to a later one that was
  (`FeedbackTracker.DuplicateMarked`). It reports the mark asked for exactly when a
  congestion mark is still known if there was one, and the mark it takes is otherwise
  that of a first arrival (`FeedbackTracker.FirstMarkReported`).

## Model

| member | source | states |
|---|---|---|
| `GfBits.ShiftXorProduct` | src/fec/rs_small.cpp:32-38 | the eight-step shift-and-xor loop computes the field product `Mul`, whose laws are proved below |
| `GfBits.Associates` | src/fec/rs_small.cpp:29-41 | the product defined by shift and xor is associative |
| `GfBits.Commutes` | src/fec/rs_small.cpp:29-41 | the product is commutative |
| `GfBits.DistributesRight` | src/fec/rs_small.cpp:29-41 | the product distributes over xor |
| `GfBits.RemainderNonZero` | src/fec/rs_small.cpp:23-24 | 0x11d is irreducible: no product of two lower-degree polynomials is a multiple of it, shown by long division |
| `GfBits.HasInverse` | src/fec/rs_small.cpp:39-40 | every non-zero element has an inverse, by descent through remainders of the polynomial |
| `GF256.BuildRow` | src/fec/rs_small.cpp:31-41 | one row of the product table and the inverse found in it: every entry is the field product, and the inverse entry is an inverse |
| `GF256.BuildNibbles` | src/fec/rs_small.cpp:42-45 | the low and high nibble tables hold the products of the nibbles |
| `GF256.BuildField` | src/fec/rs_small.cpp:29-47 | the whole table satisfies the field's validity: products, inverses of every non-zero element, nibble tables |
| `RsKernels.NibbleProduct` | src/fec/rs_small.cpp:68-77 | a product is the xor of the two nibble-table entries, by linearity |
| `RsKernels.WordXor` | src/fec/rs_small.cpp:89-92 | xor of two 64-bit words is the bytewise xor of their bytes |
| `RsKernels.MultiplyAdd` | src/fec/rs_small.cpp:56-95 | for every length, coefficient and build (with or without the 16-byte vector loop), the buffer becomes dst[i] xor c*src[i] at every i |
| `RsKernels.Scale` | src/fec/rs_small.cpp:97-119 | the same for in-place scaling: every byte becomes c*dst[i] |
| `RsSmall.EncodeSmallRs` | src/fec/rs_small.cpp:188-204 | the repairs are the matrix rows applied to the sources, byte by byte; nothing when the matrix cannot be built |
| `LinearSystem.PivotStep` | src/fec/rs_small.cpp:240-248 | one pivot column: swapping and scaling keep the solutions and the kernel and set the pivot to one |
| `LinearSystem.ClearStep` | src/fec/rs_small.cpp:249-257 | clearing the other rows keeps the solutions of the system |
| `LinearSystem.NoPivotSingular` | src/fec/rs_small.cpp:238-240 | when a column has no pivot the system has a non-zero kernel vector, given as a witness |
| `LinearSystem.ReducedSolves` | src/fec/rs_small.cpp:237-259 | a fully reduced system is solved by its right-hand sides, and by nothing else |
| `RsCode.DotSplits` | src/fec/rs_small.cpp:224-236 | a codeword's repair row splits into its known and its missing part |
| `RsCode.ExplainsIsSolving` | src/fec/rs_small.cpp:206-236 | a block explains what was received exactly when its missing symbols solve the reduced system |
| `RsSmall.Eliminate` | src/fec/rs_small.cpp:237-259 | the in-place elimination succeeds exactly when the missing-by-repair submatrix is non-singular, and then leaves the one solution |
| `RsSmall.BuildSystem` | src/fec/rs_small.cpp:224-236 | the slots of the missing symbols become the right-hand sides of the system, the other slots stay |
| `RsSmall.DecodeSmallRs` | src/fec/rs_small.cpp:206-260 | succeeds exactly when the repairs used determine the missing symbols; then the slots hold the one block that explains what was received, and every seen slot is unchanged |
| `RsCode.Ambiguous` | src/fec/rs_small.cpp:206-260 | failing is right: with enough repairs, symbols that are not empty and the gaps not determined, a block that explains what was received is never the only one; a second is built |
| `FecCodec.EncodeSymbols` | src/fec/fec_encoder.cpp:27-47 | refuses malformed shapes, returns no repairs for none wanted, the repairs of the block for the small codec, and what OpenFEC builds, if it does, for the other shapes |
| `FecCodec.FecDecoder.Reset` | src/fec/fec_decoder.cpp:46-92 | accepts exactly the admissible sizes whose codec opens, and starts with empty slots |
| `FecCodec.FecDecoder.AddSymbol` | src/fec/fec_decoder.cpp:94-127 | every result code in its order: invalid, error, duplicate, complete, accepted; and the new contents, those an OpenFEC session fills in included |
| `FecCodec.DecodedCodeword` | src/fec/fec_decoder.cpp:117-122 | a decoder fed symbols of one codeword that succeeds holds that codeword's sources |
| `FecCodec.EnoughIsDecodable` | src/fec/fec_decoder.cpp:117-122 | with at least k symbols and non-singular submatrices, decoding is determined |
| `FecCodec.ReceiveAll` | src/fec/fec_decoder.cpp:94-127 | symbols of one codeword in any order, with repeats: the decoder is complete exactly when k distinct ones came, the result is the sources, and later symbols do not change it |
| `RtpWire.HeaderOfAssembled` | src/fec/rtp_fec.cpp:24-33 | a packet put together from a fixed header, contributing sources, an optional extension and a payload (sections 5.1 and 5.3.1 of RFC 3550) has just that header's length |
| `RtpWire.Disassembled` | src/fec/rtp_fec.cpp:24-33 | and every packet the code gives a header length is put together from such parts, with a header of that length |
| `RtpWire.UnpadPad` | src/fec/rtp_fec.cpp:367-395 | the length-prefixed source symbol gives back the packet |
| `RtpWire.RepairPacketParses` | src/fec/rtp_fec.cpp:194-213 | a repair packet built on the last media packet's header parses back to its stream, private header and symbol |
| `RtpWire.RepairHeaderParses` | src/fec/rtp_fec.cpp:200-210 | the private header gives back the block numbering it was written with |
| `FecTranscript.RepairFields` | src/fec/rtp_fec.cpp:182-214 | what every repair of a sent block says: size, stream, timestamp, numbering and its codeword symbol |
| `FecReceipt.RepairLayout` | src/fec/rtp_fec.cpp:194-214 | a repair byte by byte: the last packet's header under payload type 122 and number 0, the repair stream, the letters M and F and version 1, the block's numbering and size, the first packet's stream and number, two zero bytes, the symbol |
| `FecReceipt.FieldsLie` | src/fec/rtp_fec.cpp:110-141 | where a packet's own number, timestamp, stream, payload type and marker bit lie, high byte first |
| `FecReceipt.SymbolLayout` | src/fec/rtp_fec.cpp:182-188 | a source symbol byte by byte: the packet's length in two bytes, the packet, zeros |
| `FecTranscript.SameKeySameBlock` | src/fec/rtp_fec.cpp:296-317 | with distinct keys, timestamp and first sequence number identify the block |
| `RateBudget.FecRateBudget.SetRate` | src/fec/fec_adaptation_controller.cpp:222-230 | refill, clamp, scale the credit down to a smaller rate, none at rate zero |
| `RateBudget.FecRateBudget.Consume` | src/fec/fec_adaptation_controller.cpp:231-239 | grants exactly when unset or the refilled credit covers the bytes |
| `RateBudget.GrantedBound` | src/fec/fec_adaptation_controller.cpp:213-239 | over any run of rate changes and requests, in any order of times, the bytes granted are at most 4800 plus what the rates in force accrue |
| `RateBudget.GrantedInTime` | src/fec/fec_adaptation_controller.cpp:213-239 | and for times in order that is at most 4800 plus the greatest rate set times the time from start to end |
| `RateBudget.CreditAccrues` | src/fec/fec_adaptation_controller.cpp:213-239 | while requests at most a second apart are granted nothing, the credit is exactly what was there plus an eighth of the rate a second, up to 4800 |
| `RateBudget.GrantedOnceAccrued` | src/fec/fec_adaptation_controller.cpp:213-239 | after such requests the next is granted if and only if its bytes are within 4800 and within what was there and has accrued |
| `RateBudget.LongPause` | src/fec/fec_adaptation_controller.cpp:213-221 | a longer pause accrues a second's worth and no more; time running backwards forfeits the credit |
| `RateBudget.RateSet` | src/fec/fec_adaptation_controller.cpp:222-230 | a new rate lies in [0, 10^9]; the credit is kept, kept in proportion when the rate falls, lost when it is zero |
| `RtpSender.Scaled` | src/fec/rtp_fec.cpp:87-88 | credit shrinks in proportion to a smaller ratio, and never grows |
| `RtpSender.Wanted` | src/fec/rtp_fec.cpp:168-173 | the repairs wanted are the most that are allowed: no more than four, than the share of the packets rounded up, and than the credit covers |
| `RtpSender.Afford` | src/fec/rtp_fec.cpp:174-177 | asking the rate budget repair by repair grants the longest run it can, and leaves it as that many requests would |
| `RtpSender.RtpFecSender.Flush` | src/fec/rtp_fec.cpp:148-220 | the object goes where the sender as a value does, and the repairs it returns are as many as `RepairsDue` says without that value's functions: none past either window, too large for a packet or without a codec; otherwise the packets times the smaller ratio, rounded up, a twentieth more (up to a quarter) for a keyframe given priority, limited only by four, the credit and the rate budget |
| `RtpSender.RtpFecSender.FlushExpired` | src/fec/rtp_fec.cpp:98-102 | the same for a block open for 20 ms or more; a younger one stays and nothing is returned |
| `RtpSender.RtpFecSender.Reset` | src/fec/rtp_fec.cpp:72-79 | forgets the block, the credit, the last time and the rate, and nothing else |
| `RtpSender.RtpFecSender.SetProtection` | src/fec/rtp_fec.cpp:81-96 | older configurations are ignored; newer ones are clamped into [0, 0.25] and [20, 150] ms, scale the credit by the ratios or clear it with the block, and set the rate |
| `RtpSender.RtpFecSender.AddPacket` | src/fec/rtp_fec.cpp:104-146 | the whole new state: refusal, credit earned, everything dropped across a gap, a block flushed when the packet does not continue it, when it is full and at the marker bit |
| `RtpSender.AffordableMost` | src/fec/rtp_fec.cpp:174-177 | asking the rate budget repair by repair ends with the most repairs it would have granted at once |
| `RtpSender.BlockProtected` | src/fec/rtp_fec.cpp:148-180 | what `RepairsDue` means: with both ratios positive, in time, small enough, with a working codec and both budgets paying for one, at least one repair; at least the packets times the smaller ratio unless four, the credit or the rate budget stops it; a ratio a twentieth higher, capped at a quarter, for a prioritised keyframe; and no more than rounding up gives |
| `FecShare.FrameProtected` | src/fec/rtp_fec.cpp:104-180 | a whole frame fed packet by packet (in sequence, within 20 ms, at most 16 packets, the marker bit or the sixteenth packet last) becomes one block of exactly its packets: no repair before the last packet, then as many as are due, out of the credit there was plus ratio times the frame's bytes, up to 4800; credit and pending packets from before a silence of more than a second count for nothing; the block's deadline is noted exactly when repairs come |
| `FecShare.FrameBroken` | src/fec/rtp_fec.cpp:125-141 | a packet of another stream or timestamp, out of sequence, or 20 ms after the block began, cuts the block off with the repairs due to it and begins a block of its own |
| `FecShare.NotProtected` | src/fec/rtp_fec.cpp:104-117 | a packet of another kind, over 1148 bytes or on the repair stream, and any packet while protection is off, ends the block without a repair |
| `RtpSender.FlushedKeeps` | src/fec/rtp_fec.cpp:148-220 | a flush keeps the sender's invariant: blocks are disjoint runs of the packets sent, in order and of one frame; everything emitted is a repair of one of them and fits the wire; and cost so far plus credit is at most a quarter of the bytes admitted, credit in [0, 4800] |
| `RtpSender.AddedKeeps` | src/fec/rtp_fec.cpp:104-146 | every packet added keeps it, and leaves no full block pending |
| `RtpSender.AddedGoesOn` | src/fec/rtp_fec.cpp:104-146 | adding a packet appends exactly it to what was sent, credits no more than its size, and takes back no block and no repair |
| `FecPace.FlushedPaces` | src/fec/rtp_fec.cpp:148-220 | a flush pays out of the rate budget for every repair it emits |
| `FecPace.RepairsPaid` | src/fec/rtp_fec.cpp:81-220 | over every run of the link, from any moment a rate is set and until a reset, in any order of times, the sender's repairs cost, with 64 bytes of overhead each, at most 4800 bytes plus what the rates in force accrue |
| `FecPace.RepairsInTime` | src/fec/rtp_fec.cpp:81-220 | so for a sender called in order of time they cost at most 4800 bytes plus what the greatest rate yields over the time |
| `RtpSender.BudgetSpent` | src/fec/rtp_fec.cpp:194-215 | emitting repairs the credit covers keeps cost plus credit within a quarter of the bytes admitted |
| `RtpSender.CreditEarned` | src/fec/rtp_fec.cpp:125 | admitting a packet keeps it too |
| `RtpReceiver.RunDecoder` | src/fec/rtp_fec.cpp:363-381 | feeding cached packets and stored repairs to the decoder stops at k symbols, and decides as the in-place decoder does on exactly those |
| `RtpReceiver.TryDecode` | src/fec/rtp_fec.cpp:335-398 | a block is given up, completed or left open exactly under the source's conditions, and yields its missing packets only if all of them are plausible |
| `RtpReceiver.HonestDecision` | src/fec/rtp_fec.cpp:335-398 | for a block a sender cut, what TryDecode yields is exactly the missing packets; and with non-singular matrices it yields them whenever k symbols are there |
| `RtpReceiver.RtpFecReceiver.Expire` | src/fec/rtp_fec.cpp:237-253 | exactly the entries inside the retention window stay |
| `RtpReceiver.RtpFecReceiver.Cache` | src/fec/rtp_fec.cpp:255-267 | a duplicate changes nothing, a full cache drops its oldest entry, the least numbered of several |
| `RtpReceiver.RtpFecReceiver.FindBlock` | src/fec/rtp_fec.cpp:296-317 | the repair's block is found, or opened empty, dropping from a full table its oldest block, the first in key order of several |
| `RtpReceiver.RtpFecReceiver.DecodeAll` | src/fec/rtp_fec.cpp:278-282 | every block is tried against the cache in the order of the map, and the packets reported are what they yield, one after the other |
| `RtpReceiver.RtpFecReceiver.AddPacket` | src/fec/rtp_fec.cpp:269-333 | the whole new state and the packets recovered, for media, repair and other packets, in terms of what was held before; and the log of what was reported |
| `RtpReceiver.HearsHonest` | src/fec/rtp_fec.cpp:269-333 | if the packet came from an honest sender and everything held did, then everything held afterwards does, and every packet recovered is one the sender was given |
| `RtpReceiver.RepairAtReads` | src/fec/rtp_fec.cpp:285-296 | a repair a sender built reads back as the numbering and symbol of its block |
| `RtpReceiver.HonestMedia` | src/fec/rtp_fec.cpp:278-282 | on the media stream only packets sent arrive from an honest sender |
| `FecReceipt.TakenRight` | src/fec/rtp_fec.cpp:273-295 | which packets are taken as media and which as repairs, by their bytes |
| `FecReceipt.TakesNothing` | src/fec/rtp_fec.cpp:269-333 | anything else reports nothing and leaves what is held as it was, less what is 150 ms old |
| `FecReceipt.ReportsMedia` | src/fec/rtp_fec.cpp:383-397 | whatever arrives, honest or not, a packet reported as recovered is an RTP packet of the media stream and payload type, of at most 1148 bytes, with the timestamp of a block the receiver knows and a number inside it |
| `FecReceipt.AllOrNothing` | src/fec/rtp_fec.cpp:383-397 | a block tried yields a packet for every gap, or none at all |
| `FecReceipt.HearsKeepsRecent` | src/fec/rtp_fec.cpp:237-267 | after every packet nothing held is 150 ms old, at most 512 packets and 64 blocks are held, and what left to make room came no later than anything that stayed |
| `FecLink.SoundGrows` | src/fec/rtp_fec.cpp:269-333 | what stems from a sender still does when the sender goes on |
| `FecLink.EndToEnd` | src/fec/rtp_fec.cpp:98-398 | every run of the link, under any schedule of sends, timers, configurations, resets, losses, copies and reorderings: if no two media packets share timestamp and sequence number and none uses the repair stream, every packet recovered is byte for byte one the sender was given; and always, the repairs cost at most a quarter of the media bytes and fit the wire |
| `FecLink.Exchange` | src/fec/rtp_fec.cpp:98-398 | the two objects, joined by a channel and driven by any schedule, make a run of the link and return what it recovered and emitted, so the end-to-end result holds of what they return |
| `FecDelivery.HearsSettles` | src/fec/rtp_fec.cpp:269-398 | one packet leaves every block of the table either short of symbols or served: all its packets arrived or recovered |
| `FecDelivery.Delivers` | src/fec/rtp_fec.cpp:269-398 | over every run whose packets can be told apart, with non-singular matrices, one payload type and a codec that works: once as many symbols of a block are at hand as it has packets, every one of its packets has arrived or been recovered |
| `FecRetention.HearsKeepsSources` | src/fec/rtp_fec.cpp:237-333 | while the cache does not fill, a packet heard inside the retention window leaves every packet of a block heard in it cached, itself included |
| `FecRetention.HearsKeepsRepairs` | src/fec/rtp_fec.cpp:237-333 | and every repair of the block heard in it filed, unless the block is done |
| `FecRetention.DeliversInTime` | src/fec/rtp_fec.cpp:237-398 | over every such run: as many symbols of a block as it has packets, delivered within 150 ms from when nothing is kept under its numbers, with tables that do not fill and no other packet in its slots, are at hand, so every one of its packets has arrived or been recovered |
| `FecDelivery.RecoversUnsent` | src/fec/rtp_fec.cpp:278-296 | the hypothesis about the repair stream is needed: a media packet on it that reads as the repair of a block nobody sent makes the receiver report that block's packet |
| `FecAdaptation.FecAdaptationController.Update` | src/fec/fec_adaptation_controller.cpp:113-200 | the object goes where one step of the controller as a value takes it; what that step wants for loss, congestion and feedback is said by the rows of `FecWishes` |
| `FecWishes.LossWish` | src/fec/fec_adaptation_controller.cpp:154-168 | with enough fresh feedback and no congestion the wish is a twentieth for each of the five loss bands reached (0.5, 1.5, 3, 5 and 8 in a hundred, counted in whole packets), and a twentieth more, up to a quarter, if there is loss and the round trip is 100 ms or more or three losses came in a run |
| `FecWishes.WishCovers` | src/fec/fec_adaptation_controller.cpp:157-163 | that wish is zero if and only if fewer than 0.5% are lost, and otherwise at least the loss rate or a quarter, whichever is less |
| `FecWishes.WishGrows` | src/fec/fec_adaptation_controller.cpp:157-165 | and it never falls when more is lost |
| `FecWishes.WantsForLoss` | src/fec/fec_adaptation_controller.cpp:121-168 | over every run, an update that counts wants that much when its mode is adaptive, its feedback enough and fresh, and no congestion lingers |
| `FecWishes.Decides` | src/fec/fec_adaptation_controller.cpp:121-175 | over every run, the ratio after an update that counts: off and urgency give nothing, lingering congestion at most a twentieth and never a rise, an uncongested fixed mode a quarter, poor feedback at most a tenth and never a rise |
| `FecWishes.Reads` | src/fec/fec_adaptation_controller.cpp:114-133 | which updates count, said by the updates before: urgent ones, and those 200 ms after the last that counted; and when their feedback is new |
| `FecWishes.VersionCounts` | src/fec/fec_adaptation_controller.cpp:195 | the version is the number of updates that counted |
| `FecAdaptation.RatioInRange` | src/fec/fec_adaptation_controller.cpp:113-200 | after every run the ratio is in [0, 0.25] |
| `FecAdaptation.Rises` | src/fec/fec_adaptation_controller.cpp:165-193 | over every run, an update outside fixed mode that raises the ratio ends a streak of updates that, every one that counts, wanted exactly the new ratio from fresh, sufficient feedback without congestion; no restart in between, and at least two brought feedback of a new generation |
| `FecAdaptation.Falls` | src/fec/fec_adaptation_controller.cpp:165-193 | over every run, a fall with fresh, sufficient feedback and no congestion in adaptive mode ends such a streak, and the streak has lasted 3000 ms |
| `FecAdaptation.Follows` | src/fec/fec_adaptation_controller.cpp:165-193 | and such a streak is enough: the ratio rises at the first update that counts once two brought new feedback, and falls once the streak has lasted 3000 ms besides |
| `FecAdaptation.AllocateFecBudget` | src/fec/fec_adaptation_controller.cpp:202-212 | the ratio is clamped; what is not protection is the greatest amount whose own protection still fits the clamped rate, and media payload is the given part of it rounded down |
| `Replay.ReplayWindow.Accept` | src/ice/punch_protocol.cpp:284-306 | the 256-bit window and the ring of digests judge and remember exactly as an unbounded memory of every number accepted |
| `Replay.RecordRefines` | src/ice/punch_protocol.cpp:302-305 | recording a number overwrites no digest the window can still ask for |
| `Replay.VerdictMeans` | src/ice/punch_protocol.cpp:284-306 | the verdict after any history, told without state: too old when 256 or more below the highest number that came, else fresh the first time, else duplicate exactly when the digest is that of the first arrival |
| `Replay.FreshOnce` | src/ice/punch_protocol.cpp:284-306 | a number is fresh at most once ever |
| `Replay.DuplicateRepeats` | src/ice/punch_protocol.cpp:298-301 | a duplicate repeats the bytes that first came under its number and a conflict does not, unless SHA-256 collides on the two |
| `PunchProtocol.EncodePacket` | src/ice/punch_protocol.cpp:240-259 | builds the encoding field by field; that its tag covers every byte before it is `PunchProtocol.EndsInTag`, what it binds `PunchProtocol.TagBinds` |
| `PunchProtocol.PutBytes` | src/ice/punch_protocol.cpp:15-18 | appends a big-endian number |
| `PunchProtocol.GetBytes` | src/ice/punch_protocol.cpp:19-23 | reads a big-endian number |
| `PunchProtocol.GetPut` | src/ice/punch_protocol.cpp:15-23 | reading what was written gives back the number |
| `PunchProtocol.DecodeEncode` | src/ice/punch_protocol.cpp:240-283 | decoding a non-empty encoding gives back the packet |
| `PunchProtocol.EncodeDecode` | src/ice/punch_protocol.cpp:240-283 | every byte string that decodes is exactly the encoding of its packet |
| `PunchProtocol.DecodeInjective` | src/ice/punch_protocol.cpp:260-283 | under one key no two byte strings decode to the same packet |
| `PunchProtocol.EndsInTag` | src/ice/punch_protocol.cpp:256-257 | an encoding ends in the first 16 bytes of the tag of all the bytes before them |
| `PunchProtocol.TagBinds` | src/ice/punch_protocol.cpp:256-270 | two byte strings accepted under one key that end in the same 16 bytes are equal, or the tags under that key of their two different untagged parts agree in the first 16 bytes |
| `PunchProtocol.OnlyThisPacket` | src/ice/punch_protocol.cpp:256-287 | so what is accepted with the tag of a packet sent is that packet, or such an agreement of tags |
| `PunchProtocol.WireFields` | src/ice/punch_protocol.cpp:248-257 | where every field lies on the wire, with the numbers of the eight kinds, the magic bytes and big-endian lengths, and 60 bytes beside the payload |
| `PunchProtocol.GoesOut` | src/ice/punch_protocol.cpp:239-247 | what is encoded at all: a non-zero sequence number and generation, a round exactly unless it is a HELLO, a payload of at most 1140 bytes the schema admits, or a probe's 20 bytes with a socket |
| `PunchProtocol.PayloadReadsBack` | src/ice/punch_protocol.cpp:192-224 | a body that prints is the one its text parses to, and one that does not print has no text that parses |
| `PunchProtocol.ProbeReadsBack` | src/ice/punch_protocol.cpp:225-239 | a probe with a socket survives the wire |
| `PunchProtocol.ProbePrintsBack` | src/ice/punch_protocol.cpp:225-239 | every payload that parses is the one its probe prints |
| `PunchProtocol.ContextInjective` | src/ice/punch_protocol.cpp:163-174 | different username fragments never share a generation context |
| `PunchProtocol.HexInjective` | src/ice/punch_protocol.cpp:183-191 | digests spelled in hexadecimal are equal only if their bytes are |
| `PunchProtocol.PlanDigestBinds` | src/ice/punch_protocol.cpp:183-191 | ends that agree on the digest of a plan agree on the plan, unless SHA-256 collides on the two texts |
| `PunchProtocol.GenerationBinds` | src/ice/punch_protocol.cpp:163-182 | two pairs of fragments share a generation only if half the digests of their contexts agree |
| `PunchProtocol.RefusedGeneration` | src/ice/punch_protocol.cpp:175-182 | refused fragments give the zero generation, under which nothing encodes and nothing decodes |
| `PunchAddresses.AddressSyntax` | src/ice/punch_protocol.cpp:149-163 | a text passes for an address if and only if it is four numbers below 256 in decimal without leading zeros, dotted |
| `PunchNegotiation.PunchNegotiation.Emit` | src/ice/punch_coordinator.cpp:20-30 | sends within the limit and counts it, stops when the limit is used up, refuses nothing and after the end |
| `PunchNegotiation.PunchNegotiation.Make` | src/ice/punch_coordinator.cpp:31-36 | numbers and encodes one packet |
| `PunchNegotiation.PunchNegotiation.Stop` | src/ice/punch_coordinator.cpp:57-66 | once only, and for good: a Cancel if asked for, known round and budget allow it; then nothing is pending, the keys are zero and the last hook called is the stop hook |
| `PunchNegotiation.PunchNegotiation.Await` | src/ice/punch_coordinator.cpp:37-43 | keeps a message for the retry timer and sends it |
| `PunchNegotiation.PunchNegotiation.Begin` | src/ice/punch_coordinator.cpp:44-56 | accepts exactly an idle endpoint, a near deadline, complete hooks and a printable HELLO; the same guarantees |
| `PunchNegotiation.PunchNegotiation.StartRound` | src/ice/punch_coordinator.cpp:101-105 | enters Probing and calls the start hook, once |
| `PunchNegotiation.PunchNegotiation.BeginPreparation` | src/ice/punch_coordinator.cpp:106-114 | asks the prepare hook, and goes on at once when nothing is polled |
| `PunchNegotiation.PunchNegotiation.FinishPreparation` | src/ice/punch_coordinator.cpp:115-129 | settles the digest and sends HELLO and PREPARE, or READY |
| `PunchNegotiation.PunchNegotiation.Tick` | src/ice/punch_coordinator.cpp:67-100 | deadline, polling, and the retry timer, as the machine does; when it sends, waits and gives up is said by the rows of `PunchAnswers`; the same guarantees |
| `PunchNegotiation.PunchNegotiation.Receive` | src/ice/punch_coordinator.cpp:130-242 | decoding, round check, replay check and dispatch of every message, as the machine does; what each message brings about is said by the rows of `PunchAnswers`; the object's invariant, never more packets than the limit, no hook taken back and no packet renumbered |
| `PunchNegotiation.PunchNegotiation.OnHello` | src/ice/punch_coordinator.cpp:154-192 | the first HELLO, its duplicates and its conflicts |
| `PunchNegotiation.PunchNegotiation.OnPrepare` | src/ice/punch_coordinator.cpp:193-215 | the plan is adopted only if it is the expected one |
| `PunchNegotiation.PunchNegotiation.OnReady` | src/ice/punch_coordinator.cpp:216-226 | the offer starts on a matching READY, and repeats START |
| `PunchNegotiation.PunchNegotiation.OnStart` | src/ice/punch_coordinator.cpp:227-237 | the answer starts on a matching START, and repeats STARTED |
| `PunchAnswers.HearsStarted` | src/ice/punch_coordinator.cpp:238-242 | the offer that probes and hears STARTED for its digest waits for no message any more; for another digest nothing happens |
| `PunchAnswers.StartedSettles` | src/ice/punch_coordinator.cpp:238-242 | over every run: once an offer that probes has heard STARTED of its round and digest, it probes until something stops it, and no tick of the timer before the deadline changes it or sends anything |
| `PunchAnswers.HearsCancel` | src/ice/punch_coordinator.cpp:243-246 | a Cancel of the round stops the endpoint with the reason it gives, keys zeroed and nothing sent; a copy of one is ignored |
| `PunchAnswers.HearsHelloAgain` | src/ice/punch_coordinator.cpp:154-166 | another HELLO is a conflict; the same again has an offer that waits for READY say its HELLO and PREPARE again, and is ignored otherwise |
| `PunchAnswers.HearsPrepareAgain` | src/ice/punch_coordinator.cpp:193-201 | another PREPARE of the round is a conflict; the same again is answered with READY once there is one |
| `PunchAnswers.HearsReadyAgain` | src/ice/punch_coordinator.cpp:216-225 | READY for another digest or budget is ignored; once probing, READY again is answered with START |
| `PunchAnswers.HearsStartAgain` | src/ice/punch_coordinator.cpp:227-236 | START for another digest is ignored; once probing, START again is answered with STARTED |
| `PunchAnswers.HearsReady` | src/ice/punch_coordinator.cpp:216-221 | the first READY for the plan begins the round at the offer, which sends START and sends it again in 200 ms |
| `PunchAnswers.HearsStart` | src/ice/punch_coordinator.cpp:227-233 | the first START for the plan begins the round at the answer, which sends STARTED and waits for nothing |
| `PunchAnswers.HearsHello` | src/ice/punch_coordinator.cpp:167-173 | the first HELLO at the answer is remembered and answered with its own |
| `PunchAnswers.HearsAnswer` | src/ice/punch_coordinator.cpp:167-191 | the first HELLO at the offer: no plan, an unprintable one or no round drawn stops it at once, in silence; otherwise plan and round are settled, with the digests of the two texts, and the resources asked for |
| `PunchAnswers.HearsPrepare` | src/ice/punch_coordinator.cpp:202-214 | the answer adopts plan and round of a PREPARE if and only if it is the plan it expects itself of the two HELLOs |
| `PunchAnswers.HearsNothing` | src/ice/punch_coordinator.cpp:136-152 | what does not open or belongs to another round changes nothing, what is too old or for the other end only the replay memory, and a conflict stops the endpoint |
| `PunchAnswers.BeginSays` | src/ice/punch_coordinator.cpp:44-56 | opening: exactly within 30 s of the deadline, with all hooks and a printable HELLO, which is sent and sent again in 200 ms |
| `PunchAnswers.Polls` | src/ice/punch_coordinator.cpp:73-81 | while its resources are prepared a tick asks for them: a failure stops it, success closes the preparation with HELLO and PREPARE, or with READY, each waiting 200 ms |
| `PunchAnswers.DeadlinePasses` | src/ice/punch_coordinator.cpp:67-72 | past its deadline an endpoint stops with a timeout, whether a datagram or the timer wakes it |
| `PunchAnswers.StopTells` | src/ice/punch_coordinator.cpp:57-66 | a stop tells the other end why exactly when there is a round, a packet left to send and a notice wanted |
| `PunchAnswers.DueAgain` | src/ice/punch_coordinator.cpp:82-99 | a message that is due is sent again, a PREPARE behind the HELLO, and is next due 400 ms later the first time and 800 ms later after that |
| `PunchAnswers.EarlyTicks` | src/ice/punch_coordinator.cpp:82 | over every run, ticks before a message is due, or with none waiting, change nothing, however many |
| `PunchAnswers.RetrySchedule` | src/ice/punch_coordinator.cpp:67-100 | over every run an endpoint left alone sends its message again three times, 200, 400 and 800 ms apart at the earliest, and 800 ms later a HELLO falls silent and any other message gives up |
| `PunchInvariant.ActKeeps` | src/ice/punch_coordinator.cpp:20-242 | every call keeps the endpoint's invariant: the fields fit together, every packet sent is one it numbered, the hooks called fit the state |
| `PunchEffects.ActEffects` | src/ice/punch_coordinator.cpp:130-242 | HELLO, plan, round and the start of the round are each set once, and only by a packet of the right kind and round |
| `PunchRuns.EndpointSafety` | src/ice/punch_coordinator.cpp:20-129 | over every run: prepare, start and stop at most once each, start only after prepare, never more packets than the endpoint's own HELLO allows, the wait table always indexed in range |
| `PunchRuns.StoppedIsFinal` | src/ice/punch_coordinator.cpp:57-70 | once stopped, no further call changes or does anything |
| `PunchRuns.ThreeRetries` | src/ice/punch_coordinator.cpp:84-99 | over every run the timer resends each message at most three times |
| `PunchRuns.ActSpends` | src/ice/punch_coordinator.cpp:67-100 | one call resends at most what is left, and no call gives resends back |
| `PunchSystem.Agreement` | src/ice/punch_coordinator.cpp:101-242 | two endpoints over a lossy, duplicating, reordering, unforgeable channel, every reachable state: the answer has begun only if the offer had; the offer only after the answer finished preparing; all rounds begun are of one number and one plan |
| `PunchSystem.SentIsMade` | src/ice/punch_coordinator.cpp:31-36 | a datagram one end sent opens at the other as exactly the packet it numbered |
| `PunchSystem.StartMeansBegun` | src/ice/punch_coordinator.cpp:216-237 | a START or STARTED exists only if its sender began its round |
| `PunchConflict.NoFalseConflict` | src/ice/punch_coordinator.cpp:145-152 | no schedule of losses, copies and delays makes two honest ends stop for a conflict |
| `PunchConflict.PeerHarmless` | src/ice/punch_coordinator.cpp:145-216 | whatever an honest other end sent contradicts nothing held, and is never a replay conflict |
| `PunchProgress.Completes` | src/ice/punch_coordinator.cpp:44-242 | whenever both ends can agree on a plan and print it and allow themselves four packets, some schedule takes both to probing that plan, the offer having heard STARTED; and no number of ticks of either timer before the deadline changes either end after that |
| `PunchSchedule.MakePunchDeadlines` | src/ice/punch_scheduler.cpp:229-237 | deadlines exist exactly when there is room; probing ends first, finishing exactly the reserve later, within the original deadline |
| `PunchSchedule.SamplePunchPorts` | src/ice/punch_scheduler.cpp:199-228 | an admissible count gives exactly that many ports whenever so many are left and no draw fails, else none: ascending, in 1024..65535, none excluded, and those that successive draws pick from the ports remaining, place by place |
| `PunchSchedule.Uniform` | src/ice/punch_scheduler.cpp:209-222 | of the accepted values equally many, and at least one, pick each remaining port |
| `PunchSchedule.PicksAre` | src/ice/punch_scheduler.cpp:199-236 | draws accepted at once pick, place by place, the residue each leaves of the ports remaining |
| `PunchSchedule.DealsDiffer` | src/ice/punch_scheduler.cpp:199-236 | different picks deal different ports, so every order of every choice of ports is dealt by exactly one list of picks |
| `PunchSchedule.Draw` | src/ice/punch_scheduler.cpp:211-220 | the first value below the limit within 32 attempts, and no value after a draw fails |
| `PunchSchedule.PunchRoundRobin.Commit` | src/ice/punch_scheduler.cpp:257-265 | commits exactly the target shown, moves on to the next, and starts the next pass a second after this one began or now, whichever is later |
| `PunchSchedule.PunchRoundRobin.Schedule` | src/ice/punch_scheduler.cpp:253-265 | over every run: targets in order round and round, passes at least a second apart, never more probes than passes times targets |
| `PunchBudgets.CapIsHarmless` | src/ice/punch_scheduler.cpp:240-247 | capping the time counted loses no token: the bucket refines the one without a cap |
| `PunchBudgets.PunchTokenBucket.Available` | src/ice/punch_scheduler.cpp:240-247 | refills and says whether a packet can be sent |
| `PunchBudgets.PunchTokenBucket.Take` | src/ice/punch_scheduler.cpp:248-252 | takes a packet's tokens exactly when they are there |
| `PunchBudgets.RateBound` | src/ice/punch_scheduler.cpp:238-252 | in any interval a bucket grants at most burst + rate * elapsed / 1000 |
| `PunchBudgets.GrantsExactly` | src/ice/punch_scheduler.cpp:240-253 | a packet is granted if and only if a thousand tokens are there or have come since the last time, and takes a thousand; the rest is kept up to the burst |
| `PunchBudgets.BurstGranted` | src/ice/punch_scheduler.cpp:240-253 | with the tokens for them, so many requests at once are all granted, up to the burst |
| `PunchBudgets.ProbeLimit` | src/ice/punch_scheduler.h:75-78 | what acknowledgements reserve is the most they ask for within an eighth of the budget; probes have the rest |
| `PunchBudgets.PunchProbeBudget.Take` | src/ice/punch_scheduler.h:87-96 | a grant needs attempts, probes and tokens, and costs one of each it uses; a refusal for want of tokens refills the bucket, any other leaves it alone |
| `PunchBudgets.PunchProbeBudget.NextAttempt` | src/ice/punch_scheduler.h:100-105 | starts the counts over once, and refills no token |
| `PunchBudgets.PunchProbeBudget.NeverExceedsTwoLimits` | src/ice/punch_scheduler.h:79-105 | over its life a round is granted at most two limits |
| `PunchBudgets.PunchProbeBudget.AcksKeepReserve` | src/ice/punch_scheduler.h:75-96 | while acknowledgements are within their reserve, the limit does not stop them |
| `PunchBudgets.PunchProcessBudget.Acquire` | src/ice/punch_budget.cpp:6-12 | a number never used before, none when two rounds are active |
| `PunchBudgets.PunchProcessBudget.Release` | src/ice/punch_budget.cpp:13-19 | the round no longer is active or waits |
| `PunchBudgets.DroppedIs` | src/ice/punch_budget.cpp:13-19 | the other waiters keep their order |
| `PunchBudgets.PunchProcessBudget.Take` | src/ice/punch_budget.cpp:20-35 | a round is served exactly in its turn and when the shared bucket grants; the queue, the bucket and the log of requests afterwards; at most two rounds active, one waiter each |
| `PunchBudgets.PunchProcessBudget.ProcessRate` | src/ice/punch_budget.cpp:20-35 | in any stretch of requests all rounds together are granted at most 8 packets and 200 a second |
| `PunchBudgets.ServedInTurn` | src/ice/punch_budget.cpp:24-34 | an acknowledgement goes before any probe, and a probe only from the head of the queue |
| `QueueBooks.SelectWithoutFirst` | src/qos/prioritized_packet_queue.cc:100-113 | dropping the oldest packet of one stream and level leaves every other queue alone |
| `QueueBooks.SelectPurgeStreams` | src/qos/prioritized_packet_queue.cc:427-453 | a purge takes from each stream exactly its expired head |
| `QueueBooks.WaitedLonger` | src/qos/prioritized_packet_queue.cc:306-320 | when the clock moves on every packet has waited that much longer |
| `QueueBooks.Erase` | src/qos/prioritized_packet_queue.cc:403 | erasing through the packet's iterator removes exactly its own enqueue time |
| `PacketQueue.PrioritizedPacketQueue.Dequeue` | src/qos/prioritized_packet_queue.cc:375-404 | a packet leaves stamped with exactly its unpaused wait, and every index and counter follows |
| `PacketQueue.PrioritizedPacketQueue.Purge` | src/qos/prioritized_packet_queue.cc:427-453 | the level loses its expired heads and its table the streams left empty, in place |
| `PacketQueue.PrioritizedPacketQueue.MaybeUpdateTop` | src/qos/prioritized_packet_queue.cc:406-425 | the top becomes the least level in use, purging on the way, or none |
| `PacketQueue.PrioritizedPacketQueue.UpdateAverageQueueTime` | src/qos/prioritized_packet_queue.cc:306-320 | the unpaused clock runs only while not paused, and the queue-time sum with it |
| `PacketQueue.PrioritizedPacketQueue.SetPauseState` | src/qos/prioritized_packet_queue.cc:322-325 | time up to now is counted under the old state |
| `PacketQueue.PrioritizedPacketQueue.Push` | src/qos/prioritized_packet_queue.cc:164-215 | the whole new value of the queue: the level's expired packets go, the packet joins its stream and its stream the table, clocks and tags move on, and idle streams are forgotten; all indexes keep agreeing with the simple list; the order of the kinds is said by `QueueOrder.MostUrgent`, forgetting by `QueueOrder.Forgets` |
| `PacketQueue.PrioritizedPacketQueue.Pop` | src/qos/prioritized_packet_queue.cc:217-236 | the whole new value: the head of the top level's table gives up its oldest packet, stamped with its unpaused wait, the stream rotates or retires, and the top settles; all indexes keep agreeing with the simple list |
| `PacketQueue.PrioritizedPacketQueue.RemovePacketsForSsrc` | src/qos/prioritized_packet_queue.cc:327-365 | the whole new value: exactly the stream's packets go, and it from every table |
| `PacketQueue.PrioritizedPacketQueue.HasKeyframePackets` | src/qos/prioritized_packet_queue.cc:367-373 | true exactly when a keyframe packet of the stream waits |
| `PacketQueue.PrioritizedPacketQueue.OldestEnqueueTime` | src/qos/prioritized_packet_queue.cc:294-297 | the push time of the packet pushed first |
| `PacketQueue.PrioritizedPacketQueue.AverageQueueTime` | src/qos/prioritized_packet_queue.cc:299-304 | the mean unpaused wait, rounded towards zero |
| `PacketQueue.PrioritizedPacketQueue.LeadingPacketEnqueueTime` | src/qos/prioritized_packet_queue.cc:251-259 | the clock at which the next packet of a level was pushed |
| `PacketQueue.PrioritizedPacketQueue.SizeInPackets` | src/qos/prioritized_packet_queue.cc:238 | the counter is the number of packets waiting |
| `PacketQueue.PrioritizedPacketQueue.SizeInPacketsOf` | src/qos/prioritized_packet_queue.cc:246-249 | and so for each kind of media |
| `PacketQueue.NextPacket` | src/qos/prioritized_packet_queue.cc:217-236 | the packet Pop takes: none of a more urgent level waits, and of its stream and level it was pushed first |
| `QueueOrder.LevelsOrder` | src/qos/prioritized_packet_queue.cc:36-63 | the levels are exactly this order of kinds: audio before everything, retransmissions before media, those not of video first when audio is prioritised, media and redundancy alike before padding |
| `QueueOrder.MostUrgent` | src/qos/prioritized_packet_queue.cc:36-63 | over every run, of what waits nothing goes before the packet Pop takes, and nothing of its stream that goes alike was pushed earlier |
| `QueueOrder.ServedByKind` | src/qos/prioritized_packet_queue.cc:36-63 | over every run: a packet that is not audio is served only when no audio waits, media and redundancy only when no retransmission does, padding only when nothing else does, and with audio prioritised a retransmission of video only when no other does |
| `QueueOrder.ShareLevel` | src/qos/prioritized_packet_queue.cc:36-63 | which kinds take turns: the same kind, video and redundancy, and retransmissions unless audio is prioritised and only one is of video |
| `QueueOrder.ClockRuns` | src/qos/prioritized_packet_queue.cc:306-326 | over every stretch of calls the clock packets wait by stands still while the queue is paused and runs with the time while it is not |
| `QueueOrder.Forgets` | src/qos/prioritized_packet_queue.cc:203-214 | a push forgets a stream if and only if nothing of it waits afterwards, it was created more than 500 ms ago and so was the last clearing out; nothing else does |
| `PacketQueue.PurgeLevelMeans` | src/qos/prioritized_packet_queue.cc:427-453 | a purge changes no other level and no queue without a time limit |
| `PacketQueue.SettleTops` | src/qos/prioritized_packet_queue.cc:406-425 | settling leaves the least level in use on top and the tables agreeing with the list |
| `PacketQueue.CulledKeeps` | src/qos/prioritized_packet_queue.cc:203-214 | no stream culled has a packet waiting |
| `PacketQueue.RemovedKeeps` | src/qos/prioritized_packet_queue.cc:327-365 | after a removal each table holds exactly the streams with packets at its level, once |
| `QueueRuns.AfterKeeps` | src/qos/prioritized_packet_queue.cc:164-365 | every call of the queue as a value keeps each table listing exactly the streams with packets at its level, once |
| `QueueRuns.RoundRobin` | src/qos/prioritized_packet_queue.cc:227-233 | over any run of pushes, pops, removals, pauses and the purges they bring: a stream sees no more others of its level served before it than there were streams ahead of it, until it is served or loses what it had there |
| `QueueRuns.RunInTime` | src/qos/prioritized_packet_queue.cc:164-365 | over any run in order of time, packets wait in order of push time and of stamp, and no stamp is later than its time |
| `QueueLimits.Stamp` | src/qos/prioritized_packet_queue.cc:183-190 | over any run, a packet waiting is stamped with its push time less all the pauses before its push |
| `QueueLimits.WallLimit` | src/qos/prioritized_packet_queue.h:33-38 | a purge, whenever it comes from now on, keeps of a queue exactly the packets whose time since the push is within the limit, if and only if each packet waiting was pushed before any pause or is past the limit already |
| `QueueLimits.UnpausedLimit` | src/qos/prioritized_packet_queue.cc:427-453 | and exactly those whose unpaused time is within the limit if and only if there has been no pause and is none now, or each packet waiting is past the limit already |
| `QueueLimits.TimeLimit` | src/qos/prioritized_packet_queue.cc:427-453 | both, of every stream and of every level with a limit, after every run in order of time, for the limit the level has |
| `QueueLimits.AfterHas` | src/qos/prioritized_packet_queue.cc:164-365 | one call: a packet waiting is still there if and only if the call neither takes it, as the packet popped or one of the stream removed, nor purges its level when the packet has expired |
| `QueueLimits.StaysUntilPurged` | src/qos/prioritized_packet_queue.cc:164-453 | over any run in order of time a packet waiting stays exactly until a call takes it or purges its level after it expired; so it waits on, or is popped, past the limit if and only if no purge of its level came since |
| `QueueLimits.StaysByLastPurge` | src/qos/prioritized_packet_queue.cc:397-453 | a packet no call takes stays if and only if it had not expired when its level was last purged |
| `QueueLimits.WithinAtLastPurge` | src/qos/prioritized_packet_queue.h:33-38 | after every run in order of time every packet waiting was within the documented limit when its level was last purged, by a push to it or a queue that settled, or was pushed just then |
| `QueueLimits.PoppedLate` | src/qos/prioritized_packet_queue.cc:217-236 | a run with no pause at all that fails the documented limit: a packet is popped however late, since Pop purges nothing before it serves |
| `QueueLimits.DroppedAtOnce` | src/qos/prioritized_packet_queue.cc:183-190 | a run that fails the first: after a pause as long as the limit, a packet is dropped one millisecond after its push |
| `QueueLimits.DroppedInPause` | src/qos/prioritized_packet_queue.cc:427-453 | a run that fails the second: a packet is dropped after one unpaused millisecond |
| `QueueRuns.KeyframesAreVideo` | src/qos/prioritized_packet_queue.h:100-102 | the keyframe counter counts the stream's original video packets with keyframe data, as documented, if and only if no other flagged packet of the stream waits |
| `QueueRuns.KeyframeAnswer` | src/qos/prioritized_packet_queue.h:100-102 | whether keyframe packets wait, as the queue answers it, is whether flagged video packets of the stream do if and only if one does, or no other flagged packet of it waits |
| `QueueRuns.RetransmissionCounts` | src/qos/prioritized_packet_queue.cc:90-113 | a run that fails it: a flagged retransmission alone is counted |
| `QueueRuns.CullingIsByLastPush` | src/qos/prioritized_packet_queue.cc:203-214 | over any run in order of time, forgetting a stream by its stored time is forgetting it by its last push, for every time, if and only if it got no packet after it was created |
| `QueueRuns.ForgottenEarly` | src/qos/prioritized_packet_queue.cc:203-214 | a run that fails it: a stream is forgotten 200 ms after its last packet |
| `FeedbackTracker.CongestionControlFeedbackTracker.ReceivedPacket` | src/qos/congestion_control_feedback_tracker.cc:26-61 | the whole new value: a packet older than the last report moves the next one back to it; history keeps the earliest arrival and any congestion mark of its packet, drops only the packet remembered first when full, and leaves every other entry alone |
| `FeedbackTracker.CongestionControlFeedbackTracker.ReportOn` | src/qos/congestion_control_feedback_tracker.cc:81-129 | one number's report: its offset is that of the latest arrival known in batch and history, or none when there is none; its mark congestion if any copy known had it, else the remembered mark, else that of an earliest copy in the batch |
| `FeedbackTracker.CongestionControlFeedbackTracker.AddPacketsToFeedback` | src/qos/congestion_control_feedback_tracker.cc:63-132 | the reports run without a gap from one past the last reported to the highest received, each as above and for the stream of the first packet; nothing waits afterwards |
| `FeedbackTracker.NextReport` | src/qos/congestion_control_feedback_tracker.cc:26-39 | over every run the next report starts one past the last one, or at the lowest number that has come since if that is lower, and so covers all that has come |
| `FeedbackTracker.FewRemembered` | src/qos/congestion_control_feedback_tracker.cc:41-50 | while no more than 16384 different packets have come, every one of them is remembered |
| `FeedbackTracker.Remembers` | src/qos/congestion_control_feedback_tracker.cc:39-58 | over every run, what is remembered of a packet is the first arrival of its copies since the tracker last forgot it, whether one of them was marked, and otherwise the mark of the first to come |
| `FeedbackTracker.FirstCopyReported` | src/qos/congestion_control_feedback_tracker.cc:107-122 | over every run, the offset reported is that of the first copy that ever arrived, as section 3.1 of RFC 8888 asks, if and only if the packet is in the batch or remembered, no copy in the batch arrived after the first and, if the packet is remembered, a first copy came since it was last forgotten |
| `FeedbackTracker.RememberedWhole` | src/qos/congestion_control_feedback_tracker.cc:39-58 | while a packet has not been forgotten since it first came, what is remembered is the least arrival of all its copies, and congestion exactly if any was so marked |
| `FeedbackTracker.RememberedReported` | src/qos/congestion_control_feedback_tracker.cc:107-122 | and then it is reported as received, with the first copy's offset if and only if no copy in the batch arrived after it, and as congested exactly if any copy was |
| `FeedbackTracker.CongestionReported` | src/qos/congestion_control_feedback_tracker.cc:99-121 | in general congestion is reported exactly if a copy in the batch was so marked, or one that came since the packet was last forgotten |
| `FeedbackTracker.FirstMarkReported` | src/qos/congestion_control_feedback_tracker.cc:97-105 | over every run, every report that can be made shows the mark section 3.1 asks for, of all copies that ever came, if and only if: a copy marked congestion-experienced, if any came, is in the batch or came since the packet was last forgotten; else the first to come since then, if ECN-capable, is marked as a first arrival was; else every earliest copy of the batch is; else, with none, a first arrival was not ECN-capable |
| `FeedbackTracker.DuplicateReported` | src/qos/congestion_control_feedback_tracker.cc:107-122 | a run that fails the rule on arrivals: a duplicate 40 ms later is what is reported |
| `FeedbackTracker.ForgottenReported` | src/qos/congestion_control_feedback_tracker.cc:45-51 | another: a packet followed by more new ones than the tracker remembers is forgotten, and a later duplicate is reported as its first copy, however late |
| `FeedbackTracker.ForgottenMissing` | src/qos/congestion_control_feedback_tracker.cc:45-51 | another: a packet received, reported and forgotten lies in the report that an older and a newer one bring, and is reported as not received |
| `FeedbackTracker.DuplicateMarked` | src/qos/congestion_control_feedback_tracker.cc:97-105 | a run that fails the rule on marks: the first copy was not ECN-capable and a duplicate after the report was, and the duplicate's mark is reported |
| `FeedbackTracker.OvertakenMarked` | src/qos/congestion_control_feedback_tracker.cc:97-105 | another: of two copies the second to come was the first to arrive, and the mark of the first to come is reported |
| `FeedbackTracker.ForgottenMarked` | src/qos/congestion_control_feedback_tracker.cc:45-51 | another: the first copy, even one marked congestion-experienced, is forgotten, and the mark of a later duplicate is reported |
| `PeerLifecycle.PeerConnection.Queue` | src/pc/peer_connection.cpp:712-728 | the connection current for its user, and no other, is queued while the worker runs, under both locks; the map lock stays held |
| `PeerLifecycle.PeerConnection.Erase` | src/pc/peer_connection.cpp:729-743 | and then leaves the map, owed a report |
| `PeerLifecycle.PeerConnection.Replace` | src/pc/peer_connection.cpp:755-791 | a new connection takes the user's place |
| `PeerLifecycle.PeerConnection.Clear` | src/pc/peer_connection.cpp:793-822 | everything current leaves the map at once |
| `PeerLifecycle.PeerConnection.WorkerStep` | src/pc/peer_connection.cpp:1456-1498 | the worker's turn: cleanup first even while stopping, then exit, then work; releasing, and a leave that needs the map lock, are steps of their own |
| `PeerLifecycle.PeerConnection.JoinWorker` | src/pc/peer_connection.cpp:1500-1509 | the join returns once the worker is gone, and not before |
| `PeerLifecycle.AllReleased` | src/pc/peer_connection.cpp:1470-1509 | under every interleaving: when the join has returned, every connection ever retired was released, and none is retired after that |
| `PeerLifecycle.ReportedOnce` | src/pc/peer_connection.cpp:666-822 | under every interleaving a connection is reported at most once, never while current, never if replaced; and every connection made is current, replaced, owed a report or reported |
| `PeerLifecycle.RetiredIsOff` | src/pc/peer_connection.cpp:712-745 | under every interleaving a retired connection is off the map unless its own thread is still erasing it |
| `PeerLifecycle.Drains` | src/pc/peer_connection.cpp:1456-1509 | told to stop with no erasure under way, a worker left alone is gone after a bounded number of turns, with all retired connections released |
| `PeerLifecycle.TerminalCallback` | src/pc/peer_connection.cpp:664-679 | however threads interleave, a terminal callback of the current connection hands it to the worker, takes it off the map, and is reported; and once the worker has had the stated number of turns the connection is released |
| `PeerLifecycle.RetiredReleased` | src/pc/peer_connection.cpp:1470-1498 | any retired connection is released once the worker has had that many turns in which it need not wait for the map, whatever else goes on |
| `PeerLifecycle.LateCallback` | src/pc/peer_connection.cpp:712-745 | a terminal callback of a connection that is not current, or after the worker was stopped, changes nothing |
| `PeerLifecycle.LeavesProcessed` | src/pc/peer_connection.cpp:1517-1549 | left alone, a running worker takes each user who left off the map, in two turns each, and owes a report for the connection there was; nobody else is touched |
| `PeerLifecycle.Interleave` | src/pc/peer_connection.cpp:652-697 | the object, driven by any interleaving of callbacks, leave, disconnect, replace, clear, worker turns, stop and join, goes exactly where the protocol goes |

## Left out

- OpenFEC: foreign code; for blocks beyond 16 sources or 4 repairs its answers are parameters of encoder and decoder, and nothing is promised about them.
- The construction of the repair matrix: foreign code; the matrix is a parameter, `None` where building it fails.
- The legacy pointer-array API, null pointers and out-parameter aliasing of the encoder.
- Statistics counters of the FEC sender, receiver and decoder, and log lines.
- NaN and rounding of doubles: ratios, credits and rates are reals.
- 64-bit overflow of times, token products and byte counters: they are unbounded integers.
- FecDecoder.AddSymbol: symbol buffers are values copied in and out around the in-place routine, so reuse of buffers across resets is not captured.
- FecRetention.DeliversInTime: that the tables do not fill and no other packet takes a slot of the block is said of what the receiver holds, not of how many packets a schedule delivers.
- FecFeedbackTracker: sample windows and loss runs feed the controller as given numbers.
- SDP attribute scanning, media codecs, frames and every estimator.
- The JSON text syntax, duplicate keys and nesting depth: reading and writing JSON are parameters.
- MakePunchPlan, PunchHello and the classification of NAT mappings: the plan hook is an arbitrary function of the two HELLOs, the same at both ends.
- PunchMachine hooks: a hook may stop the negotiation from inside prepare, poll or start, as the runtime's do; a stop from inside the remote-HELLO, plan or random-round hook is not modelled, since the runtime's never do that.
- PunchNegotiation.PunchNegotiation.Receive: the original's fields are gathered into small records, which changes no value.
- PunchRuntime: sockets, candidates and interface checks depend on libnice.
- Locking of the process budget: each call is one atomic step.
- PunchBudgets.PunchProcessBudget.Take: nothing is promised to a waiter behind one that stopped asking, as in the source.
- PunchSchedule.SamplePunchPorts: sorting the sample is an insertion sort here.
- PacketQueue.PrioritizedPacketQueue.Push: streams are values in the map keyed by SSRC and tables hold SSRCs, where the original holds addresses of streams; the enqueue-time node is added after the purge, which never looks at it.
- QueueRuns.RoundRobin: it counts turns of one level; that a less urgent level is ever served is not promised, as in the source.
- LeadingPacketEnqueueTimeForRetransmission and SizeInPayloadBytes: they would only add easy members.
- FeedbackTracker.CongestionControlFeedbackTracker.AddPacketsToFeedback: sequence numbers come unwrapped; the unwrapper of 16-bit numbers is not part of this model.
- PeerLifecycle.PeerConnection.Report: direct connections, session reports, tickets and the set of connected peers are left out; connections released by the thread that cleared or replaced them are not tracked.
- NACK requester, data channels, ICE agent, logging and configuration files.
