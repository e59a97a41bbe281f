# Verification of the Micelio node

Micelio is a peer-to-peer gossip node: nodes keep encrypted connections to each other, tell each other about further
nodes, and flood signed chat messages through the mesh to the partyline of every node. This project models the
protocol logic of one node and of a network of them in Dafny and proves what the protocol is for: that messages reach
everyone exactly once and die out, that identities are bound to keys, that limits are kept, and that what is written
to a connection is what is read from it. `dafny verify dfyconfig.toml` checks everything.

## How it is built

Objects that the program updates in place are classes (`SeenCache`, `KeyRing`, `RateLimiter`, `Engine`, `PeerTable`,
`PeerMap`, `NoiseConn`, `Peer`, and the hub with its `Session`s). Every method is proved against a function of the old
state; the theorems about whole runs are about those functions.

- **Base**: `Options`, `Arithmetic`, `ByteStrings` (big-endian and hexadecimal text), `Sequences`, `Crypto` (an
  injective hash, an arbitrary signature relation that accepts what it signed; results about forgery say what they assume), `Envelopes`.
- **One engine**: `SeenCaches`, `KeyRings`, `RateLimiters`, `TokenBucket` (whole-trace theorems of the limiter),
  `Gossip` (what HandleIncoming decides and changes), `Engines` (the class), `EngineThreads` (concurrent calls, one
  lock or counter at a time), `EngineLimiter` (the limiter under them).
- **The network**: `Network` (engines, copies in flight, a history), `NetworkSafety`, `NetworkTraffic`,
  `NetworkCoverage`, `NetworkTightness`, `NetworkExpiry`, `NetworkRates`, `NetworkRetry`, `NetworkClock`,
  `NetworkQuiescence`, `NetworkAuthenticity`. A call that gets past the limiter is two steps, so that calls for other copies overlap it. An
  event carries every choice the system makes: who hears next, what is lost, which peers a relay picks, which
  connections change. A state is reachable if some sequence of enabled events leads to it from fresh engines with any
  peers.
- **Peers**: `PeerTables` and `PeerMerge`, `PeerStore` (what a restart brings back), `KeyBinding`, `Connections` (handlers interleaving at the peers map),
  `SimultaneousDial` (two nodes dialing each other), `DialScheduler` and `DialTasks` (backoff, the discovery loop and
  the tasks it starts), `DialPolicy` (whom it dials and when, over its runs).
- **A connection**: `Frames`, `NoiseConns`, `Hello` (two honest ends over a reliable channel).
- **The partyline**: `Partyline` (the hub, its clients and their bounded queues as a step system),
  `PartylineAudience` (who hears what) and `PartylineHubs` (the hub as an object, one method for each case of its event
  loop).

Time is monotone, because both caches read the clock inside their lock. Tokens and times are reals, counters are unbounded
naturals. `rand.Shuffle` is any permutation and map iteration is in any order.

## Where a property needs a condition

- Every undisturbed broadcast in every mesh of N nodes is covered if and only if N is at most MaxHops + 1
  (`NetworkTightness.CoverageIsExact`, for every hop count; no hop counts as one, because a copy is accepted however
  few hops it has left; and with a fanout of 0 a mesh is a star, which is always covered). Being within MaxHops links
  of the originator is not enough: with a fanout of at least 2, for every larger N, there is a run in which a slow
  short path loses to a fast long one and a node two links away hears nothing
  (`NetworkTightness.CoverageNeedsNodeBound`).
- Eviction of idle buckets cannot be observed if and only if the burst is at least one token
  (`TokenBucket.EvictionInvisible`), because the first call of a sender is granted without looking at the burst. The
  default burst is 20.
- Batches of peer records commute if and only if no node gets two best entries of the same time, newer than the record
  held, with different addresses (`PeerMerge.MergesCommute`).
- LastSeen survives an exchange if and only if it is not negative (`PeerTables.LastSeenRoundTrip`); a hello overwrites it.
- The sign data has no length prefixes: it determines the signed fields if and only if the lengths of the two
  identifiers agree (`Envelopes.SignDataDeterminesFields`, `Envelopes.SignDataBoundaryMoves`).
- What a node accepts as somebody's message is what that sender signed (`NetworkAuthenticity.AcceptedWasSigned`), given
  that nobody forges and that identifiers have fixed lengths, as the node's own have.
- A dial task is for a node that is not connected, unless the connections change after the selection, which releases the
  lock (`DialPolicy.TaskIsForUnconnected`).
- A restart brings back exactly the table that was stored, given that its records have an id, a key bound to it or none,
  and an address that can be dialed or none (`PeerStore.LoadRestoresTable`).
- Deduplication alone does not end a message's travels, although docs/architecture.md:287 puts it down to the seen
  cache: entries expire, and a node accepts a message once more for each time it has forgotten it (`NetworkExpiry.AcceptancesCountEvictions`);
  `NetworkExpiry.ExpiryAllowsSecondAcceptance` is a run in which that happens to a single broadcast. The hop count
  ends it, and the call bound of `NetworkTraffic.DefaultCallBound` holds with any evictions.
- A bad signature is final for the envelope but not for its id; an unknown sender or a spent rate is not final
  (`NetworkRetry`).
- The limiter counts calls, not messages: a token is spent before the test-and-set decides whether the call is the
  first of its id, so overlapping copies of one message each spend one. No run with at most n calls of a sender at the
  limiter refuses one if and only if n is at most 1 or at most the burst, 20 by default
  (`EngineLimiter.BurstIsExactForCalls`). Two messages can be too many (`EngineLimiter.OverlapStarvesMessage`), and
  the messages accepted say nothing of the tokens left (`EngineLimiter.AcceptancesDoNotMeasureTokens`). In the network
  a sender is never refused at a node if its messages times the node's peers are at most the burst
  (`NetworkRates.NeverLimitedWithinBurst`).
- Two nodes that dial each other at once keep one connection if and only if both have room and neither refuses the
  second connection while the first, closed by the other node, is still in its map
  (`SimultaneousDial.OneSurvivesExactly`). Otherwise both connections are closed (`SimultaneousDial.BothDie`), which
  docs/protocol/connection.md:122 does not mention.

## Model

| member | source | states |
|---|---|---|
| `ByteStrings.BigEndianRoundTrip` | internal/transport/frame.go:24-26 | a fixed-width big-endian integer that fits reads back as itself |
| `ByteStrings.FromBigEndianRoundTrip` | internal/transport/frame.go:40-50 | every byte string is the encoding of exactly the integer it decodes to |
| `ByteStrings.BigEndianAt` | internal/transport/frame.go:24-26 | place i of a w-byte integer holds its digit of weight 256^(w-1-i): the most significant byte comes first |
| `ByteStrings.HexRoundTrip` | internal/transport/discovery.go:138 | hexadecimal key text decodes to the key it was made from |
| `ByteStrings.HexDigitsAt` | internal/transport/discovery.go:138 | each byte is two lower-case digits, the high one first |
| `Crypto.NodeIdDeterminesKey` | internal/transport/peer.go:366-371 | with an injective hash a node id has one key |
| `Envelopes.EnvelopeSignData` | pkg/proto/envelope.go:34-46 | the appended buffer is the concatenation of the signed fields in order |
| `Envelopes.SignEnvelope` | pkg/proto/envelope.go:14-20 | signs the sign data, or clears the signature for a key of the wrong size |
| `Envelopes.VerifyEnvelope` | pkg/proto/envelope.go:23-31 | key and signature sizes first, then the signature over the sign data |
| `Envelopes.SignThenVerify` | pkg/proto/envelope.go:14-31 | a signed envelope verifies under the matching public key exactly when the private key has the right size |
| `Envelopes.VerifiedMeansSigned` | pkg/proto/envelope.go:23-46 | if nobody forges, an envelope that verifies is of the right sizes and carries, in every signed field, what the owner of the key has signed; the signed bytes are written out |
| `Envelopes.AlteredIsRefused` | pkg/proto/envelope.go:14-46 | an envelope with the id and signature of a signed one verifies exactly if payload, type, timestamp and sender are the signed ones |
| `Envelopes.RelayingKeepsSignature` | pkg/proto/envelope.go:9-13 | changing hop count and sender key changes the verdict under no key |
| `Envelopes.SignDataDeterminesFields` | pkg/proto/envelope.go:34-46 | equal sign data means equal signed fields if and only if the identifier lengths agree |
| `Envelopes.SignDataBoundaryMoves` | pkg/proto/envelope.go:36-37 | a byte can move between the identifiers without changing the sign data |
| `SeenCaches.SeenCache.Has` | internal/gossip/seen.go:25-30 | tells whether an id is present |
| `SeenCaches.SeenCache.Check` | internal/gossip/seen.go:35-43 | test-and-set: tells whether the id was present, and a present id keeps its first time |
| `SeenCaches.SeenCache.Cleanup` | internal/gossip/seen.go:66-75 | removes exactly the entries older than the TTL, in any iteration order |
| `KeyRings.KeyRing.Add` | internal/gossip/keyring.go:43-54 | inserts, or replaces only an entry of strictly weaker trust |
| `KeyRings.KeyRing.Lookup` | internal/gossip/keyring.go:57-62 | the entry, or none |
| `KeyRings.KeyRing.Remove` | internal/gossip/keyring.go:65-69 | removes exactly that entry |
| `KeyRings.RingOfOffers` | internal/gossip/keyring.go:40-54 | after any bound offers the ring holds exactly the ids offered, each at the strongest trust ever offered, under a key bound to it |
| `KeyRings.RingIndependentOfOrder` | internal/gossip/keyring.go:40-54 | bound offers reach the same ring in every order and with any repetition |
| `KeyRings.UnboundOffersDependOnOrder` | internal/gossip/keyring.go:47-50 | without binding the order decides which key is kept |
| `RateLimiters.RateLimiter.Allow` | internal/gossip/ratelimit.go:32-59 | answer and new buckets: unconditional first grant, refill up to the burst, one token per grant |
| `RateLimiters.RateLimiter.Cleanup` | internal/gossip/ratelimit.go:75-84 | removes exactly the senders idle for more than five minutes |
| `TokenBucket.EvictionInvisible` | internal/gossip/ratelimit.go:32-84 | every monotone trace answers as the same trace without cleanups, if and only if the burst is at least one token |
| `TokenBucket.EvictionVisibleBelowOneToken` | internal/gossip/ratelimit.go:38-58 | below one token a three-call trace shows the eviction |
| `TokenBucket.WindowBound` | internal/gossip/ratelimit.go:46-58 | in any window of any trace a sender's grants are at most burst plus rate times elapsed time |
| `TokenBucket.WindowBoundNeedsOneToken` | internal/gossip/ratelimit.go:38-43 | the bound holds of the first call if and only if the burst is at least one token |
| `TokenBucket.BurstIsExact` | internal/gossip/ratelimit.go:32-59 | n calls of a sender are granted in every trace if and only if n is at most 1 or at most the burst |
| `Sequences.Shuffle` | internal/gossip/gossip.go:307-309 | an in-place shuffle with any choices is a permutation |
| `Sequences.RandomChoice` | internal/gossip/gossip.go:305-311 | a shuffle cut to k leaves min(k, n) distinct elements of the original |
| `Gossip.TwoStepsMakeOneCall` | internal/gossip/gossip.go:141-231 | a call that nothing comes between accepts exactly if it gets past the limiter and the test-and-set, and changes what the two steps change |
| `Gossip.RefusalLeavesUnseen` | internal/gossip/gossip.go:207-219 | unknown sender, bad signature and rate limit leave the seen cache as it was, without the id |
| `Gossip.AcceptedMeansAuthentic` | internal/gossip/gossip.go:178-205 | accepted means signed under a key bound to the claimed sender; handling keeps the ring bound |
| `Gossip.MalformedExactly` | internal/gossip/gossip.go:142-166 | exactly the envelopes with an id outside 1 to 128 bytes or a payload over 65536 bytes are malformed; they change nothing and go nowhere |
| `Gossip.UnsignedIsDropped` | internal/gossip/gossip.go:199-205 | an unseen envelope with fields that its known sender never signed is refused for its signature, changes nothing at all and is relayed to nobody |
| `Gossip.UnknownSenderExactly` | internal/gossip/gossip.go:178-197 | a sender is unknown exactly if it has no key here and brings none that hashes to its id; a key it brings is learned at the weakest trust, whatever becomes of the envelope |
| `Engines.SentAllAt` | internal/gossip/gossip.go:268-272 | sending to distinct peers appends one copy to exactly the chosen channels with room |
| `Engines.TakenCountsGrowth` | internal/gossip/gossip.go:316-326 | the sends counted are as many as the channels that grow |
| `Engines.Engine.constructor` | internal/gossip/gossip.go:78-90 | a fresh engine has the default parameters and empty state |
| `Engines.Engine.GetPeers` | internal/transport/manager.go:352-364 | every connected peer once, in any order |
| `Engines.Engine.Send` | internal/transport/peer.go:162-170 | a full channel refuses and keeps its contents, else the copy is appended |
| `Engines.Engine.SendEach` | internal/gossip/gossip.go:316-320 | the number of sends is the number of targets whose channel had room |
| `Engines.Engine.SelectTargets` | internal/gossip/gossip.go:292-311 | min(fanout, candidates) distinct connected peers, never the excluded one |
| `Engines.Engine.ForwardTo` | internal/gossip/gossip.go:291-331 | queues and the forwarded and dropped counters after forwarding to such a choice |
| `Engines.Engine.Broadcast` | internal/gossip/gossip.go:254-287 | marks the id, offers the envelope to every connected peer and counts both outcomes |
| `Engines.Engine.Screen` | internal/gossip/gossip.go:142-219 | the checks in their order give the specified verdict and leave what the earlier ones changed |
| `Engines.Engine.Deliver` | internal/gossip/gossip.go:221-231 | counts, and runs the handler registered for the type, if any |
| `Engines.Engine.HandleIncoming` | internal/gossip/gossip.go:141-247 | verdict, handler calls, queues and whole state after one envelope, the relayed copy one hop shorter |
| `Network.ClearOutcome` | internal/gossip/gossip.go:207-212 | what one call at the limiter changes in the network, and that nothing else changes |
| `Network.HandleOutcome` | internal/gossip/gossip.go:141-247 | what handling one copy changes in the network, field by field, and that nothing else changes |
| `Network.AcceptInTwoSteps` | internal/gossip/gossip.go:207-247 | the two steps of an accepting call, one right after the other, mark the id, spend a token and relay |
| `NetworkSafety.HopLedger` | internal/gossip/gossip.go:233-246 | in every reachable state a copy in flight is a broadcast envelope but for its hop count, hops left plus edges travelled is the broadcast's hops plus one, and it verifies under exactly the keys its broadcast does |
| `NetworkSafety.AttemptsAreCounted` | internal/gossip/gossip.go:264-326 | in every reachable state broadcast, forwarded and dropped counters add up to the send attempts, and delivered never exceeds received |
| `NetworkSafety.SeenIsRemembered` | internal/gossip/seen.go:35-75 | the seen ids are exactly those accepted or broadcast here and not evicted since |
| `NetworkSafety.KeysBoundStep` | internal/gossip/gossip.go:178-197 | every step keeps all keyrings bound |
| `NetworkSafety.ReachableIsSafe` | internal/gossip/gossip.go:141-331 | ledger, counters, seen caches and keyrings are right in every reachable state |
| `NetworkAuthenticity.OnlyVettedTravels` | internal/gossip/gossip.go:142-219 | in every reachable state whatever was accepted anywhere or relayed at least once is within the limits, of a type the engine handles, and verifies under a key that hashes to its sender |
| `NetworkAuthenticity.AcceptedWasSigned` | internal/gossip/gossip.go:178-219 | end to end: if nobody forges, whatever any node accepts as a message of a key's owner is in every signed field an envelope that the owner signed |
| `NetworkAuthenticity.OutsideLimitsIsDropped` | internal/gossip/gossip.go:142-166 | a copy outside the limits can only be dropped, without a change to any engine |
| `NetworkTraffic.WeightIsGeometric` | internal/gossip/gossip.go:305-311 | the weight of a copy is the geometric series of the fanout |
| `NetworkTraffic.HandleLosesWeight` | internal/gossip/gossip.go:233-246 | each handled copy removes more weight of its message than its relays add |
| `NetworkTraffic.CallsBoundedByBroadcasts` | internal/gossip/gossip.go:141-331 | handler calls so far plus weight in flight never exceed the weight broadcast, whatever is evicted |
| `NetworkTraffic.DefaultCallBound` | internal/gossip/gossip.go:20-24 | with the defaults a broadcast taken by d peers causes at most d * (3^10 - 1) / 2 calls |
| `NetworkTraffic.AcceptedAtMostOnce` | internal/gossip/gossip.go:214-222 | without eviction no node accepts a message twice, and its one originator never does |
| `NetworkTraffic.LinearTraffic` | internal/gossip/gossip.go:264-326 | after a broadcast, and without eviction, all send attempts number at most the peers the originator had plus fanout times the other nodes; the originator's own are exactly one for each of its peers |
| `NetworkCoverage.SmallDegreeReachesAll` | internal/gossip/gossip.go:294-311 | a relay of at most fanout + 1 peers sends to all but the one it heard from |
| `NetworkCoverage.RememberedExactly` | internal/gossip/seen.go:32-43 | without eviction a node remembers exactly what it accepted or broadcast |
| `NetworkCoverage.Coverage` | internal/gossip/gossip.go:141-331 | in a static connected mesh of at most hops + 1 nodes (two for no hops) an undisturbed broadcast, once nothing is in flight, was accepted by every other node exactly once and by the originator never |
| `NetworkRates.GrantedInWindow` | internal/gossip/ratelimit.go:46-58 | in every part of every run a node grants one sender at most burst plus rate times time tokens |
| `NetworkRates.AcceptedInWindow` | internal/gossip/gossip.go:207-222 | in every part of every run a node accepts at most burst plus rate times time of one sender's messages, and one more for each call that held its token when the part began |
| `NetworkRates.NeverLimitedWithinBurst` | internal/gossip/gossip.go:207-219 | if a sender's messages times the nodes that may send them to a node are at most the burst, or one, no call for them is refused for the rate, however the calls for their copies overlap |
| `NetworkRates.CoverageWithinBurst` | internal/gossip/gossip.go:141-331 | coverage with no assumption on the limiter, where the sender's messages times the peers of any node are at most the burst, or one |
| `NetworkTightness.CoverageNeedsNodeBound` | internal/gossip/gossip.go:233-246 | for every hop count and every number of nodes above hops + 1 a reachable quiescent state has a node that never heard, all other hypotheses of coverage holding; with fanout 2 or more it is two links from the originator |
| `NetworkTightness.CoverageIsExact` | internal/gossip/gossip.go:141-331 | for every message, fanout and N: every undisturbed broadcast in every mesh of N nodes is covered if and only if N is at most hops + 1 (two for no hops) or the fanout is 0 |
| `NetworkExpiry.AcceptancesCountEvictions` | internal/gossip/seen.go:35-75 | in every run a node's acceptances and fresh broadcasts of a message are as many as its evictions of it, and one more while it remembers it |
| `NetworkExpiry.ExpiryAllowsSecondAcceptance` | internal/gossip/seen.go:66-75 | for every message of at least two hops, a run with one broadcast of it and a node that accepts it twice, its entry having expired once |
| `NetworkRetry.AcceptedExactly` | internal/gossip/gossip.go:142-219 | in every reachable state exactly the well-formed, genuine, unremembered envelopes with a token are accepted |
| `NetworkRetry.RetryIsExact` | internal/gossip/gossip.go:178-219 | after a refusal for sender, signature or rate and any events, a retry is accepted if and only if the id is not remembered, the ring holds a verifying key and the limiter grants |
| `NetworkRetry.BadSignatureIsFinal` | internal/gossip/gossip.go:199-205 | an envelope refused for its signature is refused for it again at any later time while its id is unseen, and never accepted |
| `NetworkRetry.ProperlySignedAfterBadSignature` | internal/gossip/gossip.go:199-219 | after that a properly signed envelope of the same id and sender is accepted exactly when the id is not remembered and the limiter grants |
| `NetworkRetry.RateLimitedRetry` | internal/gossip/gossip.go:207-219 | after a refusal for the rate and any events, only the id and the limiter decide about a retry |
| `NetworkRetry.TimeBringsTokens` | internal/gossip/ratelimit.go:46-58 | over any run the limiter grants once the time passed, up to the burst, is worth one token more than it has granted the sender since |
| `NetworkRetry.RateGivesWay` | internal/gossip/gossip.go:207-219 | by then a rate-limited envelope is accepted on a retry exactly if its id is not remembered |
| `NetworkClock.NeverEvictedInFirstTtl` | internal/gossip/seen.go:66-75 | from a state in which nobody has broadcast a message, no run evicts it before the TTL is over |
| `NetworkClock.AcceptedOnceInFirstTtl` | internal/gossip/seen.go:32-43 | exactly-once for the first TTL, with no assumption about eviction |
| `NetworkClock.LinearTrafficInFirstTtl` | internal/gossip/gossip.go:264-326 | linear traffic for the first TTL after the broadcast, with no assumption about eviction |
| `NetworkClock.CoverageInFirstTtl` | internal/gossip/gossip.go:141-331 | coverage for the first TTL, with no assumption about eviction or the limiter, for a sender within its burst |
| `NetworkQuiescence.TravelsEnd` | internal/gossip/gossip.go:141-331 | calls for the copies of a message alone leave none in flight, in at most twice their weight of steps |
| `NetworkQuiescence.CallsRunOut` | internal/gossip/gossip.go:233-246 | every run of such calls, in any order and overlapping, ends within that bound |
| `NetworkQuiescence.CoverageIsReached` | internal/gossip/gossip.go:141-331 | at any time after an undisturbed broadcast of a sender within its burst, at most that many steps lead to every node having accepted it exactly once |
| `EngineThreads.PassesAreSeparated` | internal/gossip/seen.go:35-43 | under every interleaving two passes of Check for one id are more than the TTL apart |
| `EngineThreads.HandlerRunsAreSeparated` | internal/gossip/gossip.go:214-231 | two handler runs for one message stem from passes more than the TTL apart |
| `EngineThreads.DeliveredNeverExceedsReceived` | internal/gossip/gossip.go:221-231 | the delivered counter is at most the handler runs, and these at most the received counter |
| `EngineThreads.PassedCallsAreAuthentic` | internal/gossip/gossip.go:178-219 | however calls interleave, a call that passed Check carries a key bound to its sender that verifies its envelope |
| `EngineThreads.PassedCallsAreSigned` | internal/gossip/gossip.go:178-219 | however calls interleave, a call that passed Check carries in every signed field what the sender it names has signed |
| `EngineLimiter.GrantsInAnyInterleaving` | internal/gossip/gossip.go:207-212 | in any window of any interleaving the limiter grants a sender at most burst plus rate times time tokens |
| `EngineLimiter.EachPassHasItsGrant` | internal/gossip/gossip.go:207-219 | a call that passed Check was granted a token for its sender, and no two the same one |
| `EngineLimiter.BurstIsExactForCalls` | internal/gossip/gossip.go:207-219 | for every n: no interleaving with at most n calls of the sender at the limiter refuses one if and only if n is at most 1 or at most the burst |
| `EngineLimiter.OverlapStarvesMessage` | internal/gossip/gossip.go:207-219 | a reachable state of a sender of two messages in which the second is refused unseen, overlapping copies of the first having spent the tokens |
| `EngineLimiter.AcceptancesDoNotMeasureTokens` | internal/gossip/gossip.go:207-219 | a reachable state with one acceptance, a credit of two within the burst, and no token |
| `PeerTables.LastSeenRoundTrip` | internal/transport/discovery.go:313-319 | a time survives the exchange's conversions if and only if it is not negative |
| `PeerTables.PeerTable.FilterInfos` | internal/transport/discovery.go:329-353 | the valid entries in order, each offered to the keyring as gossip-learned |
| `PeerTables.PeerTable.MergeDiscoveredPeers` | internal/transport/discovery.go:322-394 | table, keyring and records to persist after a batch |
| `PeerTables.PeerTable.LoadKnownPeers` | internal/transport/discovery.go:54-106 | the table after loading exactly the valid stored records |
| `PeerTables.PeerTable.OnPeerConnected` | internal/transport/discovery.go:126-142 | every field of the peer's record after a hello, and that no other record changes |
| `PeerTables.PeerTable.NoteDialFailure` | internal/transport/discovery.go:485-494 | one more failure of a peer still known, and the record to persist |
| `PeerTables.PeerTable.EntryFor` | internal/transport/discovery.go:249-294 | the checks on one record give an entry exactly for a shareable one, with its fields |
| `PeerTables.PeerTable.BuildPeerInfoList` | internal/transport/discovery.go:235-298 | self if it has an address, then every shareable record exactly once and nothing else |
| `PeerMerge.ValidatedIsAcceptable` | internal/transport/discovery.go:330-344 | the filter keeps exactly the acceptable entries |
| `PeerMerge.MergeLeavesBest` | internal/transport/discovery.go:360-383 | a batch leaves at each node what its best entry alone would leave |
| `PeerMerge.LastSeenIsMaximum` | internal/transport/discovery.go:360-383 | each LastSeen is the maximum of the old value and all those offered |
| `PeerMerge.MergedExactly` | internal/transport/discovery.go:322-394 | any batch, valid or not: a node is known afterwards exactly if it was or a valid entry offers it; its record is the old one or a newer valid entry's with the failures kept; no valid entry is newer |
| `PeerMerge.MergeIsIdempotent` | internal/transport/discovery.go:360-392 | merging a batch again changes nothing and persists nothing |
| `PeerMerge.MergesCommute` | internal/transport/discovery.go:360-383 | two valid batches commute if and only if no node has a conflict |
| `PeerMerge.SharedEntryIsMerged` | internal/transport/discovery.go:279-295 | every entry shared from a key-bound table passes the recipient's filter and keeps address, key and non-negative time |
| `PeerMerge.SharedExactly` | internal/transport/discovery.go:249-294 | in a key-bound table exactly the reachable records with a dialable address and a key are shared, except those of the two ends |
| `PeerMerge.ExchangeCarriesLastSeen` | internal/transport/discovery.go:235-394 | after merging a shared list the recipient's time is at least the sender's; a negative one counts as the largest there is |
| `PeerStore.LoadedExactly` | internal/transport/discovery.go:54-106 | any table, any snapshot: a node is known after loading exactly if it was or a stored record of it passes every check; its record is the last of those, or else the old one |
| `PeerStore.LoadRestoresTable` | internal/transport/discovery.go:54-106 | the stored records of a key-bound table, in any order and among undecodable and invalid ones, load to exactly that table |
| `PeerStore.PersistedReplays` | internal/transport/discovery.go:360-392 | the records a merge persists, loaded over the table as it was, make it the merged table |
| `KeyBinding.AlwaysBound` | internal/transport/discovery.go:79-142 | over every run of self-registration, received hellos of any content, exchanges, auto-learning, loading and failed dials, every key held is bound to its id |
| `KeyBinding.KeyringIndependentOfOrder` | internal/gossip/keyring.go:43-54 | two runs that make the same offers in any order reach the same keyring |
| `KeyBinding.DirectTrustIsEarned` | internal/gossip/keyring.go:43-54 | over any run exactly the node itself and those whose hello was accepted are directly verified, whatever is exchanged or gossiped |
| `Connections.PeerMap.AddPeer` | internal/transport/manager.go:329-342 | refusal reason and new map: duplicate first, then capacity, else added |
| `Connections.PeerMap.RemovePeer` | internal/transport/manager.go:344-348 | removes whatever entry the id has |
| `Connections.PeerMap.PeerHandles` | internal/transport/manager.go:352-364 | one handle for each connected peer |
| `Connections.EveryEntryHasOneHandler` | internal/transport/manager.go:186-289 | under any interleaving the entries are exactly the live handlers, one each, and a positive limit is never exceeded |
| `Connections.RemovesOnlyOwnEntry` | internal/transport/manager.go:222-225 | removal by id only ever removes the caller's own entry, and every other live handler keeps its own |
| `Connections.RefusedExactly` | internal/transport/manager.go:329-342 | a handler is refused exactly for a live duplicate or a full map, and then changes nothing |
| `Connections.TurnedAwayExactly` | internal/transport/manager.go:186-197 | an inbound connection is turned away before its handshake exactly when as many handlers are live as the limit allows |
| `SimultaneousDial.SurvivorIsUnrefused` | internal/transport/manager.go:215-224 | of two connections between the same nodes never both are held, and in the end one survives exactly if neither end refused it |
| `SimultaneousDial.OneSurvivesExactly` | internal/transport/manager.go:278-288 | one survives if and only if both nodes have room and no node refuses the second while the first, closed by the other, is still in its map |
| `SimultaneousDial.BothDie` | internal/transport/manager.go:329-348 | two nodes with room that each admit the connection they dialed end with none, their maps as before |
| `DialScheduler.BackoffDoubles` | internal/transport/discovery.go:39-45 | min(2^(k-1), 30) starts at 1 and doubles up to 30 |
| `DialScheduler.DialWithBackoff` | internal/transport/manager.go:228-257 | the wait after the k-th failure in a row is the backoff of k failures, a connection resets it, and the loop goes on exactly until the node stops |
| `DialScheduler.Qualifies` | internal/transport/discovery.go:409-436 | the checks on one record decide exactly eligibility |
| `DialScheduler.ScanTable` | internal/transport/discovery.go:406-441 | the candidates are exactly the eligible peers, each once |
| `DialScheduler.SelectCandidates` | internal/transport/discovery.go:397-455 | nothing at capacity, else min(3, eligible) distinct eligible peers |
| `DialTasks.AtMostOneTaskPerNode` | internal/transport/discovery.go:397-500 | each id has at most one live task and the dialing set is exactly the live ids and the one marked id |
| `DialTasks.StartsFewRestedDials` | internal/transport/discovery.go:457-462 | a task started is at most the third of its tick, for an id with no live task whose backoff has elapsed, although the lock was released in between |
| `DialPolicy.SelectionIsExact` | internal/transport/discovery.go:397-455 | in every reachable state: each id selected is a known, reachable, other node with a non-bootstrap address, not connected, without a task, whose backoff is over; nothing at capacity, all such nodes if they are at most three, otherwise three of them |
| `DialPolicy.TaskIsForUnconnected` | internal/transport/discovery.go:418-462 | a task started after a selection, connections unchanged since, is for a node that is not connected |
| `DialPolicy.FailuresAddUp` | internal/transport/discovery.go:485-494 | over any run without a hello of it, a node has as many failures more as dials of it failed, the last one dated, whatever is merged in between |
| `DialPolicy.FailuresAreWaitedOut` | internal/transport/discovery.go:36-45 | after a hello and k failed dials, merges in between, a node is selected again only min(2^(k-1), 30) seconds after the last failure |
| `DialPolicy.WaitDoubles` | internal/transport/discovery.go:36-45 | that wait is one second after the first failure and doubles with each further one up to 30 |
| `Frames.HeaderIsExact` | internal/transport/frame.go:24-53 | a header is accepted for a length exactly when it is the one written for that length, within 1 MB |
| `Frames.FrameLayout` | internal/transport/frame.go:23-27 | the eight bytes before the payload, one by one: "MI", 0, 1, the length with its most significant byte first |
| `Frames.RecordLayout` | internal/transport/noise.go:118-137 | a record is four length bytes, most significant first, counting plaintext and tag, and then the ciphertext |
| `Frames.RecordCapIsExact` | internal/transport/noise.go:155-159 | the cap on records rejects exactly the plaintexts longer than any frame |
| `Frames.FrameRoundTrip` | internal/transport/frame.go:18-61 | a frame written as one record is read back and leaves the buffer empty |
| `Frames.FramesRoundTrip` | internal/transport/noise.go:118-176 | any payloads of at most 1 MB come back as the same sequence, buffer empty and counters in step after each |
| `Frames.ReadFullFollowsStream` | internal/transport/noise.go:140-176 | reading k bytes takes the next k bytes of the stream wherever records end, and fails on a shorter stream |
| `Frames.ReadFrameIsExact` | internal/transport/frame.go:34-61 | a payload is returned if and only if the stream goes on with its frame, which is then consumed exactly |
| `Frames.AnyChunkingReadsBack` | internal/transport/frame.go:34-61 | frames come back in order however the peer cut the bytes into records |
| `NoiseConns.PutBigEndian` | internal/transport/frame.go:24-26 | stores the integer in place and leaves the other bytes |
| `NoiseConns.NoiseConn.Write` | internal/transport/noise.go:118-137 | appends exactly one record and advances the send counter |
| `NoiseConns.NoiseConn.ReadSome` | internal/transport/noise.go:140-176 | result and state of one read: rest of the buffer first, then one record, errors included |
| `NoiseConns.NoiseConn.ReadExactly` | internal/transport/frame.go:36-58 | the loop of reads is ReadFull |
| `NoiseConns.NoiseConn.WriteFrame` | internal/transport/frame.go:18-31 | one record holding the frame, or a refusal that writes nothing for exactly the payloads over 1 MB |
| `NoiseConns.NoiseConn.NextFrame` | internal/transport/frame.go:34-61 | payload or error, and the state left |
| `Hello.Peer.VerifyPeerIdentity` | internal/transport/peer.go:363-387 | records the identity exactly when id and static key match the hello's key, else records nothing |
| `Hello.AcceptedHelloIsAuthentic` | internal/transport/peer.go:330-387 | whoever sent it, an accepted hello is signed by the sender it names under a key bound to its id and to the Noise static key |
| `Hello.AcceptedHelloWasSigned` | internal/transport/peer.go:330-387 | if nobody forges, the owner of the recorded key has signed an accepted hello as it was decoded, for this message type |
| `Hello.HonestHelloAccepted` | internal/transport/peer.go:307-387 | an honest hello is accepted and recorded as it is |
| `Hello.NeverBothBlocked` | internal/transport/peer.go:123-143 | the two ends never both wait for the other |
| `Hello.SuccessMeansAgreement` | internal/transport/peer.go:123-143 | when the initiator succeeds the responder has recorded it and written its ack, and each has recorded the other's id and bound key |
| `Hello.InitiatorMayReturnFirst` | internal/transport/peer.go:123-143 | the initiator can have returned while the responder has not |
| `Hello.CompletesWithoutTimeouts` | internal/transport/peer.go:99-144 | without timeouts neither end fails, a step is enabled until both succeed, and five steps suffice |
| `Partyline.NeverPanics` | internal/partyline/partyline.go:78-142 | no run sends on a closed channel or closes one twice; no bounded channel exceeds its capacity; a session's channel is closed exactly when it is not in the map |
| `Partyline.SessionGetsSubsequence` | internal/partyline/partyline.go:205-216 | a session gets a subsequence of the lines said while it was in the map and not kept from it; all of them exactly when its queue dropped none |
| `Partyline.TransportGetsUserMessages` | internal/partyline/partyline.go:113-120 | what the transport gets is, in order, messages of local users |
| `Partyline.RemoteDeliveryIsInvisibleToTransport` | internal/partyline/partyline.go:191-198 | erasing all remote deliveries and system messages from a run leaves a run in which the transport gets the same messages |
| `PartylineAudience.ChatGoesToTheOthers` | internal/partyline/partyline.go:104-120 | a user's message: everybody in the map but the user hears "[nick] text" if its queue has a place, nobody else does, and the transport gets nick and text |
| `PartylineAudience.SystemMessageGoesToAll` | internal/partyline/partyline.go:104-120 | a system message: everybody in the map hears it as it is, and the transport does not get it |
| `PartylineAudience.PostsQueueUp` | internal/partyline/partyline.go:162-198 | a post joins the end of the broadcast channel, a remote one as a system message under its nick, and changes nothing else |
| `PartylineAudience.JoiningIsTold` | internal/partyline/partyline.go:83-94 | everybody in the map hears who joined, and that is the first line of the newcomer |
| `PartylineAudience.LeavingIsTold` | internal/partyline/partyline.go:96-102 | everybody left hears who left, whose channel is closed with its contents kept; leaving twice does nothing |
| `PartylineAudience.RenamingIsTold` | internal/partyline/partyline.go:129-133 | everybody in the map, the owner included, hears the old and the new nick |
| `PartylineAudience.OwnPostsAreUnheard` | internal/partyline/partyline.go:205-216 | taking all posts of a session out of any run leaves a run in which it receives the same lines and loses as many: nothing it gets stems from its own posts |
| `PartylineHubs.Counter.Add` | internal/partyline/partyline.go:84 | the next id of the process |
| `PartylineHubs.Session.TrySend` | internal/partyline/partyline.go:210-214 | appends the line or, at capacity, drops it; never called on a closed channel |
| `PartylineHubs.SendAll` | internal/partyline/partyline.go:205-216 | every session but the excluded one is offered the line once, in any order |
| `PartylineHubs.Hub.Say` | internal/partyline/partyline.go:205-216 | the hub's state after telling its members |
| `PartylineHubs.Hub.Join` | internal/partyline/partyline.go:83-94 | a new session under the next id of the process-wide counter, announced to all members, itself included |
| `PartylineHubs.Hub.Leave` | internal/partyline/partyline.go:96-102 | a member's channel is closed and its leaving announced; a second leave does nothing |
| `PartylineHubs.Hub.Broadcast` | internal/partyline/partyline.go:162-164 | posts a user's message |
| `PartylineHubs.Hub.SystemMessage` | internal/partyline/partyline.go:167-169 | posts a system message |
| `PartylineHubs.Hub.DeliverRemote` | internal/partyline/partyline.go:191-198 | posts a remote chat line as a system message |
| `PartylineHubs.Hub.HandleBroadcast` | internal/partyline/partyline.go:104-120 | takes the oldest post, tells everybody but its user, then offers a user's message to the transport |
| `PartylineHubs.Hub.Who` | internal/partyline/partyline.go:122-127 | the nick of every member once, in any order |
| `PartylineHubs.Hub.SetNick` | internal/partyline/partyline.go:129-133 | changes the nick, returns the old one and announces both |
| `PartylineHubs.Hub.Stop` | internal/partyline/partyline.go:135-139 | closes every member's channel once and stops |

## Left out

- TCP, deadlines, keepalives, accept loops and real scheduling: steps in any order, over a lossy network of copies or a reliable hello channel.
- Ed25519, SHA-256, ChaCha-Poly, the conversion of keys and the Noise XX handshake with its 2-byte length-prefixed messages: abstract functions, and the length of a hash is not modelled; the cipher library is not part of this model, nor its limits on nonces.
- Protobuf, JSON and UUID generation: encodings decode to what was encoded, message ids are whatever the caller gives, and marshalling never fails.
- Configuration, the SSH server, the terminal, the command registry, logging and address parsing: a dialable address is an arbitrary predicate.
- Envelopes and records are values: aliasing of the envelope a handler or a relay decrements is not captured.
- 64-bit counters and the session counter do not wrap around; rounding of tokens is not modelled.
- `Stats()`: it is not an atomic snapshot, so the facts are about the counters themselves.
- In class `Engine` a call of HandleIncoming is one step. In the network it is one step if it is refused and two, around the limiter, otherwise; a copy may get to the limiter however long ago its call found the id unmarked. The locks one by one are in `EngineThreads`, which in turn does not forward.
- The store itself: `PeerStore` compares what a merge hands to it, and what is loaded from it, with the table; records are persisted asynchronously, in an order that is not modelled.
- The per-connection seen set for PeerExchange, the send loop and the cleanup loops' tickers: the set repeats `SeenCache`, and a step may clean up at any time.
- Version and tags of a hello are carried by the program but never looked at.
- The jitter before a discovered dial and the wait of the bootstrap loop are steps that may take any time.
- Calling `Hub.Stop` twice panics in the caller; the model stops once. A transport channel has the 64 places the manager gives it; an unbuffered one is not modelled.
- The dialing set and the dial tasks are values in `DialTasks`, where marking and clearing are steps; in `Hello` sending and receiving are steps of the pair, and only the recorded identity is updated in place.
- Statistical statements about random fanout.
- DialScheduler.DialWithBackoff: takes what comes of its dials, and when the node stops, as a sequence; waiting takes no time in it.
- NetworkCoverage.Coverage: assumes that no copy of the message is lost or refused by a full queue, none of its seen entries evicted and no connection changed, since any of these can keep a node from hearing it; eviction is discharged for the first TTL in `NetworkClock`.
- SimultaneousDial.OneSurvivesExactly: connections end only by being refused, and the other peers of the two nodes stay the same.
