# Chrono security core: verified model

A Dafny model of the Rust security core of a friend-to-friend chat client, and proofs of
what it promises:

- **DC-Net mesh rounds.** N nodes run one round driver each over a network that may lose,
  repeat and reorder messages. `MeshDriver` holds the reference transitions, `RoundDriver`
  the object that implements them in place, `MeshInvariant`, `MeshQuiet`, `MeshRounds` and
  `MeshShares` the invariant, `Mesh` the safety theorems over all runs. `MeshPhases`,
  `MeshHandling` and `MeshDelivery` prove failure-free delivery of a round that any number of
  nodes initiate at once, `MeshTermination` that it always comes about, `MeshTurns` and
  `MeshContention` that round after round every initiator's text gets through; `MeshRestart`
  and `MeshOnward` hold what starting a round again and going on guarantee, `MeshRetries` what
  becomes of a message whose rounds expire, `MeshExpiry` what deadlines mean and what one
  driver keeps whatever it is sent. Below it lie `DcNet`, `RoundNetwork`, `XorSum` and `Cancellation`:
  key streams, frames, collectors and N-party cancellation; `Anonymity` adds that the shares
  of a round fit every member as its sender. `RoundEngine` is the leader-collect variant
  over the same lemmas.
- **Web of Trust.** `TrustGraph` defines the trust rule and its least fixpoint, `WebOfTrust`
  the in-place iteration and the cached object, `TrustChains` soundness and the
  shortest-path search.
- **Relay.** `RelayAdmission` is the admission control and its guarantees over whole runs,
  `RelayLimits` the exact bounds of those guarantees, `RelayIdentity` what they mean per
  identity rather than per spelling of a key, `RelayForwarding` one node's relay step
  and networks of such nodes. `SignedBytes` keeps the purposes of all signatures apart.
- **Bridge and log.** `Bridge` is the social state with its logged calls and the replay
  interpreter, `Recovery` the crash-recovery theorem under failing appends and checkpoints at
  any point, `LogLoss` what exactly can be lost, `F2fBridge` the objects whose methods make
  the steps of that theorem, `Broadcast` the local round, `Hex` the key format.

## How to read it

Objects that the program updates in place are classes; each method is proved equal to a
reference transition on values, and the theorems are about those transitions. Loops over
hash tables take their elements in an arbitrary order (a nondeterministic choice, or an
order supplied by the caller), so every result holds for every order. Clocks, random keys,
I/O failures and timer events are parameters. HKDF, SHA-256, X25519, Ed25519 and the UTF-8
test are uninterpreted functions. Integers are unbounded except where width matters (the
block counter, length prefixes, hop counts, trust bytes). Large invariants are stated clause
by clause (`Holds`, `NodeHolds`) or under a seal (`Sealed`) so that each proof opens only the
parts it uses.

The network of `Mesh` is a set of messages that only grows: a message in it may be delivered
late, again, or never. Node histories (`History`) record what a node initiated, sent and
delivered; no handler reads them.

## Where code and documentation differ

The model follows the code, and says exactly when it keeps the documented promise.

- The log's documentation says memory stays unchanged when an append fails; the bridge
  changes its state anyway. `LogLoss.FailedAppendsKeepIff` says when that loses nothing,
  `LogLoss.FailedAppendLoses` gives a case in which it does.
- The checkpoint taken inside `log_wal` snapshots the state before the call and empties the
  log: `LogLoss.AutomaticCheckpointKeepsIff` for checkpoints at any operation of a call,
  `LogLoss.CheckpointLoses` and `LogLoss.CheckpointSpares` for two cases.
  `Recovery.CallRecoverableIff` covers every mixture of failed appends and checkpoints.
- The trust rule is documented in terms of signers and computed in terms of signatures:
  `TrustGraph.RuleExact` for the exact condition, `WebOfTrust.RepeatedSignatureOverrates` for
  a loaded file that breaks it; webs built through the public calls satisfy it.
- The trust iteration is documented to take at most 4N passes; 2N + 1 always suffice.
- Replay protection, rate limit and pinned keys end when a table is full and is emptied:
  `RelayLimits.NoncesGuaranteedIff`, `RelayLimits.RateGuaranteedIff` and
  `RelayLimits.PinsGuaranteedIff` give the exact numbers, `RelayLimits.FloodAdmitsAnything`
  and `RelayLimits.ImpostorAfterStrangers` what happens after any run.
- Retries of an expired round are documented as bounded, but starting the new round resets
  the counter: `MeshRetries.RetriedIff` says exactly when there is a retry,
  `MeshRetries.RetriesFromTheStart` gives runs with any number of them.
- A Full introducer granting Marginal is documented to leave its subject Marginal; with the
  subject's signature on itself it becomes Full: `WebOfTrust.SelfSignatureMatters` and
  `WebOfTrust.SelfSignatureLifts`.
- The relay's quota is documented per identity key and kept per spelling of it:
  `RelayIdentity.IdentityGuaranteedIff`. For the same reason a packet may be acted on twice
  when its sender's key becomes known in between: `RelayForwarding.MessageOnce`,
  `RelayForwarding.PacketTwiceIff` and, as a case in point, `RelayIdentity.RespelledActsTwice`.
- Nonces are documented as monotonic per sender and begin at 1 again with every process:
  `RelayLimits.RestartRefusedIff`.

## Model

| member | source | states |
|---|---|---|
| `DcNet.XorBytes` | client/security/rust_core/src/dcnet/mod.rs:65-74 | the byte-by-byte loop computes XOR with the shorter operand extended by zeros, the operation whose group laws the cancellation proof rests on |
| `DcNet.DerivePairShare` | client/security/rust_core/src/dcnet/mod.rs:83-118 | exactly `len` bytes, byte i taken from block i / 32 of the key stream; the one-byte block counter overflows if and only if `len` > 8160; every byte is a byte of HKDF under the edge key and the info string of its round, pair and block |
| `DcNet.PairShareSymmetric` | client/security/rust_core/src/dcnet/mod.rs:93-97 | both ends of an edge derive the same bytes |
| `DcNet.PairSharePrefix` | client/security/rust_core/src/dcnet/mod.rs:104-117 | a shorter share is a prefix of a longer one |
| `DcNet.BlocksDistinct` | client/security/rust_core/src/dcnet/mod.rs:106-115 | no two blocks of one share use the same HKDF info string if and only if the share has at most 256 blocks |
| `DcNet.PairInfoInjective` | client/security/rust_core/src/dcnet/mod.rs:92-103 | info strings of different rounds (below 2^64) or different pairs of peers differ |
| `DcNet.PadsNeverReused` | client/security/rust_core/src/dcnet/mod.rs:92-118 | over all rounds, pairs and up to 256 blocks each, two blocks of key stream have the same info string if and only if round, pair and position are the same |
| `XorSum.PadsCancel` | client/security/rust_core/src/dcnet/round_network.rs:140-144 | for any symmetric family of pads over any finite group, the XOR over all members of all their pads is zero |
| `RoundNetwork.PadMessage` | client/security/rust_core/src/dcnet/round_network.rs:251-261 | the buffer holds length, checksum, message and zeros; refused if and only if the frame does not fit |
| `RoundNetwork.PadUnpad` | client/security/rust_core/src/dcnet/round_network.rs:251-278 | unpadding a padded message gives back exactly the message, trailing zeros included |
| `RoundNetwork.ComputeXorShareSecure` | client/security/rust_core/src/dcnet/round_network.rs:150-185 | the loop yields the XOR of all pairwise pads plus the frame; it refuses exactly when the group is too small, we are not listed, a key is missing or the message does not fit; refused exactly for fewer than two participants, a list without us, a missing edge key or a text that does not fit |
| `RoundNetwork.Submit` | client/security/rust_core/src/dcnet/round_network.rs:98-115 | an accepted share removes exactly its sender from the missing participants |
| `RoundNetwork.FirstShareStands` | client/security/rust_core/src/dcnet/round_network.rs:98-115 | whatever is submitted in whatever order, a collector holds exactly each participant's first share of the right length |
| `RoundNetwork.CollectorLimits` | client/security/rust_core/src/dcnet/round_network.rs:60-79 | a collector takes deadline and length from the start, at most 30 seconds and between 4 and 65536 bytes |
| `RoundNetwork.CompleteIsEveryone` | client/security/rust_core/src/dcnet/round_network.rs:89-91 | the count comparison of `is_complete` holds if and only if the set of submitters equals the set of participants |
| `RoundNetwork.ExtractMessage` | client/security/rust_core/src/dcnet/round_network.rs:127-137 | in whatever order the hash map yields the shares, the result is the order-free XOR of all of them |
| `RoundNetwork.ShareSignatureInjective` | client/security/rust_core/src/dcnet/round_network.rs:281-289 | the signed bytes determine channel, round and share |
| `Cancellation.ShareOfAnyList` | client/security/rust_core/src/dcnet/round_network.rs:150-185 | a share depends on the set of participants only, not on how they are listed |
| `Cancellation.RoundSum` | client/security/rust_core/src/dcnet/round_network.rs:140-185 | the shares of a whole group with exactly one sender XOR to the sender's frame |
| `Cancellation.CompleteRoundExtracts` | client/security/rust_core/src/dcnet/round_network.rs:89-137 | any number of distinct participants with symmetric edge keys, each listing the group in its own order, one of them sending: a complete collector extracts and unpads exactly the message |
| `RoundDriver.RoundDriver.InitiateRound` | client/security/rust_core/src/dcnet/round_driver.rs:123-183 | new state and start messages are those of the reference transition: nothing changes on a length or membership error, a round id is used up on missing keys, otherwise a pending round with an empty collector and no share sent |
| `RoundDriver.RoundDriver.HandleStart` | client/security/rust_core/src/dcnet/round_driver.rs:225-285 | the next id is adopted, a lost tie aborts our round and remembers to retry, anything else is ignored; the answer is a neutral share to all others |
| `RoundDriver.RoundDriver.HandleShare` | client/security/rust_core/src/dcnet/round_driver.rs:287-378 | a share whose peer has a known readable key changes nothing and sends nothing unless its signature verifies under that key over channel, round and share; one that verifies, or whose peer has no readable key, is stored, releases our own share, completes the round, emits and retries as the reference transition says |
| `RoundDriver.RoundDriver.Retry` | client/security/rust_core/src/dcnet/round_driver.rs:390-408 | re-initiates the pending text under the next id or gives it up |
| `RoundDriver.RoundDriver.Abort` | client/security/rust_core/src/dcnet/round_driver.rs:381-387 | the pending round and its collector are gone, the text is kept |
| `RoundDriver.RoundDriver.Drop` | client/security/rust_core/src/dcnet/round_driver.rs:410-440 | expired rounds are discarded one by one in hash order, our own being retried; of the rounds held, exactly those whose deadline has not come remain |
| `MeshExpiry.DropsExactly` | client/security/rust_core/src/dcnet/round_driver.rs:410-440 | after expiry exactly the rounds, ours or not, whose deadline has not come are still held, untouched |
| `MeshExpiry.LateShareIgnored` | client/security/rust_core/src/dcnet/round_driver.rs:186-218 | a share of a round whose deadline has come changes nothing beyond expiry itself and emits nothing |
| `MeshExpiry.LateShareInMesh` | client/security/rust_core/src/dcnet/round_driver.rs:186-218 | the same at every node of every reachable state of a mesh |
| `MeshExpiry.StartTaken` | client/security/rust_core/src/dcnet/round_driver.rs:249-285 | taking part opens a collector with the deadline, length and participants of the start and sends our share to everybody else listed |
| `MeshExpiry.EmitsOnce` | client/security/rust_core/src/dcnet/round_driver.rs:342-353 | whatever a driver is fed, forged or repeated, in any order under any clocks and keys, it emits at most one text for a round id, once |
| `RoundDriver.RoundDriver.HandleMessage` | client/security/rust_core/src/dcnet/round_driver.rs:186-218 | expiry, the handler, then the queued start messages are flushed |
| `Mesh.StepKeepsInv` | client/security/rust_core/src/dcnet/round_driver.rs:123-440 | every step of every node, with any message that was ever sent, keeps the system invariant |
| `Mesh.MeshAgreement` | client/security/rust_core/src/dcnet/round_driver.rs:225-378 | in every run, any text that any node extracts for a round is the text of the lowest-uid initiator of that round |
| `Mesh.NoDisagreement` | client/security/rust_core/src/dcnet/round_driver.rs:225-378 | no two nodes ever extract different texts for the same round |
| `Mesh.OneMessageShare` | client/security/rust_core/src/dcnet/round_driver.rs:234-248 | with any number of concurrent initiators, at most one message-bearing share is ever broadcast per round id |
| `MeshShares.OthersNeutral` | client/security/rust_core/src/dcnet/round_driver.rs:321-338 | when an initiator's share is the only one missing, every other node has sent a neutral share for that round |
| `Mesh.OneShareEach` | client/security/rust_core/src/dcnet/round_driver.rs:123-387 | each node transmits at most one share per round id, and every share on the wire is the one its sender computed |
| `Mesh.DeliversOnce` | client/security/rust_core/src/dcnet/round_driver.rs:340-355 | a node emits at most one text per round, once |
| `Mesh.CompletionDelivers` | client/security/rust_core/src/dcnet/round_driver.rs:340-367 | in every reachable state a round that completes yields a text: extraction never fails among honest nodes |
| `MeshDelivery.FailureFreeDelivery` | client/security/rust_core/src/dcnet/round_driver.rs:123-183 | any nonempty set of nodes initiates the same round from idle (equal counters, nothing pending, earlier rounds possibly still collecting); messages of any rounds arrive in any order, again, or never, except that no node receives a share of the round before a start that makes it take part (any start, or a lower initiator's if it initiated itself) and the round's collectors do not expire: once every message of that round has been handled, all N >= 2 participants have extracted the lowest initiator's text exactly once, and every other initiator has started a later round with its own text |
| `MeshContention.EveryTextDelivered` | client/security/rust_core/src/dcnet/round_driver.rs:641-695 | concurrent initiation loses no message: when the rounds that follow, as many as there were initiators, are played one after the other, in any order of deliveries within each, every participant has extracted every initiator's text, each in a round of its own, exactly once |
| `MeshContention.ContentionResolves` | client/security/rust_core/src/dcnet/round_driver.rs:641-695 | after every opening from idle such a sequence of rounds exists, and at its end every text is with everybody |
| `MeshTurns.NextOpens` | client/security/rust_core/src/dcnet/round_driver.rs:366-376 | when all messages of a round are handled, the initiators that yielded have opened the next round, with their own texts and one start each, and everybody else is idle for it |
| `MeshOnward.HandleOnward` | client/security/rust_core/src/dcnet/round_driver.rs:186-218 | whatever a node with nothing queued receives, its counter does not fall, rounds it has passed keep their texts, deliveries stay, and any start it sends is its own and of a round it had not passed |
| `MeshTermination.ScheduleBounded` | client/security/rust_core/src/dcnet/round_driver.rs:253-376 | in every in-order schedule, at most as many deliveries are of a message of the round not handled before as there are messages that the round can send at all |
| `MeshTermination.DeliveryAlwaysPossible` | client/security/rust_core/src/dcnet/round_driver.rs:123-183 | after any opening from idle, whatever each node's clock shows then, some in-order schedule of messages of the round alone, at those times, handles all of them; then every participant has the lowest initiator's text and the others have restarted: the round is never stuck |
| `MeshTermination.OpeningPossible` | client/security/rust_core/src/dcnet/round_driver.rs:123-183 | from idle any nonempty set of members can open the next round with any texts that fit |
| `MeshRetries.RetriedIff` | client/security/rust_core/src/dcnet/round_driver.rs:410-440 | when our round expires, its message is tried again, under the next id and with the counter at 0, if and only if a round with that text can be started in that group |
| `MeshRetries.RetryStartsIff` | client/security/rust_core/src/dcnet/round_driver.rs:390-408 | a retry starts a round if and only if fewer than three were counted, a message is waiting and a round with it can be started; after three the message is given up |
| `MeshRetries.GarbledRetried` | client/security/rust_core/src/dcnet/round_driver.rs:342-368 | a round of ours that completes without a text, garbled or emitted before, is dropped and retried with the same message |
| `MeshRetries.OwnRoundOver` | client/security/rust_core/src/dcnet/round_driver.rs:358-376 | a round of ours that completes with its text emits it, leaves nothing pending and starts nothing |
| `MeshRetries.HandlingRestarts` | client/security/rust_core/src/dcnet/round_driver.rs:186-218 | any start we have passed, handled at or after the deadline, makes us start the next round with the same message, whatever else expires with ours |
| `MeshRetries.RetriesUnbounded` | client/security/rust_core/src/dcnet/round_driver.rs:390-408 | from any reachable state in which a node waits and a start it has passed is on the network, for every k some run of the mesh makes it try its message under the next k round ids, each handled at the moment the latest round expires |
| `MeshRetries.RetriesFromTheStart` | client/security/rust_core/src/dcnet/round_driver.rs:20-21 | in every keyed mesh of two or more and for every k there is a run from the initial state, with clocks going forward, in which one node starts k + 1 rounds with the same message |
| `Anonymity.SenderAmbiguous` | client/security/rust_core/src/dcnet/round_driver.rs:16-18 | for any two members and any pads under which one sent the frame, changing only the pad between them gives pads under which the other's sending yields the identical shares |
| `Anonymity.OnlyShift` | client/security/rust_core/src/dcnet/round_driver.rs:16-18 | that changed pad is the only one that does, so the two sides are paired off one to one |
| `Anonymity.ComputedSharesOf` | client/security/rust_core/src/dcnet/round_network.rs:150-185 | the shares that members compute from their edge keys are of the form the ambiguity speaks of |
| `MeshDelivery.DeliveryKeeps` | client/security/rust_core/src/dcnet/round_driver.rs:253-376 | each such delivery, of any round and repeated ones included, keeps the progress invariant with any number of initiators |
| `RoundEngine.RoundEngine.QueueMessage` | client/security/rust_core/src/round_engine.rs:42-44 | appended at the back of the queue that rounds take from the front |
| `RoundEngine.RoundEngine.StartRoundAsLeader` | client/security/rust_core/src/round_engine.rs:48-102 | the leader's counter, queue and collector with its own share in it, and a copy of the start for everybody listed; the queue loses exactly its head |
| `RoundEngine.RoundEngine.HandleRoundStart` | client/security/rust_core/src/round_engine.rs:157-194 | only the next round id is accepted; the queued text goes into the share, which is addressed to the leader; the queue loses exactly its head, or nothing when the start is refused |
| `RoundEngine.RoundEngine.HandleRoundShare` | client/security/rust_core/src/round_engine.rs:196-264 | the signature check for known keys, then stored, or extracted and published once the round is complete or expired; a signature that does not verify under a known readable key changes nothing |
| `RoundEngine.RoundEngine.HandleRoundResult` | client/security/rust_core/src/round_engine.rs:266-281 | only a frame whose checksum verifies yields a text |
| `RoundEngine.FollowerAnswers` | client/security/rust_core/src/round_engine.rs:157-194 | a participant with the text queued, or with nothing queued, answers with exactly the share the group's cancellation needs |
| `RoundEngine.HeadCarried` | client/security/rust_core/src/round_engine.rs:157-194 | the share a follower sends carries the head of its queue, or nothing when the queue is empty |
| `RoundEngine.QueueConserved` | client/security/rust_core/src/dcnet/round_network.rs:417-430 | over any run of queueing, leading and following, the texts queued are those that went into rounds, each into one and in order, followed by those still waiting |
| `RoundEngine.LastShareCloses` | client/security/rust_core/src/round_engine.rs:196-264 | the last share, or any share at or after the deadline whoever is missing, closes the round: with an extraction and a result for everybody exactly if what is there decodes |
| `RoundEngine.EarlyShareStored` | client/security/rust_core/src/round_engine.rs:196-264 | before the deadline a share that leaves somebody missing is only stored |
| `RoundEngine.LeaderIgnoresOwnStart` | client/security/rust_core/src/round_engine.rs:92-95 | the start that the leader addresses to itself is rejected |
| `RoundEngine.SettingExists` | client/security/rust_core/src/round_engine.rs:48-102 | any group of two or more with pairwise keys has such a round, so the end-to-end theorem speaks of every one |
| `RoundEngine.LeaderCollect` | client/security/rust_core/src/round_engine.rs:48-281 | for all engines of any group, exactly one with a text queued: the leader opens the round, the others answer, their answers arrive before the deadline in any order, repeats and losses included; the leader emits the text exactly once if everybody's answer arrived and nothing otherwise, every member is then sent a result, and any engine that handles one emits the same text |
| `TrustGraph.RatedMeaning` | client/security/rust_core/src/pgp/web_of_trust.rs:6-16 | as long as no signer grants the same subject something twice, counting signatures gives the documented rule on signers: Full by one at Full or two different ones at Marginal, Marginal by one |
| `TrustGraph.RuleExact` | client/security/rust_core/src/pgp/web_of_trust.rs:262-287 | the code's rule is the documented one for all levels if and only if no signer has two signatures on one subject that both grant at least Marginal |
| `TrustGraph.ContributionMeaning` | client/security/rust_core/src/pgp/web_of_trust.rs:262-287 | a signature contributes a level exactly if its signer has it and it grants it; numbers above Ultimate grant nothing |
| `TrustGraph.RepeatOverrates` | client/security/rust_core/src/pgp/web_of_trust.rs:263-287 | with such a repetition a signer who is just Marginal makes its subject Full all by itself, where the documented rule says Marginal |
| `WebOfTrust.TrustFollowsSigners` | client/security/rust_core/src/pgp/web_of_trust.rs:171-185 | in a web without repeated pairs, which is all the public calls can build, computed trust obeys the documented rule |
| `WebOfTrust.RepeatedSignatureOverrates` | client/security/rust_core/src/pgp/web_of_trust.rs:18-20 | a loaded web that holds one valid Marginal signature of an own key twice computes Full where the documented rule gives Marginal, whatever signatures verify |
| `WebOfTrust.SelfSignatureMatters` | client/security/rust_core/src/pgp/web_of_trust.rs:263-287 | a key's valid signature on itself changes its trust if and only if it grants at least Marginal and the key was exactly Marginal, which then becomes Full; otherwise no key's trust changes |
| `WebOfTrust.SelfSignatureLifts` | client/security/rust_core/src/pgp/web_of_trust.rs:14-16 | a key to which an own key grants only Marginal is Marginal, its own signature on itself is accepted, and with it the key is Full |
| `TrustGraph.RatedMonotone` | client/security/rust_core/src/pgp/web_of_trust.rs:254-256 | a key's rated level never falls when other levels rise |
| `TrustGraph.LeastUnique` | client/security/rust_core/src/pgp/web_of_trust.rs:230-236 | two least fixpoint maps are equal, so no order of evaluation can show |
| `WebOfTrust.RateKey` | client/security/rust_core/src/pgp/web_of_trust.rs:262-287 | separate full and marginal counters give the level of the rule |
| `WebOfTrust.Sweep` | client/security/rust_core/src/pgp/web_of_trust.rs:257-293 | a pass in any key order lowers no level; if it changes something the measure grows, otherwise the map is the least fixpoint |
| `WebOfTrust.ComputeTrustMap` | client/security/rust_core/src/pgp/web_of_trust.rs:237-299 | in-place iteration in any key order returns exactly the least fixpoint map within 2 * (number of keys) + 1 passes |
| `WebOfTrust.Precedence` | client/security/rust_core/src/pgp/web_of_trust.rs:209-228 | overrides beat own keys, own keys are Ultimate, unseen keys Unknown, everything else between Unknown and Full |
| `WebOfTrust.WebOfTrust.CalculateTrust` | client/security/rust_core/src/pgp/web_of_trust.rs:209-228 | whatever was called before, the answer is the least fixpoint level in the current graph, and the cache stays coherent |
| `WebOfTrust.WebOfTrust.AddSignature` | client/security/rust_core/src/pgp/web_of_trust.rs:171-192 | accepted if and only if both keys are known, the pair is new and the signature verifies; no key's trust falls |
| `WebOfTrust.ForgedIgnored` | client/security/rust_core/src/pgp/web_of_trust.rs:245-252 | a signature on file that does not verify under its signer's key, or whose signer is unknown, leaves the whole computation as it is |
| `WebOfTrust.VerifiedCounted` | client/security/rust_core/src/pgp/web_of_trust.rs:245-252 | one that verifies is among those counted |
| `WebOfTrust.WebOfTrust.RemoveSignature` | client/security/rust_core/src/pgp/web_of_trust.rs:195-200 | exactly the signatures of the pair go; no key's trust rises |
| `WebOfTrust.WebOfTrust.AddKey` | client/security/rust_core/src/pgp/web_of_trust.rs:127-130 | new graph, cache invalid |
| `WebOfTrust.WebOfTrust.AddOwnKey` | client/security/rust_core/src/pgp/web_of_trust.rs:119-124 | new graph, cache invalid |
| `WebOfTrust.WebOfTrust.SetManualTrust` | client/security/rust_core/src/pgp/web_of_trust.rs:203-206 | new graph, cache invalid |
| `WebOfTrust.WebOfTrust.InvalidateCache` | client/security/rust_core/src/pgp/web_of_trust.rs:367-370 | the graph is untouched and no stale level can be served |
| `WebOfTrust.AddingRaises` | client/security/rust_core/src/pgp/web_of_trust.rs:171-192 | adding any signature lowers no trust level |
| `WebOfTrust.RemovingLowers` | client/security/rust_core/src/pgp/web_of_trust.rs:195-200 | removing a pair's signatures raises no trust level |
| `WebOfTrust.WithoutPair` | client/security/rust_core/src/pgp/web_of_trust.rs:195-200 | retained are exactly the signatures of other pairs |
| `WebOfTrust.WithoutAppend` | client/security/rust_core/src/pgp/web_of_trust.rs:195-200 | and they stay in their order and number |
| `WebOfTrust.SignatureMessageInjective` | client/security/rust_core/src/pgp/web_of_trust.rs:31-40 | two statements with the same signed bytes have the same subject, level and time |
| `TrustChains.TrustedIffChained` | client/security/rust_core/src/pgp/web_of_trust.rs:257-297 | a key neither ours nor overridden is at least Marginal if and only if a chain of valid signatures, each granting at least Marginal, reaches it from an own or positively overridden key without passing through fixed keys |
| `TrustChains.TrustPath` | client/security/rust_core/src/pgp/web_of_trust.rs:302-336 | breadth-first search returns a path of valid signatures from an own key that no other such path undercuts, and reports none if and only if none exists |
| `TrustChains.TrustedHasPath` | client/security/rust_core/src/pgp/web_of_trust.rs:257-336 | when no override is above Unknown, every trusted key has such a path |
| `RelayAdmission.RelayVerifier.CheckMessage` | client/security/rust_core/src/net/relay.rs:240-281 | verdict and tables after one check, evictions included: replayed exactly up to the recorded nonce, then stale exactly more than 60 seconds off, rate-limited only in a running window of 60; a replayed or stale request changes nothing |
| `RelayAdmission.RelayVerifier.PinKey` | client/security/rust_core/src/net/relay.rs:218-233 | a first key is pinned, the same key passes, another one fails; the other tables stay |
| `RelayAdmission.RateLimit` | client/security/rust_core/src/net/relay.rs:259-273 | over any run with a nondecreasing clock and fewer than 4096 keys: at most 120 admissions of a key in any 60 seconds, and the window being counted holds exactly its count, at most 60 |
| `RelayAdmission.HonestAdmitted` | client/security/rust_core/src/net/relay.rs:240-281 | in such a run a fresh request with a higher nonce is admitted whenever fewer than 60 of its key were in the last 60 seconds |
| `RelayAdmission.AdmittedFresh` | client/security/rust_core/src/net/relay.rs:254-257 | nothing admitted in any run has a timestamp more than 60 seconds from the clock |
| `RelayAdmission.OnlyFirstKeyAccepted` | client/security/rust_core/src/net/relay.rs:215-233 | over any run with at most 4096 senders, a sender's key passes if and only if it is the one it came with first |
| `RelayAdmission.NoncesIncrease` | client/security/rust_core/src/net/relay.rs:247-252 | over any run with fewer than 4096 keys admitted, the admitted nonces of a key strictly increase |
| `RelayLimits.FloodAdmitsAnything` | client/security/rust_core/src/net/relay.rs:33-39 | after any run, any 4097 or more requests in time from different new identities are all admitted and leave the relay admitting any request in time by any key of the run, whatever its nonce and used quota |
| `RelayLimits.ReplayAfterFlood` | client/security/rust_core/src/net/relay.rs:275-279 | in particular a message already admitted is admitted again |
| `RelayLimits.QuotaAfterFlood` | client/security/rust_core/src/net/relay.rs:259-273 | and a key gets one more admission in its minute, however many it had |
| `RelayLimits.FloodExists` | client/security/rust_core/src/net/relay.rs:33-39 | outside any finite set of keys there is a flood of any size at any time |
| `RelayLimits.RateGuaranteedIff` | client/security/rust_core/src/net/relay.rs:259-273 | 120 admissions a minute is a bound on all runs with at most N keys if and only if N < 4096 |
| `RelayLimits.NoRateBound` | client/security/rust_core/src/net/relay.rs:261-264 | with 4096 keys no number bounds the admissions of one key within a second |
| `RelayLimits.NoncesGuaranteedIff` | client/security/rust_core/src/net/relay.rs:247-252 | admitted nonces strictly increase in all runs with at most N admitted keys if and only if N < 4096 |
| `RelayLimits.PinsGuaranteedIff` | client/security/rust_core/src/net/relay.rs:218-233 | first keys are kept in all runs with at most N senders if and only if N <= 4096 |
| `RelayLimits.ImpostorAfterStrangers` | client/security/rust_core/src/net/relay.rs:220-229 | after any run, any 4097 or more different strangers make any other key of a sender pass |
| `RelayLimits.RestartRefusedIff` | client/security/rust_core/src/app.rs:146-146 | a sender whose nonces begin at 1 again has exactly as many requests refused as replays as the highest nonce on record for its key, and none after those |
| `RelayIdentity.IdentityGuaranteedIff` | client/security/rust_core/src/net/relay.rs:235-239 | among fewer than 4096 keys, 120 admissions a minute is a bound per identity if and only if no identity is spelled in two ways |
| `RelayIdentity.WrittenOnce` | client/security/rust_core/src/net/relay.rs:235-239 | keys in the form the program writes them have one spelling each |
| `RelayIdentity.LettersSpellTwice` | client/security/rust_core/src/net/relay.rs:100-105 | a key with a letter in its hexadecimal form has a second spelling that parses to the same key |
| `RelayIdentity.RespelledActsTwice` | client/security/rust_core/src/app.rs:289-298 | a validly signed packet whose sender becomes known under the upper-case spelling of its key between two timely arrivals is acted on twice by a new node, in a run of the network, with any verifier that does not look at the spelling |
| `RelayIdentity.RespelledExists` | client/security/rust_core/src/app.rs:289-298 | for any sender, target, payload and time there are such a packet and such surroundings |
| `SignedBytes.PurposesApart` | client/security/rust_core/src/net/relay.rs:20-21 | no share signature, relay signature or trust signature ever covers the bytes of another, so none can stand for another |
| `RelayForwarding.SignedPartInjective` | client/security/rust_core/src/net/relay.rs:43-61 | equal signed bytes mean equal sender, target, nonce, time and payload |
| `RelayForwarding.RelayNode.HandleRelayMessage` | client/security/rust_core/src/app.rs:227-382 | key choice and pinning, signature, admission, delivery to us whatever the hop count, or one forward; nothing is delivered or forwarded unless its signature verifies under the sender's known key or, without one, under the key it brings along |
| `RelayForwarding.ActedOnSigned` | client/security/rust_core/src/app.rs:283-382 | over all runs of any network, whatever a node acted on carried a signature that verified under the known key of its sender or, without one, under a key that had passed as the pinned one; it was delivered exactly if the node was its target, and forwarded only to the right next hop |
| `RelayForwarding.ActsIff` | client/security/rust_core/src/app.rs:283-382 | a node acts on a message if and only if it verifies under that key, the pin allows it, the verifier admits it and it can be routed |
| `RelayForwarding.RouteIff` | client/security/rust_core/src/app.rs:317-380 | delivered exactly when we are the target; forwarded exactly when we are not, one to eight hops are left, the queue is open and there is a next hop, to the target itself when connected and else to the first active relay, with one hop less and otherwise unchanged |
| `RelayForwarding.RelayNode.SendRelay` | client/security/rust_core/src/app.rs:183-224 | a signed request under the next nonce with eight hops, sent if and only if there is a secret key, a next hop and an open queue; without a secret key no nonce is used up |
| `RelayForwarding.ForwardsBounded` | client/security/rust_core/src/app.rs:319-382 | in any network run with arbitrary, changing and cyclic routes and injected messages, no copy is forwarded more than eight times |
| `RelayForwarding.ActsOnce` | client/security/rust_core/src/app.rs:310-382 | while fewer than 4096 keys have been admitted at a node, what it admits, delivers or forwards under one key has strictly increasing nonces |
| `RelayForwarding.MessageOnce` | client/security/rust_core/src/app.rs:283-382 | a node acts at most once on a sender's messages with a given nonce, provided it knew the same key of that sender, or none, both times, has seen at most 4096 senders without a known key and admitted fewer than 4096 keys |
| `RelayForwarding.PacketTwiceIff` | client/security/rust_core/src/app.rs:289-298 | one packet arriving twice at a new node, in time and verifying both times, is acted on twice if and only if it counts against different keys the two times |
| `Hex.KeyRoundTrip` | client/security/rust_core/src/dcnet/f2f.rs:43-50 | a key survives its hexadecimal form |
| `Hex.UpperSpells` | client/security/rust_core/src/identity.rs:208-219 | upper-case spelling decodes to the same bytes, and is another spelling if and only if there is a lower-case letter |
| `Hex.PlusSpells` | client/security/rust_core/src/identity.rs:212-220 | a plus sign in place of the leading zero of a byte decodes alike |
| `Bridge.SnapshotRoundTrip` | client/security/rust_core/src/dcnet/f2f.rs:695-753 | a snapshot written in any table order restores exactly the state it was taken of |
| `Bridge.WithoutMeaning` | client/security/rust_core/src/dcnet/f2f.rs:400-408 | leaving removes us and keeps everybody else, as often as before |
| `Bridge.WithoutAppend` | client/security/rust_core/src/dcnet/f2f.rs:400-408 | and in the same order |
| `Bridge.LoggedJoinsMeaning` | client/security/rust_core/src/dcnet/f2f.rs:351-368 | a join is logged for exactly the listed friends who are not yet in an existing channel, whatever their trust |
| `Bridge.LoggedJoinsAppend` | client/security/rust_core/src/dcnet/f2f.rs:351-368 | and in the order in which they are listed |
| `Recovery.CallAgrees` | client/security/rust_core/src/dcnet/f2f.rs:172-265 | replaying what a call logged has the call's effect, up to keys of friends added since their key was last set |
| `Recovery.CallRecoverableIff` | client/security/rust_core/src/dcnet/f2f.rs:142-153 | whichever appends fail and whenever checkpoints fall due or fail while a call is logged, a recoverable bridge is recoverable after the call if and only if the operations missing from the log make no difference: a single one without effect, or joins without which the same newcomers come in the same order |
| `Recovery.KeyCertainIff` | client/security/rust_core/src/dcnet/f2f.rs:172-192 | recovery finds a given key whatever it draws if and only if the log and snapshot fix it |
| `Recovery.RecoveryRefines` | client/security/rust_core/src/app.rs:111-121 | in every run of calls under any conditions, forced checkpoints and restarts whose calls since the beginning, or since some forced checkpoint that was written, were all safe in that sense, recovery gives the live uid, friends, addresses, trust levels, channels and participants, and every key set since its friend was last added or held at the last checkpoint |
| `Recovery.KeyRecovered` | client/security/rust_core/src/app.rs:111-121 | in such a run, a friend's key that was set, or held when a forced checkpoint was written, is recovered exactly, whatever recovery draws, as long as the friend was not added anew |
| `LogLoss.CalmCallSafe` | client/security/rust_core/src/dcnet/f2f.rs:142-153 | with successful appends and no checkpoint due, a call is safe and the log grows by exactly its operations |
| `LogLoss.FailedAppendsKeepIff` | client/security/rust_core/src/dcnet/f2f.rs:142-146 | when nothing of a call could be written, the live change survives a crash if and only if the call had no effect, or set the key that recovery finds anyway |
| `LogLoss.FailedAppendLoses` | client/security/rust_core/src/dcnet/f2f.rs:218-226 | a first friend whose record could not be appended is live and gone after a restart |
| `LogLoss.AutomaticCheckpointKeepsIff` | client/security/rust_core/src/dcnet/f2f.rs:147-152 | with checkpoints falling due at any of a call's operations, the call survives a crash if and only if the operations after the last checkpoint have the effect of all of them |
| `LogLoss.DistinctJoinsKeepIff` | client/security/rust_core/src/dcnet/f2f.rs:351-367 | for a join that names nobody twice: if and only if no join up to the last checkpoint had an effect |
| `LogLoss.CheckpointLoses` | client/security/rust_core/src/dcnet/f2f.rs:147-152 | a first friend added while a checkpoint is due is lost |
| `LogLoss.CheckpointSpares` | client/security/rust_core/src/dcnet/f2f.rs:351-367 | a checkpoint between the joins of an untrusted and a trusted friend loses nothing, although the call had an effect |
| `F2fBridge.F2fBridge.LogWal` | client/security/rust_core/src/dcnet/f2f.rs:142-153 | append, then checkpoint when due and possible, of the state before the operation; due exactly by timer or when the count reaches the limit |
| `F2fBridge.F2fBridge.CheckpointWal` | client/security/rust_core/src/dcnet/f2f.rs:156-163 | the forced-checkpoint event of the recovery theorems: snapshot of the current state and empty log, or no change when it cannot be written |
| `F2fBridge.WalStore.Append` | client/security/rust_core/src/storage.rs:133-149 | the log grows by the operation, or by nothing on failure |
| `F2fBridge.WalStore.Checkpoint` | client/security/rust_core/src/storage.rs:195-251 | the snapshot replaces the log, or nothing changes |
| `F2fBridge.F2fBridge.AddNewFriend` | client/security/rust_core/src/dcnet/f2f.rs:218-226 | the bridge and its disk make exactly the step that the recovery theorems assign to this call under these conditions; the trust level is capped at 2 |
| `F2fBridge.F2fBridge.DropFriend` | client/security/rust_core/src/dcnet/f2f.rs:227-230 | the bridge and its disk make exactly the step that the recovery theorems assign to this call under these conditions |
| `F2fBridge.F2fBridge.ChangeTrust` | client/security/rust_core/src/dcnet/f2f.rs:237-245 | the bridge and its disk make exactly the step that the recovery theorems assign to this call under these conditions; the trust level is capped at 2 |
| `F2fBridge.F2fBridge.SetEdgeKey` | client/security/rust_core/src/dcnet/f2f.rs:251-264 | the bridge and its disk make exactly the step that the recovery theorems assign to this call under these conditions; nothing is logged or changed for a stranger |
| `F2fBridge.F2fBridge.ImportEdgeKey` | client/security/rust_core/src/dcnet/f2f.rs:267-272 | readable text sets the key, unreadable text changes nothing |
| `F2fBridge.F2fBridge.SetMyUid` | client/security/rust_core/src/dcnet/f2f.rs:289-292 | the bridge and its disk make exactly the step that the recovery theorems assign to this call under these conditions |
| `F2fBridge.F2fBridge.NewChannel` | client/security/rust_core/src/dcnet/f2f.rs:318-349 | the bridge and its disk make exactly the step that the recovery theorems assign to this call under these conditions; nothing for a name in use; we are the first participant |
| `F2fBridge.F2fBridge.Join` | client/security/rust_core/src/dcnet/f2f.rs:351-389 | the bridge and its disk make exactly the step that the recovery theorems assign to this call under these conditions; the result lists exactly the new participants; in come exactly the listed friends, other than ourselves, with enough trust who were not in yet, each once |
| `F2fBridge.F2fBridge.Leave` | client/security/rust_core/src/dcnet/f2f.rs:391-408 | the bridge and its disk make exactly the step that the recovery theorems assign to this call under these conditions; every other channel, every other participant and the topic stay |
| `F2fBridge.F2fBridge.ApplyOpNoLog` | client/security/rust_core/src/dcnet/f2f.rs:172-216 | one replayed operation |
| `F2fBridge.F2fBridge.ApplySnapshot` | client/security/rust_core/src/dcnet/f2f.rs:722-753 | the state a snapshot describes |
| `F2fBridge.F2fBridge.Recover` | client/security/rust_core/src/app.rs:111-121 | a restart over the disk of a crashed bridge: snapshot first, then the whole log; if the crashed one was recoverable, the new one agrees with it and is recoverable in turn |
| `Broadcast.ExpandShare` | client/security/rust_core/src/dcnet/f2f.rs:760-772 | exactly `len` bytes, byte i taken from hash block i / 32 |
| `Broadcast.PairwiseShares` | client/security/rust_core/src/dcnet/f2f.rs:532-551 | the nested loops leave every buffer full length, equal to the XOR of its owner's pads with everybody else, and the XOR of all buffers zero |
| `Broadcast.MaskFollowsPad` | client/security/rust_core/src/dcnet/f2f.rs:540-552 | a participant's mask changes with the pad it shares with any other by exactly the change of the pad |
| `Broadcast.XorOfAll` | client/security/rust_core/src/dcnet/f2f.rs:555-577 | the XOR of all broadcasts is the sender's payload; nothing when the sender is not listed |
| `Broadcast.StartsIff` | client/security/rust_core/src/dcnet/group.rs:30-40 | without the malicious, enough members are left exactly when two members are not marked malicious |
| `Broadcast.BroadcastMessage` | client/security/rust_core/src/dcnet/f2f.rs:505-589 | no group, no round; alone we get the text back; otherwise a round, under the next number, if and only if two members are not malicious and we are listed, and it yields the text if and only if the text is shorter than 2^32 bytes |

## Left out

- Mesh delivery in general: shares that arrive before their start are dropped and an aborted collector loses its shares, so delivery is proved under the stated order only.
- Contention with overlapping rounds: `MeshContention` plays the rounds one after the other; when messages of later rounds arrive before a round is over, `MeshDelivery.FailureFreeDelivery` still holds of that round, but when the other texts come through is not followed further.
- Several channels: one channel is modelled; a driver belongs to one.
- Order of outgoing messages: they are sets, since the network may reorder them anyway.
- Collectors as separate objects: a collector is a value inside its owner's table, replaced rather than updated in place.
- Wrap-around of 64-bit round ids and nonces.
- Clock readings within one call: a call sees one time.
- Signatures on our own outgoing shares, and what an adversary without keys could inject into a mesh: the handlers check incoming signatures, and in the mesh theorems any outcome of that check is allowed for messages that honest nodes sent.
- Anonymity beyond the shares: start messages name the initiators, and by `Mesh.SenderIsLowest` the sender is the lowest of them; `Anonymity` speaks of the shares alone.
- Two senders colliding in one round, and extraction from a partial collector after the deadline: both rest on collision resistance of SHA-256.
- Unlogged bridge changes (topic, current channel, reputation sync), DC-Net group membership behind a channel, and reputation after a broadcast.
- F2fBridge.WalStore.Append: whether a write succeeds is an input; the bytes of the log file, its size limit and torn lines are not modelled.
- F2fBridge.WalStore.Checkpoint: either takes effect as a whole or not at all; a crash between renaming the snapshot and emptying the log is not modelled.
- F2fBridge.F2fBridge: a bridge without a log attached.
- Broadcast.BroadcastMessage: returns the round number, the number of parties and the text instead of the line of text made of them; invalid UTF-8 after truncation is not replaced.
- Display forms: shortened fingerprints and formatted status.
- `keys_at_level`, `trusted_introducers`, router maintenance (`add_path`, `remove_target`), sync requests and the simulation share: simple lookups and inserts.
- Sockets, tasks, web and foreign interfaces, ratchet, floating-point reputation, identity files.
