# Verified model of the BlindBox protocol and the live secure session

This project models the offline-delivery protocol of I2PChat (slots on write-once replicas, rotating
roots, a polling receiver, the replica server) and its live session (handshake, encrypted frames,
simultaneous connect, file transfer, lifecycle bookkeeping, group fan-out) in Dafny, and proves
properties of whole runs of these models. `dafny verify dfyconfig.toml` checks everything.

Each module models one component. What the program computes is a function on values; what it does in
place (a class with fields, a loop over pending tasks, a queue) is a class or method proved equal to
that function; what it promises is a lemma about the function or about every run of a step system.

## How the world is modelled

- **Replicas and network** (`Replicas`): a replica is a write-once map. At every request other writers
  may have filled free slots, and the request may fail, be refused, or take effect with its reply lost;
  both are arbitrary functions of a clock, so one statement covers every interleaving. Replicas that a
  parallel put has reached but not yet counted are covered by those other writers.
- **Cryptography** is ideal. Hash and HKDF results are identified with their inputs; a sealed blob opens
  under its own key only; signatures and tags cannot be made without the key; X25519 commutes
  (section 6.1 of RFC 7748). In `FrameStream` MAC and cipher are arbitrary functions under the
  assumption that MACs are not forged.
- **Clocks, randomness, user decisions, timeouts, failing writes and failing removals** are parameters of
  the step in which they matter. Two readings of the clock within one step are one.
- **Concurrency**: a segment without a suspension point is one step; steps interleave freely. Two models are
  coarser. In `Conversation` a whole send is one turn, and so is reading one slot; what others do meanwhile is
  left to the other writers of the replicas. In `Handshake` a handshake frame is one step although its handler
  awaits, so a start or a disconnect in the middle of one is not covered.

## Where the code does not do what one might expect

Each point names the theorem that says exactly when it happens, and where there is one, a concrete run.

- A queued frame's slot is safe from other blobs exactly when `put_quorum` equals the number of replicas.
  Overlapping quorums are not enough, since the receiver takes the first blob that opens
  (`LosesSlotIffNotUnanimous`); a put that timed out half-way leaves such a blob behind.
- The send index of a peer stands in several copies: on disk, in memory for the selected peer, in each
  group send (which reads it before it takes the lock) and in each poll of an unselected peer (which writes
  it back). A send can start from any of them. So two frames can be reported queued at one index exactly
  when two quorums fit side by side or the root changed in between (`ReceiptsShareIff`,
  `StaleCollidesIffQuorumsDisjoint`); `GroupThenDirectCollides` is a run of two sends strictly one after the
  other. While no timeout is late and no save moves its window back, the receiver hands on at most one of
  the two (`SharedIndexLosesOne`).
- The snapshot a send writes back also holds the receiving window. A send that ends after a poll moves the
  window back to where the send found it. A slot can then be handed on a second time without any late
  timeout, if some box serves another blob there or the root changed in between (`RepeatsIff`,
  `SendSaveRepeatsSlot`); if the boxes hold only copies that are still remembered, the window is stuck
  (`SaveRewindsAndPins`, `KnownBasePinnedIff`). What survives every such save: no digest is handed on twice
  while it is remembered, and every delivery was sealed for its slot (`RunKeepsReceiver`).
- An offline send, or a poll of an unselected peer, writes back the whole snapshot it started with. Whether the two ends then still agree
  for ever is decided by the responder's epoch and root and by the offers under way
  (`SaveAgreesIffSafe`); `DisturbedSaveSplitsRoots` is a run that ends with two secrets for one epoch. A
  harmless save, which finds its epoch and drops no offered root, also keeps epochs growing and the
  stored roots right (`RunKeepsInv`, `RunExtends`).
- A timeout that strikes after a blob was taken, while other reads are being cancelled, leaves the slot
  unconsumed. A second copy of the frame can then be handed on (`RepeatsIff`, `RepeatIsSecondCopy`);
  without a second copy the slot pins the window (`LateTimeoutPinsForGood`).
- The window moves only past a slot that yields something (`BaseCanMoveIff`, `PinnedIff`). A slot that holds
  nothing taken under a root still tried, be it empty under those roots or always refused, pins it for good,
  and once the sender is a window ahead nothing later is read (`ClosedBasePinsForGood`). A frame whose root
  was retired and has expired is such a case (`BaseMovesIffStillTried`, `ForgottenRootPinsForGood`).
- The server treats an expired file as present when removing it fails (`ServesExpiredIffStuck`), its file
  count passes the limit when too few files can be removed (`OverfillsIff`, `FailedRemovalOverfills`), and
  a collection tick on a store at its file limit evicts an unexpired file (`TickEvictsIffFull`).
- A failed dial empties the session slot even when an accepted session stands there, so both ends can
  lose the stream that had won; and the larger id's stream can survive. `SmallerIdWinsIff` and
  `LargerIdWinsIff` say exactly when either stream survives, `LateFailureDropsTheWinner` and
  `LargerIdCanWin` are such runs.
- A session can be complete while it still holds an ephemeral private number, after a handshake was started
  again or an INIT was accepted but not answered once keys were in place (`CompleteIsErasedIff`,
  `InterruptedLeavesPrivate`).
- Framing that raises uses up a sequence number, and the peer accepts nothing sent after it
  (`GapStopsStream`).
- `hkdf_expand` refuses a 255th block, which section 2.3 of RFC 5869 allows (`Hkdf.Expand`).
- After 1024 failures in a row scheduling a retry raises, because the power of two no longer converts to a
  floating-point number (`BackoffCounts`).
- A file name with `|` makes the header unreadable and the transfer silently vanishes (`FileArrives`).
- Priming a group's numbers strips the group id, counting does not (`PrimeReachesIff`); a group state
  strips its own id, so the two meet there.
- A session manager call without a peer key sets the aggregate state whatever the peers are in
  (`CallKeepsInvIff`).

## Model

| member | source | states |
|---|---|---|
| BlindBoxRoots.PeerRoots.EnsurePendingRoot | i2pchat/core/i2p_chat_core.py:9563-9633 | a pending root is re-offered unchanged; otherwise a new one is drawn exactly when there is no root, rotation is forced, or age or messages call for it |
| BlindBoxRoots.PeerRoots.CommitPendingRoot | i2pchat/core/i2p_chat_core.py:9635-9710 | only an ACK of exactly the pending epoch makes the pending root current; the old root is retired with its grace time |
| BlindBoxRoots.PeerRoots.HandleRootSignal | i2pchat/core/i2p_chat_core.py:9941-10021 | a newer or first root is taken and acknowledged, a repeated one acknowledged again, anything else ignored |
| BlindBoxRoots.PruneKeepsNewest | i2pchat/core/i2p_chat_core.py:4054-4066 | pruning keeps exactly the newest unexpired retired roots, up to the limit |
| RootExchange.RootsAgree | i2pchat/core/i2p_chat_core.py:9563-9710 | in every state that a run with harmless saves reaches, under loss, repetition and reordering, the responder holds the initiator's current or pending root, and equal epochs mean equal secrets |
| RootExchange.RunKeepsInv | i2pchat/core/i2p_chat_core.py:9941-10054 | over runs whose saves are harmless, the invariant behind it: both logs of past roots share one history, offers in flight are near it, and each stored list is the newest part of its log |
| RootExchange.RunExtends | i2pchat/core/i2p_chat_core.py:9635-9710 | over runs whose saves are harmless epochs only grow and retired roots are never rewritten |
| RootExchange.CommitsWhatResponderHolds | i2pchat/core/i2p_chat_core.py:10023-10054 | an ACK that changes the initiator commits the very secret the responder holds as current |
| RootExchange.ResendCompletes | i2pchat/core/i2p_chat_core.py:10056-10101 | after any losses one re-sent offer and its ACK bring both ends to the same root |
| RootGuarantees.RetiredIsTried | i2pchat/core/i2p_chat_core.py:4089-4110 | the retired roots tried for decryption are exactly the newest `maxPrevious` unexpired ones |
| RootGuarantees.LateBlobOpens | i2pchat/core/i2p_chat_core.py:4089-4110 | over whole runs with harmless saves: a blob sealed earlier opens later if and only if the reader still tries its own root of that epoch |
| RootGuarantees.InitiatorBlobOpens | i2pchat/core/i2p_chat_core.py:9984-10012 | what the initiator seals opens at the responder unless the responder moved on and keeps no root, or the grace time ran out (both directions) |
| RootGuarantees.ResponderBlobOpens | i2pchat/core/i2p_chat_core.py:9635-9710 | what the responder seals opens at the initiator if and only if the initiator has committed that epoch |
| RootGuarantees.RetiredRootsExpireAfterGrace | i2pchat/core/i2p_chat_core.py:9984-10012 | over every run, whatever its saves, each retired root was current until one step of the run and expires one grace time after that step |
| RootAgreement.SafeRunsAgree | i2pchat/core/i2p_chat_core.py:9563-9710 | the ends agree in every state of every run whose saves are safe, also where a save moved an epoch back |
| RootAgreement.SaveAgreesIffSafe | i2pchat/core/i2p_chat_core.py:4168-4185 | in every reachable state a whole-snapshot save by a send in flight keeps agreement for ever if and only if the copy has the responder's epoch, or is one behind with the responder's root pending, and any newer offer under way is what it has pending |
| RootAgreement.HarmlessIsSafe | i2pchat/core/i2p_chat_core.py:6734-6756 | a save that finds its epoch unchanged and drops no offered pending root is safe |
| RootAgreement.DroppedOfferDiverges | i2pchat/core/i2p_chat_core.py:3747-3787 | in every reachable state, dropping an already offered pending root lets agreement break |
| RootGuarantees.DisturbedSaveSplitsRoots | i2pchat/core/i2p_chat_core.py:6734-6756 | a concrete run of ten steps after which both ends hold different secrets for the same epoch |
| KeySchedule.MySendIsYourReceive | i2pchat/blindbox/blindbox_key_schedule.py:70-142 | my send slot is my peer's receive slot for every index and epoch, errors included |
| KeySchedule.ContextInjective | i2pchat/blindbox/blindbox_key_schedule.py:94-142 | the derivation context determines pair, direction, epoch and index for ids without the separator |
| KeySchedule.SlotsNeverShare | i2pchat/blindbox/blindbox_key_schedule.py:94-142 | equal keys mean the same root, pair, flow, epoch and index |
| KeySchedule.BarsCollide | i2pchat/blindbox/blindbox_key_schedule.py:47-76 | with the separator inside an id two different pairs share every slot |
| Replicas.PutOnceGrows | i2pchat/blindbox/blindbox_local_replica.py:84-124 | one PUT never changes a filled slot, and an OK means the slot holds this blob |
| BlobClient.BlindBoxClient.PutWithRetries | i2pchat/blindbox/blindbox_client.py:627-654 | the retry loop equals its specification for every pattern of lost replies |
| BlobClient.BlindBoxClient.CountAnswer | i2pchat/blindbox/blindbox_client.py:297-325 | one answer: OK counts, EXISTS counts only after reading the same blob back |
| BlobClient.BlindBoxClient.PutBlob | i2pchat/blindbox/blindbox_client.py:278-392 | the put loop equals its specification: it stops at the quorum and keeps the failures in order |
| PutQuorum.AcceptedMeansQuorum | i2pchat/blindbox/blindbox_client.py:278-392 | an accepted put over distinct replicas leaves at least `quorum` of them holding exactly this blob, then and ever after |
| PutQuorum.OverlapExcludes | i2pchat/blindbox/blindbox_client.py:371-392 | two different blobs never both hold a quorum of one slot when quorums overlap |
| PutQuorum.SplitIffQuorumsDisjoint | i2pchat/blindbox/blindbox_client.py:288-326 | two different blobs can both be accepted in one slot if and only if twice the quorum fits the replica list |
| PutQuorum.AmbiguousIffNotUnanimous | i2pchat/blindbox/blindbox_client.py:326-384 | an accepted put can leave another blob in the slot on some replica if and only if the quorum is smaller than the replica list |
| PutQuorum.LostReplyIsRecovered | i2pchat/blindbox/blindbox_client.py:345-369 | a write whose reply was lost is recognised on the retry and counted |
| PutQuorum.RepeatedAddressCountsTwice | i2pchat/blindbox/blindbox_client.py:288-326 | an address listed twice reaches a quorum of two with one copy |
| SlotSend.Sender.PutIntoSlot | i2pchat/core/i2p_chat_core.py:6726-6756 | one put into the slot at the send index: accepted, timed out, failed, or taken by another frame |
| SlotSend.Sender.PutFrameWithSlotRetry | i2pchat/core/i2p_chat_core.py:6708-6757 | the retry loop equals its specification, and the saved index always equals the one in memory |
| SlotSend.Sender.SendTextChunks | i2pchat/core/i2p_chat_core.py:6860-6928 | chunks are sent in order and the loop stops at the first that is not queued |
| SlotGuarantees.SendFrameIsDense | i2pchat/core/i2p_chat_core.py:6708-6757 | under conflicts, losses, timeouts and other writers every index passed was seen taken on a configured box, at most `limit + 1` PUTs are made, and a queued frame sits at a quorum in the last index passed |
| SlotGuarantees.RunKeepsOutbox | i2pchat/core/i2p_chat_core.py:6832-6928 | over every run of direct sends of one copy of the state: every index below the send index is taken on a configured box, receipts stand in strictly increasing slots, each still at a quorum |
| StoredCopies.StaleRunKeepsLedger | i2pchat/core/i2p_chat_core.py:6708-6757 | over every run of sends, each from any index reached before it and under any roots: every index below the highest stays taken, every receipt stays at a quorum, and while quorums overlap no two receipts are for one slot under one key |
| StoredCopies.CopiesAreStale | i2pchat/core/i2p_chat_core.py:4280-4328 | whatever copies of the index are loaded, used for sends and written back in between, the sends are sends from indexes reached before |
| StoredCopies.ReceiptsShareIff | i2pchat/core/i2p_chat_core.py:7345-7372 | two frames can be reported queued at one index if and only if twice the quorum fits the replica list or the root changed in between, over runs of the copies a node has and over sends from any index reached |
| StoredCopies.GroupThenDirectCollides | i2pchat/core/i2p_chat_core.py:4824-4838 | a concrete run: a group send and then a text to the selected peer, one after the other, are queued in the same slot |
| SlotGuarantees.QueuedSlotIsExclusive | i2pchat/core/i2p_chat_core.py:6832-6928 | while quorums overlap no other blob ever reaches a quorum in a slot with a receipt |
| SlotGuarantees.NoncesAdvance | i2pchat/core/i2p_chat_core.py:6726-6733 | a queued blob was sealed during its own send |
| SlotGuarantees.StaleCollidesIffQuorumsDisjoint | i2pchat/core/i2p_chat_core.py:7345-7354 | two sends that start from the same stale index can both be reported queued in one slot if and only if twice the quorum fits the replica list |
| SlotReceive.SeenHashes.RememberHash | i2pchat/core/i2p_chat_core.py:6139-6147 | the in-place set and queue equal their specification after every call |
| SlotReceive.BlindBoxState.MarkSlotConsumed | i2pchat/storage/blindbox_state.py:25-34 | the index is consumed and the base moves to the first index not consumed |
| SlotReceive.Poller.ReadFirstAccepted | i2pchat/blindbox/blindbox_client.py:428-532 | the loop over pending reads equals its specification for every order of answers and every deadline |
| SlotReceive.Poller.PollOneSlot | i2pchat/core/i2p_chat_core.py:6408-6506 | one slot is read under each root candidate until one yields a blob, and is then consumed |
| SlotReceive.Poller.PollOnce | i2pchat/core/i2p_chat_core.py:6400-6506 | one pass over the window equals its specification |
| ReceiveGuarantees.QueueHasNoRepeats | i2pchat/core/i2p_chat_core.py:6139-6147 | the bounded queue of digests never holds one twice |
| ReceiveGuarantees.EveryReadEnds | i2pchat/blindbox/blindbox_client.py:446-532 | however a read ends, every started task has completed or been cancelled, never both |
| ReceiveGuarantees.ReadHandsOnAtMostOne | i2pchat/blindbox/blindbox_client.py:428-532 | a read hands on at most one blob: new, served by a configured box from this slot, sealed for exactly this slot; set and queue still agree |
| ReceiveGuarantees.FirstAnswerWins | i2pchat/blindbox/blindbox_client.py:484-523 | the first box to answer decides, whatever the others hold |
| ReceiveGuarantees.CandidatesAscendFromBase | i2pchat/core/i2p_chat_core.py:4191-4217 | a poll reads unconsumed slots in ascending order from the base; the backtrack range is always empty |
| StoredWindows.RunKeepsReceiver | i2pchat/core/i2p_chat_core.py:6408-6506 | over every run of loads, saves and reads of any copies of the window, whenever timeouts strike: set and queue of digests agree, no digest is handed on again while it is remembered, every delivery was sealed for the slot it was read from, and the base of every copy is its least unconsumed slot |
| StoredWindows.CurrentRunKeepsOnce | i2pchat/core/i2p_chat_core.py:6500-6506 | over every run without late timeouts in which no read or save uses a copy that is not the one on disk, every slot is handed on at most once |
| StoredWindows.PollsAreReads | i2pchat/core/i2p_chat_core.py:6400-6506 | every run of polls of one copy is such a run |
| StoredWindows.RepeatsIff | i2pchat/core/i2p_chat_core.py:3747-3787 | a slot can be handed on twice if and only if timeouts may strike late and there are two boxes, or a copy of the window may be used or written back after the stored one moved on and there is a box |
| StoredWindows.SendSaveRepeatsSlot | i2pchat/core/i2p_chat_core.py:7345-7372 | a concrete run without late timeouts: a send loads its copy, a poll takes the slot, the send saves, the next poll takes another blob from the same slot |
| StoredWindows.RepeatIsSecondCopy | i2pchat/core/i2p_chat_core.py:6452-6464 | a run that hands a slot on twice had a late timeout and two boxes, or used a stale copy; and the second blob is another copy unless the first was already forgotten |
| StoredWindows.SharedIndexLosesOne | i2pchat/core/i2p_chat_core.py:6408-6506 | of two frames queued at one index a receiver hands on at most one, over every run without late timeouts and stale copies of the window |
| ReceiveGuarantees.QueuedFrameIsTheOnlyOne | i2pchat/blindbox/blindbox_client.py:428-532 | with a quorum of all replicas, reading a queued frame's slot hands on that frame or nothing |
| ReceiveGuarantees.QueuedFrameArrives | i2pchat/blindbox/blindbox_client.py:484-523 | and it is handed on as soon as one box answers |
| ReceiveGuarantees.LosesSlotIffNotUnanimous | i2pchat/blindbox/blindbox_client.py:428-532 | a frame reported queued can lose its slot to another blob if and only if the quorum is smaller than the replica list |
| Pinning.KeysMeet | i2pchat/blindbox/blindbox_key_schedule.py:70-142 | the receiver that tries the sender's root looks under the sender's keys |
| Pinning.PollMovesIff | i2pchat/core/i2p_chat_core.py:6400-6506 | a poll moves the base if and only if its reads of the base slot yield a blob |
| Pinning.BaseCanMoveIff | i2pchat/core/i2p_chat_core.py:6400-6506 | some order of answers and losses lets the next poll move the base if and only if a configured box holds, under the key of a root that is tried, a new blob that opens there and is taken |
| Pinning.TakenSlotAnswers | i2pchat/core/i2p_chat_core.py:4191-4217 | a taken slot answers with a blob at some configured box, now and ever after |
| Pinning.ClosedBasePinsForGood | i2pchat/core/i2p_chat_core.py:4191-4217 | a base slot from which the boxes, now or after any other writers, can serve nothing that is taken under any root tried, empty ones included, pins the window over every run of polls, and nothing past the window is ever handed on |
| PinnedWindow.PinnedIff | i2pchat/core/i2p_chat_core.py:6400-6506 | for a peer whose slots were handed on once each: no run of polls under these roots moves the base, whatever is lost, whichever of the frames that can be taken is taken, and whenever answers, deadlines and other writers come, if and only if the boxes can serve nothing in its slot under any root tried but blobs that do not open there or are never taken |
| PinnedWindow.KnownBasePinnedIff | i2pchat/core/i2p_chat_core.py:6400-6506 | the same for a peer whose base slot was handed on before, by a late timeout or before the window was moved back, while no further timeout is late and its copies fit what is remembered: pinned if and only if nothing else can be served there but remembered copies |
| PinnedWindow.KnownBasePinsForGood | i2pchat/core/i2p_chat_core.py:6400-6506 | one half of it over runs of polls that try any roots |
| PinnedWindow.LateTimeoutPinsForGood | i2pchat/core/i2p_chat_core.py:6452-6464 | after a timeout that struck late, a slot from which the boxes can serve nothing but that copy, under whichever roots are tried, pins the window for good, if at least a window of digests is remembered |
| PinnedWindow.SaveRewindsAndPins | i2pchat/core/i2p_chat_core.py:7345-7372 | a save that moves the window back to a slot that holds nothing but remembered copies leaves it stuck there over every later run of polls, if they fit what is remembered |
| ForgottenRoots.TriedKeyIff | i2pchat/blindbox/blindbox_key_schedule.py:94-142 | the receiver looks under the slot's own key exactly when it tries the slot's own root |
| ForgottenRoots.BaseMovesIffStillTried | i2pchat/core/i2p_chat_core.py:4089-4110 | with a blob waiting in the base slot and after any run of the root exchange with harmless saves, a poll can move the base if and only if the receiver still tries the root the blob was sealed under |
| ForgottenRoots.ForgottenRootPinsForGood | i2pchat/core/i2p_chat_core.py:4054-4066 | a frame left under a root that no poll tries any more, expired or dropped for newer ones, pins the window over every run of those polls |
| Conversation.RunKeepsTalk | i2pchat/core/i2p_chat_core.py:6708-6757 | sender and receiver invariants hold together over every interleaving of sends from any copies of the index and reads from any copies of the window |
| Conversation.QueuedFramesArriveOnceUnchanged | i2pchat/core/i2p_chat_core.py:6408-6506 | over every such interleaving with a quorum of all replicas: from a slot with a receipt exactly the frame of that receipt is handed on, and no two receipts are for one slot under one key; each slot is handed on at most once while no timeout is late and no read or save uses a stale window; receipts stand in increasing slots while no send starts behind |
| Conversation.PollerFindsABlob | i2pchat/core/i2p_chat_core.py:4191-4217 | over every interleaving, while frames are outstanding, a root that derives the logged key finds a blob in the receiver's next slot on some configured box that answers |
| ReplicaServer.Server.PruneStore | i2pchat/blindbox/blindbox_server_example.py:287-314 | the in-place pass equals its specification for every pattern of failing removals |
| ReplicaServer.Server.RemoveIfExpired | i2pchat/blindbox/blindbox_server_example.py:272-284 | a file goes exactly when it has expired and can be removed |
| ReplicaServer.Server.HandlePut | i2pchat/blindbox/blindbox_server_example.py:715-731 | existence check, prune and write as one step |
| ReplicaServer.Server.HandleGet | i2pchat/blindbox/blindbox_server_example.py:734-765 | a stored unexpired body, or a miss |
| ServerGuarantees.OldestFirstSorts | i2pchat/blindbox/blindbox_server_example.py:303-303 | the eviction order is a permutation of the live files sorted by age |
| ServerGuarantees.EvictsShortestPrefix | i2pchat/blindbox/blindbox_server_example.py:303-314 | what is evicted is an oldest-first prefix, and every shorter one leaves too little room |
| ServerGuarantees.PruneMakesRoom | i2pchat/blindbox/blindbox_server_example.py:287-314 | a prune that reports room leaves room in bytes even if removals failed, and in files if none did |
| ServerGuarantees.PruneRemovesExactly | i2pchat/blindbox/blindbox_server_example.py:287-314 | exactly which files are left |
| ServerGuarantees.EvictsOldestFirst | i2pchat/blindbox/blindbox_server_example.py:303-313 | a live file is evicted only if every older removable one is |
| ServerGuarantees.RoomIff | i2pchat/blindbox/blindbox_server_example.py:301-314 | room is reported if and only if the incoming bytes fit beside the live files that cannot be removed |
| ServerRuns.RunKeepsBounds | i2pchat/blindbox/blindbox_server_example.py:287-337 | over every interleaving unexpired bytes stay within the limit even if removals fail, and the file count if they succeed |
| ServerRuns.FailedRemovalOverfills | i2pchat/blindbox/blindbox_server_example.py:308-312 | with one failing removal the file count passes its limit |
| ServerRuns.OverfillsIff | i2pchat/blindbox/blindbox_server_example.py:287-314 | an accepted PUT leaves more unexpired files than the limit if and only if too few of the oldest files, tried one by one until there was room, could be removed |
| ServerRuns.LossHasCause | i2pchat/blindbox/blindbox_server_example.py:287-314 | a file disappears only as expired or in the prefix that made room |
| ServerRuns.NeverOverwritten | i2pchat/blindbox/blindbox_server_example.py:715-731 | over every run a key finds exactly the file first stored until a step removes it |
| ServerRuns.PutOfStoredKey | i2pchat/blindbox/blindbox_server_example.py:715-720 | EXISTS if and only if the stored file is unexpired or cannot be removed, and then nothing changes |
| ServerRuns.PutOfNewKey | i2pchat/blindbox/blindbox_server_example.py:715-731 | the exact answer for a new key |
| ServerRuns.GetAfterPut | i2pchat/blindbox/blindbox_server_example.py:734-765 | within its time to live a GET answers what the accepted PUT stored |
| ServerRuns.ServesExpiredIffStuck | i2pchat/blindbox/blindbox_server_example.py:743-758 | an expired blob is served if and only if its removal fails |
| ServerRuns.TickEvictsIffFull | i2pchat/blindbox/blindbox_server_example.py:340-347 | a collection tick evicts unexpired files if and only if the file limit is reached |
| ServerRuns.ServerIsMapWhenCalm | i2pchat/blindbox/blindbox_local_replica.py:84-124 | while nothing expires and nothing must go, the server answers like the plain write-once map |
| ServerRuns.LocalReplica.HandlePut | i2pchat/blindbox/blindbox_local_replica.py:84-111 | the in-memory replica never overwrites and refuses past its bound |
| RateLimiter.PutLimiter.Purge | i2pchat/blindbox/blindbox_server_example.py:377-382 | both queues lose exactly their expired heads |
| RateLimiter.PutLimiter.AdmitPut | i2pchat/blindbox/blindbox_server_example.py:385-400 | admission equals its specification |
| RateLimiter.EveryWindowWithinRates | i2pchat/blindbox/blindbox_server_example.py:377-400 | with a non-decreasing clock every window of 60 seconds over the whole history is within both limits; the queues are sorted and in step |
| RateLimiter.AdmitsIffWindowHasRoom | i2pchat/blindbox/blindbox_server_example.py:385-400 | a PUT is admitted if and only if the window that ends now has room |
| RateLimiter.ClockBackOverfills | i2pchat/blindbox/blindbox_server_example.py:377-382 | a clock that runs back lets a window hold more than the limit |
| Handshake.LivePeerSession.ResetCrypto | i2pchat/core/live_peer_session.py:81-112 | a reset session is as new |
| Handshake.LivePeerSession.InstallSessionKeys | i2pchat/core/i2p_chat_core.py:9270-9317 | directional keys are put in place and the private number is erased, or nothing changes |
| Handshake.LivePeerSession.FinalizeSecureChannel | i2pchat/core/i2p_chat_core.py:10340-10384 | completion is idempotent and waits for a pending trust decision |
| Handshake.LivePeerSession.HandleHandshakeMessage | i2pchat/core/i2p_chat_core.py:10103-10323 | INIT, RESP and FINISHED with every refusal, failed write and rejected point |
| HandshakeGuarantees.SubkeysMirror | i2pchat/crypto.py:55-80 | both roles derive each other's keys, and the two directions differ |
| HandshakeGuarantees.RunKeepsInv | i2pchat/core/i2p_chat_core.py:10103-10384 | the invariant over every run with a network that forges what ideal cryptography allows |
| HandshakeGuarantees.CompleteMeansAgreement | i2pchat/core/i2p_chat_core.py:10285-10384 | a complete session has the keys of its transcript and a verified FINISHED; with an honest peer key, that peer put the mirrored keys in place for the same transcript |
| HandshakeGuarantees.SameTranscriptSameKeys | i2pchat/core/i2p_chat_core.py:9270-9301 | same transcript, opposite roles: send keys are receive keys |
| HandshakeGuarantees.KeysNameTheExchange | i2pchat/crypto.py:55-80 | equal keys mean the same role, nonces and ephemeral keys |
| HandshakeGuarantees.HonestExchangeCompletes | i2pchat/core/i2p_chat_core.py:10139-10300 | undisturbed, both sides complete over one transcript with their private numbers erased |
| HandshakeGuarantees.EventLeavesIff | i2pchat/core/i2p_chat_core.py:9303-9317 | one event: exactly what leaves a private number beside installed keys, and exactly what removes it |
| HandshakeGuarantees.LeftOverIff | i2pchat/core/i2p_chat_core.py:10186-10220 | over every run of a session a private number stands beside installed keys if and only if a start, or an accepted INIT that did not go through, left one there and no exchange went through after it |
| HandshakeGuarantees.CompleteIsErasedIff | i2pchat/core/i2p_chat_core.py:10340-10384 | a complete session has its private number erased if and only if no such event came last |
| HandshakeGuarantees.InterruptedLeavesPrivate | i2pchat/core/i2p_chat_core.py:10186-10220 | an INIT whose RESP cannot be written leaves a private number in a session that then completes |
| HandshakeGuarantees.TranscriptTextInjective | i2pchat/core/i2p_chat_core.py:5277-5295 | the signed text determines the whole transcript for addresses without the separator |
| Hkdf.Expand | i2pchat/crypto.py:33-52 | the first bytes of the standard's output; an error if and only if the length is not positive or needs a 255th block |
| Hkdf.OkmExtends | i2pchat/crypto.py:33-52 | a shorter output is the start of a longer one |
| FrameStream.SecureStream.ComputeMac | i2pchat/crypto.py:108-143 | the buffer built field by field is the specified MAC input |
| FrameStream.SecureStream.FrameOut | i2pchat/core/i2p_chat_core.py:2370-2416 | framing uses up a number even where it raises |
| FrameStream.SecureStream.FrameIn | i2pchat/core/i2p_chat_core.py:10669-10804 | one turn of the receive loop: accept, or stop |
| FrameStream.MacInputInjective | i2pchat/crypto.py:108-143 | the MAC input determines type, number, flags, message id and ciphertext |
| FrameStream.RunKeepsPrefix | i2pchat/core/i2p_chat_core.py:10701-10804 | against a network that drops, repeats, reorders, reflects and forges, accepted frames are a prefix of the sent ones, in order and once each |
| FrameStream.AcceptedIsPrefixOfSent | i2pchat/core/i2p_chat_core.py:10701-10804 | the same from the end of the handshake on, in both directions |
| FrameStream.OneKeyReflects | i2pchat/crypto.py:55-80 | with one key for both directions a reflected frame is accepted, so the directional keys are what the prefix property rests on |
| FrameStream.HonestFrameAcceptedIff | i2pchat/core/i2p_chat_core.py:10701-10804 | an honest frame is accepted if and only if its number is next and its body survives the padding |
| FrameStream.GapStopsStream | i2pchat/core/i2p_chat_core.py:2390-2416 | after a frame that could not be made, whatever is still under way, nothing sent later is ever accepted |
| Padding.BalancedRoundTrip | i2pchat/core/i2p_chat_core.py:2418-2442 | the envelope gives back every body in whole blocks of 128 |
| Padding.OffRoundTripIff | i2pchat/core/i2p_chat_core.py:2418-2442 | without padding a body comes back if and only if it does not start like an envelope |
| Padding.SealOpens | i2pchat/blindbox/blindbox_blob.py:25-119 | sealing then opening returns the frame, in whole buckets |
| Padding.OpensIff | i2pchat/blindbox/blindbox_blob.py:76-119 | opening yields a frame if and only if the plaintext carries it for this direction, index and tag |
| Padding.OtherSlotDoesNotOpen | i2pchat/blindbox/blindbox_blob.py:107-117 | a sealed blob opens for exactly its own direction, index and tag |
| Codec.FindMagic | i2pchat/protocol/protocol_codec.py:61-74 | the sliding window finds the first magic number, or gives up exactly past the limit |
| Codec.MagicAfterJunk | i2pchat/protocol/protocol_codec.py:61-74 | junk delays the reader only if it holds a whole magic number |
| Codec.ReadsAfterJunk | i2pchat/protocol/protocol_codec.py:61-92 | a frame is read back after any such junk, and the reader stands right behind it |
| Codec.EncodeReads | i2pchat/protocol/protocol_codec.py:40-92 | encoding then reading gives the frame back with its id cut to 64 bits |
| Codec.StreamReadsBack | i2pchat/protocol/protocol_codec.py:57-92 | a stream of frames is read back frame by frame |
| TieBreak.ExactlyOneYields | i2pchat/core/i2p_chat_core.py:2335-2347 | of two distinct known ids exactly the larger prefers the incoming session |
| TieBreak.Endpoint.OnConnected | i2pchat/core/i2p_chat_core.py:8039-8060 | the preface goes out only while the slot is this dial's |
| TieBreak.Endpoint.OnIncoming | i2pchat/core/i2p_chat_core.py:10503-10540 | accept, yield or drop |
| TieBreak.Endpoint.YieldSlot | i2pchat/core/i2p_chat_core.py:9016-9053 | the slot is emptied and its stream closed |
| TieBreak.Endpoint.OnConnectFailed | i2pchat/core/i2p_chat_core.py:8104-8122 | a failed dial empties the slot whatever is in it |
| TieBreak.RunsAreShort | i2pchat/core/i2p_chat_core.py:7960-8103 | every run of dials, accepts, yields and closes is finite |
| TieBreak.RestIsAgreement | i2pchat/core/i2p_chat_core.py:10503-10559 | at rest both hold the same single stream or none |
| TieBreak.SmallerIdWins | i2pchat/core/i2p_chat_core.py:2335-2347 | with both dialling and the smaller id's dial neither failing nor breaking: both end on its stream if and only if the other dial did not fail late |
| TieBreak.LargerIdWinsOnlyAfterFailure | i2pchat/core/i2p_chat_core.py:10503-10527 | the larger id's stream survives only after a failed dial of the smaller id or a break |
| TieBreak.LargerIdWinsIff | i2pchat/core/i2p_chat_core.py:10503-10540 | with any failures and breaks: both end on the larger id's stream if and only if the smaller came to hold it, the larger never held the other one, and no failing dial or break ended it |
| TieBreak.SmallerIdWinsIff | i2pchat/core/i2p_chat_core.py:7960-8122 | with any failures and breaks: both end on the smaller id's stream if and only if the larger came to hold it and no failing dial or break ended it |
| TieBreak.LargerIdCanWin | i2pchat/core/i2p_chat_core.py:10503-10540 | and then it can |
| TieBreak.LateFailureDropsTheWinner | i2pchat/core/i2p_chat_core.py:8104-8122 | a late connect failure drops the session just accepted, and both end with none |
| Base64.RoundTrip | i2pchat/core/i2p_chat_core.py:1185-1189 | decoding gives the bytes back and the text is exactly as long as the bound says |
| FileTransfer.SendFileLoop | i2pchat/core/i2p_chat_core.py:8605-8697 | the sender's loop emits header, chunks in order, and end |
| FileTransfer.FileReceiver.HandleHeader | i2pchat/core/i2p_chat_core.py:11007-11055 | a well-formed accepted offer starts a transfer; a malformed header leaves the old one |
| FileTransfer.FileReceiver.HandleChunk | i2pchat/core/i2p_chat_core.py:11056-11110 | a fitting chunk is appended, anything else ends the transfer |
| FileTransfer.FileReceiver.HandleEnd | i2pchat/core/i2p_chat_core.py:11111-11163 | completion and acknowledgement only at equality |
| FileTransfer.AnyFramesKeepOk | i2pchat/core/i2p_chat_core.py:11007-11163 | for any frames and any answers of the user received never exceeds a non-negative size, and every acknowledged file is whole |
| FileTransfer.HonestChunk | i2pchat/core/i2p_chat_core.py:11058-11067 | the length bound never refuses an honest chunk |
| FileTransfer.HeaderReads | i2pchat/core/i2p_chat_core.py:11008-11011 | the header reads back if and only if the name has no separator |
| FileTransfer.FileArrives | i2pchat/core/i2p_chat_core.py:8605-8697 | a file arrives byte for byte with one acknowledgement for every chunk size, if and only if the name has no separator, the size is allowed and the offer accepted |
| FileTransfer.Base64FileArrives | i2pchat/core/i2p_chat_core.py:8605-8697 | in particular with the Base64 texts the transfer uses |
| SessionManager.Lifecycle.SyncLegacyViews | i2pchat/core/session_manager.py:184-208 | both mirrors are rebuilt from the per-peer table |
| SessionManager.Lifecycle.ResetPeerLifecycle | i2pchat/core/session_manager.py:253-283 | a reset or dropped peer |
| SessionManager.Lifecycle.RegisterStream | i2pchat/core/session_manager.py:339-356 | a stream is opened under its peer, or only the aggregate is set |
| SessionManager.Lifecycle.UnregisterStream | i2pchat/core/session_manager.py:358-376 | the last stream closed disconnects its owner |
| SessionManager.Lifecycle.UpdateStreamState | i2pchat/core/session_manager.py:378-405 | a stream's state becomes its peer's |
| SessionManager.Lifecycle.RefreshPeerHealth | i2pchat/core/session_manager.py:452-472 | an aged secure session turns stale |
| SessionManager.Lifecycle.HasReadyPeer | i2pchat/core/session_manager.py:676-680 | looking for a ready peer refreshes those on the way |
| SessionManager.Lifecycle.ScheduleReconnectBackoff | i2pchat/core/session_manager.py:547-582 | the delay and the counted attempt, or an error and no change |
| SessionManager.CallKeepsInvIff | i2pchat/core/session_manager.py:213-582 | after any call the aggregate and the merged table equal recomputation, complete means connected, and secure means complete, dated and not stale, if and only if the call opens nothing as secure that is not so already and, without a peer, names the aggregate state |
| SessionManager.RunKeepsInvIff | i2pchat/core/session_manager.py:213-582 | over every run all this holds throughout if and only if every call meets that guard |
| SessionManager.AggregateIsHighest | i2pchat/core/session_manager.py:184-198 | the aggregate is the highest state of any peer |
| SessionManager.MergedIsUnion | i2pchat/core/session_manager.py:204-208 | the merged table covers exactly the destinations some peer has, with such a stream's identity |
| SessionManager.OldSessionTurnsStale | i2pchat/core/session_manager.py:452-472 | exactly when a secure peer is reported stale |
| SessionManager.BackoffCounts | i2pchat/core/session_manager.py:561-578 | failures are counted one by one up to the largest exponent; from then on every call raises |
| SessionManager.DelaysNeverShrink | i2pchat/core/session_manager.py:561-582 | over every row of failures delays never shrink and never pass the longest |
| Groups.GroupManager.PrimeGroupSequence | i2pchat/groups/manager.py:53-59 | priming only raises the last number, under the stripped id |
| Groups.GroupManager.NextGroupSeq | i2pchat/groups/manager.py:67-70 | the next number under the id as given |
| Groups.GroupManager.DeliverToMember | i2pchat/groups/manager.py:178-233 | one attempt per transport allowed, one result |
| Groups.GroupManager.SendPayload | i2pchat/groups/manager.py:142-176 | one result for every recipient, and one number used |
| Groups.DeliverStatus | i2pchat/groups/manager.py:178-233 | live if and only if tried and accepted live, queued if and only if tried and accepted offline |
| Groups.GroupSender.LivePass | i2pchat/core/i2p_chat_core.py:7499-7553 | the live pass: results for those it decides, the others collected in order |
| Groups.GroupSender.SendGroupPayload | i2pchat/core/i2p_chat_core.py:7489-7580 | live pass, gathered deliveries and their zipping back give exactly the recipients, each with its one result, and log every attempt |
| Groups.FanOutcome | i2pchat/core/i2p_chat_core.py:2991-3060 | over both passes a recipient gets at most two live attempts and one offline one, none after an accepted one, and a result that says delivered if and only if one was accepted |
| Groups.FanOutAttempts | i2pchat/core/i2p_chat_core.py:7489-7580 | over the whole fan-out each recipient gets exactly its own attempts and nobody else any |
| Groups.NumbersIncrease | i2pchat/groups/manager.py:53-70 | over any mix of priming and sending a group's numbers strictly increase until it is forgotten |
| Groups.PrimeReachesIff | i2pchat/groups/manager.py:53-70 | for every table, priming brings the next number up if and only if the id is not blank and stripped, or the number was there anyway |
| Groups.PendingQueue.FlushPeer | i2pchat/core/i2p_chat_core.py:2939-2985 | the flush loop equals its specification |
| Groups.FlushConserves | i2pchat/core/i2p_chat_core.py:2939-2985 | a flush splits the queue exactly into delivered and kept, delivers just this peer's accepted items, and leaves the others in order |
| Groups.MergeConserves | i2pchat/core/i2p_chat_core.py:2691-2715 | queueing new ids loses nothing |
| Groups.RepeatedIdReplaces | i2pchat/core/i2p_chat_core.py:2698-2702 | queueing an id that waits replaces that delivery |
| Groups.EveryDeliveryAccounted | i2pchat/core/i2p_chat_core.py:2661-2715 | over every run of sends and flushes each delivery asked for is exactly one of accepted, given up, or still waiting |

## Left out

- SAM and I2P networking, sockets, task plumbing, user interfaces, notifications and packaging: input, output or presentation.
- Real cryptography, key storage and random generation: ideal functions or parameters instead.
- The group-wide BlindBox root exchange, which is off by default and may be started by several members: pairwise agreement does not carry over.
- `_prune_pending_acks`: it prunes the core's own tables, not those of live sessions.
- Crashes and failing saves between processing and saving, damaged state files, and switching the selected peer during a send.
- The receiver's cover traffic, its group contexts, and several peers sharing one table of digests: one peer's window is modelled, so other peers' blobs do not push its digests out.
- Expiry on the replicas during a conversation: `Conversation` and the slot theorems use write-once maps without expiry; the server's expiry is modelled on its own.
- The per-prefix quota of the server, its authentication, metrics and status pages; files that cannot be read while the directory is listed; writes that fail.
- Peers that switch nodes: in `TieBreak` each side dials once, accepting is one step, and the bound on live sessions is never reached.
- The keepalive and watchdog tasks: their effect in `TieBreak` is a session that breaks at any time.
- The trust store itself: its answers (refused, matching, accepted, deferred) are parameters of a handshake step.
- `FileTransfer` models the Base64 texts of RFC 4648 only: what a decoder makes of other malformed text, digits with underscores, blanks or other scripts in the size field, and partial files left on disk are not modelled.
- Inline images, which repeat the chunk logic, and delivery acknowledgements after they leave the receiver.
- Transport state of the session manager, its watchdog, and the global retry record used without a peer: they have no part in the per-peer records and their mirrors.
- SessionManager.MergedIsUnion: which of two peers with a stream to one destination wins is the insertion order, stated only through the definition.
- PinnedWindow.KnownBasePinnedIff: while no further timeout is late; with further late timeouts copies can be forgotten and handed on again.
- RootGuarantees.LateBlobOpens: over harmless saves; with the wider safe saves an initiator can retire one epoch twice, and which of its late blobs open is not stated.
- Groups.GroupSender.SendGroupPayload: the answers of the transports are a function of the recipient, so a member listed twice, which a group state rules out, would meet the same answers twice.
- FrameStream.RunKeepsPrefix: says nothing about how many frames arrive, since the network may drop everything.
- Groups.EveryDeliveryAccounted: assumes fresh message ids and a member list without repeats, as the id source and the group state provide.
- Group history, seen message ids, control messages and membership changes.
