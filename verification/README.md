# ClipSync in Dafny

ClipSync synchronizes a clipboard between two devices through a relay that cannot read it. This project models the
parts of it that keep state across failures, and proves what they promise over whole runs:

- **The device** (`Crypto`, `History`, `HistoryMeaning`, `Session`, `SessionInvariant`, `SessionEngine`, `System`,
  `SessionMeaning`). A sender reserves sequence numbers durably before sealing; a receiver runs a four-step transaction
  with a crash window after each step; a restart replays what was left pending. `System` puts two devices on a network
  that drops, duplicates and reorders frames. Memory and disk are separate, and a session write that reports an error
  may or may not have reached the disk.
- **The relay's mailbox** (`Mailbox`, `MailboxInvariant`, `MailboxTurns`, `MailboxSweep`, `MailboxMeaning`,
  `MailboxRace`, `MailboxWitness`, `MailboxQuota`, `MailboxEngine`). Producers, one publication worker and a sweeper
  share four maps, a channel and a directory. Every shared access is one step and all of them interleave; the process
  may stop between any two.
- **Rooms and connections** (`Outbox`, `Protocol`, `Room`, `RoomTheorems`, `RoomMeaning`, `RoomEngine`, `RoomMailbox`,
  `ClientWire`, `Connection`, `Registry`, `RelayMembers`, `RateLimit`). Bounded outboxes with an
  add-then-check-then-undo byte counter, the room actor with its one-clip mailbox, challenge and join on every
  connection, the room registry, and fixed-window limiters.
- **Pairing** (`PairingRelay`, `PairingRelayMeaning`, `PairingEngine`, `PairingNotify`, `Pairing`, `PairingTheorems`,
  `PairingMeaning`, `PairedDevices`). One-time codes at the relay, the notification of both sides, the exchange on the
  devices, confirmation by six digits, and the identity reset with its checkpoints.

Each component has a value model: a state datatype, events, a step function, and runs of events. Outcomes of files,
outboxes, clocks and random sources are part of the events, so a theorem about all runs is a theorem about all
failures. A crash in the middle of an operation is the operation failing at that point, followed by a `Crash` event.
Where the program updates objects in place there is a class whose methods do the same, proved to have exactly the
effect of the value model. What the operations of the value model achieve is stated beside it without naming its
functions: lemmas whose names end in `Exactly` give, for every input, the condition of each answer and the new state, in
plain comparisons and sequences. Logs that the program does not keep (what was emitted, accepted, delivered) are fields
of the model's states and never influence a step.

Cryptography is ideal: a seal opens only under its key and associated data, a signature verifies only for its key and
message, hashes, Diffie-Hellman and key expansion are arbitrary deterministic functions with the laws of section 6.1 of
RFC 7748 and section 2.3 of RFC 5869. Nonces and item ids are fresh. One session is live per store.

Where code and its comments differ the model follows the code:

- `crates/server/src/room.rs:173-175` says a forced close wins over queued frames; the selection is not biased, so
  either may be received first.
- `crates/server/src/pairing.rs:3-5` says the registry is committed before notification. It is, in memory; the file may
  lack the room if an earlier rewrite failed after its rename (`Registry.ExistingMayBeForgotten`).

Properties that do not hold of the code as one would first state them, each with a witness and the exact condition:

- A sweep can remove a clip it never judged expired. It takes out of the index the clip it collected exactly when no
  publication of the room was indexed since it collected the room (`MailboxRace.IndexRemovalExact`), and it deletes the
  file of the clip it collected exactly when no newer clip of the room was ever renamed into place
  (`MailboxRace.FileRemovalExact`). The two can fail together (`MailboxSweep.SweepDeletesFreshClip`), and the file alone
  can go, while a publication is between its rename and its index entry
  (`MailboxWitness.SweepDeletesFileBeingPublished`) or long after one whose directory sync failed, with no write in
  flight at all (`MailboxWitness.CalmSweepDeletesFreshFile`).
- An actor that asks for the newest clip of its room is handed an older one or none exactly while the newest is in the
  worker's hands (`MailboxWitness.LoadMissesClipBeingWritten`, `MailboxRace.LoadPendingExact`).
- A room answered as existing can be gone after a restart, exactly when the registry file was last replaced by a prune
  that failed after its rename and drops the room (`Registry.ExistingMayBeForgotten`,
  `Registry.ExistingSurvivesExactly`); the next successful rewrite ends the difference between memory and file
  (`Registry.DurableRewriteHeals`).
- A replaced connection's disconnect does change something: it stops the actor, exactly when nobody is online
  (`RoomTheorems.StaleEventsChangeNothing`, `RoomTheorems.StaleDisconnectStopsActor`).
- A confirmation can report success after a reset, exactly when the digits match and the reset's rename did not come
  between its start and its check (`Pairing.CheckedMayOutliveRename`, `PairingTheorems.SucceedsExactly`). Such a late
  store can overwrite the pairing made since (`PairingTheorems.StaleStoreUnpairs`), and the clean-up of a reset can
  delete one made after its rename (`PairingTheorems.CleanupUnpairs`). What is stored keeps loading exactly until
  another record is stored, a reset renames the identity or a reset cleans up (`PairingTheorems.StaysLoadedExactly`).
- A successful claim may have told one side only, exactly when the other's receiver went away between reservation and
  sending (`PairingNotify.SuccessMayTellOneOnly`, `PairingNotify.ToldExactly`).
- The directory need not match the accounts, and can hold more than the quota although they never do
  (`MailboxQuota.DiskOverQuota`): a room's file and account agree exactly unless a rename, a removal or a start-up left
  the room owing the step that should have followed (`MailboxQuota.DiskMatchesAccountsExactly`).
- A client can be sent a frame after an error, exactly when the connection handler's own error overtakes frames of the
  room actor or follows an error of it (`ClientWire.FrameAfterError`, `ClientWire.ClientSeesJoinTrace`).
- The byte budget of an address binds exactly when it is below the counter's maximum (`RateLimit.SaturatedBudgetFails`,
  `RateLimit.ByteBudgetExact`).
- The attempt budget of an address binds in a window exactly when the address makes fewer than 2^32 attempts in it: of
  the attempts in a window those are granted whose number modulo 2^32 is within the budget
  (`RateLimit.WrappedBudgetFails`, `RateLimit.AttemptBudgetExact`; release builds wrap, debug builds stop).

Check the project with `dafny verify dfyconfig.toml`.

## Model

| member | source | states |
|---|---|---|
| System.EndToEnd | crates/core/src/session.rs:304-581 | over every interleaving of sends, receives, write failures, crashes and restarts on both devices and a network that drops, duplicates and reorders, the clips given to a device's callback are a strictly number-increasing subsequence of the clips the other device emitted, so each fires at most once |
| SessionMeaning.SentIsDelivered | crates/core/src/session.rs:396-581 | the other half: in any run a device sends a clip successfully; whatever happens after, when the frame reaches the peer while the peer's mark is below its number, both of the peer's transactions are durable, its history takes the clip and nothing stops it, the peer's callback fires with exactly that clip |
| System.NoSequenceReuse | crates/core/src/session.rs:396-417 | emitted sequence numbers strictly increase and the durable counter exceeds every one of them, through failed writes, crashes and restarts |
| System.NoAcceptedClipLost | crates/core/src/session.rs:326-337 | a clip whose first transaction succeeded, or that a restart found on disk, is for ever after durably pending or durably in the history's log of additions |
| System.SettledStaysKept | crates/core/src/session.rs:507-550 | no continuation of a run un-keeps a clip that is kept: pending entries are cleared only after the history has them |
| System.CallbackNeedsDurability | crates/core/src/session.rs:507-580 | a callback fires only for an authentic clip above the high-water mark, after both transactions and the history addition are durable |
| System.DeliveryIsDurable | crates/core/src/session.rs:507-553 | at the moment the callback fires, disk and memory both record the number, the id and the history row, and nothing is pending for it |
| System.RestartSettles | crates/core/src/session.rs:304-353 | a successful restart leaves nothing pending in memory or on disk, has every pending entry in the history, and fires nothing; a failed one fires nothing and starts no session |
| System.RingRefinesSeenSet | crates/core/src/session.rs:486-517 | in every reachable state the 64-entry id ring with the high-water mark refuses exactly what an unbounded set of all accepted clips would, and the ring is the last 64 accepted ids |
| System.DirectionsIsolated | crates/core/src/session.rs:219-247 | sends leave the receive direction on disk alone and receives and restarts the send direction |
| System.OtherDirectionsUntouched | crates/core/src/session.rs:219-247 | no operation changes any other direction stored in the same document |
| System.OpensOnlyFromPeer | crates/core/src/session.rs:607-629 | what a device authenticates was sealed by the peer device: never its own frame reflected, never a forgery |
| System.DerivedKeysPair | crates/core/src/crypto.rs:305-339 | two devices that derive keys from each other's bundles form a paired configuration |
| SessionMeaning.DeliverableExactly | crates/core/src/crypto.rs:496-534 | what the network may deliver: anything, to either device and any number of times, except a seal under one of the two session keys that neither device has made |
| SessionMeaning.SendSucceedsExactly | crates/core/src/session.rs:396-455 | a send succeeds exactly when the content fits, numbers are left, the reservation is durable, nothing stops it, encoding and sealing work and the history takes the item, and every error has its own condition; a number is used up exactly when the reservation is durable |
| SessionMeaning.SentFrameOpens | crates/core/src/session.rs:396-455 | what is sent opens on the paired device as the clip that was sent, with its id, time, content and the number just reserved; it is the last clip emitted, and a text is remembered as an echo |
| SessionMeaning.RefusedExactly | crates/core/src/session.rs:475-506 | a frame that does not open, a seen id and a number at or below the mark, and only these, are answered as unauthenticated, duplicate and replay, and change nothing |
| SessionMeaning.FiresExactly | crates/core/src/session.rs:507-556 | the callback runs exactly for a new clip with both transactions durable, listed by the history and not stopped before; then it is the one clip that fires |
| SessionMeaning.SuppressedExactly | crates/core/src/session.rs:507-556 | why a new clip does not get as far as the callback, error by error |
| SessionMeaning.FiredOutcome | crates/core/src/session.rs:553-581 | the answer to a clip that fires for every combination of live or mailbox, callback answer, stop and promotion, and that a text enters the echo ring exactly when the clip counts as applied |
| SessionMeaning.FiredSettles | crates/core/src/session.rs:507-550 | a clip that fires leaves its number as the mark, its id last of the 64 remembered ones and nothing pending for it, in memory and on disk |
| SessionMeaning.FiredIsListed | crates/core/src/session.rs:528-571 | the clip is the history's last row, with its time and content, as received if live or promoted, else as deferred |
| SessionMeaning.StartsExactly | crates/core/src/session.rs:304-353 | a session starts exactly when the history opens, the record matches, keys and document load, and everything pending is added and durably cleared; every error has its own condition, and the session starts from what is on disk |
| SessionMeaning.ReplayAppends | crates/core/src/session.rs:326-335 | a replay that goes through appends the pending entries to the list in their order, as far as 50 go |
| SessionMeaning.LoadsExactly | crates/core/src/session.rs:240-246 | a direction that is missing or of another generation starts at number one with nothing seen or pending |
| SessionMeaning.HandOperations | crates/core/src/session.rs:588-605 | applying by hand promotes and remembers the echo exactly when the history does not refuse; clearing leaves the session alone |
| SessionInvariant.SendKeepsInv | crates/core/src/session.rs:396-455 | sending keeps the device invariant whichever write fails and wherever it stops |
| SessionInvariant.CommitKeepsInv | crates/core/src/session.rs:507-527 | the first receive transaction keeps the invariant whether it lands, fails, or fails after landing |
| SessionInvariant.ReceiveKeepsInv | crates/core/src/session.rs:475-581 | receiving any frame, at any failure point, keeps the device invariant |
| SessionInvariant.ReplayKeeps | crates/core/src/session.rs:326-335 | replaying pending entries adds every entry it got through, and success means all of them |
| SessionInvariant.StartKeepsInv | crates/core/src/session.rs:304-353 | a restart keeps the device invariant, finished or not |
| SessionInvariant.ApplyKeepsInv | crates/core/src/session.rs:588-597 | applying a deferred entry by hand keeps the device invariant |
| SessionEngine.SessionStore.CommitDirection | crates/core/src/session.rs:221-238 | one transaction replaces exactly one direction of the document, or nothing, or does so and still reports failure |
| SessionEngine.SessionStore.ReadDirection | crates/core/src/session.rs:240-246 | a direction of another identity generation, or none, reads as a fresh one |
| SessionEngine.ClipSession.RegisterEcho | crates/core/src/session.rs:631-639 | the echo ring holds the last 64 distinct hashes |
| SessionEngine.ClipSession.SendClip | crates/core/src/session.rs:396-455 | the object's state and result after the in-place code are those of the specified send, whose meaning is `SessionMeaning.SendSucceedsExactly` and `SessionMeaning.SentFrameOpens` |
| SessionEngine.ClipSession.Retain | crates/core/src/session.rs:541-543 | the loop keeps exactly the entries with another id, in order |
| SessionEngine.ClipSession.HandleClip | crates/core/src/session.rs:475-581 | the object's state and outcome after the in-place code are those of the specified receive, all branches and stop points included; what it achieves is `SessionMeaning.RefusedExactly`, `SessionMeaning.FiresExactly`, `SessionMeaning.SuppressedExactly`, `SessionMeaning.FiredOutcome` and `SessionMeaning.FiredIsListed` |
| SessionEngine.ClipSession.Apply | crates/core/src/session.rs:588-597 | promotes the entry and registers the echo of a text exactly when the promotion succeeded |
| SessionEngine.ReplayInto | crates/core/src/session.rs:326-335 | the loop adds the pending entries one by one and stops at the first failure |
| SessionEngine.NewSession | crates/core/src/session.rs:304-353 | what is left on disk, and whether a session starts, is that of the specified restart |
| History.HistoryIntegrity | crates/core/src/history.rs:82-203 | from any consistent directory, over every run of opens, additions, evictions, clears, promotions, failures and crashes the durable list has unique ids, at most 50 items, and every listed image has its complete bytes on disk |
| HistoryMeaning.StaysListedExactly | crates/core/src/history.rs:94-132 | over every run of additions, promotions, failures, crashes and restarts without a clear: an item stays listed exactly as long as it and the rows after it, those added since included, are no more than 50 |
| History.ReopenRestores | crates/core/src/history.rs:82-92 | reopening after any run yields the last durable list and leaves exactly the image files it refers to |
| History.SourceOnlyPromoted | crates/core/src/history.rs:169-193 | while an item stays listed its source moves only from deferred to applied |
| History.AddIsLogged | crates/core/src/history.rs:94-132 | a successful addition was durably listed, and the log of additions changes at this id only |
| History.AddIdempotent | crates/core/src/history.rs:94-97 | adding a listed id changes nothing |
| HistoryMeaning.AddListsExactly | crates/core/src/history.rs:94-132 | an addition that is new and written puts its row last, after all earlier ones, of which the first goes exactly when there were 50; any other leaves the list alone; it is answered with success exactly for a listed id, or when written with the evicted image deletable |
| HistoryMeaning.AddStoresExactly | crates/core/src/history.rs:94-132 | the image directory after an addition, for every failure: the bytes under the item's own name, the evicted image gone, a rolled-back or leftover file |
| HistoryMeaning.ClearExactly | crates/core/src/history.rs:139-152 | clearing empties the list unless the metadata cannot be written, removes only listed images, and succeeds if all of them can be deleted |
| HistoryMeaning.SetSourceExactly | crates/core/src/history.rs:169-193 | promotion changes the source of the one deferred row with the id, exactly if asked for and written; an unknown id is refused |
| HistoryMeaning.OpenExactly | crates/core/src/history.rs:82-92 | opening yields the durable list and fails only if it cannot be read or an unlisted file cannot be deleted; listed images stay |
| HistoryMeaning.CrashCloses | crates/core/src/history.rs:82-92 | a crash leaves directory and log as they are, and the store can be opened again |
| History.LoadMeaning | crates/core/src/history.rs:234-259 | loading an arbitrary file yields exactly the rows that parse, refer to their own image and are the first of their id |
| History.PersistRoundTrip | crates/core/src/history.rs:195-203 | reading back what was persisted yields the same list |
| History.RemoveMeaning | crates/core/src/history.rs:226-232 | removal touches only listed files that are not to be kept, and on success has removed all of them |
| History.AddKeepsInv | crates/core/src/history.rs:94-132 | additions keep list and files consistent at every failure point, including a failed roll-back of the image |
| History.OpenKeepsInv | crates/core/src/history.rs:261-286 | opening, with files that cannot be deleted, keeps list and files consistent |
| History.ClearKeepsInv | crates/core/src/history.rs:139-152 | clearing keeps list and files consistent at every failure point |
| History.SetSourceKeepsInv | crates/core/src/history.rs:169-193 | promotion keeps list and files consistent |
| History.LoadItems | crates/core/src/history.rs:234-259 | the loading loop computes the specified list |
| History.HistoryStore.Reopen | crates/core/src/history.rs:82-92 | the opened object is the specified one |
| History.HistoryStore.RemoveFiles | crates/core/src/history.rs:261-286 | the deletion loop has the specified effect and status |
| History.HistoryStore.AddItem | crates/core/src/history.rs:94-132 | the object after the in-place code is that of the specified addition, whose effect on list and directory is `HistoryMeaning.AddListsExactly` and `HistoryMeaning.AddStoresExactly` |
| History.HistoryStore.ClearAll | crates/core/src/history.rs:139-152 | the object after the in-place code is that of the specified clear |
| History.HistoryStore.Promote | crates/core/src/history.rs:169-193 | the object after the in-place code is that of the specified promotion |
| History.HistoryStore.ImageBytes | crates/core/src/history.rs:154-167 | in a consistent store the image of every listed image item reads back as added; text items and unknown ids are refused |
| Crypto.HexLower | crates/core/src/crypto.rs:536-543 | the encoding loop computes the hex encoding |
| Crypto.HexRoundTrip | crates/core/src/crypto.rs:536-543 | hex has two lower-case digits per byte and decodes to the bytes |
| Crypto.HexInjective | crates/core/src/crypto.rs:102-104 | different bytes have different hex |
| Crypto.IdsExactly | crates/core/src/crypto.rs:102-127 | fingerprints are 64 hex digits that decode to the bundle's whole hash, room ids 32 that decode to the first half of the pair's |
| Crypto.AppendFields | crates/core/src/crypto.rs:139-146 | the loop yields the domain and the length-prefixed fields, or nothing exactly when a field is too long |
| Crypto.JoinSigMsg | crates/core/src/crypto.rs:133-147 | the join message exists exactly when all four fields fit a 32-bit length |
| Crypto.JoinMessageInjective | crates/core/src/crypto.rs:133-147 | two joins have the same message only if nonce, room, device and bundle all agree |
| Crypto.JoinedInjective | crates/core/src/crypto.rs:459-467 | associated data, and the storage key built the same way, determine room, sender and receiver when none contains the separator, as hex never does |
| Crypto.DirectionKeyNeedsHex | crates/core/src/session.rs:249-251 | that condition cannot be dropped: strings that do contain the separator, which no record that loads has, can share a storage key |
| Crypto.PairBytesUnordered | crates/core/src/crypto.rs:115-127 | the pair encoding forgets exactly the order of the two bundles |
| Crypto.RoomAndSasSymmetric | crates/core/src/crypto.rs:473-489 | both sides derive the same room and the same six digits, which are the leading word of the digest modulo a million |
| Crypto.WordExactly | crates/core/src/crypto.rs:473-489 | the leading word is the number whose big-endian bytes are the digest's first four |
| Crypto.SasInputInjective | crates/core/src/crypto.rs:473-489 | the hashed input determines the nonce and the unordered pair |
| Crypto.SessionKeysAgree | crates/core/src/crypto.rs:305-339 | each side's send key is the other's receive key, and either both derive keys or neither |
| Crypto.SessionKeysExactly | crates/core/src/crypto.rs:305-339 | a device gets keys exactly if the peer is another identity and the shared secret is not all zeros; it sends with the key of the direction to the peer and receives with that of the opposite one |
| Crypto.KeyHasOneDirection | crates/core/src/crypto.rs:305-339 | with an expansion free of collisions nobody seals and opens with the same key, and two devices share a key only as the two ends of one direction between two identities, or as the same identity at the same end |
| Crypto.DirectionsExpandDistinctInputs | crates/core/src/crypto.rs:326-327 | the two directions expand different inputs |
| MailboxInvariant.NoLostWakeup | crates/server/src/mailbox.rs:423-480 | under every interleaving each dirty room is signalled, retried, about to be looked at or about to be signalled; when everything is idle nothing is dirty and the index has every room's newest clip, except swept ones |
| MailboxInvariant.LoadPendingIsLatest | crates/server/src/mailbox.rs:552-567 | with no write of a room in flight, loading yields the room's newest accepted clip exactly when its age is at most the time to live, unless it was swept |
| MailboxInvariant.PublicationMonotone | crates/server/src/mailbox.rs:452-523 | at every point of every run a room's file is absent or one complete accepted clip, and contents never go back to an older clip |
| MailboxInvariant.QuotaRespected | crates/server/src/mailbox.rs:482-496 | after a start-up scan within quota the accounted bytes never exceed it, and the prospective size never underflows |
| MailboxQuota.DiskMatchesAccountsExactly | crates/server/src/mailbox.rs:370-523 | over every run: the accounts are the sizes of the accounted clips, and a room's file is the accounted clip, or neither is there, exactly when the room does not owe a step after a rename, a removal or a start-up |
| MailboxQuota.DiskWithinQuota | crates/server/src/mailbox.rs:482-523 | when no room owes a step the directory holds exactly the accounted bytes, within the quota after a scan within it |
| MailboxQuota.DiskOverQuota | crates/server/src/mailbox.rs:482-523 | from an empty directory, a run with two clips within quota after which the directory holds more than the quota and the accounts do not |
| MailboxInvariant.SweepTakesCollectedOrNewer | crates/server/src/mailbox.rs:370-401 | what a sweep takes out of the index is the expired clip it collected or a strictly newer clip of the same room, never an older one |
| MailboxRace.IndexRemovalExact | crates/server/src/mailbox.rs:370-392 | over every run: when a sweep comes to a room it collected, the room is indexed, and what it takes out of the index is the clip it collected exactly when no publication of the room was indexed since |
| MailboxRace.FileRemovalExact | crates/server/src/mailbox.rs:393-401 | over every run: the file a sweep deletes is that of the expired clip it collected exactly when no newer clip of the room was renamed into place before |
| MailboxRace.LoadPendingExact | crates/server/src/mailbox.rs:552-567 | over every run, for a newest clip neither expired nor swept: loading yields it exactly when it is not in the worker's hands, else an older clip or none |
| MailboxMeaning.ServesExactly | crates/server/src/mailbox.rs:552-567 | a clip is served exactly while its age is at most the time to live, the unpublished one before the published; what is withheld once is withheld ever after |
| MailboxMeaning.AcceptedIsServed | crates/server/src/mailbox.rs:527-567 | a clip just accepted is served exactly while its age is at most the time to live, whatever else the mailbox holds |
| MailboxMeaning.AcceptsExactly | crates/server/src/mailbox.rs:527-544 | a clip is accepted exactly for a room id of 32 lower-case hex digits, while the mailbox is open |
| MailboxMeaning.CollectsExactly | crates/server/src/mailbox.rs:370-383 | a sweep collects a room exactly when its published clip is older than the time to live and was not collected before |
| MailboxMeaning.SweepsExactly | crates/server/src/mailbox.rs:370-401 | an undisturbed sweep takes exactly the clips older than the time to live out of index and accounts, and deletes exactly their files, except those that cannot be deleted |
| MailboxMeaning.StartsWithExactly | crates/server/src/mailbox.rs:276-322 | a start-up indexes and accounts exactly the readable clips no older than the time to live, keeps exactly their files, the unreadable ones and those it cannot delete, and is within quota exactly if the sizes are |
| MailboxMeaning.RetriesExactly | crates/server/src/mailbox.rs:435-442 | a retry gives every room whose write failed its turn, in some order, and starts the count of failures anew |
| MailboxMeaning.StopsWithExactly | crates/server/src/mailbox.rs:276-322 | a stop forgets everything but the directory |
| MailboxMeaning.PublishesExactly | crates/server/src/mailbox.rs:452-523 | an undisturbed turn of the worker publishes the clip exactly when it fits beside the other rooms' accounts and every file operation succeeds; else the clip stays to be written and the room is retried |
| MailboxInvariant.StepKeepsInv | crates/server/src/mailbox.rs:423-567 | every atomic access of producers, worker and sweeper, every failure and every crash keeps the mailbox invariant |
| MailboxSweep.CalmRunPublishes | crates/server/src/mailbox.rs:370-401 | at every point of a run in which no write of a room is in flight while a sweep works on it, every room's newest clip is about to be written, or indexed and on disk, or was swept when expired; at rest nothing is about to be written |
| MailboxSweep.RestartServesSame | crates/server/src/mailbox.rs:276-322 | under the same condition a relay at rest serves after a restart what it served before |
| MailboxSweep.SweepDeletesFreshClip | crates/server/src/mailbox.rs:370-401 | without the condition a sweep deletes a fresh clip: for every idle mailbox with an expired clip, a legal run that ends with the newest, unexpired clip in neither index nor directory |
| MailboxWitness.LoadMissesClipBeingWritten | crates/server/src/mailbox.rs:452-480 | for every idle mailbox within quota, a legal run after which the newest clip is in the worker's hands and loading yields the clip published before it, or none |
| MailboxWitness.SweepDeletesFileBeingPublished | crates/server/src/mailbox.rs:370-401 | for every idle mailbox with an expired clip, a legal run in which the sweep unindexes exactly the clip it collected and deletes the file of the fresh clip being published: the fresh clip ends indexed without a file, and a restart finds it nowhere |
| MailboxWitness.CalmSweepDeletesFreshFile | crates/server/src/mailbox.rs:468-523 | for every idle mailbox with an expired clip, a run that is calm throughout in which a publication fails after its rename and a later sweep deletes the fresh file: the clip is left to be retried, and a stop before that loses it |
| MailboxWitness.ContestedIsReached | crates/server/src/mailbox.rs:276-322 | the idle mailboxes these runs start from are reached from an empty directory, for any room and any two clips of which the first has expired |
| MailboxWitness.FreshFileLostFromStart | crates/server/src/mailbox.rs:276-523 | so from an empty directory there is a run, calm from the second clip on, after which a stop loses the newest, unexpired clip |
| MailboxSweep.HandedIsPublished | crates/server/src/mailbox.rs:452-480 | a clip accepted by an idle mailbox within quota is indexed and on disk after one undisturbed turn of the worker |
| MailboxTurns.HandedRuns | crates/server/src/mailbox.rs:527-544 | an uninterrupted call of the producer is a legal run with exactly the stated effect |
| MailboxTurns.TurnRuns | crates/server/src/mailbox.rs:452-523 | an uninterrupted turn of the worker, stopped at any stage, is a legal run with exactly the stated effect |
| MailboxTurns.SweepRuns | crates/server/src/mailbox.rs:370-401 | the removal half of an uninterrupted sweep is a legal run that removes exactly its targets |
| MailboxEngine.PersistentMailbox.ClipPending | crates/server/src/mailbox.rs:527-544 | refuses a malformed room id, else has the effect of the producer's call |
| MailboxEngine.PersistentMailbox.LoadPendingClip | crates/server/src/mailbox.rs:552-567 | yields the unpublished clip, else the published one, exactly when its age is at most the time to live |
| MailboxEngine.PersistentMailbox.SumSizes | crates/server/src/mailbox.rs:485-489 | the loop sums the accounted sizes |
| MailboxEngine.PersistentMailbox.WriteSnapshot | crates/server/src/mailbox.rs:482-523 | how far a write gets, and the directory it leaves, for every failure |
| MailboxEngine.PersistentMailbox.Publish | crates/server/src/mailbox.rs:452-480 | one turn of the worker |
| MailboxEngine.PersistentMailbox.Serve | crates/server/src/mailbox.rs:428-446 | one signal taken off the channel and served |
| MailboxEngine.PersistentMailbox.RetryAll | crates/server/src/mailbox.rs:435-442 | the retry loop gives every failed room one turn |
| MailboxEngine.PersistentMailbox.SweepExpired | crates/server/src/mailbox.rs:370-401 | the loop removes exactly the rooms whose clip is older than the time to live, and counts them |
| MailboxEngine.PersistentMailbox.ScanDirectory | crates/server/src/mailbox.rs:282-306 | the scan loop keeps exactly the readable clips no older than the time to live and accounts their sizes, skips unreadable ones, and drops older ones, whose files go except those that cannot be deleted |
| MailboxEngine.PersistentMailbox.Open | crates/server/src/mailbox.rs:276-322 | the opened mailbox is that of the specified start-up, whichever expired files cannot be deleted |
| Outbox.Accounting | crates/server/src/room.rs:68-185 | under every interleaving of senders, reservations and the receiver the byte counter is exactly the bytes queued, held, leaving or left behind, never negative; queued plus reserved bytes never exceed the budget, nor frames plus permits the slots |
| Outbox.AtRestCounterIsUsage | crates/server/src/room.rs:116-151 | with no sender mid-call the counter is the queued and reserved bytes plus what a dropped receiver left behind |
| Outbox.FirstInFirstOut | crates/server/src/room.rs:176-185 | what is received is a prefix of what was enqueued, in order |
| Outbox.AttemptExactly | crates/server/src/room.rs:116-151 | under concurrency an attempt enters the queue, or is granted its reservation, exactly when the bytes counted before it and its own fit the budget, the receiver is there and frames and reservations leave a slot |
| Outbox.TryExactly | crates/server/src/room.rs:116-128 | a lone enqueue appends its frame and counts its bytes exactly under that condition, and otherwise changes nothing |
| Outbox.CloseExactly | crates/server/src/room.rs:155-159 | a close is never lost: it is queued behind what is there, or without a slot left for the receiver beside the queue |
| Outbox.ReceiverExactly | crates/server/src/room.rs:176-185 | the receiver takes the oldest unit, whose bytes are then due if it is a frame, or a forced close once, or goes away and leaves nothing queued |
| Outbox.BytesReturned | crates/server/src/room.rs:76-185 | which step gives how many bytes back |
| Outbox.TryAlone | crates/server/src/room.rs:116-128 | a lone enqueue takes effect exactly when budget and slots allow, else leaves everything as it was |
| Outbox.ReserveAlone | crates/server/src/room.rs:130-151 | a lone reservation holds bytes and slot exactly when budget and slots allow, else leaves everything as it was |
| Outbox.DropUndoesReserve | crates/server/src/room.rs:76-82 | dropping an unsent reservation restores the outbox exactly |
| Outbox.SendCompletesReserve | crates/server/src/room.rs:68-74 | reserving and sending amounts to a successful enqueue |
| Outbox.BoundedOutbox.TryFrame | crates/server/src/room.rs:116-128 | add, check, undo has the effect of its steps |
| Outbox.BoundedOutbox.TryReserve | crates/server/src/room.rs:130-151 | add, check, reserve, undo has the effect of its steps |
| Outbox.BoundedOutbox.DropReservation | crates/server/src/room.rs:76-82 | bytes first, then the slot |
| Outbox.BoundedOutbox.SendReservation | crates/server/src/room.rs:68-74 | the held slot becomes the frame's place in the queue, its bytes stay counted; a dropped receiver leaves nothing queued |
| Outbox.BoundedOutbox.Receive | crates/server/src/room.rs:176-185 | takes a forced close or the next unit and releases a frame's bytes |
| Protocol.BuildTransitions | crates/core/src/protocol.rs:506-529 | the table filled by assignments and the error loop is the protocol's next-state function, every cell |
| Protocol.CellIsNext | crates/core/src/protocol.rs:506-529 | table cells and protocol agree, state by state and frame by frame |
| Protocol.ValidateFrameOrder | crates/core/src/protocol.rs:240-252 | a frame is accepted exactly when it is well formed and the protocol has a next state |
| Protocol.JoinTraceExactly | crates/core/src/protocol.rs:506-529 | after a join the table accepts exactly: join confirmation, one bootstrap frame, live clips, ended anywhere by at most one error |
| Protocol.ConversationExactly | crates/core/src/protocol.rs:506-529 | from the first frame on, the table accepts exactly the conversations that follow one of three openings (greeting and join, with an offered, a claimed or no pairing between), cut off or ended by one error anywhere, and go on as a join trace |
| RoomTheorems.DeliveryInOrder | crates/server/src/room.rs:461-570 | the clips enqueued to a member over all its connections are an in-order selection, none twice, of the clip loaded at spawn and the clips its peer sent on the then current connection; a missing one was overwritten by a clip stored after it, consumed by a failed join, lost to a full outbox, or is the one still waiting |
| RoomMeaning.SendToAbsent | crates/server/src/room.rs:548-557 | a clip for a member who is offline waits, in place of any that waited, is handed to the mailbox and is enqueued for nobody |
| RoomMeaning.SendLive | crates/server/src/room.rs:535-547 | a clip for a member who is online goes to the end of its connection and nowhere else, if it can be enqueued |
| RoomMeaning.SendOverflows | crates/server/src/room.rs:535-547 | if it cannot, and only then, the clip is lost and the member is taken offline, with an error exactly if that can be enqueued |
| RoomMeaning.StaleSend | crates/server/src/room.rs:515-522 | a clip from a connection that is not the sender's current one changes nothing |
| RoomMeaning.JoinExactly | crates/server/src/room.rs:461-513 | a join succeeds exactly when both frames can be reserved and the room is activated; the connection then has the confirmation and the clip that waited, or word that none did; a failed join leaves the member offline and the clip gone |
| RoomMeaning.DisconnectExactly | crates/server/src/room.rs:562-570 | a disconnect takes the member offline exactly if the connection is current, and stops the actor exactly if nobody is online then |
| RoomMeaning.FatesExactly | crates/server/src/room.rs:461-558 | the clip that waited is delivered by a join, consumed by a failed one, or overwritten by the next clip for the member, and by no other event; what became of any other clip never changes |
| RoomMeaning.WaitingIsBrought | crates/server/src/room.rs:475-557 | a clip sent to a member who is offline is the bootstrap of the member's next successful join, whatever events come between, as long as no further clip is sent to it |
| RoomTheorems.OneSnapshotHoldsAll | crates/server/src/room.rs:475-560 | in every reachable state at most one member has a clip waiting, that member is not online, and the clip is the last one given to the mailbox |
| RoomTheorems.FrameOrder | crates/server/src/room.rs:470-560 | the frames enqueued on any connection are accepted by the client's table after a join, and a current connection has had its two join frames and no error |
| ClientWire.ClientSeesJoinTrace | crates/server/src/room.rs:176-185 | over every interleaving of actor, handler, writer and other users of the outbox: what a client has been sent since its join, up to any point, is what its table accepts exactly when the handler's own error, if sent, is the first error and the last frame; so always without one |
| ClientWire.ActorRuns | crates/server/src/room.rs:461-570 | every run of actor, handler and outbox together is, seen from the actor, a run of the actor alone |
| ClientWire.OutboxRuns | crates/server/src/room.rs:68-185 | and, seen from the outbox, a run of the outbox alone |
| ClientWire.FrameAfterError | crates/server/src/connection.rs:274-280 | from a fresh actor and any idle outbox with space, a run in which the client is sent a frame after the handler's error |
| RoomTheorems.StaleForever | crates/server/src/room.rs:470-473 | a connection that is no longer current never becomes current again |
| RoomTheorems.StaleEventsChangeNothing | crates/server/src/room.rs:515-570 | later clips and disconnects of such a connection change nothing, except that a disconnect stops the actor exactly when nobody is online |
| RoomTheorems.StaleDisconnectStopsActor | crates/server/src/room.rs:447-455 | a run in which a replaced connection's disconnect stops an actor that still has a clip waiting |
| Room.StepKeepsMailbox | crates/server/src/room.rs:475-560 | every event keeps online and waiting members apart and the waiting clip equal to the last stored one |
| Room.StepKeepsWires | crates/server/src/room.rs:470-560 | every event keeps every connection's frames acceptable and every current connection live |
| Room.StepKeepsConns | crates/server/src/room.rs:461-570 | every event keeps the clips sent to a member equal to what its connections carried, in order |
| RoomEngine.RoomActor.constructor | crates/server/src/room.rs:370-395 | a spawned actor holds exactly what the mailbox handed it |
| RoomEngine.RoomActor.Join | crates/server/src/room.rs:461-513 | replacement, bootstrap, both reservations, activation and registration have the specified effect and frames |
| RoomEngine.RoomActor.Forward | crates/server/src/room.rs:534-558 | one recipient gets the clip on its connection, in the mailbox, or is disconnected |
| RoomEngine.RoomActor.Receive | crates/server/src/room.rs:515-560 | the loop over the members routes the clip to exactly the other member, and only from the current connection |
| RoomEngine.RoomActor.Disconnect | crates/server/src/room.rs:562-570 | forgets the connection only if current; the actor stops exactly when nobody is left |
| RoomMailbox.RespawnRemembers | crates/server/src/room.rs:370-395 | an actor spawned again finds in the mailbox every clip its predecessor still had waiting, if no write is in flight and the clip is neither expired nor swept |
| RoomMailbox.ActorRuns | crates/server/src/room.rs:461-570 | every run of actor and mailbox together is, seen from the actor, a run of the actor alone |
| RoomMailbox.MailboxRuns | crates/server/src/mailbox.rs:423-567 | and, seen from the mailbox, a run of the mailbox alone in which each clip the actor stores is accepted |
| RoomMailbox.SpawnAgrees | crates/server/src/room.rs:380-386 | a spawned actor's memory agrees with the mailbox's newest clip of the room |
| RoomMailbox.RestartRemembersExactly | crates/server/src/mailbox.rs:276-322 | after any run of actor and mailbox and a stop and start of the process, an actor is spawned with the room's newest clip exactly when its file was in place and it is unexpired; it then is the clip its predecessor still had waiting |
| RoomMailbox.RestartRemembers | crates/server/src/room.rs:370-395 | if no write of a room was in flight while a sweep worked on it, after a stop and start at rest a spawned actor starts with the clip its predecessor still had waiting, unless expired or swept |
| Connection.JoinsAreNotReplayed | crates/server/src/connection.rs:222-241 | over all connections together each connection joins at most once, each challenge is answered at most once, and a signature is good for at most one join |
| Connection.ClipsComeFromMembers | crates/server/src/connection.rs:250-346 | every forwarded clip came over a connection admitted to that room as that identity, which the registry's answer named as a member, by a signature over that connection's nonce and that room |
| Connection.HonestMemberIsHeard | crates/server/src/connection.rs:166-352 | the converse: from any state, a member who connects, greets, signs the challenge it gets and joins within its budget, and then sends a clip, has the clip forwarded to its room under its own identity |
| Connection.HelloExactly | crates/server/src/connection.rs:168-202 | the first frame must be a hello with the device id of its signing key, and is answered with the nonce drawn for this connection; anything else closes |
| Connection.JoinExactly | crates/server/src/connection.rs:222-352 | a join is admitted exactly with the attempt allowed, the device's own signature over domain, challenge, room, device id and keys, its own device id, membership by the registry and a room that takes it; otherwise the connection closes |
| Connection.ReadyExactly | crates/server/src/connection.rs:203-247 | before joining only pairing frames the pairing handler takes keep the connection, and a second join does not |
| Connection.ClipExactly | crates/server/src/connection.rs:248-285 | a joined device's clip is forwarded to the room it joined, as the identity it joined with, exactly if it names that room and the room takes it; any other frame closes |
| Connection.HangupExactly | crates/server/src/connection.rs:101-164 | an open connection can be hung up on, which closes it for good and touches no other |
| Connection.DeviceIdExactly | crates/core/src/crypto.rs:108-111 | a device id is sixteen hex digits that decode to the first eight bytes of the key's hash |
| RelayMembers.ClipsComeFromRegisteredPair | crates/server/src/connection.rs:331-338 | over every run of the registry and all connections together, a clip that reaches a room was sent by one of the two distinct well-formed identities the registry held the room for when the connection joined |
| RelayMembers.RegisteredMemberIsHeard | crates/server/src/connection.rs:166-352 | the converse: either of the two identities the registry holds a room for connects, greets, signs its challenge, joins within its budget and sends a clip, and the clip is forwarded to that room under its own identity |
| RelayMembers.RegistryRuns | crates/server/src/registry.rs:277-340 | every run of registry and connections together is, seen from the registry, a run of the registry alone |
| RelayMembers.ConnectionsRun | crates/server/src/connection.rs:166-285 | and, seen from the connections, a run of the connections alone |
| Connection.SameSignatureSameNonce | crates/server/src/connection.rs:314-320 | one signature can only ever serve one nonce and one room |
| Connection.ClientConnection.HandleJoin | crates/server/src/connection.rs:292-352 | the challenge is spent whatever the outcome, and the join is accepted exactly when every check passes |
| Connection.ClientConnection.TakeFrame | crates/server/src/connection.rs:166-285 | the connection's phase after any frame is the specified one |
| Registry.AlwaysTwoDistinctMembers | crates/server/src/registry.rs:402-423 | in every reachable state memory and file hold at most 100 rooms, each with a well-formed id and two distinct fingerprints in canonical order |
| Registry.CommitPromise | crates/server/src/registry.rs:277-304 | an accepted commit means the room belongs to exactly the two identities; any other answer leaves memory alone; a created room is durable |
| Registry.CommitAnsweredExactly | crates/server/src/registry.rs:277-304 | created exactly if the room is new, there are fewer than 100 and the file is written; existing exactly if the room is there for these two identities; else refused |
| Registry.ActivateAnsweredExactly | crates/server/src/registry.rs:306-326 | a room is activated exactly by the first join of one of its members with the file written |
| Registry.PrunedExactly | crates/server/src/registry.rs:328-340 | pruning drops exactly the rooms nobody joined that were created before the cutoff, if the file is written, and says how many |
| Registry.CommitUnordered | crates/server/src/registry.rs:402-423 | the order of the two identities does not matter |
| Registry.MembersNeverChange | crates/server/src/registry.rs:284-293 | no call changes whose room it is |
| Registry.ActivationIsDurable | crates/server/src/registry.rs:306-326 | a successful activation is in memory and on file |
| Registry.ActivatedForGood | crates/server/src/registry.rs:277-340 | a durably activated room keeps members and activation through every run of commits, activations, prunings, failed rewrites, crashes and restarts |
| Registry.OnlyLateFailureDiverges | crates/server/src/registry.rs:249-264 | memory and file stay in step exactly until a rewrite fails after its rename |
| Registry.RestartKeepsRooms | crates/server/src/registry.rs:214-238 | while they are in step a restart forgets nothing |
| Registry.ExistingMayBeForgotten | crates/server/src/registry.rs:284-293 | a run from an empty registry after which a commit is answered as existing although the file has lost the room and a restart forgets it |
| Registry.DivergesExactly | crates/server/src/registry.rs:249-340 | over every run: memory and file differ exactly when the call that last replaced the file failed late, and a room in memory is missing from the file exactly when that call was a prune that drops it |
| Registry.ExistingSurvivesExactly | crates/server/src/registry.rs:284-293 | over every run: a room answered as existing is back after a restart, with the same members, exactly unless the file was last replaced by a prune that failed late and drops it |
| Registry.NeverLateStaysInStep | crates/server/src/registry.rs:249-264 | through every run without a late failure memory and file stay in step |
| Registry.DurableRewriteHeals | crates/server/src/registry.rs:249-264 | after any failures a successful rewrite puts memory and file in step again, and they stay so until the next late failure |
| Registry.FileRoundTrip | crates/server/src/registry.rs:348-383 | writing the registry as rows, in any order, and reading them back gives the same registry |
| Registry.PersistentRegistry.LoadRows | crates/server/src/registry.rs:219-233 | the loading loop keeps the first valid row of each room |
| Registry.PersistentRegistry.Commit | crates/server/src/registry.rs:277-304 | the in-place code has the specified effect and answer |
| Registry.PersistentRegistry.ActivateOnFirstJoin | crates/server/src/registry.rs:306-326 | the in-place code has the specified effect and answer |
| Registry.PersistentRegistry.PruneUnactivated | crates/server/src/registry.rs:328-340 | the retain loop and the conditional rewrite have the specified effect and answer |
| PairingRelay.OneClaimPerOffer | crates/server/src/pairing.rs:162-357 | over any run no offer is claimed twice, every claim told exactly its two sides, nobody was told anything else, and between calls every offer is published or terminal |
| PairingRelay.TerminalIsAbsorbing | crates/server/src/pairing.rs:162-357 | once an offer is terminal or dropped no continuation claims it |
| PairingRelay.ClaimHasEffect | crates/server/src/pairing.rs:208-308 | a successful claim was of a live published offer, has the room registered to exactly the two fingerprints and tells both sides each other's bundle; a failed one leaves all outboxes and logs as they were; a well-formed code is spent either way |
| PairingRelay.ClaimSucceedsExactly | crates/server/src/pairing.rs:208-308 | a claim succeeds exactly when an attempt is left in the window, the code is six upper-case letters or digits, published and unexpired, the claimer's bundle is the one it introduced itself with, its fingerprint is not the offerer's, the offerer is connected, the registry has the room for the two or can add it, and both outboxes have bytes and slots left |
| PairingRelay.ClaimRefusedExactly | crates/server/src/pairing.rs:208-308 | every refusal of a claim by the first of these conditions that fails |
| PairingRelay.ClaimBurnsExactly | crates/server/src/pairing.rs:208-308 | a claim makes exactly the offer of its code terminal, unless the code is malformed |
| PairingRelay.OfferAnsweredExactly | crates/server/src/pairing.rs:162-206 | an offer is published exactly when an attempt is left, the code is well formed and not in use, the bundle is the introduced one, the limit is not reached, and the confirmation fits the outbox of a connected offerer; every refusal has its own condition |
| PairingRelay.OfferHasEffect | crates/server/src/pairing.rs:162-206 | a published offer runs for the time to live, belongs to its connection and bundle and is confirmed to it; expired offers go and the others stay |
| PairingRelayMeaning.AttemptsAreBounded | crates/server/src/pairing.rs:146-160 | over every run of a relay that is not restarted, with time that does not go back: whatever codes it tries, on however many connections, an address is granted at most twice the budget of pairing attempts in any interval as long as a window |
| PairingRelayMeaning.AttemptIsCounted | crates/server/src/pairing.rs:146-160 | an attempt is answered as over budget exactly if its address has none left in its window, and counted exactly if it has; no other event but a restart touches an address's count |
| PairingRelayMeaning.RefusedAtOnceLeaves | crates/server/src/pairing.rs:169-178 | an offer over budget, malformed or not of the introduced identity changes nothing but the count of attempts |
| PairingRelayMeaning.RefusedInTurnLeaves | crates/server/src/pairing.rs:179-190 | one refused for a taken code, for lack of room or for a stale connection also drops exactly the expired offers |
| PairingRelayMeaning.RefusedLateLeaves | crates/server/src/pairing.rs:191-204 | one whose confirmation does not fit the outbox keeps its code taken, as terminal, until it expires |
| PairingRelayMeaning.OtherEventsLeave | crates/server/src/pairing.rs:104-133 | a hello, a use of an outbox or of the registry, and a restart, which keeps the registry's file only, touch exactly what they name |
| PairingRelayMeaning.OtherRegistryUse | crates/server/src/registry.rs:306-340 | others use the registry for activations and prunings only |
| PairingRelay.DisconnectBurnsExactly | crates/server/src/pairing.rs:349-356 | a disconnect makes exactly the connection's own offers terminal |
| PairingRelay.AllOrNothing | crates/server/src/pairing.rs:282-302 | both outboxes get their frame or both are exactly as before, and the former exactly when both have space |
| PairingRelay.OfferKeepsInv | crates/server/src/pairing.rs:162-206 | an offer, accepted or not, keeps the relay invariant |
| PairingEngine.Relay.AllowAttempt | crates/server/src/pairing.rs:146-160 | the in-place counter decides and counts as specified |
| PairingEngine.Relay.DropExpired | crates/server/src/pairing.rs:179-181 | the retain loop drops exactly the expired offers |
| PairingEngine.Relay.OnOffer | crates/server/src/pairing.rs:162-206 | the in-place code, through the preparing state, has the specified effect and reply |
| PairingEngine.Relay.NotifyPair | crates/server/src/pairing.rs:282-302 | reserve, reserve, send, send, with the first dropped if the second fails |
| PairingEngine.Relay.OnClaim | crates/server/src/pairing.rs:208-308 | the in-place code, through the claimed state, has the specified effect and reply; which reply that is, is `PairingRelay.ClaimSucceedsExactly` and `PairingRelay.ClaimRefusedExactly` |
| PairingNotify.ToldExactly | crates/server/src/pairing.rs:285-302 | however others use the two outboxes between the relay's accesses: nobody can take a reservation away; on failure neither side was told and nothing is left behind; on success each side was told exactly unless its receiver went away between reservation and sending |
| PairingNotify.UndisturbedIsNotifyBoth | crates/server/src/pairing.rs:285-302 | with nobody else about, the relay's single accesses are a legal run that ends with the answer and the outboxes of the claim's notification |
| PairingNotify.TellingPushes | crates/server/src/room.rs:68-74 | being told is the frame entering the queue, and no other access of the relay enters anything |
| PairingNotify.BothAccounted | crates/server/src/room.rs:76-151 | both outboxes stay exactly accounted and within their limits throughout |
| PairingNotify.SuccessMayTellOneOnly | crates/server/src/pairing.rs:285-302 | from any two outboxes with space, a run in which the claim succeeds and only the claimer is told |
| PairingEngine.Relay.OnDisconnect | crates/server/src/pairing.rs:349-356 | the loop makes exactly the connection's offers terminal |
| Pairing.LoadsOwnGenerationOnly | crates/core/src/pairing.rs:302-316 | in every reachable state the pairing that loads is valid for the identity on disk and of its generation, loading never meets an invalid record, and generations never go back |
| PairingTheorems.ResetIsAtomic | crates/core/src/pairing.rs:366-407 | however confirmations, stores, failures and crashes interleave with a reset, the identity on disk is the complete old or the complete new one, the new one exactly when the rename has happened: never at the first two checkpoints, always at the last two; the pairing file is untouched unless a record was stored or the reset got to its clean-up |
| PairingTheorems.GenerationMoves | crates/core/src/pairing.rs:393-397 | over every run the generation is unchanged exactly when no reset renamed the identity |
| Pairing.ResetRotates | crates/core/src/pairing.rs:366-407 | a completed reset installs the next generation and leaves no pairing |
| Pairing.LastGenerationStays | crates/core/src/pairing.rs:371-374 | a reset is refused, changing nothing, exactly at the last generation |
| Pairing.IdentityChangesWhole | crates/core/src/pairing.rs:393-397 | only first creation and a reset's rename change the identity, and then to a complete one, a generation up |
| PairingTheorems.SucceedsExactly | crates/core/src/pairing.rs:318-327 | over every interleaving: a confirmation can store its record and report success exactly when the digits match and no reset renamed the identity between its start and its check; what it stores loads exactly when none did between check and store |
| PairingTheorems.StaysLoadedExactly | crates/core/src/pairing.rs:302-327 | over every run: what a confirmation stores loads from then on exactly when its generation is current at the store and no later step stores another record, renames the identity or cleans up after a reset |
| PairingTheorems.StaleStoreUnpairs | crates/core/src/pairing.rs:318-327 | from any store at rest, a run in which a confirmation checked before a reset overwrites the pairing confirmed after it: both report success and nothing is paired |
| PairingTheorems.CleanupUnpairs | crates/core/src/pairing.rs:398-407 | from any store at rest, a run in which a reset's clean-up deletes a pairing of the new generation whose confirmation had reported success |
| Pairing.StaleRecordNeverLoads | crates/core/src/pairing.rs:311-313 | a record of an earlier generation never loads in any continuation |
| Pairing.CheckedMayOutliveRename | crates/core/src/pairing.rs:318-327 | a confirmation whose check precedes the rename can still report success after it, for a record that does not load |
| Pairing.StoredIsLoaded | crates/core/src/pairing.rs:318-327 | what a confirmation stores is what loads, exactly when no reset has renamed the identity since its check |
| Pairing.HonestExchangeAgrees | crates/core/src/pairing.rs:94-184 | with an honest relay both sides reach confirmation or neither, with the same digits and room, each the other's peer |
| PairingMeaning.HonestDevicesPair | crates/core/src/pairing.rs:94-327 | two devices with different identities exchange a valid code over an honest relay and each user types in the digits the other device shows: both then load a pairing, with the other's keys, for the same room, over the relay in the code |
| PairingMeaning.OfferExactly | crates/core/src/pairing.rs:94-128 | the offerer's answer, by the first thing that is wrong |
| PairingMeaning.ClaimExactly | crates/core/src/pairing.rs:143-184 | the claimer's answer, by the first thing that is wrong |
| PairingMeaning.ServerExactly | crates/core/src/pairing.rs:516-537 | a relay address is accepted exactly if it names a non-empty host over an encrypted connection (in debug builds also an unencrypted one) without credentials, fragment, blanks or control characters |
| PairingMeaning.AuthorityExactly | crates/core/src/pairing.rs:524-527 | the authority runs up to the first delimiter or the end |
| PairingMeaning.LoadExactly | crates/core/src/pairing.rs:302-316 | a record loads exactly if it is of the identity's generation and everything in it is what identity, peer keys and address give; of another generation it counts as none, else it is invalid |
| PairingMeaning.ConfirmExactly | crates/core/src/pairing.rs:220-227 | in every consistent store a confirmation passes exactly with the digits shown and the generation still on disk; else it ends and changes nothing |
| PairingMeaning.StoreExactly | crates/core/src/pairing.rs:318-327 | what a confirmation stores replaces the pairing unless the write failed outright, and only a durable write is reported as success |
| PairingMeaning.AdvanceExactly | crates/core/src/pairing.rs:366-407 | a reset moves on one checkpoint or is abandoned; its rename alone changes the identity, its clean-up alone removes the pairing |
| PairingMeaning.StoreStepsExactly | crates/core/src/pairing.rs:294-374 | creation, start of a reset, a shown confirmation and a crash do exactly what they say |
| Pairing.ClaimerIsPinned | crates/core/src/pairing.rs:143-184 | whatever the relay does a claimer is paired with the scanned identity over the scanned relay |
| Pairing.SubstitutionChangesDigitsInput | crates/core/src/pairing.rs:208-214 | if the relay hands the offerer another bundle the two sides hash different inputs for their digits |
| Pairing.ExchangeStarts | crates/core/src/pairing.rs:94-184 | the exchange yields candidates bound to the identity's own generation and bundle, with a distinct peer |
| Pairing.PairingStore.LoadIdentity | crates/core/src/pairing.rs:294-296 | loads the identity, or creates the first one durably, not at all, or with a late error |
| Pairing.PairingStore.ResetIdentity | crates/core/src/pairing.rs:366-407 | the staged code leaves the disk of the stage it reached |
| Pairing.PairingStore.ConfirmDigits | crates/core/src/pairing.rs:220-227 | compare, check, write has the effect of its steps |
| PairedDevices.ConfirmedDevicesArePaired | crates/core/src/session.rs:304-325 | the records two honest devices confirm open sessions on both or neither, and those sessions are paired |
| PairedDevices.DirectionsAreDistinct | crates/core/src/session.rs:249-251 | two directions of records that load have the same storage key, or the same associated data, exactly when room, sender and receiver are the same |
| RateLimit.OneWindow | crates/server/src/ratelimit.rs:36-69 | within one window an address is granted at most what the budget has left |
| RateLimit.TwiceInAnyInterval | crates/server/src/ratelimit.rs:36-69 | in any interval as long as a window an address is granted at most twice the budget, for every non-decreasing time sequence |
| RateLimit.AddressesIndependent | crates/server/src/ratelimit.rs:36-69 | what an address is granted depends on its own requests alone |
| RateLimit.ByteBudgetExact | crates/server/src/ratelimit.rs:54-69 | the byte budget binds in every window exactly when it lies below the top of the saturating 64-bit counter |
| RateLimit.SaturatedBudgetFails | crates/server/src/ratelimit.rs:54-69 | with the budget at the top of the counter, frames of any size are granted beyond it in one window once there are enough of them |
| RateLimit.PairingLimiterAgrees | crates/server/src/pairing.rs:146-160 | not counting refused attempts makes the same decisions as counting them |
| RateLimit.PairAttemptsBounded | crates/server/src/pairing.rs:146-160 | pairing attempts of an address are at most twice the budget in any interval as long as a window |
| RateLimit.NarrowDiffersAtWrap | crates/server/src/ratelimit.rs:49-50 | after any requests the stored 32-bit counter lets through whatever a counter that never wraps lets through, and decides an attempt differently exactly when its true number in the window is past 2^32 with the remainder within the budget |
| RateLimit.AttemptBudgetExact | crates/server/src/ratelimit.rs:36-51 | in one window, whatever else goes on, an address is granted exactly the attempts whose number modulo 2^32 is within the budget; so the budget binds in the window exactly when it makes fewer than 2^32 attempts |
| RateLimit.GrantedClosed | crates/server/src/ratelimit.rs:49-50 | that number in closed form: the budget and one more for every full 2^32 attempts, and of the rest at most the budget |
| RateLimit.WrappedBudgetFails | crates/server/src/ratelimit.rs:36-51 | 2^32 attempts in one window of a fresh limiter are granted one more than the budget |
| RateLimit.NarrowAgrees | crates/server/src/ratelimit.rs:36-69 | while no window of an address sees 2^32 attempts the stored limiter grants it exactly what the unbounded one grants, in any interval; bytes are granted alike in any case |
| RateLimit.NarrowAgreesExactly | crates/server/src/ratelimit.rs:36-51 | over a whole run the stored limiter grants an address as many attempts as the unbounded one exactly when none of its windows sees 2^32 attempts, else more |
| RateLimit.StoredTwiceInAnyInterval | crates/server/src/ratelimit.rs:36-69 | so a fresh stored limiter too grants at most twice the budget in any interval as long as a window, if no window of the address sees 2^32 attempts |
| RateLimit.IpRateLimiter.CheckJoin | crates/server/src/ratelimit.rs:36-51 | the in-place window decides and counts as specified |
| RateLimit.IpRateLimiter.AddBytes | crates/server/src/ratelimit.rs:54-69 | the in-place window decides and counts as specified |

## Left out

- System.EndToEnd: item ids are assumed fresh and one session live per store; the program draws random UUIDs and relies on its caller for the latter.
- Pairing.SubstitutionChangesDigitsInput: six digits can still collide; only the hashed inputs are shown to differ.
- Power loss: a process crash keeps what was written; effects of a missing directory sync are modelled only as a late error of the write.
- Liveness, fairness, timeouts and deadlines: what a step does once it is taken is stated, not that it is ever taken.
- JSON, base64 and UTF-8 encodings and their size limits: encoding outcomes are part of the events, decoded values are the model's data.
- Saturating 64-bit time arithmetic: timestamps are unbounded integers, and each call reads the clock once.
- Wrap-around of the outbox byte counter at the machine word: the counter is an unbounded integer, shown never to go below zero.
- The room inbox, its byte budget and the respawn race on a closing actor: the inbox follows the outbox's accounting pattern.
- The in-memory registry and the no-op mailbox sink: used by unit tests of the program only.
- The second direction a session transaction could write: no call site passes one.
- Files and subdirectories in the image directory that are not regular files, and temporary files left in the history directory: they are never read back.
- Unreadable or corrupt identity and pairing files: loading them is an error that changes nothing.
- RateLimit.StoredTwiceInAnyInterval: the condition is sufficient; how much an interval across two windows grants after a wrap follows from what each window grants, and is not stated in closed form.
- ClientWire.ClientSeesJoinTrace: whether the outbox has space is not tied to the outcomes the room actor's events carry, and what the writer stops sending at a close marker is covered as a shorter prefix.
- PairingTheorems.ResetIsAtomic: one reset runs at a time; the program does not serialize two concurrent resets of one store.
- PairingEngine.Relay.OnClaim: the method makes its accesses to the two outboxes without others in between; what interleaving changes is stated by `PairingNotify.ToldExactly`.
- Health reporting, logging, the foreign-function layer, sockets, TLS, HTTP wiring, platform shells and configuration: the model has no state for them and takes what they feed into the core, such as frames, clocks and file outcomes, as events.
