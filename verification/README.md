# Verified model of pairing, relay and session state

This project models the parts of the Teleprompter client that keep replicated state straight, and proves what they
are for. The code is Swift and Rust; what it does step by step is written here as Dafny classes whose methods are
proved against functions over a value of the whole state, and the promises are lemmas about those functions, over
every input and every run.

**The pairing store.** Committed pairings are keychain records that iCloud syncs between devices; beside them each
device keeps an ordered index of daemons, tombstones for pairings hidden on this device only, an anti-downgrade floor
per daemon, and pending pairings not yet confirmed. `PairingRecords` and `PairingState` give the value-level meaning;
`PairingRecordStore` and `PairingStore` are the classes. The proofs: what a reconcile keeps, deletes and lists
(`PairingElection` for any enumeration, `PairingReconcile` for a complete one); that a mirror converges to the last
snapshot over whole runs (`PairingMirror`, `PairingConvergence`); and over arbitrary runs with arbitrary enumerations
(`PairingRuns`), exactly which records applying a peer snapshot removes or loses and when a run removes any
(`PairingDeletion`; `PairingMirrorSafety` if the reads are complete), that the visible list is safe and when it is not
(`PairingListing`, `PairingStranding`), that hiding is sticky (`PairingHiding`), and that commits lose no pairing and
floors only rise (`PairingCommit`).

**The relay client.** A socket, a retry timer, a ping timer and a key-exchange epoch, driven on one serial queue by
calls, timers and frames, also frames of sockets long cancelled. `RelayState` has each step as a function,
`RelayClient` the class; `RelayLifecycle` proves the connection invariant, `RelayKeys` what a confirmation tag belongs
to and what it takes to confirm, and `RelayHistory` what the client remembers of a run and everything it does outside.
`PairingRegistry` and `PairingViewModel` are the owner of the clients. `PairingSystem` puts store, owner, clients and
the messages between them together, so that `PairingZombies` (no client outlives its owner's interest),
`PairingDowngrade` (where promotions come from, and exactly when a version 4 pairing can be committed as legacy) and
`PairingAdvertised` (that an advertised version guards its pairing, and where unpairs come from) can speak of whole
histories; `PairingDowngradeExample` has a history in which a downgrade happens.

**Session records.** `SessionLog` says what the rows are by a plain scan, that they and the terminal text tell exactly
the applied records, and that replaying overlapping batches converges; `SessionIndex` and `SessionStore` prove that
the store's index maps and queues compute the same, and keep the session list.

**Time stamps.** `Calendar` steps through the Gregorian calendar day by day; `Rfc3339` proves that the closed formula
of the relay's build script computes it for every 64-bit input, and that the formatted text (section 5.6 of RFC 3339)
orders as the instants do (section 5.1).

How the model stands to the program: an order or outcome the program does not control is an argument of the functions
and a ghost result of the methods (the order a keychain or dictionary is enumerated in, whether a save succeeds, what
the keychain shows, the current time). Key derivation, tags and decryption are uninterpreted functions that may fail;
the derivation of a pairing id from a daemon id is uninterpreted too. Where a claim about daemons needs it, one
pairing id belongs to one daemon (`owner`). A client starts with or without a resume token saved by an earlier one. A
timer that was cancelled does not fire.

Store operations are atomic in the model. The source calls them without a lock from several queues (its own note at
ios/Sources/Pairing/PairingStore.swift:746-754), so two read-modify-writes of the pointers or of a sidecar could
interleave there; nothing is claimed about that. Likewise a promoted client changes hands in one step here: in
ios/Sources/TeleprompterApp.swift:804-814 the phase flips on the client's own queue, and its confirmation callback is
swapped afterwards, so that a frame in between runs in the committed phase and still asks for a promotion.

Where code and comments disagree, the code is followed:

- `applyPeerSnapshot` is documented as never issuing a delete. It can ask for a removal, through the reconcile it
  triggers, and its saves delete before they add. `PairingDeletion.SnapshotRemovesIff`, `SnapshotStoresIff` and
  `SnapshotLosesNothingIff` say exactly which records are removed or lost, whatever its reads show. With complete reads
  that takes a revived legacy record or a failed save (`PairingMirrorSafety.FaithfulRemovesNothingIff`,
  `FaithfulLosesNothingIff`); after a first read that shows too little it takes neither. There is an input for each
  (`StaleArrivalDeletes`, `FailedSaveLosesRecord`, `ShortReadDeletes`).
- A listed daemon is to stay listed until it is removed or hidden, and no pointer is to name a tombstoned record.
  Applying a snapshot hides a daemon's other records before its reconcile repoints the daemon, so a reconcile that is
  shown too little, or a failed save, can break both. `PairingListing.ApplyingListsIff`, `ListedStaysListedIff` and
  `NoPointerIsHiddenIff` say exactly when, whatever is read, and `PairingStranding` has the inputs.
- A version 4 pairing is documented as never taking the legacy branch. It can if a legacy promotion of the same id is
  already on its way to the main actor when the link is scanned, and only then (`PairingDowngrade.DowngradeIff`). This
  takes a version 4 link that carries an id already in use, which the client accepts; the daemon of this repository
  mints a fresh one for every link (rust/tp-daemon/src/pairing/random_pairing_bundle.rs:114).
- A re-exchange is to use a pair of that very step. It does if generating one succeeds, and otherwise uses the pair
  made last (`RelayKeys.EpochsUseTheLastPair`, and `ReexchangeReusesPair` for the input).

## Model

| member | source | states |
|---|---|---|
| `PairingRecords.NewerIsTotal` | ios/Sources/Pairing/PairingStore.swift:731-733 | the (time, pairing id) comparison is a strict total order on records that differ in either |
| `PairingRecords.ElectionIsSound` | ios/Sources/Pairing/PairingStore.swift:521-532 | of each daemon's enumerated records the winner has the greatest time, and exactly the others lose |
| `PairingRecords.CollapseIgnoresOrder` | ios/Sources/Pairing/PairingStore.swift:712-715 | the newest record per daemon is the same for any order of enumeration |
| `PairingRecords.CollapseIsLatest` | ios/Sources/Pairing/PairingStore.swift:731-733 | it is one of the latest time, and of those one of the greatest pairing id |
| `Lexical.LessIff` | ios/Sources/Pairing/PairingStore.swift:731-733 | ids compare by their first differing character, a proper prefix coming first |
| `PairingRecords.ElectionAgreesWithCollapse` | ios/Sources/Pairing/PairingStore.swift:521-532 | reconcile and snapshot agree on the current record where a daemon's records differ in time |
| `PairingReconcile.ReconcileMeetsSpec` | ios/Sources/Pairing/PairingStore.swift:494-562 | the whole effect of a faithful reconcile: tombstoned records stay, each daemon keeps exactly one shown record, of greatest time, and is pointed at it; a daemon without one keeps its pointer unless hidden; the old order is kept |
| `PairingReconcile.ReconcileKeepsOrder` | ios/Sources/Pairing/PairingStore.swift:536-558 | for any enumeration: survivors keep their relative order, arrivals follow them, sorted |
| `PairingElection.SweepsIff` | ios/Sources/Pairing/PairingStore.swift:521-539 | whatever an enumeration shows, a reconcile deletes exactly the shown ids that it enumerates beside a later record of the same daemon, or an equally late one enumerated before, hidden ones aside |
| `PairingElection.SweepsNothingIff` | ios/Sources/Pairing/PairingStore.swift:521-539 | it deletes nothing exactly when, hidden ones aside, the enumeration shows no daemon twice |
| `PairingReconcile.SweepsNothingIffSingle` | ios/Sources/Pairing/PairingStore.swift:521-539 | against a complete enumeration that is exactly when no daemon shows two records in the store |
| `PairingReconcile.ReconcileIsIdempotent` | ios/Sources/Pairing/PairingStore.swift:494-562 | reconciling again, in any order of enumeration, changes nothing |
| `PairingMirror.AllMirroredAt` | ios/Sources/Pairing/PairingStore.swift:789-854 | after the adoption loop, in any order of daemons, each incoming daemon is as its own record alone left it, every other untouched |
| `PairingMirror.OutcomeIff` | ios/Sources/Pairing/PairingStore.swift:795-846 | an incoming record is adopted, or lost with its save, exactly if it is newer than every record of its daemon that was read; otherwise it is no news if the one under its own id is as new, and stale if only another is |
| `PairingMirror.SingleIffNotRevived` | ios/Sources/Pairing/PairingStore.swift:791-854 | one incoming record leaves a daemon with two shown records exactly when it revives a hidden legacy one beside a shown one |
| `PairingDeletion.SnapshotRemovesIff` | ios/Sources/Pairing/PairingStore.swift:757-884 | whatever its reads show, applying a snapshot asks the keychain to remove exactly the ids that its reconcile enumerates beside a later record of the same daemon (or an equally late one enumerated before), neither left tombstoned by the adoption, by conditions on the state before; so nothing if and only if no two such records of one daemon are enumerated |
| `PairingDeletion.SnapshotStoresIff` | ios/Sources/Pairing/PairingStore.swift:757-884 | whatever its reads show, the records stored afterwards, each with its content: those adopted and those from before, without the ones a failed save deleted and the ones removed |
| `PairingDeletion.SnapshotLosesNothingIff` | ios/Sources/Pairing/PairingStore.swift:757-884 | whatever its reads show, it loses no record if and only if no two untombstoned records of one daemon are enumerated and no save of a stored id fails |
| `PairingDeletion.ShortReadDeletes` | ios/Sources/Pairing/PairingStore.swift:816-871 | an input with nothing revived and no failed save: a first read that shows nothing lets an older record be adopted beside the current one, and the reconcile removes it again |
| `PairingDeletion.NothingIsRemovedIff` | ios/Sources/Pairing/PairingStore.swift:521-539 | over any run, whatever is read, nothing has been removed if and only if no step unpaired a daemon with a pointer or a record shown, and none was shown two records of one daemon (in a read or a snapshot's reconcile, tombstoned ones aside; in a commit, one beside the committed) |
| `PairingMirrorSafety.FaithfulRemovesNothingIff` | ios/Sources/Pairing/PairingStore.swift:757-884 | where both reads are complete, from at most one shown record per daemon: it asks to remove no record if and only if no incoming record that is neither held nor adopted lifts the tombstone of a stored legacy record beside a shown one |
| `PairingMirrorSafety.FaithfulLosesNothingIff` | ios/Sources/Pairing/PairingStore.swift:757-884 | under the same conditions it loses no record, by removal or by a failed save, if and only if moreover no save of a newer writing of a record we hold fails |
| `PairingMirrorSafety.FailedSaveLosesRecord` | ios/Sources/Pairing/PairingStore.swift:833-843 | a failing input of the second kind: a daemon's only record is sent again later and cannot be saved; nothing is removed and the record is gone |
| `PairingMirrorSafety.StaleArrivalDeletes` | ios/Sources/Pairing/PairingStore.swift:800-871 | a failing input of the first kind: legacy record hidden, a newer one shown, a third older than that arrives; the legacy record is removed |
| `PairingConvergence.SnapshotSettles` | ios/Sources/Pairing/PairingStore.swift:757-884 | one snapshot, records not going back in time: nothing deleted, the list becomes its daemons, its records are the ones shown |
| `PairingConvergence.SnapshotFloors` | ios/Sources/Pairing/PairingStore.swift:856-864 | a snapshot makes each of its daemons' floors the larger of the two and leaves all others |
| `PairingConvergence.MirrorConverges` | ios/Sources/Pairing/PairingStore.swift:757-884 | over any run from an empty store of snapshots whose records do not go back in time, applied with complete reads and successful saves, and of complete reads and locked windows between them: no removal ever, at most one shown record per daemon, and list and committed snapshot are the last applied snapshot's, floors no lower |
| `PairingConvergence.MirrorLosesNothing` | ios/Sources/Pairing/PairingStore.swift:757-884 | in such a run no record, once stored, is lost |
| `PairingConvergence.MirrorRoundTrip` | ios/Sources/Pairing/PairingStore.swift:708-727 | a mirror that applied what a phone published publishes the very same pairings |
| `PairingConvergence.SnapshotIsPublished` | ios/Sources/Pairing/PairingStore.swift:708-727 | of a readable keychain is published, in the order of the daemons, one latest record of each daemon that shows any, of those of the greatest id, with the positive floors of just these daemons |
| `PairingRuns.RunsAreSound` | ios/Sources/Pairing/PairingStore.swift:426-455 | in every reachable state the pointer order lists the pointer map's keys once each, the last good index is the current one, and pending records and order agree |
| `PairingRuns.LockedReadsAreInert` | ios/Sources/Pairing/PairingStore.swift:495-503 | in every reachable state a read of a locked keychain returns the index as it is and changes nothing |
| `PairingListing.ApplyingListsIff` | ios/Sources/Pairing/PairingStore.swift:757-884 | for each daemon of a snapshot, whatever the application's reads show: it leaves the list exactly if it is overtaken (we hold its incoming record, do not adopt it, and the index is at another record, hidden by then) and the reconcile is shown records but none of this daemon; its pointer ends at a tombstoned id exactly if it is overtaken and the reconcile is shown nothing |
| `PairingListing.FaithfulListsIff` | ios/Sources/Pairing/PairingStore.swift:789-874 | where those reads are complete, by conditions on the state before: only a failed save that strands the daemon (our copy lost while the index is at a superseded record) does either, unlisting it if anything is shown afterwards and leaving the hidden pointer if not |
| `PairingListing.NoPointerIsHiddenIff` | ios/Sources/Pairing/PairingStore.swift:542-552 | whatever is read, up to any point of a run no pointer has named a tombstoned id if and only if no snapshot application overtook a daemon and was shown nothing in its reconcile |
| `PairingStranding.StrandingHappens` | ios/Sources/Pairing/PairingStore.swift:789-874 | the runs with complete reads and one failed save, from an empty store: P, Q, then P again unsaved; sent alone the daemon is left at the tombstoned Q, sent with another it leaves the list |
| `PairingStranding.ShortReadUnlists` | ios/Sources/Pairing/PairingStore.swift:816-871 | the input with no failed save: the older record is sent again; a reconcile shown only the other daemon's record unlists this one, one shown nothing or refused leaves its pointer at the hidden record |
| `PairingListing.VisibleListIsSafe` | ios/Sources/Pairing/PairingStore.swift:494-562 | whatever is read, in snapshot applications too, of two openly listed daemons the one before stays before until a step names, unlists or darkens one of these two |
| `PairingListing.ListedStaysListedIff` | ios/Sources/Pairing/PairingStore.swift:494-562 | a daemon listed at an id that is not tombstoned stays so up to any point of a run, whatever is read, if and only if no step until then unpairs or hides it, omits it from an applied snapshot, or overtakes it as above |
| `PairingHiding.HideHidesIff` | ios/Sources/Pairing/PairingStore.swift:624-647 | hiding deletes nothing, and hides the daemon entirely exactly when it saw all its records not yet hidden |
| `PairingHiding.StepKeepsHidden` | ios/Sources/Pairing/PairingStore.swift:494-562 | no step that does not readmit a hidden daemon shows it or deletes a record of it |
| `PairingHiding.HideIsSticky` | ios/Sources/Pairing/PairingStore.swift:624-647 | after a hide on a readable keychain no read, re-delivery or late promotion lists the daemon or deletes its records until it is scanned, mirrored, unpaired, or an unseen id of it arrives; promoting its swept pending records does nothing |
| `PairingHiding.UnpairRevokes` | ios/Sources/Pairing/PairingStore.swift:1079-1095 | on a readable keychain every record, tombstone, pointer and sidecar of the daemon is gone, also the tombstone of its derived id, its records deleted, and nothing of any other daemon touched |
| `PairingHiding.BlindUnpair` | ios/Sources/Pairing/PairingStore.swift:460-466 | where nothing can be read, exactly the record the daemon is pointed at is deleted |
| `PairingCommit.PromotionNeverLoses` | ios/Sources/Pairing/PairingStore.swift:307-346 | whatever reads and saves do, the pairing stays pending and nothing at all changes, save that a failed save loses a copy stored under that very id, so the daemon's other records stay; or its daemon, id, content and the current time are stored, pointed at and shown; nothing of any other daemon changes |
| `PairingCommit.PromotionCommits` | ios/Sources/Pairing/PairingStore.swift:307-346 | on a readable keychain exactly the new record of the daemon remains, pointed at and un-hidden, other daemons untouched, the larger floor kept; promoting again does nothing |
| `PairingCommit.UnreadableCommit` | ios/Sources/Pairing/PairingStore.swift:307-346 | if the keychain cannot be read back, the record is committed all the same and nothing is deleted |
| `PairingCommit.CommitIsSeen` | ios/Sources/Pairing/PairingStore.swift:353-355 | the next read lists the daemon at the committed record and sweeps nothing of it |
| `PairingCommit.LatestCommitPrevails` | ios/Sources/Pairing/PairingStore.swift:494-562 | any reconcile shown a record beside only earlier ones of its daemon, tombstoned ones aside, keeps it and lists the daemon at it, and a snapshot of that enumeration sends it |
| `PairingCommit.CommitPrevails` | ios/Sources/Pairing/PairingStore.swift:307-346 | so does the record a promotion stores, if committed later than the others shown |
| `PairingCommit.IngestRecords` | ios/Sources/Pairing/PairingStore.swift:923-946 | scanning a link records exactly what it says and the current time, once in the order, lifts two tombstones and touches nothing else |
| `PairingCommit.DecodedSays` | ios/Sources/Pairing/PairingStore.swift:259-288 | a link yields the id it carries or else the one derived from its daemon, and floor 3 from version 4 on, 0 below |
| `PairingCommit.PendingIsKept` | ios/Sources/Pairing/PairingStore.swift:1014-1022 | over any run, while a pairing is pending and not scanned anew, it is the one recorded, at its time, and its floor the maximum of the first one and everything offered |
| `PairingCommit.TagIsLastRecorded` | ios/Sources/Pairing/PairingStore.swift:1044-1050 | in every run the tag kept for a daemon is the one recorded last where a sidecar existed, unless it was unpaired since; commits, mirrored floors and raises keep it |
| `PairingCommit.FloorIsMaximum` | ios/Sources/Pairing/PairingStore.swift:1028-1036 | over any run without an unpair the committed floor is the maximum of the starting one and everything offered by commits, snapshots and raises on an existing sidecar |
| `PairingRecordStoreModel.KeychainRecordStore.LoadAll` | ios/Sources/Pairing/PairingRecordStore.swift:145-181 | nothing while locked, otherwise every record once, in some order |
| `PairingRecordStoreModel.KeychainRecordStore.Save` | ios/Sources/Pairing/PairingRecordStore.swift:183-204 | upsert by delete and add: a failed add has lost the old record |
| `PairingRecordStoreModel.KeychainRecordStore.Remove` | ios/Sources/Pairing/PairingRecordStore.swift:206-214 | deletes one record and is logged |
| `PairingStoreModel.ElectNewest` | ios/Sources/Pairing/PairingStore.swift:521-532 | the loop elects and sweeps what the specification elects |
| `PairingStoreModel.CollapseNewest` | ios/Sources/Pairing/PairingStore.swift:771-775 | the loop keeps the newest record per daemon |
| `PairingStoreModel.RebuildPointers` | ios/Sources/Pairing/PairingStore.swift:541-560 | the two loops compute the specified index: survivors in order, arrivals sorted |
| `PairingStoreModel.PairingStore.SetPointer` | ios/Sources/Pairing/PairingStore.swift:443-448 | repoints in place or appends |
| `PairingStoreModel.PairingStore.DropPointer` | ios/Sources/Pairing/PairingStore.swift:450-455 | removes the daemon from map and order |
| `PairingStoreModel.PairingStore.PairingIds` | ios/Sources/Pairing/PairingStore.swift:460-466 | the daemon's ids in the keychain, or failing that its pointer |
| `PairingStoreModel.PairingStore.SetLocalHidden` | ios/Sources/Pairing/PairingStore.swift:581-588 | adds one tombstone |
| `PairingStoreModel.PairingStore.ClearLocalHide` | ios/Sources/Pairing/PairingStore.swift:598-605 | removes one tombstone |
| `PairingStoreModel.PairingStore.UnhideForDaemon` | ios/Sources/Pairing/PairingStore.swift:656-659 | lifts the tombstones of the id and of the daemon's legacy id |
| `PairingStoreModel.PairingStore.ReconciledPointers` | ios/Sources/Pairing/PairingStore.swift:494-562 | new state and returned index are the specified reconcile of what was enumerated |
| `PairingStoreModel.PairingStore.DaemonIds` | ios/Sources/Pairing/PairingStore.swift:353-355 | the reconciled order |
| `PairingStoreModel.PairingStore.Load` | ios/Sources/Pairing/PairingStore.swift:362-384 | the record the reconciled index is at, if it can be read, and the daemon's floor |
| `PairingStoreModel.PairingStore.HideLocally` | ios/Sources/Pairing/PairingStore.swift:624-647 | tombstones, unlists and sweeps the pending records of the daemon, returning those |
| `PairingStoreModel.PairingStore.Remove` | ios/Sources/Pairing/PairingStore.swift:1079-1095 | deletes the daemon's records, tombstones, sidecar and pointer |
| `PairingStoreModel.PairingStore.Ingest` | ios/Sources/Pairing/PairingStore.swift:230-240 | un-hides at once; records the pending pairing, once in the order, if its secret was stored |
| `PairingStoreModel.PairingStore.Persist` | ios/Sources/Pairing/PairingStore.swift:307-346 | the specified commit, or only the lost record if the save fails |
| `PairingStoreModel.PairingStore.Promote` | ios/Sources/Pairing/PairingStore.swift:972-989 | the specified promotion with its three outcomes |
| `PairingStoreModel.PairingStore.GcPending` | ios/Sources/Pairing/PairingStore.swift:994-1007 | sweeps exactly the pending pairings older than the cutoff |
| `PairingStoreModel.PairingStore.RaisePendingFloor` | ios/Sources/Pairing/PairingStore.swift:1014-1022 | raises a pending floor if the record exists and the value is higher |
| `PairingStoreModel.PairingStore.RaiseCommittedFloor` | ios/Sources/Pairing/PairingStore.swift:1028-1035 | raises a committed floor if a sidecar exists and the value is higher |
| `PairingStoreModel.PairingStore.RecordConfirmedPct` | ios/Sources/Pairing/PairingStore.swift:1044-1050 | records a confirmed tag if a sidecar exists |
| `PairingStoreModel.PairingStore.PublishedSnapshot` | ios/Sources/Pairing/PairingStore.swift:708-727 | the specified snapshot, the same for every order of enumeration; nothing while locked |
| `PairingStoreModel.PairingStore.AdoptIncoming` | ios/Sources/Pairing/PairingStore.swift:789-854 | one incoming record has the specified effect and outcome |
| `PairingStoreModel.PairingStore.MergeFloors` | ios/Sources/Pairing/PairingStore.swift:857-863 | the floors of incoming daemons merge by maximum |
| `PairingStoreModel.PairingStore.ApplyPeerSnapshot` | ios/Sources/Pairing/PairingStore.swift:757-884 | a newer schema or a locked keychain changes nothing; otherwise the state is the specified application, and the counts and swept pending ids are those that happened |
| `PairingStoreModel.AppliedCounts` | ios/Sources/Pairing/PairingStore.swift:757-884 | counted as adopted are the incoming records that are newer than all of their daemon's and were saved, as stale those that are not though none under their own id is as new |
| `RelayLifecycle.DelaysBackOff` | ios/Sources/Relay/RelayClient.swift:2000-2004 | retry delays are 1, 2, 4, 8, 16 and then 30 seconds, never more |
| `RelayLifecycle.StepIsLively` | ios/Sources/Relay/RelayClient.swift:584-656 | every step keeps the connection invariant, only a connect call makes an unwanted client wanted, only a disconnect a dialable one unwanted |
| `RelayLifecycle.EveryStateIsLively` | ios/Sources/Relay/RelayClient.swift:1951-1997 | in every reachable state a client is wanted exactly when it has a live socket or an armed retry, never both, and nothing uncancelled is left behind |
| `RelayLifecycle.DisconnectIsFinal` | ios/Sources/Relay/RelayClient.swift:648-656 | after a disconnect, whatever arrives, no socket opens and no retry is armed until a connect call |
| `RelayLifecycle.NeverSilentlyOffline` | ios/Sources/Relay/RelayClient.swift:1927-1997 | after a connect call, until a disconnect, exactly one socket or retry is alive |
| `RelayLifecycle.PingGivesUpIff` | ios/Sources/Relay/RelayClient.swift:2019-2052 | in every run a tick drops the socket and arms a retry exactly when it is the third or later since the last pong or authentication |
| `RelayLifecycle.RetriesBackOff` | ios/Sources/Relay/RelayClient.swift:1951-1997 | in every run a retry waits by the number of retries armed since the last authentication, and starts without keys or pings |
| `RelayLifecycle.RejectedResumeIsForgotten` | ios/Sources/Relay/RelayClient.swift:878-905 | in every run, after a rejected resume no connection resumes until an authentication has brought a new token |
| `RelayHistory.DialResumesIff` | ios/Sources/Relay/RelayClient.swift:658-685 | a dial resumes exactly if a token is held that is fresh, and otherwise authenticates in full |
| `RelayHistory.PhaseAndTokenAreLast` | ios/Sources/Relay/RelayClient.swift:830-905 | in every run the phase is the one last set, and the resume token the one last brought, unless a resume was rejected since |
| `RelayHistory.PingsSinceAuthentication` | ios/Sources/Relay/RelayClient.swift:2019-2052 | in every run a client pings exactly from an authentication until it retries, is torn down or has missed three pongs |
| `RelayHistory.CauseIsReported` | ios/Sources/Relay/RelayClient.swift:1905-1935 | the cause shown changes exactly by the failures reported, by close codes, and by an authentication, which clears it |
| `RelayKeys.TagBelongsToKeys` | ios/Sources/Relay/RelayClient.swift:1047-1067 | in every reachable state with session keys, the stored tag is the one those very keys give, or none if none could be derived |
| `RelayKeys.EpochsUseTheLastPair` | ios/Sources/Relay/RelayClient.swift:1089-1184 | in every run new session keys come from the pair made last, that step's own if it made one and otherwise the last one before |
| `RelayKeys.ReexchangeReusesPair` | ios/Sources/Relay/RelayClient.swift:1089-1184 | a run whose re-exchange, able to generate no pair, changes the keys by deriving them from the pair before and announces nothing |
| `RelayHistory.StepDerives` | ios/Sources/Relay/RelayClient.swift:1047-1184 | over every step: a daemon's key gives keys and tag with the pair then held, if any can be derived; a retry drops pair and keys; nothing else touches them |
| `RelayHistory.AdvertisedIsLast` | ios/Sources/Relay/RelayClient.swift:1121-1142 | in every run the version known of the daemon is the one its last opened key-exchange frame advertised, and 1 before any or where the frame names none |
| `RelayHistory.EffectsTable` | ios/Sources/Relay/RelayClient.swift:1250-1307 | over every step, everything a client does outside, each if and only if: announcements, raised floors, recorded tags, confirmations, legacy commits, failures with their reasons, unpairs and attachments, in terms of the frame, the tag and all versions known |
| `RelayHistory.AttachesOnce` | ios/Sources/Relay/RelayClient.swift:1452-1459 | in every run a client attaches exactly at the first hello with sessions since its connection was retried or its keys exchanged again, and to the first session listed |
| `RelayKeys.ConfirmationIsEarned` | ios/Sources/Relay/RelayClient.swift:1263-1277 | in every run a confirmation compares the daemon's tag with the tag of the keys that decrypted it |
| `RelayClientModel.RelayClient.ConnectOnQueue` | ios/Sources/Relay/RelayClient.swift:584-636 | dials unless a socket lives, taking over an armed retry; an undialable endpoint is terminal |
| `RelayClientModel.RelayClient.DisconnectOnQueue` | ios/Sources/Relay/RelayClient.swift:648-656 | clears intent, timers and socket |
| `RelayClientModel.RelayClient.SendAuth` | ios/Sources/Relay/RelayClient.swift:658-685 | resumes while a token is fresh |
| `RelayClientModel.RelayClient.FailOnQueue` | ios/Sources/Relay/RelayClient.swift:1905-1915 | terminal failure disconnects |
| `RelayClientModel.RelayClient.FailRecoverableOnQueue` | ios/Sources/Relay/RelayClient.swift:1927-1935 | recoverable failure retries if still wanted |
| `RelayClientModel.RelayClient.ScheduleReconnect` | ios/Sources/Relay/RelayClient.swift:1951-1997 | tears down and arms one retry, unless unwanted or already retrying |
| `RelayClientModel.RelayClient.ReconnectTimerFired` | ios/Sources/Relay/RelayClient.swift:1989-1994 | the fired timer is forgotten and the client dials |
| `RelayClientModel.RelayClient.StartPing` | ios/Sources/Relay/RelayClient.swift:2019-2052 | one ping timer replaces another, the count of missed pongs starts over |
| `RelayClientModel.RelayClient.PingTimerTicked` | ios/Sources/Relay/RelayClient.swift:2025-2036 | counts a missed pong and reconnects past the limit |
| `RelayClientModel.RelayClient.OnAuthOk` | ios/Sources/Relay/RelayClient.swift:830-855 | caches the token, resets the back-off, starts pinging and the key exchange |
| `RelayClientModel.RelayClient.OnAuthErr` | ios/Sources/Relay/RelayClient.swift:878-905 | a failed resume drops the token and retries in full, any other reject retries |
| `RelayClientModel.RelayClient.StartKeyExchange` | ios/Sources/Relay/RelayClient.swift:1089-1109 | stores a new pair and announces it, or leaves the old one if none could be made |
| `RelayClientModel.RelayClient.DeriveEpoch` | ios/Sources/Relay/RelayClient.swift:1047-1067 | keys and tag of one epoch change together |
| `RelayClientModel.RelayClient.OnKeyExchangeFrame` | ios/Sources/Relay/RelayClient.swift:1121-1184 | first keys, or a re-exchange; the advertised version is recorded and offered as a floor |
| `RelayClientModel.RelayClient.ResolvePromotion` | ios/Sources/Relay/RelayClient.swift:1250-1307 | the four cells of the promotion table |
| `RelayClientModel.RelayClient.OnRelayFrame` | ios/Sources/Relay/RelayClient.swift:1316-1442 | hellos resolve the promotion and attach once, an unpair on the control channel is passed on, frames before keys are dropped |
| `RelayClientModel.RelayClient.OnHello` | ios/Sources/Relay/RelayClient.swift:1452-1459 | attaches to the first session, once per connection |
| `RelayClientModel.RelayClient.Handle` | ios/Sources/Relay/RelayClient.swift:747-800 | each frame has its specified effect |
| `RelayClientModel.RelayClient.RunOnQueue` | ios/Sources/Relay/RelayClient.swift:276-285 | every block on the queue is one specified step and keeps the connection invariant |
| `PairingRegistry.OpenedIsTidy` | ios/Sources/TeleprompterApp.swift:571-650 | building a daemon's client keeps: every held client once, last told to connect and in its map's phase, every other last told to disconnect |
| `PairingRegistry.BegunIsTidy` | ios/Sources/TeleprompterApp.swift:659-718 | so does starting a pending client |
| `PairingRegistry.DroppedIsTidy` | ios/Sources/TeleprompterApp.swift:843-854 | so does dropping a daemon's client |
| `PairingRegistry.DroppedPendingsIsTidy` | ios/Sources/TeleprompterApp.swift:871-874 | so does dropping pending clients |
| `PairingRegistry.RekeyedIsTidy` | ios/Sources/TeleprompterApp.swift:745-753 | so does promotion, which moves the same client and disconnects the one displaced |
| `PairingRegistry.WantedAreHeld` | ios/Sources/TeleprompterApp.swift:571-761 | of all clients ever made, those last told to connect are no more than the entries of the two maps |
| `PairingViewModelModel.PairingViewModel.Connect` | ios/Sources/TeleprompterApp.swift:571-650 | replaces the daemon's client by a new one, if its record loads |
| `PairingViewModelModel.PairingViewModel.BeginPending` | ios/Sources/TeleprompterApp.swift:659-718 | starts one client per pending pairing, a second call does nothing |
| `PairingViewModelModel.PairingViewModel.PromoteConfirmed` | ios/Sources/TeleprompterApp.swift:724-761 | no client, no readable record, a record the store then cannot read, a failed save or a commit: registry, store and list in each case, and a committed daemon is listed whatever the keychain then shows |
| `PairingViewModelModel.PairingViewModel.Rekey` | ios/Sources/TeleprompterApp.swift:745-822 | the live client moves to its daemon in the committed phase |
| `PairingViewModelModel.PairingViewModel.CancelPending` | ios/Sources/TeleprompterApp.swift:836-841 | client disconnected and dropped, record removed |
| `PairingViewModelModel.PairingViewModel.Remove` | ios/Sources/TeleprompterApp.swift:843-854 | the client is told to unpair and then to disconnect, nobody else is told anything, then everything is deleted |
| `PairingViewModelModel.PairingViewModel.OnUnpair` | ios/Sources/TeleprompterApp.swift:598-612 | the same teardown without telling the peer |
| `PairingViewModelModel.PairingViewModel.HideLocally` | ios/Sources/TeleprompterApp.swift:866-877 | client and swept pending clients dropped, nothing sent, and the daemon is not on the list afterwards |
| `PairingViewModelModel.PairingViewModel.NudgeReconnectAll` | ios/Sources/TeleprompterApp.swift:528-545 | the client of every listed daemon and of every pending pairing is asked to connect, and no client is disconnected or replaced |
| `PairingViewModelModel.CommittedIsListed` | ios/Sources/TeleprompterApp.swift:737-760 | whatever is read while committing and afterwards, a committed daemon is on the list read back |
| `PairingViewModelModel.HiddenIsListedIff` | ios/Sources/TeleprompterApp.swift:866-877 | whatever is read at the hide and afterwards, a hidden daemon is on the list read back if and only if that read shows a record of it that was not hidden before and that the hide did not tombstone |
| `PairingViewModelModel.HiddenIsUnlisted` | ios/Sources/TeleprompterApp.swift:866-877 | so it is not if both reads are complete or refused |
| `PairingZombies.EveryWorldIsOrdered` | ios/Sources/TeleprompterApp.swift:571-761 | in every history each client is connected only if the last lifecycle call its queue has run was a connect, and if so, given a dialable endpoint, and is in the phase its queue was last told |
| `PairingZombies.NoZombies` | ios/Sources/TeleprompterApp.swift:836-877 | a dropped client that has run its calls holds no socket or retry; once all have, sockets and retries are no more than the entries of the two maps |
| `PairingZombies.HeldAreServed` | ios/Sources/TeleprompterApp.swift:571-761 | in every history a client its owner holds, once it has run its calls, is in the phase of the map it is held in and, if its endpoint can be dialed, has exactly one socket or retry |
| `PairingDowngrade.PromotionsAreEarned` | ios/Sources/TeleprompterApp.swift:687-703 | every promotion of a pairing id follows a hello, heard by a client of that id, with the tag of the keys that decrypted it, or a tag-less one while the effective version is below 3 |
| `PairingDowngrade.PromotionsHaveAnOrigin` | ios/Sources/TeleprompterApp.swift:659-761 | from the start of a pairing's client until another one starts, every promotion of the pairing was under way at that start, or was earned by a hello heard by that client or by an earlier one of the pairing still wired at the start |
| `PairingDowngrade.PromotionsAreItsOwn` | ios/Sources/TeleprompterApp.swift:659-761 | so if no promotion is under way and no earlier client of the pairing is left wired when its client starts, that very client heard the hello and is the one re-keyed |
| `PairingDowngrade.LeftoverPromotionCommits` | ios/Sources/TeleprompterApp.swift:724-761 | where one is under way, it commits the record of a client that has just been started and has done nothing |
| `PairingDowngrade.EarlierClientCommits` | ios/Sources/TeleprompterApp.swift:659-761 | where an earlier client is left wired and can reach a confirmation on its own queue alone, running it there ends in that very commit of the new client's record |
| `PairingDowngrade.NeverDowngraded` | ios/Sources/Pairing/PairingStore.swift:278 | in every history a version 4 pairing with no legacy promotion under way when scanned is only ever promoted as confirmed, while its record lasts and no older link of it is scanned |
| `PairingDowngrade.DowngradeIff` | ios/Sources/Pairing/PairingStore.swift:923-981 | after the scan of a version 4 link some continuation delivers a legacy promotion and commits it while the record lasts if and only if such a promotion was under way at the scan |
| `PairingAdvertised.HighVersionIsNoLegacy` | ios/Sources/Relay/RelayClient.swift:1121-1142 | in every history, once a client has heard its daemon advertise version 3 or more, and no lower one since, no hello earns a legacy promotion from it |
| `PairingAdvertised.AdvertisedNeverDowngraded` | ios/Sources/Pairing/PairingStore.swift:1014-1022 | in every history, once a daemon has advertised version 3 or more to a pending pairing's client, with no legacy promotion under way, the pairing is only promoted as confirmed, by whichever client, while its record lasts and no older link of it is scanned |
| `PairingAdvertised.StartedHighIsNoLegacy` | ios/Sources/TeleprompterApp.swift:659-718 | in every history a client started while its floor is 3 or more takes no legacy branch as long as it lives, though an older link be scanned after its start |
| `PairingAdvertised.CommittedIsNoLegacy` | ios/Sources/Relay/RelayClient.swift:1252-1256 | a committed client takes no legacy branch while its daemon's stored floor is 3 or more |
| `PairingAdvertised.ConfirmationIsRecorded` | ios/Sources/Relay/RelayClient.swift:1263-1273 | a committed client that hears its epoch's own tag leaves that tag and a floor of at least 3 in the daemon's sidecar |
| `PairingAdvertised.UnpairsAreAsked` | ios/Sources/TeleprompterApp.swift:598-612 | in every history the owner is told to drop a daemon only after a committed client read an unpair of that daemon, under its session keys, on the control channel |
| `PairingAdvertised.UnpairIsCarriedOut` | ios/Sources/TeleprompterApp.swift:598-612 | delivered on a readable keychain, that leaves no client, pointer, record or sidecar of the daemon |
| `PairingAdvertised.UnreadPromotionDrops` | ios/Sources/TeleprompterApp.swift:724-735 | a promotion whose record is gone or unreadable has its client dropped and told to disconnect, and nothing else |
| `PairingDowngradeExample.SuchAHistoryExists` | ios/Sources/Relay/RelayClient.swift:1290-1295 | such a history, from an empty device: an old daemon's legacy hello, then a version 4 link that carries the same id |
| `SessionLog.RowsStayAscending` | ios/Sources/Session/SessionStore.swift:382-432 | row numbers stay strictly increasing and at most the cursor |
| `SessionLog.DeliveryIsApplied` | ios/Sources/Session/SessionStore.swift:374-432 | a delivery has the effect of just those of its records that passed the gate, each higher than all before |
| `SessionLog.ReplayChangesNothing` | ios/Sources/Session/SessionStore.swift:374-380 | re-applying what was delivered changes nothing |
| `SessionLog.PrefixAppliedIffGapless` | ios/Sources/Session/SessionStore.swift:374-432 | a delivery applies exactly a prefix of the log if and only if it leaves no gap |
| `SessionLog.ReplayConverges` | ios/Sources/Session/SessionStore.swift:374-432 | gapless deliveries with any overlaps end in the rows, text and cursor of one pass over the prefix |
| `SessionLog.EventsAreConserved` | ios/Sources/Session/SessionStore.swift:382-432 | rows plus merges equal the events applied |
| `SessionLog.TextIsConcatenated` | ios/Sources/Session/SessionStore.swift:415-427 | the terminal text is the text before and then that of every applied io record, in order |
| `SessionLog.RowsTellEvents` | ios/Sources/Session/SessionStore.swift:382-414 | however batches overlap, each row is an applied event, or stands where a call started and shows what was said of its end, and every applied event has its row |
| `SessionLog.CoalescingKeepsTurn` | ios/Sources/Session/SessionStore.swift:257-275 | the working indicator over the coalesced rows is the one over the uncoalesced events |
| `SessionLog.TurnOpenIff` | ios/Sources/Session/SessionStore.swift:257-275 | a turn is open exactly if there is a prompt with no stop, failed stop, permission request or elicitation after it |
| `SessionIndex.LookUp` | ios/Sources/Session/SessionStore.swift:515-530 | the index and queues name the row a plain scan would find |
| `SessionIndex.LinkMerge` | ios/Sources/Session/SessionStore.swift:515-530 | consuming the entry keeps index, queues and rows linked |
| `SessionStoreModel.OrderIsCanonical` | ios/Sources/Session/SessionStore.swift:208-220 | there is only one ordered list of the sessions, whatever order the dictionary gives them in |
| `SessionStoreModel.BeforeIsTotal` | ios/Sources/Session/SessionStore.swift:210-219 | the comparator is a strict total order on distinct ids |
| `SessionStoreModel.OrderIsMeant` | ios/Sources/Session/SessionStore.swift:208-220 | pinned sessions come first, then running ones, then the latest updated, then by id |
| `SessionStoreModel.UpsertedKeepsLast` | ios/Sources/Session/SessionStore.swift:311-314 | of several sessions given of one id the last wins, and all others stay as they were |
| `SessionStoreModel.NoGhostRows` | ios/Sources/Session/SessionStore.swift:289-372 | over any run of reports, refreshes and removals a removed session is back, in the list or a bucket, only if a daemon has spoken of it since |
| `SessionStoreModel.SessionStore.TakePendingPre` | ios/Sources/Session/SessionStore.swift:515-530 | returns and consumes the row the scan would pick |
| `SessionStoreModel.SessionStore.AppendRec` | ios/Sources/Session/SessionStore.swift:382-432 | the indexed fold computes the plain scan, and no other session changes |
| `SessionStoreModel.SessionStore.AppendBatch` | ios/Sources/Session/SessionStore.swift:374-380 | each session gets its own records of the batch, in order, and its terminal their text |
| `SessionStoreModel.SessionStore.IsWorking` | ios/Sources/Session/SessionStore.swift:257-275 | running, and a prompt with none of the four closing events after it |
| `SessionStoreModel.SessionStore.OrderedSessions` | ios/Sources/Session/SessionStore.swift:208-220 | exactly the sessions, pinned first, then running, then the latest updated, then by id |
| `SessionStoreModel.SessionStore.RemoveSession` | ios/Sources/Session/SessionStore.swift:350-372 | every trace of the session is gone, no other changes |
| `SessionStoreModel.SessionStore.ReplaceSessionsForDaemon` | ios/Sources/Session/SessionStore.swift:289-307 | the daemon's bucket is replaced by the last session given of each id, and the flat list is the buckets merged, placeholders stripped |
| `SessionStoreModel.SessionStore.UpsertSessions` | ios/Sources/Session/SessionStore.swift:311-314 | the given sessions are refreshed or added, the last of one id winning; buckets stay |
| `SessionStoreModel.SessionStore.AppendState` | ios/Sources/Session/SessionStore.swift:317-320 | one session is refreshed or added |
| `Calendar.DaysLaterNumber` | rust/tp-relay/build.rs:91-101 | stepping day by day counts the days |
| `Rfc3339.CivilIsCalendar` | rust/tp-relay/build.rs:84-101 | for every 64-bit input the date is the one reached day by day from 1970-01-01, the clock fields recombine, and no step overflows |
| `Rfc3339.TextSpellsFields` | rust/tp-relay/build.rs:103 | up to year 9999 the text has dashes, a T, colons and a Z in their places and between them the digits of that date and time of day |
| `Rfc3339.TextOrderIsTimeOrder` | rust/tp-relay/build.rs:84-104 | up to year 9999 the text has 20 characters and orders exactly as the seconds do |

## Left out

- Migration of legacy records, smoke mode, labels, per-record hidden flags, logging and change notifications: side stores or single branches.
- Pointer index shapes written by older versions: the index is read back as this version wrote it.
- Store operations that interleave: each is atomic in the model.
- PairingStoreModel.PairingStore.ClearLocalHide: the source leaves an empty pairing id's tombstone alone; here it is lifted like any other.
- PairingStoreModel.PairingStore.ApplyPeerSnapshot: in the method the keychain neither locks nor changes part way through; in the steps of `PairingRuns` each of its reads may fail or show anything.
- PairingStoreModel.PairingStore.Load: base64 decoding of the record and the frontend id are not modelled.
- PairingStoreModel.PairingStore.Ingest: takes the decoded pairing; the link codec and its errors are not modelled, its version and id rules are (`PairingState.Decoded`).
- PairingViewModelModel.PairingViewModel.HideLocally: in the method the keychain's reads are complete or refused; `HiddenIsListedIff` says what other reads do.
- PairingHiding.HideIsSticky: unpairing a hidden daemon counts as readmitting it, because it lifts its tombstones.
- RelayClientModel.RelayClient.Handle: presence, notifications, round-trip times and undecodable frames have no effect on the state modelled.
- RelayClientModel.RelayClient.OnAuthOk: the subscriptions and the push registration it sends are not modelled.
- RelayClientModel.RelayClient.OnKeyExchangeFrame: adopting the daemon's label and the on-demand hello are not modelled.
- RelayClientModel.RelayClient.OnRelayFrame: rename, worktree and session frames are not modelled; the session frames' records are, in `SessionStore`.
- RelayClientModel.RelayClient.OnHello: handing the session list to the session store is a separate operation there.
- RelayLifecycle.EveryStateIsLively: nothing is claimed about ping timers after a disconnect; a late authentication frame can arm one, and its ticks then do nothing.
- PairingSystem.Happens: the main actor's follow-up reads are separate steps, and the watch's own view model is not part of this model.
- PairingViewModelModel.PairingViewModel.NudgeReconnectAll: the labels, presence and error rows refreshed along the way are not modelled.
- Observable presence, causes and pending rows of the view model: mirrored values only.
- Strings compare by character, not by Unicode canonical form; session times are reals and so never NaN.
- Voice, the PCM codec, the terminal history buffer, user interface, gamepad, push and the build script's version lookups: outside the state proved about here, or easy.
