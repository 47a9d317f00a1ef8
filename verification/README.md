# boomerangz in Dafny

A model of the parts of boomerangz that must survive crashes, pruning and
concurrency, with proofs about every input, every run and every interleaving.
boomerangz takes ZFS snapshots, keeps them by a retention grid and replicates
them to local and remote targets.

`dafny verify dfyconfig.toml` checks the whole project.

| file | what it models |
|---|---|
| `Names.dfy` | dataset names as paths, and the textual prefix test the program uses on them |
| `Zfs.dfy`, `Proofs.dfy`, `Lifecycle.dfy` | the recovery-proof protocol: records, holds and checkpoint bookmarks written one at a time, with a crash between any two writes |
| `Refusals.dfy` | exactly when each operation on recovery proofs goes ahead |
| `Reports.dfy` | what a recovery proof reports, from a protection to its release |
| `Hierarchy.dfy` | the lock that keeps operations on overlapping roots apart |
| `Pending.dfy`, `Rerun.dfy` | pending snapshots and the dirty flag that keeps a local transfer from being lost |
| `Transfer.dfy`, `Delivery.dfy`, `Planner.dfy`, `Replicate.dfy`, `Streams.dfy` | the transfer planner, the endpoints of a recursive stream, the streams of a request, what a send delivers, and the verification of what was received |
| `Decision.dfy` | exactly when a transfer is planned and what the plan says |
| `Placeholder.dfy` | replacing a placeholder destination by renaming it aside |
| `Status.dfy`, `Turns.dfy` | status fan-out over bounded channels, whole turns of its owner, and the daemon log's gaps |
| `Locks.dfy` | scoped first-come locks |
| `Queue.dfy` | the fair queue |
| `Gate.dfy` | the lifecycle gate |
| `Grid.dfy`, `Grammar.dfy`, `Prune.dfy` | retention grids, their grammar and pruning |
| `Discovery.dfy` | actor roots, members and replica collisions |
| `Migrate.dfy`, `Upgrade.dfy` | migration of stored state from format v1 to format v2, and exactly which roots migrate |
| `Clean.dfy`, `Erasure.dfy` | cleaning a dataset and forgetting a target, and exactly what each takes and leaves |

Concurrent parts are state machines whose steps are the regions held under a
mutex or single channel operations; a run is any sequence of steps. Protocols
over ZFS are lists of single writes, and a crash is any prefix. Objects whose
methods update their fields are classes, and their methods are proved against
the functions the lemmas speak about.

`Decision`, `Refusals`, `Upgrade`, `Erasure` and `Grammar` restate when an
operation goes ahead, and what it then means, in terms of the inventories or
text alone, and prove the functions of the other modules equivalent to that.

Dataset names are non-empty component sequences. Hashes and UUIDs are
injective tokens, stored records are datatypes, and time is whole nanoseconds.

Two promises turn out not to hold as documented; the code is modelled as it is:

- A snapshot tick that coalesces one snapshot and then fails to protect the
  next returns before it marks the job dirty, so the first stays pending with
  no job until the next tick marks, a submit is accepted or a newer snapshot
  comes (`Rerun.ProtectionFailureStrands`). `Rerun.LostExactly` shows that this
  is the only way to lose one, and `Rerun.RescuesAll` that it ends there.
- A root that carries an explicit marker of state format 1 is planned for
  migration, and its records are rewritten, but the marker is refused because
  the plan expects none (`Migrate.ExplicitFirstFormatStalls`).
  `Migrate.Backend.Apply` shows that migration completes exactly when there is
  no marker.

Four limits of the design are stated exactly:

- Deriving a proof's sources fails once the snapshot name behind one of its
  bookmarks is given to a snapshot with another GUID
  (`Reports.CreateKeepsDerivable`), and never in a run that keeps to one GUID per
  name and one creation time per UUID (`Reports.StoredIsDerivable`).
- A clean or forget with two proofs covering one hold or bookmark lists the same
  command twice and stops at the second; without, an undisturbed one completes
  (`Clean.UndisturbedCompletes`, `Clean.CleanScope`).
- A recursive transfer verifies the endpoint of a dataset only if it is newer
  than the base and no newer than the root's (`Replicate.EndpointsExpectedExactly`).
- A full recursive transfer fails to verify if a snapshot it expected is pruned
  before it is sent; one with intermediates does not (`Delivery.SettlesExactly`).

The roots this installation owns are assumed not to overlap (`Zfs.WellFormed`).

## Model

| member | source | states |
|---|---|---|
| `Names.InsideText` | internal/lifecycle/reference.go:277-279 | for valid names, the textual test (equal, or prefixed by the root and a slash) holds exactly when one path is a prefix of the other |
| `Names.CommonDescendantOverlaps` | internal/lifecycle/service.go:42-44 | two datasets that contain a common one overlap |
| `Zfs.Ownership` | internal/lifecycle/ownership.go:75-110 | an owned snapshot has a GUID, the lineage asked for, and a name that its stored metadata gives back |
| `Zfs.FindOwned` | internal/lifecycle/reference.go:217-226 | what is found is in the inventory and its metadata names it |
| `Zfs.ApplyWellFormed` | internal/lifecycle/reference.go:142-149 | every single write the backend accepts keeps the inventory well formed and no authority changes |
| `Zfs.ApplyElsewhere` | internal/lifecycle/service.go:42-44 | a write inside one root changes nothing of a root that does not overlap it |
| `Proofs.RecordRoundTrip` | internal/lifecycle/reference.go:179-215 | a stored proof reads back as the proof that was written |
| `Proofs.DeriveSources` | internal/lifecycle/reference.go:107-140 | the two loops compute the derivation, errors included |
| `Proofs.SourcesExact` | internal/lifecycle/reference.go:107-140 | a dataset is a source exactly when the proof covers it and it is held or bookmarked, and carries the GUID those give |
| `Proofs.StreamLeads` | internal/lifecycle/reference.go:107-140 | the stream's own source comes first |
| `Proofs.ProtectBacked` | internal/lifecycle/reference.go:341-457 | when a protection adds its holds, a record that accounts for each is already stored |
| `Proofs.ProtectCovered` | internal/lifecycle/reference.go:341-457 | coverage holds before, after and between all writes of a protection |
| `Proofs.CheckpointCovered` | internal/lifecycle/reference.go:469-528 | and of a checkpoint |
| `Proofs.ReleaseThroughout` | internal/lifecycle/reference.go:532-582 | the record goes last: by then nothing it accounts for remains |
| `Proofs.ReleasePending` | internal/lifecycle/reference.go:532-582 | a release drops every hold and bookmark its record accounts for |
| `Proofs.ReleaseCovered` | internal/lifecycle/reference.go:532-582 | coverage holds throughout a proof release and throughout the release of completed holds |
| `Proofs.PlanPlaced` | internal/lifecycle/reference.go:234-271 | every write of an operation stays on its own root |
| `Proofs.PlanCovered` | internal/lifecycle/reference.go:341-582 | coverage holds at every write prefix of every operation, pruning and snapshot creation included |
| `Proofs.CheckpointLogged` | internal/lifecycle/reference.go:469-528 | a bookmark is made only for a source whose GUID the caller supplied as verified on the destination |
| `Proofs.PlanSpares` | internal/lifecycle/inspection.go:46-86 | no operation but a release covering it ends an anchor, a hold or bookmark with its GUID |
| `Proofs.StepSound` | internal/lifecycle/reference.go:341-582 | every step of any interleaving of operations on roots that do not overlap, crashes included, keeps the invariant |
| `Proofs.ProofsAlwaysCover` | internal/lifecycle/reference.go:341-582 | in every run, every hold and checkpoint bookmark under a target tag in a root is accounted for by a stored record for that target and snapshot, and every bookmark carries a GUID once supplied as verified |
| `Proofs.AnchoredUntilReleased` | internal/lifecycle/reference.go:469-528 | once held under a proof, a source stays held or bookmarked with its GUID through every run that releases no proof covering it |
| `Reports.DerivableExactly` | internal/lifecycle/reference.go:107-140 | the sources of a proof can be derived exactly when no covered bookmark disagrees with its snapshot about the GUID |
| `Reports.CreateKeepsDerivable` | internal/lifecycle/reference.go:107-140 | a new snapshot keeps them derivable exactly when it does not take the name behind a covered bookmark under another GUID |
| `Reports.StepFits` | internal/lifecycle/reference.go:341-582 | every step keeps snapshots, records and bookmarks to one GUID per snapshot name and one creation time per UUID |
| `Reports.StoredIsDerivable` | internal/lifecycle/reference.go:107-140 | so in every run that reuses no snapshot name, the sources of every stored proof can be derived |
| `Reports.AnchoredIsReported` | internal/lifecycle/reference.go:107-140 | while anchored, a source is reported with its GUID by every proof that covers it |
| `Reports.ProtectedIsAnchored` | internal/lifecycle/reference.go:341-457 | once a protection has made its last write, each of its snapshots is held for the target, whatever ran elsewhere meanwhile |
| `Reports.ProofCovers` | internal/lifecycle/reference.go:341-457 | the proof a protection relies on covers each of its snapshots |
| `Reports.ProtectedIsReported` | internal/lifecycle/reference.go:341-457 | from the end of a protection, through every run up to a covering release that reuses no snapshot name, each of its snapshots is reported with the GUID it had when protected |
| `Lifecycle.ProtectedAtEnd` | internal/lifecycle/reference.go:341-457 | a protection performed to its end leaves each snapshot held under a proof that covers it |
| `Lifecycle.CrashLeavesCovered` | internal/lifecycle/reference.go:341-582 | wherever an operation stops, each state it passed through is covered |
| `Lifecycle.Service.Perform` | internal/lifecycle/reference.go:142-149 | one backend write, or an error that changes nothing |
| `Lifecycle.Service.PerformAll` | internal/lifecycle/reference.go:438-455 | the writes are made in order up to the first error |
| `Lifecycle.Service.CheckInstant` | internal/lifecycle/reference.go:382-406 | decides that the snapshots are distinct, owned, of one instant and include the stream's own |
| `Lifecycle.Service.MissingHolds` | internal/lifecycle/reference.go:429 | the holds still to be added, in order |
| `Lifecycle.Service.ProtectSet` | internal/lifecycle/reference.go:341-457 | writes a prefix of the planned protection; on success every snapshot is held for the target under the stored proof it returns, which spans them, and nothing else changed |
| `Lifecycle.Service.PlanProtection` | internal/lifecycle/reference.go:341-437 | the checks of a protection, refusing exactly where the plan does |
| `Lifecycle.ProtectedWhole` | internal/lifecycle/reference.go:341-457 | a protection performed whole holds each snapshot under its stored proof and touches nothing else |
| `Lifecycle.Service.GatherWrites` | internal/lifecycle/reference.go:491-515 | the loop over the sources collects their writes or the first refusal |
| `Lifecycle.Service.CheckpointSet` | internal/lifecycle/reference.go:469-528 | writes a prefix of the planned checkpoint; on success every dataset the proof spans that was held or bookmarked has its bookmark, with its own GUID and the one verified for it, and nothing else changed |
| `Lifecycle.Service.PlanCheckpoint` | internal/lifecycle/reference.go:469-515 | the checks of a checkpoint, refusing exactly where the plan does |
| `Lifecycle.CheckpointedAtEnd` | internal/lifecycle/reference.go:469-528 | a checkpoint performed whole leaves every protected dataset bookmarked with its GUID |
| `Lifecycle.Service.ReleaseCompletedHold` | internal/lifecycle/inspection.go:46-86 | writes a prefix of the planned release; on success no dataset the proof spans is held for it, each that was is bookmarked with its GUID, and nothing else changed |
| `Lifecycle.Service.ReleaseReference` | internal/lifecycle/reference.go:532-582 | bookmarks and holds, then the record; on success none of the three is left of the proof and nothing else changed |
| `Lifecycle.HoldsReleasedAtEnd` | internal/lifecycle/inspection.go:46-86 | released whole, what was held is bookmarked and held no more |
| `Lifecycle.ProofReleasedAtEnd` | internal/lifecycle/reference.go:532-582 | removed whole, nothing of the proof is left |
| `Refusals.StandsExactly` | internal/lifecycle/reference.go:234-271 | a proof can be worked on exactly when its root and scope have no resumable receive, every record of the root reads, this one is stored unchanged under the root's lineage, and every dataset it involves shows one GUID |
| `Refusals.SourcesInvolved` | internal/lifecycle/reference.go:107-140 | its sources are then exactly the datasets it spans that are held or bookmarked under its own names, each with the GUID shown |
| `Refusals.ProtectsExactly` | internal/lifecycle/reference.go:341-437 | a protection goes ahead exactly when the snapshots are distinct, owned and of one instant with the stream's own among them, and no record of another creation or narrower span and no unproven hold stands in the way |
| `Refusals.CheckpointsExactly` | internal/lifecycle/reference.go:469-515 | a checkpoint goes ahead exactly when the proof stands, the stream is protected, only protected snapshots were verified, and each involved dataset is bookmarked already or was verified with its GUID, held and owned |
| `Refusals.ReleasesHoldExactly` | internal/lifecycle/inspection.go:46-86 | holds are released exactly when the proof stands and each held source is owned and bookmarked |
| `Refusals.ReleasesExactly` | internal/lifecycle/reference.go:532-582 | a proof is removed exactly when it stands and each held source is owned |
| `Hierarchy.StepInv` | internal/lifecycle/service.go:46-78 | every look, wake and release keeps the active roots apart and loses no wake-up |
| `Hierarchy.OverlappingRootsExclude` | internal/lifecycle/service.go:46-78 | no two operations hold overlapping roots, and a waiter that could enter is on a closed channel |
| `Hierarchy.AdmitsExactlyTheFree` | internal/lifecycle/service.go:46-59 | a root is admitted exactly when no held root overlaps it |
| `Hierarchy.FreeWaiterEnters` | internal/lifecycle/service.go:46-78 | in every run, a waiter whose root overlaps nothing held enters on its own next steps |
| `Hierarchy.CancelledLeaves` | internal/lifecycle/service.go:69-78 | one that gives up waits no longer, holds nothing and was in nobody's way |
| `Hierarchy.HierarchyLocks.Acquire` | internal/lifecycle/service.go:46-71 | enters exactly when nothing active overlaps, or names the channel to wait on |
| `Hierarchy.HierarchyLocks.Release` | internal/lifecycle/service.go:60-68 | takes back one count and replaces the channel |
| `Pending.EndKeepsNewer` | internal/transfer/recovery.go:105-118 | ending a reservation never removes a snapshot coalesced after it began |
| `Pending.CoalesceAllEntry` | internal/transfer/recovery.go:57-81 | whatever the order of arrival, the entry left is the newest snapshot |
| `Pending.PendingSet.CoalesceOne` | internal/transfer/recovery.go:57-81 | replaces the entry only by a newer snapshot; what is superseded may be released exactly when no attempt has it reserved |
| `Pending.PendingSet.BeginOne` | internal/transfer/recovery.go:85-101 | reserves the entry once |
| `Pending.PendingSet.EndOne` | internal/transfer/recovery.go:105-118 | clears the reservation, and the entry only when verified and unchanged |
| `Rerun.StepInv` | internal/daemon/pool.go:287-396 | every step of every interleaving of enqueuers and workers keeps one job per ID, orderly reservations, entries newer than what the job holds, and someone to act on a set flag |
| `Rerun.LostStep` | internal/daemon/runtime.go:1254-1308 | one step loses exactly what a tick that fails after it has coalesced alone would have marked, and what is lost stays so exactly until a tick marks, a submit is accepted or a newer snapshot comes |
| `Rerun.LostExactly` | internal/daemon/runtime.go:1254-1353 | in every interleaving, a pending snapshot has no job that will reserve it exactly when such a failure lost it and nothing since has rescued it |
| `Rerun.NothingIsLost` | internal/daemon/runtime.go:1254-1353 | every pending snapshot otherwise has a job that will still reserve it; that a tick's snapshots become pending is `Rerun.TickDelivers` |
| `Rerun.TickTakes` | internal/daemon/runtime.go:1211-1226 | a tick sets out to protect and coalesce exactly the created snapshots of its streams, each in its place |
| `Rerun.TickDelivers` | internal/daemon/runtime.go:1211-1281 | in every interleaving, when a tick comes to mark, each created snapshot of its streams has an entry at least as new, or one at least as new was sent and verified since |
| `Rerun.RoundDrains` | internal/daemon/runtime.go:1283-1353 | an undisturbed round goes from its submission to an idle pool with a clear flag and leaves pending exactly what it did not verify |
| `Rerun.RescuesAll` | internal/daemon/runtime.go:1276-1306 | a mark, or an accepted submit, rescues every stream |
| `Rerun.LostNeedsFailure` | internal/daemon/runtime.go:1254-1308 | while no protection fails in a tick that has coalesced before, nothing is lost |
| `Rerun.FailureLosesExactly` | internal/daemon/runtime.go:1254-1308 | a tick that fails with no job about leaves pending exactly what it has itself put there |
| `Rerun.QuietMeansReserved` | internal/daemon/runtime.go:1313-1353 | then, once everything has run, everything coalesced has been reserved since |
| `Rerun.QuietLeavesLost` | internal/daemon/runtime.go:1254-1353 | once everything has run, what is pending is exactly what late failures lost and nothing has rescued |
| `Rerun.ProtectionFailureStrands` | internal/daemon/runtime.go:1254-1308 | a tick that coalesces one snapshot and fails to protect the next leaves the first pending with no job to send it |
| `Transfer.MembersBeneathRoot` | internal/transfer/plan.go:94-103 | every member's replica lies beneath its root's, and containment of replicas is containment of sources |
| `Transfer.MapReceiveText` | internal/zfs/stream.go:53-74 | on names as text, a source lands at the root, at the root followed by what follows the pool, or by the last component alone |
| `Transfer.DropFirstApart` | internal/zfs/stream.go:53-74 | dropping the pool alone keeps the sources of one pool apart |
| `Transfer.DropAllShares` | internal/zfs/stream.go:53-74 | dropping all brings two sources together exactly when they share their last component |
| `Transfer.StreamText` | internal/transfer/plan.go:94-103 | a member lands at its root's place followed by what follows the root's name |
| `Transfer.EndpointNewest` | internal/transfer/plan.go:446-463 | the endpoint is the newest owned candidate |
| `Transfer.NewestExact` | internal/transfer/plan.go:557-562 | the destination's newest snapshot, if it has any |
| `Transfer.SnapshotBaseExact` | internal/transfer/plan.go:566-594 | a snapshot base is found exactly when an eligible one exists |
| `Transfer.BookmarkBaseExact` | internal/transfer/plan.go:566-594 | a bookmark base has the GUID of the destination and precedes the endpoint |
| `Transfer.BaseExact` | internal/transfer/plan.go:557-597 | a base has the GUID of the destination's newest snapshot, precedes the endpoint, and is a bookmark only where the endpoint alone is sent |
| `Delivery.PlanEndpoint` | internal/transfer/plan.go:446-463 | a plan names the newest candidate as endpoint and sends it |
| `Delivery.PlanBase` | internal/transfer/plan.go:557-597 | and its base as above |
| `Delivery.PlanSendAccepted` | internal/zfs/stream.go:76-129 | every plan's send options are accepted |
| `Delivery.ExpectedIsDelivered` | internal/transfer/plan.go:608-636 | the planner's expected set is what the sender transmits, in order |
| `Delivery.DeliverExact` | internal/zfs/stream.go:76-129 | a stream carries exactly the snapshots after the base up to the endpoint, or the endpoint alone |
| `Delivery.StreamIsExpected` | internal/transfer/plan.go:608-636 | the stream of a plan consists of exactly its expected snapshots, endpoint included |
| `Delivery.ReceiveRefusedExactly` | internal/transfer/plan.go:608-636 | the receive is refused exactly when the name of a snapshot between base and endpoint is already taken on the destination |
| `Delivery.ReceivedVerifies` | internal/transfer/local.go:1081-1093 | what arrives is found where the plan said, with the source GUIDs, so verification accepts |
| `Delivery.EndpointBecomesNewest` | internal/transfer/plan.go:557-562 | after the receive the endpoint is the newest on the destination |
| `Delivery.RecordedBinds` | internal/transfer/plan.go:397-430 | the promoted binding is the one the next pass verifies |
| `Delivery.LandedIsUpToDate` | internal/transfer/plan.go:523-533 | planning again finds the same endpoint already there |
| `Delivery.PlanSendsExpected` | internal/transfer/plan.go:241-648 | the stream of a plan is exactly its expected snapshots, received exactly when no name before the endpoint is taken |
| `Delivery.TransferConverges` | internal/transfer/plan.go:241-648 | for every plan of a non-recursive stream: accepted options, base on both ends and before the endpoint, exactly the expected snapshots sent, what arrives verifies, and planning again is up to date at the same endpoint |
| `Delivery.SettleExact` | internal/transfer/local.go:1053-1079 | settling drops exactly the expected snapshots that neither arrived, nor are endpoints, nor are still on the source |
| `Delivery.SettledSound` | internal/transfer/local.go:1046-1093 | for every plan: after settling and verifying, each endpoint it expects is on the destination with its GUID, and every other expected snapshot too unless it was gone from the source |
| `Delivery.EndpointIsExpected` | internal/transfer/plan.go:608-639 | a plan for one stream expects its endpoint |
| `Delivery.SettlesExactly` | internal/transfer/local.go:1046-1093 | for every plan: with intermediates, concurrent pruning never fails a good transfer; without, it verifies exactly when all it expected was sent |
| `Delivery.SettledComplete` | internal/transfer/local.go:1053-1093 | pruning during the transfer never makes a good one fail |
| `Planner.SelectEndpoint` | internal/transfer/plan.go:446-463 | the selection loop computes the endpoint or its error |
| `Planner.SelectNewest` | internal/transfer/plan.go:557-562 | the loop over the destination's snapshots |
| `Planner.SelectBase` | internal/transfer/plan.go:563-597 | the loops over snapshots and bookmarks find the base |
| `Planner.CollectExpected` | internal/transfer/plan.go:608-636 | the loop that fills the expected set |
| `Planner.BuildPlan` | internal/transfer/plan.go:241-648 | the planner, every refusal included; an accepted plan receives where the names alone say |
| `Planner.PlanLands` | internal/transfer/plan.go:94-103 | a plan's destination is the textual mapping of the root followed by what follows the root's name |
| `Decision.PlannedExactly` | internal/transfer/plan.go:241-648 | for every request and inventory, a stream is planned exactly when the request is admissible, the stored or new binding names the live destination, an owned snapshot is selected, source and replica agree, no name there has another GUID, and there is a parent, an arrived endpoint or an eligible base |
| `Decision.BindExact` | internal/transfer/plan.go:346-430 | a binding is accepted exactly when it maps the root, its anchor contains it, and the live destination has its pool and GUID |
| `Decision.EndsExact` | internal/transfer/plan.go:446-463 | the endpoint is the newest owned snapshot of the stream, or the pinned one |
| `Decision.BaseChoice` | internal/transfer/plan.go:557-597 | a base is an owned snapshot, or for latest-only sends the cursor of a proof of this stream and target, with the GUID of the destination's newest; a snapshot wherever one can be; none exactly when nothing is eligible |
| `Decision.PlanSays` | internal/transfer/plan.go:523-648 | a plan keeps that binding, ends at that endpoint, expects it with its ownership, and sends nothing, all or from a base as the destination calls for |
| `Decision.PlanExpects` | internal/transfer/plan.go:608-636 | whatever a plan expects is a source snapshot with its GUID and ownership |
| `Replicate.EndpointsExact` | internal/transfer/plan.go:469-505 | a recursive stream has endpoints exactly when every dataset beneath agrees in lineage and replica and has an owned snapshot of the name |
| `Replicate.EndpointsAre` | internal/transfer/plan.go:469-505 | it has exactly one for each dataset |
| `Replicate.CollectEndpoints` | internal/transfer/plan.go:469-505 | the loop collects them or the first refusal |
| `Replicate.CollectAll` | internal/transfer/plan.go:608-636 | the loop collects the expected snapshots of a recursive stream |
| `Replicate.FinishSends` | internal/transfer/plan.go:523-639 | what a recursive plan consists of |
| `Replicate.EndpointsExpectedExactly` | internal/transfer/plan.go:469-639 | a recursive plan verifies all its endpoints exactly when each dataset's is newer than the base and no newer than the root's |
| `Replicate.ReplicaHasEndpoints` | internal/transfer/local.go:1046-1093 | then a verified replica has every endpoint with its GUID |
| `Replicate.OutsideIsUnverified` | internal/transfer/plan.go:608-611 | an endpoint outside is not verified: what verifies would verify without it |
| `Decision.ReplicatedExactly` | internal/transfer/plan.go:469-639 | a recursive stream is planned exactly when every dataset beneath agrees with its replica and has an owned snapshot of the name, none contradicts the destination, and that is complete, has an owned base or has a parent; the mode is then determined |
| `Decision.ReplicaExpectsExactly` | internal/transfer/plan.go:608-636 | it expects exactly the snapshots up to the endpoint, those after the base, or of those the endpoint's own, by its mode |
| `Planner.SettleIntermediates` | internal/transfer/local.go:1053-1079 | the settling loop |
| `Planner.CheckGUIDs` | internal/transfer/local.go:1081-1093 | the verification loop, refusing a resumable receive |
| `Streams.SortedIsParentsFirst` | internal/transfer/plan.go:60-62 | names in lexical order list every parent before its children |
| `Streams.Streams` | internal/transfer/plan.go:53-75 | the root alone, or the members parents first; refused exactly for a replication root or an invalid, repeated or outside member |
| `Planner.ApplyStreams` | internal/transfer/local.go:581-631 | a stream is attempted exactly when no stream above it fails, and all is verified exactly when each is |
| `Placeholder.AsideApart` | internal/transfer/local.go:947 | the set-aside name neither contains nor lies within the destination |
| `Placeholder.RenameLookup` | internal/transfer/local.go:962-1001 | a rename moves exactly the subtree, path by path |
| `Placeholder.ActionKeeps` | internal/transfer/local.go:962-1044 | every command of a replacement keeps each replica under exactly one of the two names |
| `Placeholder.ReplicasSurvive` | internal/transfer/local.go:962-1044 | so across every command and crash, and nothing outside changes |
| `Placeholder.OnlyEmptyDestroyed` | internal/transfer/local.go:1006-1044 | only a dataset with the marker and no snapshot, bookmark or resumable receive, and with nothing beneath it, is destroyed |
| `Placeholder.UnmarkedStays` | internal/transfer/binding.go:105-121 | in whatever tree, a destination or set-aside dataset without the marker, or with content, is neither moved nor destroyed |
| `Placeholder.OnlySettledMoves` | internal/transfer/local.go:962-1044 | setting aside moves no dataset with a receive under way, and adoption needs a replica received whole |
| `Placeholder.FinishedHasAll` | internal/transfer/local.go:1006-1044 | a finished replacement has every replica beneath the received one and nothing set aside |
| `Placeholder.AlwaysAdvances` | internal/transfer/local.go:962-1044 | from any state a crash can leave, some command is possible and brings the end closer |
| `Placeholder.RerunCompletes` | internal/transfer/local.go:962-1044 | rerunning reaches a finished replacement from any such state |
| `Placeholder.Destination.SetAsidePlaceholder` | internal/transfer/local.go:962-1001 | renames a placeholder aside with all beneath it, or refuses; whatever is unmarked or has content stays as it is, and so does a tree with a receive under way |
| `Placeholder.Destination.AdoptPlaceholderChildren` | internal/transfer/local.go:1006-1044 | moves every child across and removes the placeholder; what is not a placeholder is left alone; every state on the way keeps the replicas |
| `Status.StepInv` | internal/daemon/status.go:531-573 | every step of owner and forwarder, in any interleaving, keeps the flow of transitions whole and in order |
| `Status.UpdatesAreCoherent` | internal/daemon/status.go:699-790 | the updates handed over carry a gap-free, duplicate-free, in-order prefix of what was recorded, and each state includes every transition its update carries and, short of a full bound, none still to come |
| `Status.LiveLosesNothing` | internal/daemon/status.go:531-573 | what a live subscription has not been handed is still on its way, in order |
| `Status.OverflowMeansBehind` | internal/daemon/status.go:531-573 | a subscription overflows only when more than a full bound is recorded and not handed over |
| `Status.QuietIsOnOffer` | internal/daemon/status.go:699-790 | with the channels read, pending transitions are on offer with the newest state |
| `Status.NothingIsWithheld` | internal/daemon/status.go:699-790 | with the channels read, either the last update carried the newest state and nothing is pending, or the waiting forwarder hands over that state with all that is pending, transitions or none |
| `Status.ForwarderSettles` | internal/daemon/status.go:726-760 | with nothing in its channel the forwarder comes to wait for the consumer |
| `Turns.TurnServes` | internal/daemon/status.go:531-573 | a turn drops a subscriber whose forwarder has stopped, and otherwise gives it every transition and the newest state, or overflows with exactly a full channel |
| `Turns.StateHandedOnce` | internal/daemon/status.go:736-775 | a state is handed over once: until another is taken every further update has a transition |
| `Turns.EndIsFinal` | internal/daemon/status.go:777-790 | once a forwarder has ended no update is handed over |
| `StatusLog.GapSpans` | internal/daemon/status.go:619-627 | a gap counts its records and spans exactly their times |
| `StatusLog.StepInv` | internal/daemon/status.go:580-610 | every step of owner and writer accounts for every record |
| `StatusLog.LogAccounts` | internal/daemon/status.go:794-813 | what is written accounts for the first records made: each in its place or counted in exactly one gap there, and each flush after exactly the records made before it |
| `StatusLog.RefusedIsBounded` | internal/daemon/status.go:580-610 | what is held back is bounded by the flushes waiting |
| `StatusLog.RoomDropsNothing` | internal/daemon/status.go:580-610 | while the channel has room no record is counted in a gap |
| `StatusLog.Subscriber.Reoffer` | internal/daemon/status.go:581-590 | moves what was refused into the channel, in order, while it has room |
| `StatusLog.Subscriber.DeliverLog` | internal/daemon/status.go:580-610 | what was accounted for stays so, with the next record added |
| `Locks.OverlapText` | internal/daemon/pool.go:43-45 | the textual test, with the empty text for the whole key, decides overlap of paths |
| `Locks.StepInv` | internal/daemon/pool.go:74-173 | every acquire, look, wake, cancellation and release keeps the invariants |
| `Locks.NeverOverlap` | internal/daemon/pool.go:74-173 | no two held scopes overlap, and counts and holder lists are exactly those of the scopes held |
| `Locks.FirstComeFirstServed` | internal/daemon/pool.go:94-132 | a waiter is admitted only once everyone who arrived earlier and overlaps has released or given up, and no scope is entered again before its release |
| `Locks.NoLostWakeup` | internal/daemon/pool.go:158-171 | a waiter that could be admitted is about to look or sleeps on a closed channel |
| `Locks.FirstIsServed` | internal/daemon/pool.go:74-173 | whenever nothing is held, the first waiter gets the lock on its own next steps |
| `Locks.CancelledGivesUp` | internal/daemon/pool.go:87-94 | a waiter whose context ends leaves the line on its own next steps and is not admitted |
| `Locks.KeyLocks.Enqueue` | internal/daemon/pool.go:78-85 | an acquirer joins behind all others |
| `Locks.KeyLocks.RemoveWaiter` | internal/daemon/pool.go:54-68 | removes that waiter and no other |
| `Locks.KeyLocks.Blocker` | internal/daemon/pool.go:94-103 | says whether a held scope overlaps and names a first holder of one |
| `Locks.KeyLocks.Look` | internal/daemon/pool.go:87-132 | gives up, is admitted, or learns who is in the way |
| `Locks.KeyLocks.Release` | internal/daemon/pool.go:133-156 | takes back one count and one holder |
| `Queue.NewFairQueue` | internal/daemon/queue.go:77-82 | refuses a capacity below one |
| `Queue.AlwaysWellFormed` | internal/daemon/queue.go:90-211 | in every reachable queue, the order lists exactly the non-empty groups once each, IDs are unique, and ids and count agree with the contents |
| `Admission.JoinsExactly` | internal/daemon/queue.go:90-114 | in every reachable queue, a job joins exactly when it is complete, the queue is open and has room, and no waiting job has its ID |
| `Admission.OnlyWholeJobsWait` | internal/daemon/queue.go:90-96 | only complete jobs ever wait |
| `Queue.MovesUp` | internal/daemon/queue.go:117-186 | short of being served or emptied a group never moves back, and every pop moves it up |
| `Queue.ServedInTurn` | internal/daemon/queue.go:117-150 | a group at place i is served by one of the next i + 1 pops, whatever offers and removals fall between, unless its jobs are all removed first |
| `Queue.PopsFollowTurns` | internal/daemon/queue.go:117-150 | the k-th of successive pops returns the k-th job in turn |
| `Queue.PopTimesIsRun` | internal/daemon/queue.go:117-150 | popping k times is a run of k pops |
| `Queue.TurnsKeepGroups` | internal/daemon/queue.go:236-254 | the turns are every pending job once, each group in the order offered |
| `Queue.TurnsCount` | internal/daemon/queue.go:236-254 | the turns are as many as the count |
| `Queue.FairQueue.Offer` | internal/daemon/queue.go:90-114 | adds, or refuses an incomplete, duplicate or excess job |
| `Queue.FairQueue.Pop` | internal/daemon/queue.go:117-150 | takes the first job of the first group, if anything is pending, and keeps the queue well formed |
| `Queue.Compact` | internal/daemon/queue.go:158-167 | the in-place filter keeps exactly the other jobs, in order |
| `Queue.FairQueue.RemoveScope` | internal/daemon/queue.go:154-186 | removes and reports exactly the jobs of a scope |
| `Queue.Gather` | internal/daemon/queue.go:192-195 | collects exactly the waiting jobs, as many as the queue holds |
| `Queue.FairQueue.DiscardAll` | internal/daemon/queue.go:190-211 | removes and reports exactly the pending jobs |
| `Queue.FairQueue.Close` | internal/daemon/queue.go:214-221 | closes and keeps what is pending |
| `Queue.FairQueue.Snapshot` | internal/daemon/queue.go:236-254 | lists the pending IDs exactly as successive pops would return them |
| `Prune.WindowsPartition` | internal/lifecycle/prune.go:85-98 | each age below the horizon lies in exactly one window, the one found, and no other age in any |
| `Prune.OffsetsFit` | internal/lifecycle/prune.go:85-98 | no offset or window end leaves the 63-bit range |
| `Prune.SaturatedIsOld` | internal/lifecycle/prune.go:82-98 | ages stay in range, and a saturated one is past every horizon |
| `Prune.FirstToReach` | internal/lifecycle/prune.go:87-95 | in order of creation and name, the first to reach a window is the first of the window |
| `Prune.SurvivorsBound` | internal/lifecycle/prune.go:79-113 | owned survivors that nothing depends on number at most the windows and one |
| `Prune.DeletionKeeps` | internal/lifecycle/prune.go:33-116 | deleting any of the victims changes no other decision |
| `Prune.SecondPassDestroysNothing` | internal/lifecycle/service.go:475-514 | once every victim is gone, nothing more is due |
| `Prune.StillEligible` | internal/lifecycle/service.go:483-513 | before each deletion the new plan still condemns the next victim |
| `Prune.Collect` | internal/lifecycle/prune.go:45-59 | refuses a duplicate or out-of-scope snapshot and finds the time ages are measured from |
| `Prune.SortItems` | internal/lifecycle/prune.go:60-65 | sorts by creation and name |
| `Prune.FindNewest` | internal/lifecycle/prune.go:71-76 | finds the newest owned item |
| `Prune.FindWindow` | internal/lifecycle/prune.go:83-98 | the loop over the groups finds the age's window, in range |
| `Prune.Decide` | internal/lifecycle/prune.go:80-111 | one decision and its reason |
| `Prune.PlanPrune` | internal/lifecycle/prune.go:33-116 | the one pass gives, by name, exactly what the rule says of each snapshot, with its reason |
| `Prune.PruneAmong` | internal/lifecycle/service.go:475-515 | whatever else changes the dataset, each deletion is of a snapshot the rule still destroys over what was just read; the run completes exactly when each victim is still condemned in its turn and its deletion succeeds |
| `Prune.Recheck` | internal/lifecycle/service.go:487-509 | decides from a new plan whether a victim is still condemned |
| `Prune.Pool.Prune` | internal/lifecycle/service.go:434-515 | with nobody else writing, an applied run completes: exactly the survivors are left and a second plan destroys nothing |
| `Grid.DecimalNumber` | internal/policy/grid.go:57-62 | a printed number reads back |
| `Grid.SplitJoin` | internal/policy/grid.go:51 | splitting undoes joining |
| `Grid.TierValid` | internal/policy/grid.go:52-71 | a tier that is read has a 32-bit count and a span of whole minutes in range |
| `Grammar.TierExactly` | internal/policy/grid.go:30-71 | a tier reads as a bucket exactly when, but for white space, it is digits, an x, digits and a unit that mean the bucket in nanoseconds and fit 32 and 64 bits |
| `Grammar.SpaceIsBlank` | internal/policy/grid.go:52 | white space is exactly the characters with that Unicode property |
| `Grammar.TrimExactly` | internal/policy/grid.go:52 | trimming takes all white space from both ends and nothing else |
| `Grid.FitsRest` | internal/policy/grid.go:72-74 | the division guards exactly the sum |
| `Grid.ReadIff` | internal/policy/grid.go:51-77 | the tiers are accepted exactly when each reads and their sum is in range |
| `Grid.CanonUnique` | internal/policy/grid.go:78-87 | a list ordered by span is determined by its number of windows of each span |
| `Grid.ParseMeaning` | internal/policy/grid.go:48-98 | an accepted grid has strictly increasing spans, as many windows of each span as written, and a horizon that is the sum of count times span without overflow |
| `Grid.OrderIrrelevant` | internal/policy/grid.go:46-48 | tier order affects neither acceptance nor the grid |
| `Grid.TierRoundTrip` | internal/policy/grid.go:88-96 | a tier reads back from its own text |
| `Grid.BucketsValid` | internal/policy/grid.go:79-87 | merged counts still fit the 32-bit count |
| `Grid.RoundTrip` | internal/policy/grid.go:48-98 | parsing the canonical text gives the same grid |
| `Grid.ReadParts` | internal/policy/grid.go:51-77 | the reading loop, up to the first error |
| `Grid.SortBySpan` | internal/policy/grid.go:78 | sorts by span |
| `Grid.MergeSpans` | internal/policy/grid.go:79-87 | merges equal spans and keeps the number of windows of each |
| `Grid.FormatTiers` | internal/policy/grid.go:88-96 | prints each tier in the first unit that divides it |
| `Grid.ParseGrid` | internal/policy/grid.go:48-98 | the whole parser, errors included |
| `Discovery.SortedListsParentsFirst` | internal/discovery/discovery.go:470-492 | names sorted as text and closed under parents list parents first |
| `Discovery.RootIsTopmost` | internal/discovery/discovery.go:577-592 | the root of a dataset is its topmost enabled ancestor or itself, and there is none only when none is enabled |
| `Discovery.RootsApart` | internal/discovery/discovery.go:577-592 | roots do not contain one another |
| `Discovery.RootOwnsSubtree` | internal/discovery/discovery.go:577-592 | a root acts for its whole subtree |
| `Discovery.MembersOfRoot` | internal/discovery/discovery.go:593-632 | the members are the whole subtree under one stream for all, else the enabled, inspected and valid descendants, sending one stream each by the mapping of the root |
| `Discovery.MembersAre` | internal/discovery/discovery.go:593-638 | a root's list holds exactly the root and its members |
| `Discovery.MembersInOrder` | internal/discovery/discovery.go:593-638 | members lie in the subtree, each after those above it |
| `Discovery.MarkRoots` | internal/discovery/discovery.go:577-638 | the single pass gives every dataset its root and marks and every root its members |
| `Discovery.PlannedReplicas` | internal/discovery/discovery.go:678-719 | lists every actor root, and its replica for each target with a known destination, once |
| `Discovery.ReplicaLands` | internal/discovery/discovery.go:678-719 | a planned replica is an actor root's, on its target's machine, where the names alone say, and established exactly when its binding is stored |
| `Discovery.UnblockedApart` | internal/discovery/discovery.go:739-771 | no two targets left unblocked overlap in one namespace |
| `Discovery.UnblockedOffRoots` | internal/discovery/discovery.go:739-771 | none left unblocked lands on an actor root |
| `Discovery.ActorsAreRoots` | internal/discovery/discovery.go:577-686 | once roots are marked, the datasets that plan replicas are exactly the roots |
| `Discovery.ActorsApart` | internal/discovery/discovery.go:577-686 | so the roots replicas are checked against do not overlap |
| `Discovery.EstablishedKeepsPlace` | internal/discovery/discovery.go:739-771 | an established replica is blocked only by another established one or for landing on an actor root |
| `Discovery.OrderIrrelevant` | internal/discovery/discovery.go:739-771 | the blocked targets do not depend on the order of either list |
| `Discovery.MarkCollisions` | internal/discovery/discovery.go:739-771 | the loops over pairs and roots compute exactly the blocked targets |
| `Discovery.CoverPass` | internal/discovery/discovery.go:387-402 | everything beneath an enabled dataset is to be inspected |
| `Discovery.FetchAll` | internal/discovery/discovery.go:374-403 | the loop ends with everything asked for, and everything beneath an enabled dataset, read |
| `Migrate.CollectActions` | internal/migrate/v1.go:119-152 | the loop lists a rewrite for each v1 record and whether any is refused |
| `Migrate.V1ToV2Idempotent` | internal/migrate/v1.go:155-221 | a rewritten record needs nothing more |
| `Migrate.InterruptedConverges` | internal/migrate/migrate.go:88-122 | stopped anywhere short of the marker, the root still reads as the old format and planning again gives exactly the writes that are left |
| `Migrate.CompletedIsCurrent` | internal/migrate/migrate.go:155-203 | with every write made the root is current, its proofs read, and planning gives nothing |
| `Migrate.MigratedReads` | internal/migrate/v1.go:155-195 | a migrated proof decodes and covers every source its v1 form listed |
| `Migrate.SourcesKept` | internal/migrate/v1.go:155-195 | every v1 source still held or bookmarked is derived with the GUID v1 recorded, whenever the derivation succeeds |
| `Migrate.BindingKept` | internal/migrate/v1.go:198-221 | a migrated binding binds the same pool, mapped dataset and anchor |
| `Upgrade.PlannedExactly` | internal/migrate/migrate.go:140-203 | a root is pending exactly when it has no marker or the first, holds managed state and every record is sound; current exactly at the current format; blocked exactly on an unreadable or later marker or an unsound record |
| `Upgrade.ProofMigratesExactly` | internal/migrate/v1.go:155-195 | a v1 proof migrates exactly when it is the v1 form of a proof under its own key, in the root's lineage, led by its stream and contradicted by no object, and becomes that proof's record |
| `Upgrade.BindingMigratesExactly` | internal/migrate/v1.go:198-221 | a v1 binding migrates exactly when it is complete and under its own key |
| `Upgrade.WriteReadsExactly` | internal/migrate/migrate.go:126-138 | a write goes ahead exactly on the value that was planned for and counts exactly when its own is there |
| `Migrate.ApplyAmong` | internal/migrate/migrate.go:93-122 | whatever else writes, each write is made on the value the plan read, and the marker only after every rewrite was made and read back; completes exactly when both plans agree and every write lands |
| `Migrate.Backend.Apply` | internal/migrate/migrate.go:93-122 | with nobody else writing, a pending root is migrated whole exactly when it carries no marker; each write finds what the plan read |
| `Migrate.ExplicitFirstFormatStalls` | internal/migrate/migrate.go:192-198 | a root carrying an explicit marker of the first format is planned and then refused at the marker |
| `Clean.AccountFor` | internal/lifecycle/clean.go:188-222 | the holds and bookmarks of one proof, given exactly when the proof reads, its sources derive and what it holds is owned |
| `Clean.SortByRank` | internal/lifecycle/clean.go:289-316 | orders the actions by rank and keeps them all, repetitions included |
| `Clean.PlanClean` | internal/lifecycle/clean.go:149-284 | planned exactly when every proof is accounted for, every hold and bookmark is covered, and for a retirement every owned snapshot can go; then it removes every proof along with all it covers, destroys exactly the owned snapshots nothing else keeps, and names something twice exactly when two proofs cover it |
| `Clean.PlanForget` | internal/lifecycle/forget.go:39-155 | planned exactly when the root has a lineage, its proofs read, those of the targets are accounted for and cover all of the targets, and each target has state; then it removes the proofs and bindings with everything they cover |
| `Clean.ProofRemovedLast` | internal/lifecycle/clean.go:330-381 | when a proof is removed, every hold and bookmark it covers in the scope is gone |
| `Clean.SnapshotDestroyedFree` | internal/lifecycle/clean.go:330-381 | when a snapshot is destroyed, it has no hold and no clone |
| `Clean.LineageLast` | internal/lifecycle/clean.go:286-316 | lineage goes last of all |
| `Clean.ExactlyTheseEffects` | internal/lifecycle/clean.go:388-485 | after any number of actions the scope is the first one less exactly what those actions name |
| `Clean.Apply` | internal/lifecycle/clean.go:346-381 | each action is issued only on the initial scope with exactly the effects before it; completes exactly when every command succeeds with its own effect and no other |
| `Clean.IssuedSafely` | internal/lifecycle/clean.go:330-381 | in the scope read before it is issued, a proof to be removed covers nothing, a snapshot to be destroyed is free, and a lineage to be removed has no proof left |
| `Clean.LandsExactly` | internal/lifecycle/clean.go:346-381 | ZFS accepts a whole plan exactly when it names nothing twice |
| `Clean.UndisturbedCompletes` | internal/lifecycle/clean.go:346-381 | an undisturbed run completes exactly then |
| `Clean.OverlappingProofsShare` | internal/lifecycle/clean.go:188-216 | a proof for a subtree and one for a child share the hold of the child |
| `Clean.CleanScope` | internal/lifecycle/clean.go:321-381 | from plan to end: every command issued safely, completion undisturbed exactly when no two proofs overlap, and then nothing managed left |
| `Clean.ForgetScope` | internal/lifecycle/forget.go:39-155 | the same for forgetting, which leaves exactly everything of other targets |
| `Clean.CleanedIsBare` | internal/lifecycle/clean.go:224-284 | a whole clean leaves no proof, bookmark, target's hold or lineage, and no other snapshot is touched |
| `Clean.ForgetSparesOthers` | internal/lifecycle/forget.go:32-38 | a whole forget leaves nothing of its targets on the root and everything of the others |
| `Erasure.OwnedExactly` | internal/lifecycle/clean.go:224-284 | a snapshot is owned exactly when its name, metadata and GUID agree in the lineage its dataset goes by, its own or else the root's |
| `Erasure.ProofReadsExactly` | internal/lifecycle/clean.go:188-222 | a proof reads exactly when its record names its key's stream, in the lineage its root goes by |
| `Erasure.CoversExactly` | internal/lifecycle/clean.go:188-222 | the holds and bookmarks it covers, by their names |
| `Erasure.OrderExactly` | internal/lifecycle/clean.go:286-316 | plans list bookmarks, holds, snapshots, snapshot metadata, dataset properties and proofs, and lineages, in that order |
| `Erasure.CleanLeavesExactly` | internal/lifecycle/clean.go:224-284 | a whole clean destroys exactly the owned snapshots asked for that nothing needs, and leaves no property, or on a retirement exactly what is public or on a snapshot left |
| `Erasure.ForgotExactly` | internal/lifecycle/forget.go:39-155 | a forget removes exactly the proofs and bindings of its targets on its root |
| `Erasure.KeptExactly` | internal/lifecycle/forget.go:39-155 | a target is known on a root exactly when a proof or binding of it is stored there |
| `Gate.DisabledNeverRuns` | internal/lifecycle/gate.go:72-135 | a ticket still queued when its scope is disabled never runs, even after it is enabled again |
| `Gate.AbandonedNeverRuns` | internal/lifecycle/gate.go:120-135 | nor does one whose caller's context ended first |
| `Gate.StartsOnlyEnabled` | internal/lifecycle/gate.go:120-135 | a ticket starts only in an enabled scope, with its context alive, and once |
| `Gate.DisabledHasNoWork` | internal/lifecycle/gate.go:72-89 | a disabled scope holds no ticket that could start, and its running transfers are cancelled |
| `Gate.QuiescentUntilEnabled` | internal/lifecycle/gate.go:208-258 | quiescence lasts until a related scope is enabled |
| `Gate.WaiterIsWoken` | internal/lifecycle/gate.go:236-256 | a waiter that saw work is woken before the gate can be quiescent |
| `Gate.Gate.SetEnabled` | internal/lifecycle/gate.go:72-89 | sets the scope and cancels its queued tickets and transfers on deactivation |
| `Gate.Gate.Queue` | internal/lifecycle/gate.go:93-114 | registers a ticket exactly when the scope is enabled and the context alive |
| `Gate.Gate.Start` | internal/lifecycle/gate.go:120-135 | starts a queued ticket exactly when it may |
| `Gate.Gate.Finish` | internal/lifecycle/gate.go:138-148 | unregisters a ticket once |
| `Gate.Gate.LookQuiescent` | internal/lifecycle/gate.go:212-235 | finds every related scope disabled and idle exactly when it is |
| `Gate.Gate.LookScope` | internal/lifecycle/gate.go:174-196 | the same for one exact scope |

## Left out

- Command line, text and JSON rendering and the status display: presentation only.
- gRPC, TLS, pairing, tokens and certificates: wrappers around libraries.
- Running `zfs` and parsing its output: replaced by an abstract state and its single writes.
- SHA-256, UUID generation, JSON text and time formatting: injective functions and datatypes stand for them.
- Permission preflights, progress, retry jitter, identity files and remote backoff: easy or environmental.
- Resuming an interrupted receive from its token: the token's content is not part of the visible state.
- The scheduler's deadlines: its update reads and swaps under separate lock acquisitions.
- The preflights of a recursive stream, what the native recursive stream carries, recursive streams in placeholder replacement, and the nearest-ancestor identity of a destination that does not exist yet.
- Policy, encryption and identity preflights of a transfer are one boolean on the request.
- Independence of overlapping proofs for one target and snapshot, and coverage outside the inspected scope of a non-recursive clean: neither holds and neither is assumed.
- Configuration reload, blocked-target reports and the remote half of the dirty-flag protocol: they only add error paths.
- Warnings and blocker texts of discovery, migration and clean; a blocked clean is one outcome.
- Proofs.DeriveSources: takes the inventory already sorted and without duplicates, as the source makes it first.
- Grid.SortBySpan: the library sort is any sort; equal spans merge, so its order among them is not observable.
- Clean.SortByRank: leaves open the order within a rank, which the source settles by object and property text.
- Clean.PlanClean: quiescence, activation, target checks, lineage conflicts and readable records enter as one boolean.
- Clean.Apply: received property values and empty rows are not part of the scope, which the source ignores as well.
- Discovery.PlannedReplicas: does not model the sorting of targets, because the blocked set does not depend on it.
- Discovery.MarkRoots: leaves out warnings and the raw-stream check of encrypted descendants, which changes only the root's own policy.
- Discovery.FetchAll: which datasets are enabled after a read is a parameter; failed reads end the scan and are not modelled.
- Migrate.CollectActions: takes the records in order of property name, in which the source sorts the actions.
- Invalid dataset names given to the gate, the pruner and discovery are refused before anything else and are not part of the types.
- Queue.FairQueue.Pop: one pass of the waiting loop; the wait itself and its cancellation are not modelled.
- Locks.NeverOverlap: one key; another key's changes only close the shared channel, which is a step of its own.
- Status.UpdatesAreCoherent: one subscriber, since the sends to others touch nothing of it, and states by their revision only.
- Prune.PlanPrune: whether a snapshot is owned is decided before; the rule for ownership is `Zfs.Ownership`.
- Streams.Streams: member names only, for a root whose own name is valid; options and snapshots travel with their member, and which of several errors is reported is left open.
- Queue.FairQueue.RemoveScope: each group is filtered before the counters are reduced, which under the mutex cannot be told apart.
- Delivery.SettledComplete: one stream; for every plan `Delivery.SettlesExactly` states it from what was sent.
- Rerun.LostExactly: one target, unblocked, with the queue open and not full.
