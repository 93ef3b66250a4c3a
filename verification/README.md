# InkBridge: a verified model

InkBridge keeps the handwriting on two devices in step through a broker. This project models the parts of it that
decide what is kept, in Dafny, and proves what they promise over every run.

Each part is written in the form of the code it models. Where the code changes things in place there is a class
with the same fields, whose methods are proved equal to a specification function; the theorems are about those
functions and about runs built from them.

- **Broker** (`Model`, `Storage`, `Manifest`, `Merge`, `Broker`, `BrokerActions`): the canonical stroke map with its
  tombstones, the two-part revision frontier, preserved conflicts, generated views, and the three-way merge by
  stroke. `BrokerInvariant`, `BrokerSteps` and `BrokerViews` prove one step; `Histories`, `Conservation`,
  `DeviceEdits` and `Registrations` prove whole histories, in which every event and resolution may be planned from an
  arbitrarily old snapshot and committed later, between device edits, registrations and other commits.
  `Serializability` proves that the old snapshots, and reads that others come between, make no difference to what is
  committed; `FreshPlans` and `ResolutionRefusals` prove what a plan made from the present store comes to.
- **Cloud outbox** (`Outbox`, `CloudStorage`): an atomic commit of many objects simulated over single-object
  conditional writes. `OutboxSafety` and `OutboxRuns` prove safety for every interleaving of any number of workers,
  crashes, device edits and cleanups; `OutboxProgress`, `OutboxFacts` and `OutboxEffects` prove when recovery
  finishes and what it then leaves. The methods of `CloudStorage` are the code's own: before each call of a store,
  other workers and devices may act and the call may fail, and each method is proved for four regimes: arbitrary
  interference and failures, one worker per document, the same with no failing call while others go on acting, and
  nobody else acting. `OutboxPlans` shows the broker's commits have the shape the outbox relies on, and
  `OutboxWitnesses` gives runs for what the outbox does not promise.
- **Drive gateway** (`Gateway`, `GatewayPlanner`, `GatewayState`, `GatewayJob`): the checkpoint, its validation, the
  prepare and commit operations in place, and the job that drives them against a compare-and-swap store other jobs
  also write. `GatewayValidity` and `GatewayRuns` prove that validity is inductive and what holds over runs;
  `GatewayWitnesses` gives inputs and runs on which preparing succeeds and the commit it prepares for cannot.
- **Converters** (`Diff`; `Xref`, `XrefRepair`; `Affine`, `Spread`, `SpreadLayout`, `SpreadIdentity`): the stroke diff
  whose result the broker applies, the in-place repair of a trailing cross-reference stream (section 7.5.8 of
  ISO 32000-1), the virtual spread mapping over the reals, and the validation and identity of its sidecar. `Texts` says
  what can be told from a text that was put together to be hashed.

The broker's digests, commit ids and payload keys are datatypes of what they are computed from, so they are injective
by construction; the sidecar's digest is any function to 64 lower-case hex digits, and what its identity tells is stated
up to a clash. Conversions between manifests, exports and rendered views are parameters (`Codec`), as are extraction
results and fingerprints. Calls of Drive, of the approval store and of the broker service return arbitrary values,
which a log keeps, so that what a job did is stated against what it was told.

## What the proofs found

- The outbox does not refine the atomic store exactly. In every world it accepts what the atomic store admits and,
  beyond that, exactly the commits some of whose object writes are stale but already carried by their destination
  (`OutboxEffects.AcceptsBeyondExactly`); a run of two device edits gets there
  (`OutboxWitnesses.StalePreconditionReached`).
- `commit` pairs results with writes by position. That is right if and only if release markers come after all other
  object writes (`OutboxEffects.ArrangedInPlaceExactly`), which the broker's own plans always list last
  (`OutboxPlans.PlansPairInPlace`).
- Two workers on one document can strand it. When one has published the commit and the other then saves its own copy,
  recovery stays possible exactly when that copy had got through every object write
  (`OutboxProgress.StaleSaveStrandsExactly`); an eleven-call run of two workers on a resolution leaves a published
  commit that recovery fails on for ever (`OutboxWitnesses.ResolutionStrands`, `OutboxWitnesses.StrandedForever`).
  Safety holds all the same.
- A resolution planned from the present store can still be refused by that very store: exactly when it has something
  to tell Supernote and the path of its manifest, named by the resolution id alone, is taken
  (`FreshPlans.FreshResolutionPlanCommitsExactly`). Planning does not look at that path, so one device edit of it is
  enough, in any run that comes to such a resolution (`ResolutionRefusals.RefusedInARun`); five steps from the empty
  store get there (`ResolutionRefusals.RefusalReached`). No resolution with that id gets through afterwards
  (`ResolutionRefusals.TakenForEver`), and without any device two resolutions of different conflicts under one id cannot
  both tell Supernote (`ResolutionRefusals.OneManifestPerId`). For events there is no such case
  (`FreshPlans.FreshEventPlanCommits`).
- `apply_manifest` depends on the order of the operations it is given exactly when two upserts of a stroke disagree, or
  two deletes of a stroke that is neither known nor upserted do (`Manifests.OrderIndependentExactly`). That is about
  this function alone: `validate_boox_manifest` (inkbridge-broker/src/broker.rs:582 and 595) and its counterpart for
  preserved inputs (inkbridge-broker/src/conflict.rs:707 and 741) refuse manifests with two deletes or two upserts of
  one stroke, and without those the order never matters.
- The closing validation of `reserve_drive_output` fails exactly for an object path outside the target's folder or
  not naming the document, and that of `commit_drive_output` exactly for a content hash that is not hex digits, or,
  on a file bound already, for a pending input based on other revisions. The last needs a generated file that is listed
  without the gateway's own properties, approved by hand as a device artifact before its delivery commits, and then
  edited; from such a listing it is reached (`GatewayWitnesses.HandBoundPrepared`, `GatewayWitnesses.HandBoundReached`). `prepare_drive_output` checks none of this:
  it answers with a reservation that can never be made (`GatewayWitnesses.PreparedButNotReserved`), and with one that,
  once made, stays reserved in every later checkpoint of every run (`GatewayWitnesses.StuckReached`,
  `GatewayWitnesses.ReservedAndStuck`).
- Two accepted sidecars with one view id show the same original in the same way, up to a clash of digests or of number
  spellings (`SpreadIdentity.ViewIdExactly`). The view id leaves out the generated PDF's digest and the digests of the
  layout and the links, which are checked for their shape only, so those alone may differ
  (`SpreadIdentity.OneViewReadsAlike`).
- The virtual spread inverse refuses, or moves, the image of a canonical point that is closer to an edge than the
  tolerance without being on it (`Spread.RecoveredExactly`, `Spread.NearEdgeRefused`). Over the reals the singularity
  check and the six probe points at the end of mapping validation never decide (`Spread.AcceptedExactly`).

## Model

| member | source | states |
|---|---|---|
| `Storage.MemoryStorage.Commit` | inkbridge-broker/src/storage.rs:102-135 | the batch is refused unless every precondition holds against the store before it; otherwise every write takes the next generation and its version is kept |
| `Storage.MemoryStorage.Read` | inkbridge-broker/src/storage.rs:94-96 | returns the current object |
| `Storage.MemoryStorage.ReadGeneration` | inkbridge-broker/src/storage.rs:98-100 | returns the object exactly as it was at that generation |
| `Storage.MemoryStorage.PutUnchecked` | inkbridge-broker/src/storage.rs:65-82 | a device or fixture write takes the next generation and replaces only its path |
| `Storage.CommitIsAtomic` | inkbridge-broker/src/storage.rs:102-135 | with distinct paths, all writes appear at new generations or nothing changes at all |
| `Storage.CommitFollows` | inkbridge-broker/src/storage.rs:102-135 | generations are never reused and no version is ever changed, whatever is committed |
| `Manifests.ApplyManifest` | inkbridge-broker/src/broker.rs:935-1003 | the two passes, deletes then upserts, leave exactly what the last upsert of each stroke, or else its first delete, says |
| `Manifests.OrderIndependentExactly` | inkbridge-broker/src/broker.rs:935-1003 | every permutation of the operations gives the same strokes if and only if no two upserts of one stroke disagree and no two deletes of an unknown, not upserted stroke disagree |
| `Manifests.MoveEndsOnNewPage` | inkbridge-broker/src/broker.rs:935-1003 | with at most one delete and one upsert per stroke, a move between pages ends active on its new page in every order |
| `Manifests.ApplySupernoteExport` | inkbridge-broker/src/broker.rs:1005-1058 | pages in the export are replaced by their incoming strokes; a live stroke of those pages that is missing is tombstoned |
| `Manifests.OtherPagesKept` | inkbridge-broker/src/broker.rs:1005-1058 | a stroke on a page outside the export is kept unless the export brings in its id |
| `Manifests.SupernoteExportManifest` | inkbridge-broker/src/conflict.rs:793-868 | the scan with its shrinking baseline, then the deletions, then the stable sort, give the specified operations |
| `Manifests.TwoRoutesAgree` | inkbridge-broker/src/conflict.rs:793-868 | turning an export into a manifest and applying it gives the same live strokes and the same tombstoned ids as applying the export directly |
| `Manifests.SortByIdIsStable` | inkbridge-broker/src/conflict.rs:793-868 | sorting operations by stroke id keeps each stroke's own operations in order |
| `BrokerActions.ClassifyOperations` | inkbridge-broker/src/conflict.rs:870-910 | grouping in a map and classifying each group gives one group per stroke in id order, or a refusal |
| `Merge.SelectOperations` | inkbridge-broker/src/conflict.rs:996-1017 | the selected operations and counters are those of the groups the strategy chooses |
| `Merge.ClassifyPartitions` | inkbridge-broker/src/conflict.rs:870-910 | the groups share out the incoming operations: one group per stroke, none lost |
| `Merge.StrategyOutcome` | inkbridge-broker/src/conflict.rs:870-1017 | for every stroke: keep-current leaves it, accept-incoming gives what the incoming operations say, merge does so exactly for a described and safe group |
| `Merge.MergeKeepsCurrent` | inkbridge-broker/src/conflict.rs:912-994 | a merge leaves alone every tombstoned stroke, every stroke stamped beyond the incoming baseline and every change an earlier resolution rejected |
| `Merge.MergeChangesOnlySafe` | inkbridge-broker/src/conflict.rs:934-994 | what a merge changes was live, within the baseline and exactly as the incoming device saw it |
| `Merge.AcceptingExportAgrees` | inkbridge-broker/src/conflict.rs:380-396 | for every Supernote export: classifying and accepting all of it agrees with applying the export directly |
| `BrokerActions.Broker.RegisterDocument` | inkbridge-broker/src/broker.rs:96-168 | under the id derived from its digest: commits the original and the initial state together, finds the document registered, brings a state without a page count up to date, or refuses another original under that id; a failure changes nothing |
| `Registrations.RegisteringFailsExactly` | inkbridge-broker/src/broker.rs:96-168 | in every store of a run, registering a readable and named original fails exactly when another original is registered under its id, which then is the id of both digests; otherwise it commits the first state or finds the document and changes nothing |
| `Registrations.RegisteringIsAStep` | inkbridge-broker/src/broker.rs:96-168 | a registration planned from any earlier store has the effect of the registration step of runs |
| `Registrations.PageCountKnown` | inkbridge-broker/src/broker.rs:1257-1281 | in every run the state of every registered document has its page count, so bringing one up to date is for states of older programs only |
| `BrokerActions.Broker.Process` | inkbridge-broker/src/broker.rs:170-445 | the reads, branches and writes of an event commit exactly its plan, with the plan's outcome or its error |
| `BrokerActions.Broker.MarkEventOnly` | inkbridge-broker/src/broker.rs:884-904 | records the event id and nothing else |
| `BrokerActions.Broker.PreserveConflict` | inkbridge-broker/src/broker.rs:664-775 | preserves the input and both competing revisions as evidence before recording the conflict |
| `BrokerActions.Broker.ResolveConflict` | inkbridge-broker/src/conflict.rs:89-378 | commits exactly the resolution plan: superseded, retried, refused or published |
| `BrokerActions.Broker.SupersedeConflict` | inkbridge-broker/src/conflict.rs:514-583 | a superseded conflict gets its record and marker, and no stroke changes |
| `BrokerActions.Broker.MergeConflict` | inkbridge-broker/src/conflict.rs:89-378 | proposes, classifies, selects, applies, renders and publishes in one commit |
| `BrokerInvariant.InstallKeepsInv` | inkbridge-broker/src/broker.rs:1188-1205 | a commit that ends in the conditional state write installs that state and keeps every clause of the document invariant |
| `BrokerSteps.ProcessStep` | inkbridge-broker/src/broker.rs:170-445 | an admitted event plan, however old the snapshot it was made from, was made from the present state; it keeps the invariant and applies only an event based on the whole frontier with the next revision |
| `BrokerSteps.ResolveStep` | inkbridge-broker/src/conflict.rs:89-378 | the same for a resolution: the invariant, the new state, and strokes that are those of the chosen strategy |
| `Serializability.EventsAreSerializable` | inkbridge-broker/src/broker.rs:170-445 | however the reads of an event are spread over a run, with anyone committing between any two of them and before its commit, an admitted plan is the plan of the store that admits it, for an event naming a generation given out before the first read |
| `Serializability.ResolutionsAreSerializable` | inkbridge-broker/src/conflict.rs:89-378 | the same for a resolution, without a condition |
| `Serializability.StepsAreSerial` | inkbridge-broker/src/broker.rs:170-445 | every step of every run, planned from whatever earlier store, changes nothing or does what the same step planned from the present store does |
| `BrokerViews.ProcessViews` | inkbridge-broker/src/broker.rs:369-437 | every view hash in the new state was recorded before or is written by the plan; a device path is replaced only at the generation read and only over a recorded view or the applied input |
| `BrokerViews.ResolveViews` | inkbridge-broker/src/conflict.rs:492-512 | the same for a resolution, over a recorded view or the conflict's own input |
| `Histories.RunTracked` | inkbridge-broker/src/broker.rs:170-445 | in every reachable store each registered document satisfies the invariant, with stale plans, device edits and registrations in any order |
| `Histories.FrontierDiscipline` | inkbridge-broker/src/broker.rs:248-309 | over any stretch of any run frontiers never fall, strokes and processed ids are never forgotten, last-common equals the frontier and every stamp is within it |
| `Histories.AppliedOnlyInOrder` | inkbridge-broker/src/broker.rs:248-309 | a committed event either is based on the exact frontier with the next revision and advances only its side, or leaves strokes and frontier alone |
| `Histories.MergeSoundOverHistories` | inkbridge-broker/src/conflict.rs:870-1017 | an automatic merge never changes a stroke touched at any earlier step beyond the incoming baseline, and never resurrects a deleted one |
| `Histories.MergedWasSeen` | inkbridge-broker/src/conflict.rs:870-1017 | whatever an automatic merge changes is mentioned by the incoming edit, seen by it as it is now, and touched only within its baseline |
| `Conservation.ConflictsAreDisjoint` | inkbridge-broker/src/broker.rs:664-775 | active conflict ids are distinct and processed, resolved ids are processed, and no id is both |
| `Conservation.ConflictNeverLost` | inkbridge-broker/src/conflict.rs:183-210 | a preserved conflict is from then on active exactly while it is not resolved |
| `Conservation.ReprocessingChangesNothing` | inkbridge-broker/src/broker.rs:192-197 | processing a processed id again changes nothing, even from a plan made earlier, and a fresh attempt is a duplicate |
| `Conservation.EvidenceStaysReadable` | inkbridge-broker/src/conflict.rs:599-639 | conflict inputs and accepted device revisions stay readable with their recorded hashes |
| `Conservation.CompetingCopiesStay` | inkbridge-broker/src/broker.rs:664-775 | every accepted revision a conflicting event had not seen is copied in the commit that records the conflict, and the copy keeps that revision's hash for the rest of the run |
| `Conservation.EvidenceErrorsUnreachable` | inkbridge-broker/src/broker.rs:664-775 | in no reachable store do processing or resolving fail for missing or changed evidence or a corrupt state |
| `FreshPlans.FreshEventPlanCommits` | inkbridge-broker/src/broker.rs:170-445 | a plan for an event that planning did not refuse is admitted by the store it was made from: only a competing writer in between can refuse it |
| `FreshPlans.EventStaleExactly` | inkbridge-broker/src/broker.rs:853-882 | an event is refused for its destination if and only if it is applicable and that device file is not as the state records it, the event's own content taken in; it is applied if and only if it is applicable and the file is as recorded |
| `FreshPlans.FreshResolutionPlanCommitsExactly` | inkbridge-broker/src/conflict.rs:214-378 | a plan for a resolution is admitted by the store it was made from if and only if the manifest path of its id is free or it has nothing to tell Supernote, both judged by the store and the request |
| `ResolutionRefusals.EditRefuses` | inkbridge-broker/src/conflict.rs:276-350 | for every store and every resolution with something to tell Supernote, one device edit of its manifest path leaves the plan as it was and makes it refused |
| `ResolutionRefusals.RefusedInARun` | inkbridge-broker/src/conflict.rs:276-350 | every run that comes to such a resolution can go on with that edit and an attempt planned from the store as it then is, planned as before and refused |
| `ResolutionRefusals.RefusalReached` | inkbridge-broker/src/conflict.rs:276-350 | a run from the empty store of a registration, a device edit, a conflict, an edit of the manifest path and the refused resolution |
| `ResolutionRefusals.TakenForEver` | inkbridge-broker/src/conflict.rs:276-350 | once the manifest path of an id is taken, no resolution with that id and something to tell Supernote is committed in the rest of the run, whenever it was planned |
| `ResolutionRefusals.OneManifestPerId` | inkbridge-broker/src/conflict.rs:276-350 | of two resolutions of a document under one id that both tell Supernote, at most one is committed in any run |
| `DeviceEdits.StateChangesOnlyBy` | inkbridge-broker/src/broker.rs:96-445 | a document's canonical state changes only by registering it or committing one of its events or resolutions |
| `DeviceEdits.ViewsHaveSources` | inkbridge-broker/src/broker.rs:853-882 | every recorded view hash was written by the broker or was an applied input |
| `DeviceEdits.NoUnconsumedEditOverwritten` | inkbridge-broker/src/broker.rs:853-882 | whatever bytes a broker step replaces at a device path were its own output, an applied event's content, or a conflict input preserved as evidence |
| `OutboxSafety.StepKeeps` | inkbridge-cloud-runtime/src/outbox.rs:98-213 | every single call by any worker, device or cleanup keeps the world invariant |
| `OutboxSafety.StepRetains` | inkbridge-cloud-runtime/src/outbox.rs:343-357 | a payload is deleted only after its commit is retired, and a retired commit stays retired |
| `OutboxRuns.PublishedStatesFormAChain` | inkbridge-cloud-runtime/src/outbox.rs:98-179 | published states only extend; the k-th was reserved against generation k, and the active state is the last at a generation that counts them |
| `OutboxRuns.ActiveStateReadable` | inkbridge-cloud-runtime/src/outbox.rs:476-495 | the active state's payload is readable and holds its bytes in every reachable world, whatever was cleaned up |
| `OutboxRuns.PublishedOnlyWhenDelivered` | inkbridge-cloud-runtime/src/outbox.rs:136-179 | only finalize publishes, one commit at a time, and all its object writes have reached their destinations by then |
| `OutboxRuns.MarkersFollowPublication` | inkbridge-cloud-runtime/src/outbox.rs:384-424 | a resolution marker never exists unless the commit it belongs to has been published |
| `OutboxRuns.DeliveredAtMostOnce` | inkbridge-cloud-runtime/src/outbox.rs:426-474 | with any number of workers, crashes and retries no destination is written twice for one commit |
| `OutboxRuns.EditsAreNeverOverwritten` | inkbridge-cloud-runtime/src/outbox.rs:301-341 | a delivery after a device edit names a generation newer than the edit's time: its commit was planned after the edit |
| `OutboxRuns.EarlyReturnStrandsNothing` | inkbridge-cloud-runtime/src/outbox.rs:158-165 | finalize finds its state already active only when the commit still owes release writes |
| `OutboxProgress.UndisturbedStaysDeliverable` | inkbridge-cloud-runtime/src/outbox.rs:370-474 | calls of other documents' workers and edits of published views never make a pending commit undeliverable |
| `OutboxProgress.StaleSaveStrandsExactly` | inkbridge-cloud-runtime/src/outbox.rs:119-134 | a worker that had delivered and saved the first m object writes, and saves its copy after another published the commit, leaves recovery possible if and only if m was all of them |
| `OutboxProgress.StrandedStays` | inkbridge-cloud-runtime/src/outbox.rs:119-213 | no call of anyone repairs a stranded record, except a worker that still holds its own copy of the commit |
| `OutboxWitnesses.TwoWorkersStrand` | inkbridge-cloud-runtime/src/outbox.rs:384-424 | for every commit that creates two objects and a marker, a run in which two workers join, one publishes and the other saves, whose published commit is stranded |
| `OutboxWitnesses.ResolutionStrands` | inkbridge-cloud-runtime/src/outbox.rs:384-424 | a resolution that writes a view, a manifest and a marker is such a commit, whatever it writes |
| `OutboxWitnesses.StrandedForever` | inkbridge-cloud-runtime/src/outbox.rs:370-424 | over any stretch of any run a stranded record stays as it is until a worker uses a copy of its own |
| `OutboxEffects.FinishTogether` | inkbridge-cloud-runtime/src/outbox.rs:384-424 | delivering the objects, finalizing, delivering the markers and completing together finish the commit and disturb nothing else |
| `OutboxEffects.EffectOfFinish` | inkbridge-cloud-runtime/src/outbox.rs:583-686 | a finished commit reads back as one atomic commit: every write at its path, the state one generation on, every other path as before |
| `OutboxEffects.ArrangedInPlaceExactly` | inkbridge-cloud-runtime/src/outbox.rs:662-672 | pairing results with writes by position is right exactly when release markers come after all other object writes |
| `OutboxPlans.PlansPairInPlace` | inkbridge-broker/src/conflict.rs:276-350 | every event and resolution plan holds one canonical state, listed last, and its other writes are delivered in the order they are listed |
| `OutboxEffects.AcceptsBeyondExactly` | inkbridge-cloud-runtime/src/outbox.rs:608-650 | in any world the outbox accepts whatever an atomic store admits, and more exactly when the state precondition and every other precondition hold save for writes that are stale but carried already |
| `OutboxWitnesses.StalePreconditionReached` | inkbridge-cloud-runtime/src/outbox.rs:608-650 | a reachable world, after two device edits, and a commit planned between them that only the outbox accepts |
| `CloudStorage.MemoryCanonicalStateStore.Reserve` | inkbridge-cloud-runtime/src/outbox.rs:98-117 | reserves only over no pending commit and the right generation; the same commit gets back its saved copy |
| `CloudStorage.MemoryCanonicalStateStore.SavePending` | inkbridge-cloud-runtime/src/outbox.rs:119-134 | replaces the working copy only of the same commit |
| `CloudStorage.MemoryCanonicalStateStore.Finalize` | inkbridge-cloud-runtime/src/outbox.rs:136-179 | publishes only a fully delivered commit, once, and clears it when it owes no markers |
| `CloudStorage.MemoryCanonicalStateStore.Complete` | inkbridge-cloud-runtime/src/outbox.rs:181-213 | clears only the active commit with every marker delivered |
| `CloudStorage.MemoryObjectStore.ConditionalWrite` | inkbridge-cloud-runtime/src/outbox.rs:301-341 | succeeds exactly when the precondition holds, at the next generation, and otherwise changes nothing |
| `CloudStorage.MemoryObjectStore.DeleteGeneration` | inkbridge-cloud-runtime/src/outbox.rs:343-357 | removes exactly that version, and the object only when it is that version |
| `CloudStorage.CloudBrokerStorage.DeliverWrite` | inkbridge-cloud-runtime/src/outbox.rs:426-474 | undisturbed it succeeds exactly when the destination is ready, and records the delivery it made or found |
| `CloudStorage.CloudBrokerStorage.DeliverAll` | inkbridge-cloud-runtime/src/outbox.rs:384-424 | undisturbed it succeeds exactly when every destination is ready, and the loop equals delivering them in sequence |
| `CloudStorage.CloudBrokerStorage.StagePayload` | inkbridge-cloud-runtime/src/outbox.rs:497-552 | success leaves a readable payload with the key's bytes, whoever created it |
| `CloudStorage.CloudBrokerStorage.ReadPayload` | inkbridge-cloud-runtime/src/outbox.rs:476-495 | what is returned has the recorded hash; undisturbed it fails exactly when the payload is not readable |
| `CloudStorage.CloudBrokerStorage.Recover` | inkbridge-cloud-runtime/src/outbox.rs:370-382 | for one worker per document and no failing call, whatever devices and other workers do meanwhile, it succeeds, clears what was pending and retires it; with nobody acting its success is decided exactly by deliverability, its effect is the finished commit, and with nothing pending it does nothing |
| `CloudStorage.CloudBrokerStorage.Commit` | inkbridge-cloud-runtime/src/outbox.rs:583-686 | without interference: with nothing pending it succeeds exactly when the state and every destination accept, has then the effect of one atomic commit, and otherwise leaves every readable path as it was; with a commit pending, another commit is refused and changes nothing that is read, and the same commit goes on and succeeds exactly when what is left can be delivered |
| `Diffs.PreservePressureProfile` | inkbridge-convert/src/lib.rs:379-389 | the loop stretches the baseline pressures over the new samples in place |
| `Diffs.ResampledProfile` | inkbridge-convert/src/lib.rs:379-389 | endpoints keep their pressures and resampling a second time changes nothing |
| `Diffs.DiffStrokes` | inkbridge-convert/src/lib.rs:289-366 | the operations are those of changed extracted strokes and of inferred deletions, sorted by page, kind and id |
| `Diffs.DiffThenApplyActive` | inkbridge-convert/src/lib.rs:289-377 | after applying a diff an id is active exactly when it was extracted, or was in the baseline and either failed extraction or is untombstoned on an incomplete page |
| `Diffs.DiffThenApplyContent` | inkbridge-convert/src/lib.rs:289-366 | every extracted id then holds its metadata-restored snapshot, or a baseline one with equal page and fingerprint |
| `Diffs.DiffThenApplyKeeps` | inkbridge-convert/src/lib.rs:289-366 | whatever was not extracted and stays active keeps its canonical stroke |
| `Diffs.DiffIsFixpoint` | inkbridge-convert/src/lib.rs:289-366 | diffing the same extraction against the result gives no operations |
| `Gateway.Validate` | inkbridge-drive-gateway/src/model.rs:126-335 | the loops with their local sets accept exactly the valid checkpoints |
| `Gateway.FindBinding` | inkbridge-drive-gateway/src/model.rs:337-341 | in any checkpoint, finds the first binding of a file in key order, or that there is none |
| `Gateway.BindingForMeaning` | inkbridge-drive-gateway/src/model.rs:85-93 | in a valid checkpoint a file has a binding exactly when it is bound, and only to that document |
| `GatewayState.PrepareDriveInput` | inkbridge-drive-gateway/src/planner.rs:28-193 | the decision for a change, in the order the branches are taken |
| `GatewayState.PrepareDeviceArtifactBinding` | inkbridge-drive-gateway/src/planner.rs:519-623 | the decision for a device artifact |
| `GatewayValidity.UploadIsPlanned` | inkbridge-drive-gateway/src/planner.rs:28-193 | an upload names an unprocessed event of a bound, idle file, the right side and document, a hex hash, a path under its folder, and a revision beyond both frontiers |
| `GatewayState.DriveGatewayCheckpoint.CommitDriveInput` | inkbridge-drive-gateway/src/planner.rs:208-299 | in place, from any checkpoint, valid or not: refused without change, found already done, or recorded and validated |
| `GatewayState.DriveGatewayCheckpoint.AcceptDriveInput` | inkbridge-drive-gateway/src/planner.rs:301-326 | in place: the pending input becomes the file's frontier and accepted content |
| `GatewayState.DriveGatewayCheckpoint.RejectDriveInput` | inkbridge-drive-gateway/src/planner.rs:328-335 | in place: the pending input is dropped and its event stays processed |
| `GatewayState.DriveGatewayCheckpoint.CommitOriginalRegistration` | inkbridge-drive-gateway/src/planner.rs:434-517 | in place: binds the original with its document |
| `GatewayState.DriveGatewayCheckpoint.CommitDeviceArtifactBinding` | inkbridge-drive-gateway/src/planner.rs:625-660 | in place: binds one more file to its document |
| `GatewayState.DriveGatewayCheckpoint.ReserveDriveOutput` | inkbridge-drive-gateway/src/planner.rs:766-796 | in place: reserves a delivery for its file |
| `GatewayState.DriveGatewayCheckpoint.CommitDriveOutput` | inkbridge-drive-gateway/src/planner.rs:855-930 | in place: the reserved delivery becomes delivered, its file bound with the delivered content |
| `GatewayValidity.CommitInputSound` | inkbridge-drive-gateway/src/planner.rs:208-299 | for a planned input the closing validation cannot fail, an error changes nothing, and bindings, events and frontiers only grow |
| `GatewayValidity.AcceptInputSound` | inkbridge-drive-gateway/src/planner.rs:301-326 | accepting always succeeds, keeps the checkpoint valid and settles the input |
| `GatewayValidity.RejectInputSound` | inkbridge-drive-gateway/src/planner.rs:328-335 | rejecting always succeeds, keeps the checkpoint valid and settles the input |
| `GatewayValidity.CommitRegistrationSound` | inkbridge-drive-gateway/src/planner.rs:434-517 | the same soundness for registering an original |
| `GatewayValidity.CommitArtifactSound` | inkbridge-drive-gateway/src/planner.rs:625-660 | the same soundness for binding a device artifact |
| `GatewayValidity.ReserveExactly` | inkbridge-drive-gateway/src/planner.rs:766-796 | the closing validation of a reservation passes if and only if the object path lies under the target's folder and names the document |
| `GatewayValidity.CommitFreshOutputExactly` | inkbridge-drive-gateway/src/planner.rs:855-930 | for a file not bound yet it passes if and only if the content hash is 64 hex digits, which preparing does not check |
| `GatewayValidity.CommitBoundOutputExactly` | inkbridge-drive-gateway/src/planner.rs:855-930 | for a bound file it also needs every pending input of that file to be based on the delivered revisions |
| `GatewayWitnesses.PreparedReserves` | inkbridge-drive-gateway/src/planner.rs:662-796 | for every checkpoint and broker output that preparing answers with a reservation: it can be made if and only if the object path is under the target's folder and names the document |
| `GatewayWitnesses.PreparedButNotReserved` | inkbridge-drive-gateway/src/planner.rs:662-796 | on the checkpoint of one registered original, an output so answered that no generated file can be reserved for |
| `GatewayWitnesses.NeverCommitted` | inkbridge-drive-gateway/src/planner.rs:855-930 | a reserved delivery whose content hash is not hexadecimal is committed under no file id and version, in no valid checkpoint |
| `GatewayWitnesses.FirstOriginalPrepared` | inkbridge-drive-gateway/src/planner.rs:337-432 | a listed and approved original prepares to the registration these runs begin with |
| `GatewayWitnesses.ReservedAndStuck` | inkbridge-drive-gateway/src/planner.rs:855-930 | such a delivery stays reserved in every later checkpoint of every run |
| `GatewayWitnesses.StuckReached` | inkbridge-drive-gateway/src/planner.rs:662-796 | a run that prepares and reserves such a delivery |
| `GatewayWitnesses.HandBoundCommits` | inkbridge-drive-gateway/src/planner.rs:855-930 | when a reserved file was bound by hand and an input for it is pending, the delivery commits if and only if the input is based on the delivered revisions |
| `GatewayWitnesses.HandBoundPrepared` | inkbridge-drive-gateway/src/planner.rs:519-623 | a generated file listed without the gateway's properties, with a delivery reserved for it, prepares to a hand binding |
| `GatewayWitnesses.HandBoundReached` | inkbridge-drive-gateway/src/planner.rs:855-930 | that binding commits, an edit of the file is then committed as an input, and the reserved delivery cannot commit while it is pending |
| `GatewayRuns.StepKeeps` | inkbridge-drive-gateway/src/planner.rs:208-334 | every successful step keeps the checkpoint valid, generated file ids apart, and what grows growing |
| `GatewayRuns.RunValid` | inkbridge-drive-gateway/src/model.rs:126-335 | every checkpoint of every run is valid |
| `GatewayRuns.RunGrows` | inkbridge-drive-gateway/src/planner.rs:208-334 | bindings, processed events and per-file frontiers only grow over a run; a delivery keeps its file |
| `GatewayRuns.PendingAtMostOnce` | inkbridge-drive-gateway/src/planner.rs:257-298 | a Drive event becomes pending at most once over a run |
| `GatewayRuns.ReservedIsNoInput` | inkbridge-drive-gateway/src/planner.rs:44-95 | between creation and delivery commit a generated file never prepares to an upload |
| `GatewayRuns.NoEcho` | inkbridge-drive-gateway/src/planner.rs:855-930 | after delivery, until other content is accepted for the file, its generated bytes never prepare to an upload, under any version or name |
| `GatewayRuns.ReservedForever` | inkbridge-drive-gateway/src/planner.rs:766-930 | a reserved delivery stays reserved for the same file or delivered to it |
| `GatewayJobs.CheckpointStore.CompareAndSwap` | inkbridge-drive-runtime/src/runtime.rs:95-133 | success means the checkpoint replaced was the expected version and the new one is the next version; a failure persists nothing of this job |
| `GatewayJobs.OneFilePerDelivery` | inkbridge-drive-runtime/src/runtime.rs:634-700 | in the chain of persisted checkpoints of all concurrent jobs each delivery has one file for ever |
| `GatewayJobs.CreatesAgree` | inkbridge-drive-runtime/src/runtime.rs:634-700 | any two calls to Drive that create a delivery, by any jobs at any time, name the same file |
| `GatewayJobs.GatewayJob.ReserveOutput` | inkbridge-drive-runtime/src/runtime.rs:615-632 | on success the delivery is reserved or delivered in the valid checkpoint returned, which grows the one given, changes no input and no token, and is that very one when it was answered already |
| `GatewayJobs.GatewayJob.DeliverOutput` | inkbridge-drive-runtime/src/runtime.rs:634-700 | finds or creates the file under the persisted reserved id, asks Drive for no other, and settles exactly that delivery |
| `GatewayJobs.GatewayJob.RecoverPendingOutputs` | inkbridge-drive-runtime/src/runtime.rs:634-700 | on success no output is pending and no input has moved |
| `GatewayJobs.GatewayJob.FinishPendingInput` | inkbridge-drive-runtime/src/runtime.rs:591-613 | on success that input, and no other, is settled and its outputs delivered |
| `GatewayJobs.GatewayJob.ProcessBoundChange` | inkbridge-drive-runtime/src/runtime.rs:453-512 | with nothing pending the deferred and unbound branches are unreachable, and the change ends ignored, duplicate or settled, with the bytes that were processed |
| `GatewayJobs.GatewayJob.ProcessChange` | inkbridge-drive-runtime/src/runtime.rs:278-439 | a change ends ignored, duplicate, registered or settled, with the bytes Drive returned for it, and nothing is pending |
| `GatewayJobs.GatewayJob.OrderChanges` | inkbridge-drive-runtime/src/runtime.rs:254-276 | exactly the unbound files the approval store answered with an original approval come first; both groups keep the listed order |
| `GatewayJobs.OrderedIsPermutation` | inkbridge-drive-runtime/src/runtime.rs:254-276 | whatever the answers, the order is a permutation of what was listed |
| `GatewayJobs.PickedAll` | inkbridge-drive-runtime/src/runtime.rs:254-276 | the ordering is a permutation: no change is dropped or repeated |
| `GatewayJobs.GatewayJob.Persist` | inkbridge-drive-runtime/src/runtime.rs:702-706 | persists the checkpoint under the version it was derived from, or fails and persists nothing |
| `GatewayJobs.GatewayJob.RunOnce` | inkbridge-drive-runtime/src/runtime.rs:181-252 | a run that succeeds loaded one checkpoint, listed the work of its token, settled every listed change against logged answers, and only then persisted the token Drive gave; everything it persisted before, and everything a failed run persists, carries the token loaded |
| `GatewayJobs.SettledStays` | inkbridge-drive-runtime/src/runtime.rs:181-252 | what a run settled stays processed and bound in every checkpoint any job persists later |
| `Xref.FindBytes` | inkbridge-convert/src/neoreader_repair.rs:84-88 | the first match |
| `Xref.RFindBytes` | inkbridge-convert/src/neoreader_repair.rs:90-94 | the last match |
| `Xref.NameOffset` | inkbridge-convert/src/neoreader_repair.rs:138-159 | the end of the first whole name |
| `Xref.ParseInteger` | inkbridge-convert/src/neoreader_repair.rs:161-174 | the number the digits denote, when it fits |
| `Xref.ParseIntegerArray` | inkbridge-convert/src/neoreader_repair.rs:108-122 | the bracketed integers, or nothing |
| `Xref.RepairTrailingXrefStreamLength` | inkbridge-convert/src/neoreader_repair.rs:1-82 | the buffer is changed exactly by the planned patch, and not at all on errors or when nothing is wrong |
| `Xref.PaddedDenotes` | inkbridge-convert/src/neoreader_repair.rs:66-80 | the zero-padded replacement has the old width and denotes the length |
| `XrefRepair.RepairIsLocal` | inkbridge-convert/src/neoreader_repair.rs:1-82 | only the digits of /Length change, and they then denote the /W total times the entry count |
| `XrefRepair.RepairIsIdempotent` | inkbridge-convert/src/neoreader_repair.rs:1-82 | a second run on the repaired bytes reports nothing to repair |
| `Affines.InverseUndoes` | inkbridge-convert/src/affine.rs:109-150 | the inverse undoes the transform on every point, in both orders |
| `Affines.InvertibleExactly` | inkbridge-convert/src/affine.rs:109-150 | a transform is refused as singular exactly when its determinant is tiny against the square of its largest coefficient |
| `Spread.Upright` | inkbridge-convert/src/virtual_spread.rs:92-126 | for all four rotations the page appears upright and unreflected, every point in proportion to the transformed bounds |
| `Spread.LandsInFit` | inkbridge-convert/src/virtual_spread.rs:480-583 | a canonical point of an accepted mapping lands within twice the tolerance of the same point of the page centred in its slot |
| `Spread.StaysInSlot` | inkbridge-convert/src/virtual_spread.rs:480-512 | an accepted page stays in its half of the spread up to a stated slack |
| `Spread.FacingPagesApart` | inkbridge-convert/src/virtual_spread.rs:480-512 | facing pages keep the gutter between them up to both slacks |
| `Spread.InverseOutcome` | inkbridge-convert/src/virtual_spread.rs:99-113 | at given fractions of the bounds the inverse returns the snapped preimage, or fails, exactly as stated |
| `Spread.EveryPointInterpolated` | inkbridge-convert/src/virtual_spread.rs:99-113 | every point of the spread is at some fractions of the bounds, so the outcome is stated for all points |
| `Spread.RecoveredExactly` | inkbridge-convert/src/virtual_spread.rs:835-854 | a canonical point survives the round trip if and only if each coordinate is 0, 1 or farther than the tolerance from both |
| `Spread.NearEdgeRefused` | inkbridge-convert/src/virtual_spread.rs:99-113 | an accepted page and a canonical point on it that the inverse refuses |
| `Spread.AcceptedExactly` | inkbridge-convert/src/virtual_spread.rs:369-447 | a mapping is accepted if and only if placement, geometry and corners are right: the singularity check and the six probes never decide |
| `SpreadLayout.PlacedExactly` | inkbridge-convert/src/virtual_spread.rs:748-769 | a page is accepted at exactly one place, given by closed formulas, and each place belongs to at most one page |
| `SpreadLayout.SpreadsFilled` | inkbridge-convert/src/virtual_spread.rs:604-616 | for every page count and cover choice exactly the expected spreads hold a page |
| `SpreadLayout.ValidateSpreads` | inkbridge-convert/src/virtual_spread.rs:585-618 | the loops accept exactly the matching lists |
| `SpreadLayout.SpreadsExactly` | inkbridge-convert/src/virtual_spread.rs:585-618 | for pages in order exactly one list of spreads is accepted |
| `SpreadLayout.EachPageShownOnce` | inkbridge-convert/src/virtual_spread.rs:585-618 | accepted spreads show every page in exactly one place |
| `SpreadLayout.ValidatePages` | inkbridge-convert/src/virtual_spread.rs:309-325 | accepts exactly the pages that are in order and have accepted mappings, and returns each page's mapping |
| `SpreadLayout.AcceptedBook` | inkbridge-convert/src/virtual_spread.rs:254-367 | in an accepted sidecar the spreads are the book's layout and each mapping is found under its page |
| `SpreadIdentity.ValidateWire` | inkbridge-convert/src/virtual_spread.rs:254-367 | accepts exactly the sidecars whose header, digests, counts, geometry, links, pages, spreads, mapping authority, view id and cache name are right, and tells readers what the sidecar says, with each page's mapping |
| `SpreadIdentity.ComputeMappingAuthority` | inkbridge-convert/src/virtual_spread.rs:675-713 | the text built line by line is the domain and one record for each page |
| `SpreadIdentity.ValidateLinks` | inkbridge-convert/src/virtual_spread.rs:620-673 | accepts exactly the well-formed links |
| `SpreadIdentity.MappingTells` | inkbridge-convert/src/virtual_spread.rs:675-713 | equal canonical mappings are of equal pages, but for their display numbers, unless two different numbers have one spelling |
| `SpreadIdentity.ViewIdExactly` | inkbridge-convert/src/virtual_spread.rs:715-746 | two accepted sidecars that show the same original in the same way have one view id; two with one view id show the same original in the same way, or two of their digests or number spellings clash |
| `SpreadIdentity.OneViewReadsAlike` | inkbridge-convert/src/virtual_spread.rs:254-367 | without such a clash readers of two sidecars with one view id are told the same mappings, layout and names, and all else but the generated PDF's digest and the layout and link digests |

## Left out

- Sample geometry inside a stroke is not interpreted by the broker model: strokes, styles and fingerprints are abstract values.
- CloudStorage.CloudBrokerStorage.Recover: success is stated for one worker per document and no failing call; with two workers it is false, as `OutboxWitnesses.TwoWorkersStrand` shows.
- Serializability.EventsAreSerializable: an event naming a generation not yet given out when it is first looked at is not covered; storage announces an object only after writing it.
- CloudStorage.CloudBrokerStorage.Commit: the exact outcome is stated without interference; under interference success still means the commit is published and retired.
- GatewayRuns.StepKeeps: a file reserved for a delivery is not registered or bound by hand before the delivery commits, and Drive generates each file ID once; `GatewayWitnesses.HandBoundCommits` states what happens otherwise.
- GatewayJobs.GatewayJob.RunOnce: apply mode only; the dry-run mode, its simulated frontiers and the report counters are not modelled.
- Spread.LandsInFit: over the reals; binary64 rounding, signed zero and non-finite values are not modelled.
- SpreadIdentity.ValidateWire: numbers are reals with an abstract spelling, so the two zeros of binary64, which are spelt apart, are one; a link is a value of its kind or malformed, its JSON is not parsed.
- State revisions, frontiers and generations are unbounded; only the overflow checks the gateway itself makes are modelled.
- The legacy accepted-object path and payload-kind migration are not modelled; processing and resolving do not bring a page count up to date, which no state of a run needs (`Registrations.PageCountKnown`).
- Manifest ids, summaries, payload sizes, file extensions, coordinate transforms and the wording of errors carry no decision and are dropped.
- Validation of the inside of manifests and exports (styles, pen colours, geometry) is part of the codec parameter.
- Drive properties are a datatype of the keys the code reads; other properties are not modelled.
- The HTTP, Firestore, Cloud Storage and Drive adapters are a conditional object map, a record map and a compare-and-swap register.
- PDF reading and writing, the folder handoff, the device codecs and the command-line and web entry points are outside the model.
- Devices create and replace objects in their folders; they do not delete them.
- The histories, reservations and publication lists kept beside the outbox records and the checkpoint store are bookkeeping for the proofs and decide nothing.
