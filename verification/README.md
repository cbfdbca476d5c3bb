# Verified model of the ARO resource provider

The resource provider creates, updates and deletes OpenShift clusters for Azure.
Front ends accept requests and write a cluster document in a non-terminal
provisioning state; any number of backend processes claim such documents with a
60-second lease, renew the lease with a heartbeat, do the work and commit a terminal
state; asynchronous-operation documents publish the outcome. This project models that
protocol and the algorithms around it in Dafny and proves what they guarantee, for
every input, every interleaving and every run.

`dafny verify dfyconfig.toml` checks all of it.

## How the project is built

**The protocol.** `Documents` holds the cluster document and, as pure functions, the
edit that each writer makes to the copy it has read. `Protocol` is the state machine
in which every write is atomic. `Concurrency` is the machine as it runs: a write is a
read, an edit and a Replace that the server accepts or refuses, with any number of
writes in flight and a new ETag per stored version. Three flags (`Mode`) say which
assumptions a run may use:

- `conditional`: writes with nil options carry If-Match (section 3.1 of RFC 7232) too.
  README.md:108-109 of the repository intends this; the code does not do it, because
  `setOptions` returns before it sets the header when the options are nil
  (pkg/database/cosmosdb/zz_generated_openshiftclusterdocument.go:169-172). As written,
  only `Dequeue` and `Lease` of clusters are conditional.
- `oneSession`: a process does not dequeue a key that it is still working on. The owner
  uuid is one per process (cmd/aro/rp.go:25), so the lease cannot tell two such
  sessions apart.
- `noStaleWrites`: a worker publishes an outcome or removes a document only while it
  holds the lease. `Delete` and `updateAsyncOperation` check no lease
  (pkg/database/openshiftclusters.go:174-180, pkg/backend/openshiftcluster.go:171-203).

Where a promise needs one of these, it is proved with the flag and shown to fail
without it, by a concrete execution in `Counterexamples` and `StaleInstaller`; the
lemmas whose names contain `Iff` state the exact condition over all executions. What
holds with no flag at all is in `AsWritten`. `WriteEffects` says when a write is
accepted and which fields are its own; `Progress` and `SubscriptionProgress` say what can
always still be done. `Installation` extends the atomic machine
with the phases of the installer, and `InstallerInterleaving` the concurrent one; with
conditional writes the second refines the first. `Database` is the database client
itself, an object that runs against a server on which other clients write between any
two of its requests. `Subscriptions` and `SubscriptionProtocol` do the same for the deletion of a
subscription.

**The algorithms.** `Dns` (ownership of the `api.` record), `Rebalancing` (worker
counts), `Immutable`, `FirstDifference`, `Conversion`, `DeltaValidation` and `UpdateSafety` (what a PUT or
PATCH may change), `AssetGraph` (the memoising resolver), `OrderedMap` and
`ImportGroups`.

**What turned out different from the repository's intent**

- With nil options a stale `PatchWithLease` undoes a lease renewal or a dequeue, a stale
  PUT overwrites a deletion, and a stale subscription PUT turns Deleted back into
  Registered.
- The subscription `patchWithLease` ignores its options (pkg/database/subscriptions.go:126):
  the heartbeat never extends the lease, and "retry later" is retried at once.
- Deleting a subscription does not reset the dequeue counter of its clusters
  (pkg/backend/subscriptions.go:116-118), so a cluster that used up its five dequeues is
  never handed to a handler that deletes it.
- A worker that lost its lease can start an install phase after another worker has
  completed the install. With nil options its stale patch even brings the finished
  install back, under its own lease, and it completes an install whose first phase was
  never run.
- With nil options a worker that keeps writing back what it read hides every takeover
  from the dequeue counter, so there is no bound on how often a cluster is handed out.
- Updating a cluster drops unknown JSON fields inside worker and ingress profiles,
  although it keeps them everywhere else.
- The default for a machine set without a replica count lands on a loop copy, so the
  update panics (pkg/backend/openshiftcluster/update.go:65-70).
- At pkg/frontend/openshiftcluster_putorpatch.go:164 an inner `err` shadows the outer
  one: a failed Create that is not a conflict goes on with a nil document. The model
  has no step for such a request, because it stores nothing.

## Model

| member | source | states |
|---|---|---|
| Paths.SegmentToLower | pkg/database/openshiftclusters.go:248-251 | lower-casing a resource ID and taking one of its segments, such as the subscription, commute |
| Paths.LowerMeansNoCapitals | pkg/database/openshiftclusters.go:71-73 | the lower-case check of a key accepts exactly keys without capital letters |
| Paths.LowerIdentifiesCase | pkg/frontend/openshiftcluster_putorpatch.go:133-133 | two resource group IDs get the same key exactly if they differ in case only |
| StoreInvariants.ResultWellFormed | pkg/api/openshiftcluster.go:29-57 | every write of every writer keeps the rules on state, failed state, async id and lease owner, whatever version it was computed from |
| StoreInvariants.StepKeepsStore | pkg/database/openshiftclusters.go:70-246 | every event of the protocol keeps the store invariant and the key invariant |
| StoreInvariants.RunKeepsStore | pkg/database/openshiftclusters.go:70-246 | both invariants hold in every state of every run |
| StoreInvariants.ResourceGroupFixesPartition | pkg/api/v20191231preview/openshiftcluster_validatestatic.go:140-142 | the resource group key of a document determines its partition |
| StoreInvariants.UniqueEverywhere | pkg/deploy/rp.go:628-641 | no two documents share a key or a resource group key in the whole database, although uniqueness is enforced per partition only |
| Concurrency.ExecutionKeepsServer | pkg/database/cosmosdb/zz_generated_openshiftclusterdocument.go:131-142 | in every interleaving, in every mode: store and key invariants, and an in-flight write whose ETag is current was computed from the current version |
| Concurrency.IfMatchIsAtomic | pkg/database/cosmosdb/zz_generated_openshiftclusterdocument.go:169-179 | a write that carries If-Match is an atomic edit of the version it replaces |
| Concurrency.ConditionalExecutionsAreAtomicRuns | pkg/database/openshiftclusters.go:127-146 | with conditional writes, every interleaving of reads and writes is a run of the atomic protocol |
| Concurrency.RunsAreExecutions | pkg/database/openshiftclusters.go:127-146 | conversely, in every mode, whatever the atomic protocol reaches is reached with reads and writes apart |
| WriteEffects.Footprint | pkg/database/openshiftclusters.go:198-246 | every field of a document is changed only by the writes that are meant to; content only by updates and workers' patches |
| WriteEffects.DeleteIsAccepted | pkg/frontend/openshiftcluster_delete.go:43-51 | a deletion is accepted exactly in the states Succeeded and Failed, whatever has failed, and leaves the cluster Deleting with a new counter and its operation |
| WriteEffects.UpdateIsAccepted | pkg/frontend/openshiftcluster_putorpatch.go:80-96 | an update is accepted exactly if the cluster is Succeeded or its last update failed, and the resource group stays |
| WriteEffects.ContentIsLastSet | pkg/database/openshiftclusters.go:127-160 | in every run, what a document holds is what its creation, or the last accepted update or worker's patch, put there |
| WriteEffects.NoContentIsLost | pkg/database/openshiftclusters.go:127-160 | the same in every conditional interleaving |
| WriteEffects.EndLeaseCommitsOutcome | pkg/backend/openshiftcluster.go:205-222 | with one session per key, EndLease stores the published outcome, as failed state the state the cluster was in, releases lease and operation, and changes nothing else |
| WriteEffects.WorkDecidesTheEnd | pkg/backend/openshiftcluster.go:88-129 | only the work on a deletion removes a document, and only creations and updates end with Succeeded |
| Progress.WorkCanBeFinished | pkg/backend/openshiftcluster.go:75-132 | from every state, in every mode, work in progress can be brought to any outcome that the limit allows, with nothing else changed |
| Progress.DeletionIsAccepted | pkg/frontend/validate.go:16-23 | in every state of every run, a fresh deletion is enabled exactly for Succeeded and Failed clusters, doomed ones included, and leaves them Deleting |
| Progress.EveryClusterCanBeRemoved | pkg/api/openshiftcluster.go:49-57 | from every state of every run, every cluster can be removed, and nothing else need change |
| Progress.UpdatesCanSucceed | pkg/frontend/openshiftcluster_putorpatch.go:98-139 | an update of a cluster in order, or whose last update failed, can succeed with its content |
| Progress.ClustersCanBeCreated | pkg/database/openshiftclusters.go:70-88 | a cluster whose IDs are accepted and clash with no stored one can be created, and its creation can succeed |
| AsWritten.StoredDocumentsAreWellFormed | pkg/api/openshiftcluster.go:29-60 | with or without If-Match, every stored document has a failed state exactly as its state demands, and terminal ones carry no operation and no lease |
| AsWritten.UnexpectedBranchesAreDead | pkg/backend/openshiftcluster.go:88-131 | no writer and no worker ever reaches an "unexpected state" branch, even on stale copies |
| AsWritten.UnownedWorkIsEligible | pkg/database/openshiftclusters.go:230-242 | a document in progress that nobody holds, new or released, can be dequeued at once |
| AsWritten.NoSharedKeys | pkg/database/openshiftclusters.go:70-88 | keys and resource group keys are unique database-wide in every interleaving |
| AsWritten.DequeueTakesExpiredDocument | pkg/database/openshiftclusters.go:198-222 | a Dequeue is accepted only if the document is still in progress and expired at that moment, and then stores exactly owner, counter and expiry |
| AsWritten.ETagsRise | pkg/database/cosmosdb/zz_generated_openshiftclusterdocument.go:131-142 | the ETag of a document never goes back, even across removals |
| AsWritten.OneWinnerPerVersion | pkg/database/openshiftclusters.go:212-220 | of all conditional writes computed from one stored version at most one is accepted |
| LeaseSafety.RunsHaveNoEarlyTakeover | pkg/database/openshiftclusters.go:46-52 | no Dequeue within 59 s of a renewal by an owner that has not released |
| LeaseSafety.NoEarlyTakeoverWhenConditional | pkg/database/openshiftclusters.go:198-246 | the same for every interleaving in conditional mode |
| LeaseSafety.HowALeaseEnds | pkg/database/openshiftclusters.go:198-246 | a lease leaves its owner only by its release, a removal, or a Dequeue after expiry |
| LeaseSafety.LeaseLastsAMinute | pkg/database/openshiftclusters.go:198-201 | work whose lease was last renewed at some time can be dequeued from exactly 60 whole seconds later on |
| LeaseSafety.OnlyTheOwnerWritesUnderTheLease | pkg/database/openshiftclusters.go:148-160 | in conditional mode no Lease, PatchWithLease or EndLease by a non-owner is accepted |
| Lifecycle.RunKeepsHeld | pkg/backend/openshiftcluster.go:75-132 | with one session per key, the session that holds a lease matches the document's state and operation |
| Lifecycle.DoomedForGood | pkg/frontend/openshiftcluster_putorpatch.go:80-96 | a cluster that is Deleting, or Failed while Creating or Deleting, is so in every later state of the run |
| Lifecycle.DeletionIsForGood | pkg/frontend/openshiftcluster_delete.go:37-49 | once a deletion by the user or of the subscription is accepted, the cluster is Deleting or failed in it until removal |
| Lifecycle.DoomedClustersNeverComeBack | pkg/frontend/openshiftcluster_delete.go:43-49 | the same for every conditional interleaving: until removal only Deleting or Failed |
| DequeueLimit.CounterCountsHandouts | pkg/database/openshiftclusters.go:213-215 | between resets the counter, capped at five, counts exactly the handouts to a working handler |
| DequeueLimit.CounterIsExactWhenConditional | pkg/database/openshiftclusters.go:238-240 | the same in every conditional interleaving, across processes and crashes |
| DequeueLimit.AtMostFiveHandouts | pkg/backend/backend.go:20-23 | at most five handouts between two resets, none once the counter is at five |
| DequeueLimit.RunsBoundHandouts | pkg/backend/openshiftcluster.go:28-37 | in every atomic run at most five handouts between two resets, also up to and across a removal |
| DequeueLimit.HandoutsAreBoundedWhenConditional | pkg/backend/openshiftcluster.go:28-37 | the same in every conditional interleaving, across processes and crashes |
| DequeueLimit.ResetRestoresTheBudget | pkg/frontend/openshiftcluster_putorpatch.go:136-139 | a reset sets the counter to zero, and from there it counts every handout up to five |
| DequeueLimit.NewClustersHaveTheBudget | pkg/frontend/openshiftcluster_putorpatch.go:63-78 | a new cluster has its whole budget of five handouts |
| DequeueLimit.HandoutsStartWork | pkg/backend/openshiftcluster.go:28-39 | a Dequeue within the limit, and no other, starts a session that works; the session holds the lease and knows the document's key, state and operation |
| DequeueLimit.BeyondTheLimitOnlyFails | pkg/backend/openshiftcluster.go:28-37 | a dequeue beyond the limit can only publish and commit Failed, and never removes the document |
| DequeueLimit.SubscriptionDeletionKeepsTheCounter | pkg/backend/subscriptions.go:110-121 | a cluster past its limit that subscription deletion marks is not handed out again before a reset |
| AsyncOperations.ReleaseHappened | pkg/backend/openshiftcluster.go:205-222 | every recorded release is an earlier EndLease or removal of the document that carried the operation |
| AsyncOperations.RevealedMeansReleased | pkg/frontend/asyncoperationsstatus_get.go:31-50 | a reader that reads the operation first and the cluster later reports an outcome only after the release |
| AsyncOperations.RunsRevealOnlyReleased | pkg/frontend/asyncoperationsstatus_get.go:31-50 | in every atomic run, for every pair of read times |
| AsyncOperations.ResultMeansReleasedOrNeverCarried | pkg/frontend/asyncoperationresult_get.go:33-59 | an answer of the result endpoint other than 202 means that the operation was released, or that no document has carried it; if it had an outcome when it was read, that it was released |
| AsyncOperations.HiddenStatusIsTheClusterState | pkg/frontend/asyncoperations.go:20-36 | while the outcome is hidden, the status shown is the state the cluster document is in |
| AsyncOperations.RevealsOnlyReleasedWhenConditional | pkg/frontend/asyncoperationsstatus_get.go:31-50 | in every conditional interleaving |
| AsyncOperations.ShownStatusIsStored | pkg/frontend/asyncoperationsstatus_get.go:31-50 | in every run, the status shown is the initial one while a document carries the operation, and otherwise the one stored in the operation |
| AsyncOperations.RunKeepsOutcomes | pkg/backend/openshiftcluster.go:120-128 | what the lease holder published is what the operation document says, and released operations say what was committed |
| AsyncOperations.OutcomesAreFinalWhenLeasesAreRespected | pkg/backend/openshiftcluster.go:171-222 | from its release on, the stored outcome of an operation is the committed one and never changes |
| AsyncOperations.OutcomesAreToldWhenLeasesAreRespected | pkg/frontend/asyncoperationsstatus_get.go:28-50 | under the three assumptions, whoever asks after the release is told exactly the committed outcome |
| Counterexamples.EarlyTakeover | pkg/database/cosmosdb/zz_generated_openshiftclusterdocument.go:169-172 | nil options: an execution in which a lease is taken over early, because a stale patch undid its renewal |
| Counterexamples.LostDequeue | pkg/database/openshiftclusters.go:148-150 | nil options: an execution in which a stale patch erases a Dequeue from the counter |
| Counterexamples.ManyHandouts | pkg/database/openshiftclusters.go:148-150 | nil options: for every n, an execution with n+1 handouts of one cluster and no reset, after which the counter is at one |
| Counterexamples.SixHandouts | pkg/backend/backend.go:20-23 | nil options: an execution that breaks the bound of five |
| Counterexamples.LostContent | pkg/database/openshiftclusters.go:230-246 | nil options: a stale EndLease takes back what a worker had stored in the document |
| Counterexamples.PrematureReveal | pkg/database/openshiftclusters.go:162-164 | nil options: an operation is revealed as terminal that was never released |
| Counterexamples.DeletionOverwritten | pkg/frontend/openshiftcluster_putorpatch.go:170-170 | nil options: a stale PUT brings a Deleting cluster back |
| Counterexamples.OldSessionEndsNewLease | cmd/aro/rp.go:25-25 | two sessions of one process: the old one ends the new one's deletion as Succeeded |
| Counterexamples.OldSessionRewritesOutcome | cmd/aro/rp.go:25-25 | two sessions of one process: a released outcome is rewritten |
| Counterexamples.StaleWorkerRewritesOutcome | pkg/backend/openshiftcluster.go:171-203 | a worker that lost its lease rewrites a released outcome |
| Counterexamples.StaleEndLease | pkg/database/openshiftclusters.go:230-246 | nil options: a stale EndLease makes the stored outcome of a released operation differ from the committed one |
| Counterexamples.AtomicIffConditional | pkg/database/openshiftclusters.go:127-146 | all executions are atomic runs if and only if nil options send If-Match |
| Counterexamples.NoEarlyTakeoverIffConditional | pkg/database/openshiftclusters.go:198-246 | lease safety holds of all executions if and only if nil options send If-Match |
| Counterexamples.CounterIsExactIffConditional | pkg/database/openshiftclusters.go:213-215 | the counter is exact in all executions if and only if nil options send If-Match |
| Counterexamples.BoundedHandoutsIffConditional | pkg/backend/openshiftcluster.go:28-37 | the bound of five handouts holds of all executions if and only if nil options send If-Match |
| Counterexamples.ContentKeptIffConditional | pkg/database/openshiftclusters.go:127-160 | no stored content is lost in any execution if and only if nil options send If-Match |
| Counterexamples.RevealsOnlyReleasedIffConditional | pkg/frontend/asyncoperationsstatus_get.go:44-50 | outcomes are hidden until release in all executions if and only if nil options send If-Match |
| Counterexamples.NeverComesBackIff | pkg/api/openshiftcluster.go:52-57 | deletion and failed creation are final in all executions if and only if writes are conditional and sessions single |
| Counterexamples.OutcomesAreFinalIff | pkg/backend/openshiftcluster.go:205-222 | outcomes are final in all executions if and only if all three assumptions hold |
| Database.GoneMeansReplaced | pkg/database/openshiftclusters.go:216-218 | a version that is no longer stored was replaced by a recorded change of its own |
| Database.IfMatchIsCurrent | pkg/database/cosmosdb/zz_generated_openshiftclusterdocument.go:174-179 | a Replace whose ETag matches replaced exactly the version that was read |
| Database.Clusters.Get | pkg/database/openshiftclusters.go:90-121 | the only document with the key, as stored at the read; NotFound exactly without one, Ambiguous exactly with two |
| Database.Clusters.Replace | pkg/database/cosmosdb/zz_generated_openshiftclusterdocument.go:131-142 | stores the body exactly if the document exists and, when If-Match is sent, the ETag is current |
| Database.Clusters.Attempt | pkg/database/openshiftclusters.go:130-143 | one round of read, edit and write with others writing in between: what was read was stored under the key at a point of the history, and every error has its reason |
| Database.Clusters.Patch | pkg/database/cosmosdb/zz_generated_cosmosdb.go:55-66 | success is one write of f of the version read, which is the version replaced if the write is conditional, and every other change stays in the history; any error means no write of ours: f refused the last version read, no or two documents had the key, the document was gone, or each of five versions read in turn was rewritten by somebody else during its attempt |
| Database.Clusters.PatchWithLease | pkg/database/openshiftclusters.go:152-160 | what is written is the edit of a version owned by this process, the version replaced if the write is conditional; a lost lease means the last version read had another owner; other errors as for Patch |
| Database.Select | pkg/database/openshiftclusters.go:199-201 | the query returns exactly the documents among the listed ids that are in progress and expired at query time |
| Database.Clusters.ClaimOne | pkg/database/openshiftclusters.go:212-220 | one candidate: claimed while still eligible, or rewritten by somebody else since it was listed, or absent |
| Database.Clusters.ClaimPage | pkg/database/openshiftclusters.go:203-221 | one page, read at a point of the history: all its candidates were rewritten since, or the first that was not is claimed or absent |
| Database.Clusters.Dequeue | pkg/database/openshiftclusters.go:198-222 | page after page in turn: nothing is returned only if every candidate of every page was rewritten by others since the page was read; otherwise all before it were, and the one returned was claimed while eligible, or the error is that it is absent |
| Database.NothingLeft | pkg/database/openshiftclusters.go:203-221 | after an empty answer, for every listed document that was eligible when its page was read, a later change by somebody else replaced exactly that version |
| Installation.HistoryKeepsWorld | pkg/install/install.go:94-146 | with atomic calls, across crashes, takeovers and resumptions: the stored phase and every worker's position agree with the phases that have returned success |
| Installation.SuccessHappened | pkg/install/install.go:110-126 | every recorded success is an earlier return of that phase |
| Installation.RecordStays | pkg/install/install.go:97-105 | as long as no new Install record begins, one that is there was there all along |
| Installation.PhasesRunInOrder | pkg/install/install.go:107-145 | with atomic calls: a lease holder is about to start the stored phase, and every earlier one has returned success with Install never nil since |
| Installation.SuccessMeansAllPhases | pkg/install/install.go:122-132 | with atomic calls: when Install clears its record, all three phases have returned success with Install never nil since |
| Installation.NoUnrecognisedPhase | pkg/install/install.go:134-141 | with atomic calls: the unrecognised-phase branch and the nil dereference of Install are unreachable |
| Installation.OnlyCreationInstalls | pkg/backend/openshiftcluster.go:89-92 | only the work on a creation enters Install |
| Installation.Install | pkg/install/install.go:94-146 | one call succeeds exactly if the stored phase is recognised and as many phases pass as are left; it starts the phases in order, up to the first that does not pass; the record is cleared on success and otherwise at the phase after all that passed; an unrecognised phase starts nothing |
| InstallerInterleaving.StepKeepsServer | pkg/install/install.go:97-105 | every step of the interleaved installer is an action of the concurrent protocol and keeps its invariant, in every mode |
| InstallerInterleaving.StepRefines | pkg/install/install.go:138-144 | with conditional writes, a PatchWithLease that is accepted was computed from the current version of the session's own document, and the step is a move of the installer with atomic calls |
| InstallerInterleaving.InstallationsAreHistories | pkg/install/install.go:94-146 | with conditional writes, every interleaved run of the installer is a history of the one with atomic calls |
| InstallerInterleaving.LeasedStartsInOrder | pkg/install/install.go:107-145 | in conditional mode, in every interleaving: a lease holder is about to start a phase only if all earlier ones have returned success since Install was last nil |
| InstallerInterleaving.SuccessMeansAllPhases | pkg/install/install.go:122-132 | in conditional mode, in every interleaving: Install succeeds only after all three phases have returned success since it was last nil |
| InstallerInterleaving.NoUnrecognisedPhase | pkg/install/install.go:134-141 | in conditional mode, in every interleaving: the unrecognised-phase branch and the nil dereference are unreachable |
| StaleInstaller.StaleStart | pkg/install/install.go:138-144 | a reachable state, in every mode, in which a worker without lease is about to start phase 1 of an install that is over |
| StaleInstaller.StalePatch | pkg/install/install.go:138-141 | nil options: a stale patch of the phase is accepted after another worker has finished the install, and leaves Install at phase 1, under the stale worker's lease, with phase 0 not run since it was nil |
| StaleInstaller.StaleCompletion | pkg/install/install.go:122-132 | nil options: from there the install runs to its end without phase 0 |
| StaleInstaller.InOrderIff | pkg/install/install.go:94-146 | with one session per key: phases start in order in all interleavings if and only if writes are conditional and only starts under the lease count |
| StaleInstaller.SuccessIsEarnedIff | pkg/install/install.go:122-132 | with one session per key: success of Install means all phases were run in all interleavings if and only if writes are conditional |
| Subscriptions.PatchCluster | pkg/backend/subscriptions.go:109-124 | done is false exactly if some run of the closure read a stored version of the cluster that was busy, even on a retry; without error our write stored the edit, as Deleting if done; an error has the reason of the patch |
| Subscriptions.HandleDelete | pkg/backend/subscriptions.go:92-131 | without error every cluster on every page was written by us, as Deleting if done, and done is false exactly if a version stored under one of the keys was read busy; an error never reports done and is that of the iterator or of the patch of a listed cluster |
| SubscriptionProtocol.CommitIsAtomic | pkg/database/subscriptions.go:98-139 | with If-Match, every accepted write is its edit of the subscription it replaces |
| SubscriptionProtocol.DeletedStaysDeleted | pkg/frontend/subscriptions_put.go:78-80 | with If-Match, a subscription stored as Deleted is Deleted in every later state |
| SubscriptionProtocol.PatchedWereDeleting | pkg/backend/subscriptions.go:98-124 | every cluster that a done pass counts as patched was stored as Deleting by that pass |
| SubscriptionProtocol.FlagClearedAfterPass | pkg/database/subscriptions.go:173-193 | with If-Match, the Deleting flag is cleared only by the EndLease, with done, of a session that reached the end of its list and stored every cluster on it as Deleting |
| SubscriptionProtocol.HeartbeatsDoNotCount | pkg/database/subscriptions.go:119-127 | in every run, conditional or not: however often the lease is renewed, the subscription can be dequeued again from 60 s after its last Dequeue on |
| SubscriptionProtocol.LeaseLastsAMinute | pkg/database/subscriptions.go:141-165 | with If-Match, and exactly from then on, unless the holder ends the lease |
| SubscriptionProtocol.RetryLaterIsAtOnce | pkg/database/subscriptions.go:173-193 | in every run, conditional or not: a pass that asks to be retried later leaves a subscription that can be dequeued at once if it is still to be deleted, which with If-Match it is if it was |
| SubscriptionProtocol.SubscriptionFootprint | pkg/database/subscriptions.go:141-193 | what each write makes of every field: only PUT sets the state, only Dequeue raises the counter, and only an EndLease that is done or asks to be retried sets it to zero |
| SubscriptionProtocol.DequeueStartsSession | pkg/backend/subscriptions.go:26-37 | a Dequeue within the limit starts a pass, any other only asks to be retried |
| SubscriptionProtocol.AtMostFivePasses | pkg/backend/subscriptions.go:33-36 | with If-Match, the counter counts the passes, of which there are at most five between two new budgets |
| SubscriptionProtocol.RetriedPassesWork | pkg/database/subscriptions.go:187-189 | with If-Match, a pass that is done or asked to be retried leaves the counter at zero, and the next Dequeue works again |
| SubscriptionProtocol.PutIsAccepted | pkg/frontend/subscriptions_put.go:68-80 | a PUT is accepted exactly if it names a state and does not take a subscription out of Deleted |
| SubscriptionProtocol.StateIsLastPut | pkg/frontend/subscriptions_put.go:82-88 | with If-Match, the state of a subscription is the one its last accepted PUT asked for |
| SubscriptionProgress.FlagCanBeCleared | pkg/backend/subscriptions.go:72-131 | from every state, if no cluster on the list is busy, a pass can mark them all as Deleting and clear the flag |
| SubscriptionProtocol.StalePut | pkg/database/subscriptions.go:129-139 | nil options: a run in which a stale PUT turns Deleted into Registered and clears the flag without any pass |
| SubscriptionProtocol.PromisesNeedIfMatch | pkg/frontend/subscriptions_put.go:68-88 | both promises hold of all runs if and only if nil options send If-Match |
| Dns.ManagedDomainSpellings | pkg/util/dns/dns.go:164-170 | a name is managed for exactly two spellings of the domain |
| Dns.RunKeepsInv | pkg/util/dns/dns.go:69-85 | an ETag that an Update or Delete carries names a version its own cluster owned |
| Dns.OwnerStep | pkg/util/dns/dns.go:107-134 | one step ends X's ownership only if it is X's accepted Delete, and leaves the name absent |
| Dns.AcceptedEffect | pkg/util/dns/dns.go:136-162 | an accepted Create or Update leaves the record with its owner and exactly the address it was given, an accepted Delete leaves the name absent, and no other name changes |
| Dns.RecordIsLastAccepted | pkg/util/dns/dns.go:66-84 | in every run, owner and address of a record are those of the last request accepted on its name, a Create or an Update |
| Dns.OperationsGoThrough | pkg/util/dns/dns.go:49-84 | an absent name can be created by anyone, an owned one updated and deleted by exactly its owner |
| Dns.OwnershipPassesThroughDeletion | pkg/util/dns/dns.go:43-170 | in every interleaving, the record passes from X to another only across an absence made by X's own Delete, after unbroken ownership |
| Rebalancing.Find | pkg/backend/openshiftcluster/update.go:23-32 | the index of an element that none is better than, for every strict weak order |
| Rebalancing.Lower | pkg/backend/openshiftcluster/update.go:72-76 | the exact total, no set grows, every reduced set within one of the largest |
| Rebalancing.Raise | pkg/backend/openshiftcluster/update.go:78-82 | the exact total, no set shrinks, every raised set within one of the smallest |
| Rebalancing.Update | pkg/backend/openshiftcluster/update.go:60-82 | the requested total, one direction, none negative; panics exactly if a replica count is nil |
| Rebalancing.LoweredIsOptimal | pkg/backend/openshiftcluster/update.go:72-76 | no other reduction to the same total has a smaller largest set |
| Rebalancing.RaisedIsOptimal | pkg/backend/openshiftcluster/update.go:78-82 | no other raise to the same total has a larger smallest set |
| Rebalancing.LoweredStaysNonNegative | pkg/backend/openshiftcluster/update.go:72-76 | reducing to a non-negative total leaves no set negative |
| Immutable.AcceptsIffSame | pkg/util/immutable/immutable.go:22-137 | for all values of all types, the validator accepts exactly if nothing outside mutable fields differs, up to case where case is ignored, and all of it is comparable |
| Immutable.SameDict | pkg/util/immutable/immutable.go:88-105 | comparing the entries of one map with look-ups in the other, with equal lengths, is equality of the maps |
| Immutable.SameIsComparable | pkg/util/immutable/immutable.go:22-137 | comparability is shared by values that the validator does not tell apart |
| Immutable.AcceptanceIsEquivalence | pkg/util/immutable/immutable.go:15-20 | acceptance is symmetric and transitive, and reflexive exactly on comparable values |
| FirstDifference.ReportsFirstDifference | pkg/util/immutable/immutable.go:22-137 | the path that is reported leads to the first field, element or entry at which the values differ: at every step everything before it is the same |
| FirstDifference.ElementsAreShownByName | pkg/util/immutable/immutable.go:59-66 | an element of a list is shown by its string field Name, if it is a struct with one, and by its index otherwise |
| FirstDifference.StopsForAReason | pkg/util/immutable/immutable.go:97-134 | an unimplemented kind is reported only if there is one, and a panic happens only in a map |
| Conversion.ViewOfStored | pkg/api/v20191231preview/openshiftcluster_convert.go:104-152 | the external view of what ToInternal wrote is what was written |
| Conversion.StoredView | pkg/api/v20191231preview/openshiftcluster_convert.go:16-84 | writing a cluster's own view back changes nothing if and only if no list element holds unknown fields |
| Conversion.StoredTwice | pkg/api/v20191231preview/openshiftcluster_convert.go:100-104 | a later ToInternal leaves no trace of an earlier one |
| Conversion.ToExternal | pkg/api/v20191231preview/openshiftcluster_convert.go:16-84 | the append loops build the external view |
| Conversion.ToInternal | pkg/api/v20191231preview/openshiftcluster_convert.go:104-152 | the in-place assignments replace all mapped fields and only those |
| DeltaValidation.PropertiesSame | pkg/api/v20191231preview/openshiftcluster.go:37-64 | with the tags of the structs, nothing in the properties may change but worker counts |
| DeltaValidation.DeltaAccepts | pkg/api/v20191231preview/openshiftcluster_validatestatic.go:304-306 | validateDelta accepts exactly if only tags, worker counts and the case of id, name and type differ, in any iteration order of the tags |
| UpdateSafety.ValidateDelta | pkg/api/v20191231preview/openshiftcluster_validatestatic.go:304-306 | the call decides exactly that |
| UpdateSafety.PutOrPatch | pkg/frontend/openshiftcluster_putorpatch.go:80-139 | accepted exactly if the state gate, the absolute checks and the comparison pass, and what is then stored; each refusal exactly for its state or check; refused requests store nothing |
| UpdateSafety.UpdateKeepsFrozen | pkg/frontend/openshiftcluster_putorpatch.go:128-139 | an accepted request changes only tags, worker counts and the two states, and sets tags and counts as requested |
| UpdateSafety.UpdatesKeepFrozen | pkg/frontend/openshiftcluster_putorpatch.go:98-139 | the same for any sequence of requests and completions |
| UpdateSafety.RequestIsPutOrPatch | pkg/frontend/openshiftcluster_putorpatch.go:80-139 | the PutOrPatch write of the protocol is this handler: same gate, same state change, and every accepted request keeps the resource group |
| AssetGraph.GeneratedAtMostOnce | pkg/install/graph.go:127-145 | no type is generated twice, and no seeded type at all, whether or not the run fails |
| AssetGraph.EntriesStay | pkg/install/graph.go:127-145 | no entry is ever replaced or removed |
| AssetGraph.EntriesExplained | pkg/install/graph.go:136-141 | what is in the graph is a seed or what its one Generate call returned |
| AssetGraph.NewEntriesAreClosed | pkg/install/graph.go:129-141 | even after an error, every newly stored entry has all its dependencies in the graph |
| AssetGraph.Graph.Resolve | pkg/install/graph.go:127-145 | for every acyclic library: terminates, generates only what is missing, needed through missing types, and has its dependencies present, nothing at all if the asset is there, stops at the first failure, returns the entry exactly if no call failed |
| OrderedMap.ParseIffObject | pkg/util/orderedmap/orderedmap.go:19-40 | the grammar accepts exactly what starts with an object (section 4 of RFC 8259), and returns its members |
| OrderedMap.CollapseIsCollapsed | pkg/util/orderedmap/orderedmap.go:48-53 | each key once, in order of first appearance, with its last value |
| OrderedMap.RoundTrip | pkg/util/orderedmap/orderedmap.go:61-91 | reading back what was written is the identity if and only if the keys are distinct |
| OrderedMap.ReadIsStable | pkg/util/orderedmap/orderedmap.go:13-91 | what was read once and written reads the same again |
| OrderedMap.MemberStep | pkg/util/orderedmap/orderedmap.go:28-46 | the decoder's next token and value follow the grammar, and the token before a member is a string or the end |
| OrderedMap.UnmarshalJSON | pkg/util/orderedmap/orderedmap.go:15-59 | succeeds exactly on a decodable object, appends the collapsed members to the list, and leaves the list alone on every error |
| OrderedMap.MarshalJSON | pkg/util/orderedmap/orderedmap.go:63-91 | the loop writes the object with its separators, null for nil |
| ImportGroups.SplitGroups | hack/validate-imports/validate-imports.go:78-88 | non-empty groups that concatenate to the imports and split exactly at line gaps above one |
| ImportGroups.GroupingIsUnique | hack/validate-imports/validate-imports.go:78-88 | there is only one such grouping |
| ImportGroups.TypesOfImports | hack/validate-imports/validate-imports.go:38-51 | which imports have each type, in the order of the cases |
| ImportGroups.AllowedDotImports | hack/validate-imports/validate-imports.go:53-68 | the only "." imports not reported are the three of ginkgo and gomega |
| ImportGroups.LessIsLexicographic | hack/validate-imports/validate-imports.go:21-23 | paths are compared at the first letter that differs, a proper prefix first |
| ImportGroups.IsSorted | hack/validate-imports/validate-imports.go:97-99 | comparing neighbours decides whether the whole group is sorted |
| ImportGroups.SentinelBits | hack/validate-imports/validate-imports.go:105-105 | adding a type to the mask sets exactly the bits of that type and all earlier ones |
| ImportGroups.SeenMore | hack/validate-imports/validate-imports.go:101-105 | the mask test reports a group exactly if an earlier group has an equal or later type |
| ImportGroups.Check | hack/validate-imports/validate-imports.go:78-119 | every finding is reported that is true of some group, and no other |
| ImportGroups.OrderedIffIncreasing | hack/validate-imports/validate-imports.go:96-105 | no ordering error if and only if the types of the groups strictly increase |

## Left out

- HTTP, TLS, routing, middleware, logging, metrics and panic recovery around the transitions.
- Azure and Kubernetes clients, generated clients, mocks and the `az aro` extension.
- ARM templates, embedded assets, swagger generation; what the install phases, Create, Update and Delete do to Azure. A phase or a piece of work succeeds, fails or crashes.
- JSON bytes, regular expressions, URL and CIDR parsing. Strings are compared as sequences of characters, and resource IDs are split at slashes.
- The absolute checks of the static validator except the same-subscription rule, and the dynamic validator, which can only refuse more. `UpdateSafety.PutOrPatch` takes the absolute checks as an arbitrary predicate.
- The front ends' check of the subscription state before a cluster is written: it is a separate read, so nothing follows from it across the two stores.
- Time-to-live, end time, error body and the embedded cluster copy of asynchronous operations; only their states are modelled.
- Liveness: wake-ups of the worker loop, the worker counter, and that a heartbeat comes in time.
- Result pages are arbitrary lists of documents; continuation tokens are not modelled.
- The check of the client that keys are lower case, in Get and Replace: the keys of stored documents are, by `StoreInvariants.RunKeepsStore`.
- The sleep between retries, and errors of the database other than 404 and 412.
- The `*.apps` record of a cluster, which is written without any condition, and IP addresses of deleted records.
- JSON encoding of the asset graph.
- The text of error messages. `Immutable.Validate` reports the path of the difference as a list of steps.
- Whether the result endpoint answers 204 or a copy of the cluster, once it answers other than 202.
- Unexported struct fields, promoted fields and NaN as a map key in the immutable validator; the validated types have none of them.
- Installation.Install: models one call without interference; interleavings, lost leases and takeovers are covered by InstallerInterleaving.
- Rebalancing.Update: replica counts are unbounded integers, not int32, because the static validator limits them to 20; the write-back of the counts to the cluster is left out.
- AssetGraph.Graph.Resolve: a rank witnesses that the dependencies are acyclic; the library's graph is fixed at compile time.
- OrderedMap.MarshalJSON: encoding a value cannot fail in the model.
- shadowCopy in pkg/util/arm/marshal.go, Version.Lt in pkg/mirror/version.go, certificates and client authorization.
