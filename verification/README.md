# ArchiDEAL verification

A Dafny model of the parts of ArchiDEAL whose correctness depends on several
transactions, processes or requests at once, with proofs over every interleaving.

**Runtime operations of DEALHost.** API requests write a deployment row and queue an
operation in one transaction. Workers claim queued operations under an expiring lease, call
the runtime controller without holding a lock, and record what they learned in a second
transaction. `RuntimeModel`, `Controller`, `ComponentSync`, `Preconditions`,
`WorkerTransactions` and `ApiTransactions` define rows and transactions; `RuntimeProtocol`
composes them into a state machine with any number of workers, crashes, expired leases,
racing requests, clock skew between a transaction's `now` and its commit, and arbitrary
controller replies. `RuntimeInvariant` states the joint invariant, `RuntimeShapes`,
`RuntimeSafety`, `ApiSafety` and `RuntimeRuns` prove it for every step and run,
`RequestEffects` and `RecordingEffects` say column by column what requests and recordings leave
behind, and
`RuntimeTheorems`, `RequestTheorems`, `BoundedReconciliation`, `RuntimeProgress`,
`RuntimeExhaustion` and `RuntimeTombstones` draw the consequences.
`RuntimeStore` holds the same transactions as methods that update the tables in place; each has
the effect of the transaction the state machine uses and keeps the joint invariant. `LogTruncation` models the cut of
captured logs at the byte level of UTF-8 (section 3 of RFC 3629).

**Immutable publication.** `Releases` models publishing a version with its frozen catalogue
and deriving deployable releases from it, over any later edits, publications and lookups.

**Event ingestion of DEALData.** `EventIngestion` models racing ingesters over a table with
two partial unique keys; `KafkaConsumer` puts a consumer on top that commits offsets after
processing and may crash anywhere.

**Gateway routes.** `PublicPaths` gives the accepted paths and the overlap test a meaning in
terms of matched requests, `GatewayRoutes` models planning and publishing module routes, and
`RouteBootstrap` the reconciler that installs the fixed APISIX routes.

Times are integers in microseconds. SHA-256 digests and ETags of canonical JSON are values
that carry what they digest, so equal digests mean equal contents. Fresh identifiers and
lease tokens are inputs required to be unused.

Where documentation and code differ the model follows the code. Six statements that one
might expect are false of the code, and the model proves when they hold:

- Queued work cannot always be brought to an end: claims stop when an operation's attempts fill
  their 16-bit column (`LapsedLeasesWedge`, `QueueIsStuck`, `SettlesExactly`).
- A deleted deployment does not always show `deleted` (`FailedTombstone`, `DeletedExactly`).
- A lost ingestion race is not always answered as a duplicate (`RaceCanBeLost`,
  `LostRaceIsRejected`).
- A path outside every reserved prefix may still capture a longer reserved prefix
  (`CapturedPrefix`, `CapturesDeeperPrefixes`, `SystemPrefixIsFree`).
- Route identifiers of different modules may coincide, and then one route replaces the other
  (`TwinsShareARoute`, `RouteIdCollisions`, `BothAreInstalled`).
- A route listing without a total is read only up to its first page (`MissingTotal`).

## Model

| member | source | states |
|---|---|---|
| `RuntimeTheorems.ReachedIsSafe` | components/DEALHost/apps/hosting/models.py:222-426 | the joint invariant over both tables and all work in flight holds in every reachable state |
| `RuntimeTheorems.Convergence` | components/DEALHost/apps/hosting/runtime_worker.py:197-328 | a deployment is pending, reconciling or deleting exactly while one reconciling operation is queued or running, never two; otherwise it is failed or unknown, or observed generation and state match what is desired |
| `RuntimeTheorems.NewestOperationDecides` | components/DEALHost/apps/hosting/runtime_worker.py:282-328 | the newest operation wants what its deployment wants, and its status says what the deployment shows: queued or running while pending, reconciling or deleting; succeeded with the recorded state and generation; failed as failed or unknown |
| `RuntimeTheorems.GenerationLedger` | components/DEALHost/apps/hosting/runtime_views.py:655-685 | reconciling operations carry exactly the generations 1 to the current one, one each, and only the newest can be active |
| `RuntimeTheorems.ObservedGenerationAdvances` | components/DEALHost/apps/hosting/runtime_worker.py:549-562 | over any continuation the observed generation never falls and never passes the desired one, and a set controller id is kept |
| `RuntimeTheorems.LeaseFencing` | components/DEALHost/apps/hosting/runtime_worker.py:204-209 | once a token lost its lease, no recording made with it changes any row in any later state |
| `RuntimeTheorems.OneOutcomePerClaim` | components/DEALHost/apps/hosting/runtime_worker.py:86-118 | after a claim's recording committed, the same token records nothing more |
| `RuntimeTheorems.TerminalIsFinal` | components/DEALHost/apps/hosting/runtime_worker.py:427-504 | a succeeded or failed operation row is identical in every later state |
| `RuntimeTheorems.StaleGenerationIsHarmless` | components/DEALHost/apps/hosting/runtime_worker.py:132-136 | the stale-generation error is met only by a worker whose operation has already succeeded or failed; the row is the same in every later state and whatever the worker records is void |
| `RuntimeTheorems.CallsAreAddressed` | components/DEALHost/apps/hosting/runtime_worker.py:141-192 | every controller call of every worker names its own deployment with a non-empty valid identifier |
| `RuntimeTheorems.CallsFitRequests` | components/DEALHost/apps/hosting/runtime_worker.py:120-195 | in every reachable state each call is one that the request behind its operation asked for: a DELETE only for an undeployment, the power action that was named, the log query that was made, a status call first iff the operation was dispatched before |
| `RuntimeTheorems.HolderCalls` | components/DEALHost/apps/hosting/runtime_worker.py:120-195 | a worker that still holds its lease makes one call or two |
| `RuntimeRuns.LostUndeployIsRepeated` | components/DEALHost/apps/hosting/runtime_worker.py:147-162 | a second call follows iff a dispatched undeployment is unknown to the controller |
| `RuntimeTheorems.IdentityBinding` | components/DEALHost/apps/hosting/runtime_worker.py:528-546 | the controller id is empty or the row's own id, so no two rows share one |
| `RuntimeTheorems.Tombstones` | components/DEALHost/apps/hosting/models.py:288-305 | a deleted row never changes and has no active operation; an application has one undeleted deployment per environment |
| `RuntimeTheorems.DeletedExactly` | components/DEALHost/apps/hosting/runtime_worker.py:545-546 | in every reachable state a row shows `deleted` iff it has a deletion time and was wanted absent; a row deleted against its wish shows `failed` |
| `RuntimeTombstones.FailedTombstone` | components/DEALHost/apps/hosting/runtime_worker.py:309-314 | for every creation there is a run after which its deployment is deleted, failed and still wanted running |
| `RuntimeRuns.StepIsSafe` | components/DEALHost/apps/hosting/runtime_worker.py:86-195 | every step of workers, requests, crashes and time keeps the invariant and only advances rows |
| `RuntimeRuns.RunIsSafe` | components/DEALHost/apps/hosting/runtime_worker.py:86-195 | the same over whole runs, with the advance relation between first and last state |
| `RuntimeRuns.CallsAddressOwnObject` | components/DEALHost/apps/hosting/runtime_controller.py:67-140 | for a readable view, each call including the poll after a dispatch carries the deployment's id |
| `RuntimeRuns.OutcomesNameDeployment` | components/DEALHost/apps/hosting/runtime_controller.py:284-314 | a snapshot that reaches recording names the operation's own deployment, whatever the controller replied |
| `RuntimeSafety.ClaimIsSafe` | components/DEALHost/apps/hosting/runtime_worker.py:86-118 | a claim of any claimable row keeps the database invariant, rewrites exactly the lease, status, start, attempts and next attempt of its row, and changes no other row |
| `RuntimeSafety.SnapshotIsSafe` | components/DEALHost/apps/hosting/runtime_worker.py:197-328 | recording a snapshot keeps the database invariant and only advances rows, in each of its branches |
| `RuntimeSafety.ControllerFailureIsSafe` | components/DEALHost/apps/hosting/runtime_worker.py:427-474 | recording a controller failure keeps the invariant; a client error other than 408 and 429 or the fifth failure fails operation and deployment together with the error's text, any other failure requeues the operation after its delay |
| `RuntimeSafety.LogsAreSafe` | components/DEALHost/apps/hosting/runtime_worker.py:412-425 | completing a log capture keeps the invariant, ends its own operation as captured and touches no other row |
| `RuntimeSafety.RecordIsSafe` | components/DEALHost/apps/hosting/runtime_worker.py:197-504 | every recording, committed or rolled back, keeps the invariant |
| `RecordingEffects.SnapshotIsShown` | components/DEALHost/apps/hosting/runtime_worker.py:197-328 | under a held lease a snapshot is refused iff its generation is out of range or its reports do not fit; otherwise exactly two rows change and show the reported state, generation, message and components when it ends the operation, or only the poll and its deadline when it does not |
| `RecordingEffects.SyncAcceptsExactly` | components/DEALHost/apps/hosting/runtime_worker.py:330-376 | reports are taken over iff their slugs and images are those of the rows and their counts fit the 16-bit columns |
| `RecordingEffects.FaultIsNamed` | components/DEALHost/apps/hosting/runtime_worker.py:345-376 | the controller is at fault for a foreign slug or image, the store for a count beyond its columns |
| `RecordingEffects.ReplyDecides` | components/DEALHost/apps/hosting/runtime_controller.py:67-140 | what a reply to a well-formed call is taken for, with the status of a rejection kept |
| `RecordingEffects.FaultIsRecorded` | components/DEALHost/apps/hosting/runtime_worker.py:57-67 | after a recording that raised, a broken contract counts as one failure without a status and a store fault ends the operation |
| `RuntimeSafety.BackoffDoubles` | components/DEALHost/apps/hosting/runtime_worker.py:446-449 | the retry delay starts at one second, doubles with every attempt and stops at a minute |
| `ApiSafety.ConfigureIsSafe` | components/DEALHost/apps/hosting/runtime_views.py:256-321 | a reconfiguration keeps the invariant; accepted, it moves exactly its row by one generation and one revision and queues one operation for that generation, otherwise nothing changes |
| `ApiSafety.UndeployIsSafe` | components/DEALHost/apps/hosting/runtime_views.py:325-366 | the same for undeployment |
| `ApiSafety.ActionIsSafe` | components/DEALHost/apps/hosting/runtime_views.py:368-456 | the same for start, stop, restart and scale |
| `ApiSafety.LogRequestIsSafe` | components/DEALHost/apps/hosting/runtime_views.py:480-581 | a log request keeps the invariant and every deployment row; accepted, it adds exactly one queued log operation, otherwise nothing changes |
| `ApiSafety.CreateIsSafe` | components/DEALHost/apps/hosting/runtime_views.py:148-254 | creation keeps the invariant, with the first generation in the ledger |
| `ApiSafety.RequestIsSafe` | components/DEALHost/apps/hosting/runtime_views.py:148-581 | every request, whatever its headers and the race on its key, keeps the invariant |
| `RequestEffects.ActionDecides` | components/DEALHost/apps/hosting/runtime_views.py:368-456 | an action is accepted iff it fits an idle deployment, and then exactly its row and one queued operation are written: start wants it running, stop wants it stopped, scale sets one component, and kind and payload say the same |
| `RequestEffects.ActionRefusals` | components/DEALHost/apps/hosting/runtime_views.py:383-413 | which problem an admitted action meets, in the order of the tests |
| `RequestEffects.ConfigureDecides` | components/DEALHost/apps/hosting/runtime_views.py:256-321 | a reconfiguration is accepted iff it fits an idle deployment; the named columns are replaced and every component follows its policy |
| `RequestEffects.ConfigureRefusals` | components/DEALHost/apps/hosting/runtime_views.py:278-300 | which problem an admitted reconfiguration meets, in the order of the tests |
| `RequestEffects.UndeployDecides` | components/DEALHost/apps/hosting/runtime_views.py:325-366 | an undeployment is accepted iff the deployment is idle and not deleted, and then wants it absent |
| `RequestEffects.UndeployRefusals` | components/DEALHost/apps/hosting/runtime_views.py:339-350 | which problem an admitted undeployment meets |
| `RequestEffects.LogsDecide` | components/DEALHost/apps/hosting/runtime_views.py:480-581 | a log request is accepted iff it fits the deployment and its environment, and queues exactly its query |
| `RequestEffects.LogRefusals` | components/DEALHost/apps/hosting/runtime_views.py:500-560 | which problem an admitted log request meets, in the order of the tests |
| `RequestEffects.CreateDecides` | components/DEALHost/apps/hosting/runtime_views.py:148-254 | a creation is accepted iff key, revision, release and verdict allow it and no undeleted deployment exists; the new row and its components hold what was requested |
| `RequestEffects.CreateRefusals` | components/DEALHost/apps/hosting/runtime_views.py:148-228 | which problem a creation meets, in the order of the tests |
| `RequestEffects.AdmissionAnswers` | components/DEALHost/apps/hosting/runtime_views.py:688-772 | the early answers that requests on a deployment share: missing row, missing or malformed key, replay or conflict, disabled runtime, missing, malformed or stale If-Match |
| `RequestTheorems.OnlyAcceptanceWrites` | components/DEALHost/apps/hosting/runtime_views.py:655-714 | a refused or replayed request leaves every table as it was, lost key races included |
| `RequestTheorems.AcceptedNamedRevision` | components/DEALHost/apps/hosting/runtime_views.py:744-772 | an accepted request named the row's current revision, and an accepted mutation raised it |
| `RequestTheorems.RevisionIdentifiesRow` | components/DEALHost/apps/hosting/runtime_worker.py:229-240 | two states of a run that show one revision show the same row and components: every change raises the revision |
| `RequestTheorems.RequestActsOnReadRow` | components/DEALHost/apps/hosting/runtime_views.py:278-305 | a request accepted under the ETag of a row read earlier acts on exactly that row (section 13.1.1 of RFC 9110) |
| `RequestTheorems.OneMutationPerEtag` | components/DEALHost/apps/hosting/runtime_views.py:387-446 | of two mutations of one deployment with one If-Match at most one commits, whatever happens in between |
| `RequestTheorems.UsedKeyIsRefused` | components/DEALHost/apps/hosting/models.py:381 | no request is accepted under a key that some operation already carries |
| `RequestTheorems.KeyIsSpentOnce` | components/DEALHost/apps/hosting/runtime_views.py:688-714 | over any continuation a key creates no second operation and its operation keeps its request |
| `RequestTheorems.ReplayAnswers` | components/DEALHost/apps/hosting/runtime_views.py:688-714 | a request repeated any time after its acceptance is answered with the operation it created, another request under its key is refused, and neither changes a row |
| `RequestTheorems.AcceptedCarriesRequest` | components/DEALHost/apps/hosting/runtime_views.py:655-685 | the operation that an accepted request creates carries the hash of that request and its key |
| `RequestTheorems.ReleaseIsFixed` | components/DEALHost/apps/hosting/runtime_views.py:621-641 | in every state after its creation a deployment has exactly the components and images of the release it was created with |
| `RequestTheorems.SuccessCarriesOut` | components/DEALHost/apps/hosting/runtime_worker.py:565-592 | once the operation of an accepted request has succeeded and is the newest, its deployment shows what was asked: running or degraded after a start, stopped after a stop, deleted after a removal, at that generation |
| `RequestTheorems.StaleLeaseMetric` | components/DEALHost/apps/hosting/runtime_observability.py:92-99 | the stale-lease count is exactly the number of running operations that the claim query selects at that instant |
| `BoundedReconciliation.RunKeepsPace` | components/DEALHost/apps/hosting/runtime_worker.py:102-117 | in every run the recorded polls and retries of an operation are bounded by its age, its spacing and its failure count |
| `BoundedReconciliation.BoundedWork` | components/DEALHost/apps/hosting/runtime_worker.py:241-280 | under every schedule one operation has at most 900 recorded polls and 4 recorded retries |
| `RuntimeProgress.CountableWorkSettles` | components/DEALHost/apps/hosting/runtime_worker.py:86-118 | from every reachable state whose active operations can still be counted, and against every controller, workers that claim in order can settle every operation and deployment within five claims per active operation |
| `RuntimeExhaustion.SettlesExactly` | components/DEALHost/apps/hosting/models.py:392 | with no work in flight, everything can be settled against every controller iff for every active operation its attempts and remaining failures fit the 16-bit column |
| `RuntimeExhaustion.NeverEnds` | components/DEALHost/apps/hosting/runtime_worker.py:443-466 | against a controller that keeps failing, an operation that cannot be counted any more is active after every run of the workers |
| `RuntimeExhaustion.LapsedLeasesWedge` | components/DEALHost/apps/hosting/runtime_worker.py:102-117 | from every reachable state with an active operation, time, claims and workers that stop lead to a state that cannot be settled any more |
| `RuntimeExhaustion.QueueIsStuck` | components/DEALHost/apps/hosting/runtime_worker.py:86-118 | when the row that comes next cannot be counted and no work is in flight, workers never change the tables again |
| `RuntimeProgress.FinishOldest` | components/DEALHost/apps/hosting/runtime_worker.py:443-466 | against every controller the active operation requested first ends within the failures it has left, at most five claims, as long as these fit the attempts column; no other operation changes |
| `Controller.Validate` | components/DEALHost/apps/hosting/runtime_controller.py:284-346 | an accepted snapshot has a valid identifier equal to the expected one when there is one, distinct components, at most 100 of them, and a message of at most 500 characters |
| `Controller.AcceptsExactly` | components/DEALHost/apps/hosting/runtime_controller.py:284-404 | a reply is accepted iff each of its members is well-formed and it names the expected deployment |
| `Controller.ReplyIsRead` | components/DEALHost/apps/hosting/runtime_controller.py:284-404 | an accepted snapshot and its components say what the reply says, member by member |
| `Controller.StatesAreNamed` | components/DEALHost/apps/hosting/runtime_controller.py:15-25 | exactly nine state names are understood, each as its own state |
| `Controller.IdentifierIsUrlSafe` | components/DEALHost/apps/hosting/runtime_controller.py:274-281 | an identifier needs no quoting in a URL and is no dot segment |
| `Controller.UuidIsIdentifier` | components/DEALHost/apps/hosting/runtime_controller.py:274-281 | every deployment UUID passes the controller's identifier rule |
| `Controller.CollapsedIsTidy` | components/DEALHost/apps/hosting/runtime_controller.py:321 | collapsing white space keeps every word in order and leaves exactly one blank between two and none around them |
| `Controller.TidyStays` | components/DEALHost/apps/hosting/runtime_controller.py:400-403 | text that is already collapsed is left alone |
| `ComponentSync.ApplyComponents` | components/DEALHost/apps/hosting/runtime_worker.py:330-376 | the row-by-row loop equals the order-free account of refreshed rows and reports the earliest fault |
| `ComponentSync.SyncKeepsRelease` | components/DEALHost/apps/hosting/runtime_worker.py:330-376 | no snapshot changes the set of components or their images, and a check without mutation changes nothing |
| `Preconditions.ParsesExactlyItsEtag` | components/DEALHost/apps/hosting/runtime_views.py:744-772 | a header names a revision iff, up to surrounding blanks, it is that revision's ETag |
| `Preconditions.EtagRoundTrip` | components/DEALHost/apps/hosting/runtime_views.py:905-906 | an ETag handed out for one revision passes against another iff the revisions are equal |
| `Preconditions.ValueOfDecimal` | components/DEALHost/apps/hosting/runtime_views.py:905-906 | the decimal text of a revision reads back as that revision |
| `RuntimeStore.RuntimeStore.ClaimNext` | components/DEALHost/apps/hosting/runtime_worker.py:86-118 | the in-place claim takes the oldest claimable operation, none only if none is claimable, and raises without a trace only if that row's attempts are used up; it has the effect of the protocol's claim, keeps the joint invariant and only moves the tables forward |
| `RuntimeStore.RuntimeStore.RecordSnapshot` | components/DEALHost/apps/hosting/runtime_worker.py:197-328 | the in-place recording rolls back with its fault or leaves rows that show the snapshot column by column; under a lost lease nothing happens; it equals the protocol's transaction, keeps the joint invariant and only moves the tables forward |
| `RuntimeStore.RuntimeStore.CompleteLogs` | components/DEALHost/apps/hosting/runtime_worker.py:412-425 | the same for the end of a log capture |
| `RuntimeStore.RuntimeStore.RecordControllerFailure` | components/DEALHost/apps/hosting/runtime_worker.py:427-474 | the same for a controller failure, which is requeued or fails both rows under a held lease and is void otherwise |
| `RuntimeStore.RuntimeStore.RecordUnexpectedFailure` | components/DEALHost/apps/hosting/runtime_worker.py:476-504 | the same for an unexpected failure, which fails both rows with its own code and text under a held lease and is void otherwise |
| `RuntimeStore.RuntimeStore.CreateOperation` | components/DEALHost/apps/hosting/runtime_views.py:655-685 | inserts the operation, or restores the deployment rows when the key is taken |
| `RuntimeStore.RuntimeStore.Create` | components/DEALHost/apps/hosting/runtime_views.py:148-254 | tables and answer of a creation equal the protocol's, the joint invariant is kept and the tables only move forward |
| `RuntimeStore.RuntimeStore.Configure` | components/DEALHost/apps/hosting/runtime_views.py:256-321 | the same for a reconfiguration, which moves its row by one generation and revision or changes nothing |
| `RuntimeStore.RuntimeStore.Destroy` | components/DEALHost/apps/hosting/runtime_views.py:325-366 | the same for an undeployment, which moves its row by one generation and revision or changes nothing |
| `RuntimeStore.RuntimeStore.Actions` | components/DEALHost/apps/hosting/runtime_views.py:368-456 | the same for an action, which moves its row by one generation and revision or changes nothing |
| `RuntimeStore.RuntimeStore.LogRequests` | components/DEALHost/apps/hosting/runtime_views.py:480-581 | the same for a log request, which leaves every deployment row alone |
| `RuntimeStore.SyncComponentScaling` | components/DEALHost/apps/hosting/runtime_views.py:643-652 | the loop over component rows sets each desired count from the new policy, or fails iff a component has none |
| `RuntimeStore.CreateComponents` | components/DEALHost/apps/hosting/runtime_views.py:621-641 | the loop over release images yields one row per image, or fails iff an image has no scaling policy |
| `LogTruncation.HeadRoundTrip` | components/DEALHost/apps/hosting/runtime_worker.py:385-406 | decoding an encoded scalar value followed by anything gives that value and its length |
| `LogTruncation.CutDecodesToFitting` | components/DEALHost/apps/hosting/runtime_worker.py:385-406 | cutting encoded text at any byte and decoding with errors ignored gives the longest prefix that fits |
| `LogTruncation.CapturedLogsFit` | components/DEALHost/apps/hosting/runtime_worker.py:385-406 | stored content is a prefix of the lines, fits the clamped limit, wastes at most 3 bytes when cut, and is complete when not marked truncated |
| `LogTruncation.LimitIsClamped` | components/DEALHost/apps/hosting/runtime_worker.py:385-400 | a configured limit is taken as it is within the clamp and by the nearest end outside |
| `LogTruncation.JoinConcatenates` | components/DEALHost/apps/hosting/runtime_worker.py:385-388 | lines stay whole and in order with one newline between two |
| `Releases.BuildModules` | components/DEALHost/apps/hosting/runtime_release.py:179-257 | the loop succeeds iff every module is deployable and no id or slug repeats, and yields one entry per module in order with its id, slug, image, profile digest and specification |
| `Releases.ManifestDescribes` | components/DEALHost/apps/hosting/runtime_release.py:179-257 | there is a manifest iff the frozen catalogue belongs to the application and is deployable; it describes every reviewed module in its place |
| `Releases.PinnedExactly` | components/DEALHost/apps/hosting/runtime_release.py:19-22 | an image is pinned iff a repository name is followed by a SHA-256 digest in hexadecimal |
| `Releases.RunKeepsFrozen` | components/DEALHost/apps/hosting/runtime_release.py:107-176 | over any run no release changes, no frozen version changes, and each release is the manifest of its version's frozen catalogue |
| `Releases.ReleaseStability` | components/DEALHost/apps/hosting/runtime_release.py:50-87 | a lookup after any edits, publications and deployments returns nothing or the manifest that describes the catalogue at publication module by module, with valid and distinct slugs and pinned images |
| `Releases.LookupsAgree` | components/DEALHost/apps/hosting/runtime_release.py:50-87 | all successful lookups of a version return one manifest |
| `Releases.ManifestsDiffer` | components/DEALHost/apps/hosting/runtime_release.py:179-257 | two versions never have the same manifest digest |
| `Releases.VersionIsSpentOnce` | components/DEALHost/apps/hosting/versioning.py:27-81 | a version number is never published again with other notes or source, and a replay changes nothing |
| `Releases.PublishDecides` | components/DEALHost/apps/hosting/versioning.py:27-81 | when a publication is refused and, if not, the version row, current version and revision it leaves |
| `Releases.LegacyIsFrozen` | components/DEALHost/apps/hosting/runtime_release.py:107-143 | a version without a snapshot is frozen by its first lookup, with the catalogue of that moment |
| `Releases.TamperedIsRefused` | components/DEALHost/apps/hosting/runtime_release.py:146-176 | a version whose frozen catalogue and digest disagree is refused and left as it is |
| `Releases.StoredIsReturned` | components/DEALHost/apps/hosting/runtime_release.py:394-420 | a stored release is returned iff it is intact and permitted, and nothing is written |
| `Releases.ReleaseStore.PublishImmutableVersion` | components/DEALHost/apps/hosting/versioning.py:27-81 | the in-place publication equals the modelled one, keeps every release the manifest of its frozen catalogue and changes no release and no frozen version |
| `Releases.ReleaseStore.RuntimeReleaseFor` | components/DEALHost/apps/hosting/runtime_release.py:50-87 | the same for the in-place lookup, including what a refused lookup leaves behind |
| `EventIngestion.FindsExactlyConflicts` | components/DEALData/gps_layer/gps_data/ingestion.py:13-27 | the two-key lookup finds a row iff an insertion would violate a unique constraint |
| `EventIngestion.RacesAreResolved` | components/DEALData/dealdata_common/ingestion.py:38-54 | in every interleaving no two rows share a key, the second lookup never comes back empty, and a duplicate answer names a row that shares a key |
| `EventIngestion.FirstWriterWins` | components/DEALData/dealdata_common/ingestion.py:38-41 | in every interleaving an event that shares a key with a stored row is never inserted; re-sent under its event id, or without one under its hash, it is answered with the row stored first even if every other column differs; no row is ever removed or changed |
| `EventIngestion.AnswerIsDetermined` | components/DEALData/dealdata_common/ingestion.py:38-54 | whatever others do in between, a worker's answer is determined by the tables that its lookup, validation, insertion and second lookup meet |
| `EventIngestion.LostRaceIsRejected` | components/DEALData/dealdata_common/ingestion.py:42-47 | whatever steps others take between a worker's steps, its valid event ends rejected iff no row conflicted at its lookup and one did at its validation |
| `EventIngestion.RaceCanBeLost` | components/DEALData/dealdata_common/ingestion.py:42-47 | for every valid event there is an interleaving in which one worker stores it and another that brought it too is rejected |
| `EventIngestion.EventTable.Persist` | components/DEALData/dealdata_common/ingestion.py:26-54 | table and answer for every combination of rows that others commit between the steps, with the answer that the step system determines; it never raises |
| `KafkaConsumer.CrashSafe` | components/DEALData/dealdata_common/kafka.py:302-346 | after any polls, commits, crashes and replays the table is that of one pass over the handled prefixes, and committed offsets stay within them |
| `KafkaConsumer.RestartReplays` | components/DEALData/dealdata_common/kafka.py:302-346 | after a crash every partition is read again from its committed offset and nothing stored is undone |
| `KafkaConsumer.CommittedIsStored` | components/DEALData/dealdata_common/kafka.py:332-340 | every acceptable event below a committed offset has its key in the table |
| `KafkaConsumer.OnePartition` | components/DEALData/dealdata_common/kafka.py:302-346 | with one partition the table is that of one pass over a prefix of the log |
| `KafkaConsumer.HandledIsAbsorbed` | components/DEALData/dealdata_common/kafka.py:379-426 | ingesting a record handled before changes nothing, whatever came in between |
| `KafkaConsumer.Consumer.ProcessMessage` | components/DEALData/dealdata_common/kafka.py:379-426 | the persistence workflow without rivals inserts, repeats or refuses as the pure account says |
| `KafkaConsumer.Consumer.ConsumeBatch` | components/DEALData/dealdata_common/kafka.py:310-346 | one iteration follows the protocol's poll, process and commit steps; the three counts are exact and add up to the records handled |
| `PublicPaths.AcceptsCanonicalPaths` | components/DEALHost/apps/gateway/services.py:182-204 | a value is accepted as a path iff that path is canonical and the value is it with any number of trailing slashes |
| `PublicPaths.AcceptedIsStable` | components/DEALHost/apps/gateway/services.py:182-204 | validation is idempotent |
| `PublicPaths.OverlapIsSharedRequest` | components/DEALHost/apps/gateway/services.py:207-210 | two paths overlap iff some request is matched by both routes, case aside |
| `PublicPaths.FoldsLetters` | components/DEALHost/apps/gateway/services.py:207-218 | two characters fold to one iff they are equal or the two cases of one ASCII letter |
| `PublicPaths.ReservedCheckIsOneWay` | components/DEALHost/apps/gateway/services.py:213-218 | a path that passes a reserved prefix shares a request with it iff the prefix lies strictly below the path |
| `PublicPaths.CapturedPrefix` | components/DEALHost/apps/gateway/services.py:677-680 | a concrete accepted path whose route captures a reserved prefix |
| `PublicPaths.SingleSegmentIsSafe` | components/DEALHost/apps/gateway/services.py:162-170 | a reserved prefix of one segment is never captured by a path that passes it |
| `GatewayRoutes.FindConflict` | components/DEALHost/apps/gateway/services.py:667-675 | skipping paths already met up to case never changes which conflict is reported first, or that there is none |
| `GatewayRoutes.ValidateRoutePath` | components/DEALHost/apps/gateway/services.py:633-681 | the loops decide as the declarative account, with the same error in the same precedence |
| `GatewayRoutes.PathIsAcceptedExactly` | components/DEALHost/apps/gateway/services.py:633-681 | a value is accepted as a module's path iff it is free beside every bootstrap route and every other enabled module and under no reserved prefix |
| `GatewayRoutes.ReservedExactly` | components/DEALHost/apps/gateway/services.py:621-631 | the reserved prefixes are the built-in ones, the configured ones and the script name if there is one |
| `GatewayRoutes.RoutedHasRow` | components/DEALHost/apps/gateway/services.py:740-770 | a route is planned only for an enabled catalogue row; its patterns, name, prefix, approved upstream host and port and headers are determined column by column; a module with only a bootstrap default never gets one |
| `GatewayRoutes.UnroutedExactly` | components/DEALHost/apps/gateway/services.py:747-764 | when a module is refused as no slug, switched off or unknown, and when it is skipped |
| `GatewayRoutes.RoutesAreDisjoint` | components/DEALHost/apps/gateway/services.py:723-824 | planned routes of two modules on one catalogue never serve the same request |
| `GatewayRoutes.BootstrapIsDisjoint` | components/DEALHost/apps/gateway/services.py:642-651 | a planned route serves no request of any bootstrap route, its own module's included |
| `GatewayRoutes.SystemPrefixIsFree` | components/DEALHost/apps/gateway/services.py:621-631 | a planned route serves nothing under a built-in reserved prefix |
| `GatewayRoutes.CapturesDeeperPrefixes` | components/DEALHost/apps/gateway/services.py:677-680 | a planned route serves a request under a reserved prefix, built-in or configured, iff the prefix lies strictly below its path |
| `GatewayRoutes.RouteIdCollisions` | components/DEALHost/apps/gateway/services.py:95-98 | two slugs share a route id iff one is the other, not yet prefixed itself, behind "module-" |
| `GatewayRoutes.TwinsShareARoute` | components/DEALHost/apps/gateway/services.py:95-98 | for every slug without the prefix there is a catalogue on which it and its prefixed twin are both planned, under one route id and with different payloads |
| `GatewayRoutes.BothAreInstalled` | components/DEALHost/apps/gateway/services.py:881-886 | after two modules are published on one catalogue the gateway holds both routes iff their slugs do not collide |
| `GatewayRoutes.PreviewIsHonoured` | components/DEALHost/apps/gateway/services.py:853-889 | a publication under a preview's ETag goes through iff the plan is unchanged, and then uses exactly the previewed payload |
| `GatewayRoutes.Gateway.PublishRoute` | components/DEALHost/apps/gateway/services.py:826-889 | the gateway changes only by the planned route and only when nothing was refused, skipped or a dry run; a missing, malformed or stale preview header is refused with its own error |
| `GatewayRoutes.Gateway.PublishBoth` | components/DEALHost/apps/gateway/services.py:826-889 | two publications that were sent leave both routes on the gateway iff the slugs do not collide, and no request is served by both |
| `RouteBootstrap.InstalledManagedIds` | deploy/apisix/bootstrap.py:74-107 | the page loop ends, finds every managed id when totals are reported and those of the first page otherwise, and fails iff a consulted page fails |
| `RouteBootstrap.EntryIsNamed` | deploy/apisix/bootstrap.py:90-100 | an entry is known by the id it carries or else by what follows the last slash of its key |
| `RouteBootstrap.MissingTotal` | deploy/apisix/bootstrap.py:102-107 | without a total, the listings of all stores of a given size are read completely iff that size fits one page |
| `RouteBootstrap.ReconcilesFully` | deploy/apisix/bootstrap.py:110-119 | installing, then deleting what a complete listing shows as stale, gives the reconciled store |
| `RouteBootstrap.ReconciledIsExact` | deploy/apisix/bootstrap.py:122-145 | managed routes are exactly the desired ones with their payloads, every other route is as before |
| `RouteBootstrap.AcceptableExactly` | deploy/apisix/bootstrap.py:122-132 | a route file is acceptable iff it names at least one route, each once and under the reserved prefix |
| `RouteBootstrap.Recovers` | deploy/apisix/bootstrap.py:122-145 | the target store depends only on the unmanaged routes and is its own target |
| `RouteBootstrap.Gateway.RemoveStale` | deploy/apisix/bootstrap.py:110-119 | deletes exactly the stale routes, in any order, touching no unmanaged route even when a request raises |
| `RouteBootstrap.Gateway.Bootstrap` | deploy/apisix/bootstrap.py:122-145 | refuses a bad route file untouched, keeps unmanaged routes under every failure, and ends in the reconciled store when listings are complete |
| `RouteBootstrap.Gateway.BootstrapAgain` | deploy/apisix/bootstrap.py:122-145 | however a first bootstrap ended, a finished second one leaves the reconciled store, and after a finished first one it changes nothing |

## Left out

- HTTP transport, TLS, serializers, JSON decoding, caches, metrics servers and health endpoints: only state changes and chosen outcomes are modelled.
- Serializer validation of configuration, secrets and scaling, the review of a profile's specification, the environment policy and the upstream policy are parameters that accept or refuse.
- The log snapshot cache entry lies outside the lease fence and is not modelled; only the operation row and the truncation are.
- The document sent to the controller with a deployment, update, action or undeployment call is not modelled, only which call is made for which request and to whom.
- Progress texts, actor labels and the worker name on a lease do not influence any decision and are dropped.
- Generations and revisions are unbounded numbers; the source keeps them in 64-bit columns.
- LogTruncation.CapturedLogsFit: texts are sequences of Unicode scalar values; lone surrogates are left out.
- BoundedReconciliation.BoundedWork: counts recorded outcomes only, because a crash between claim and recording leaves no record.
- Releases.ReleaseStability: administrative edits of version and release rows are not among the steps.
- EventIngestion.EventTable.Persist: the table is a sequence of rows, so the generated row keys and their order by time are not modelled.
- KafkaConsumer.CrashSafe: one consumer owns all partitions and starts at the beginning of a partition without a committed offset, which is the `earliest` setting; the `latest` and `none` settings, rebalancing among several consumers and other writers of the table are not modelled.
- GatewayRoutes.PreviewIsHonoured: a PUT that fails at the gateway after the preview matched is not modelled.
- PublicPaths.OverlapIsSharedRequest: case folding is that of ASCII, which accepted paths consist of.
- RouteBootstrap.Gateway.Bootstrap: waiting for the Admin API and installing plugin metadata happen before any route is touched and are left out.
- The sensor layer's ingestion has the same shape as the GPS layer's and would only repeat it.
- The MQTT bridge, repository discovery, OIDC authentication, Django admin, the React interface, Kubernetes rendering and the release validation scripts are left out.
- Of the worker's metrics only the stale-lease count is modelled; the other gauges are plain row counts by status and state.
