# Floria verification

A Dafny model of the parts of Floria that decide whether data or approvals can be lost: the outbound
record sync protocol, the inbound checkpoint, the vault lifecycle history, the authorization agent
with its prompt queue, and policy compilation. `dafny verify dfyconfig.toml` checks everything.

## How it is laid out

| files | what they model |
|---|---|
| `Prelude`, `Selection`, `Order`, `Text`, `Base64`, `Records` | shared values: results, permutations, stable sorting, identifiers, base 64, records |
| `RecordCodec`, `Planner`, `Resolver` | one commit as records, the next action, the meaning of a finished batch |
| `RecordReading`, `SendReports`, `InboundContents` | the same over field values, batch entries and error codes alone, with every name and limit written out |
| `CloudServer`, `SyncProtocol`, `SyncTheorems` | any number of devices against one server, and the protocol theorems |
| `RefusedCommits`, `Resending`, `SyncExamples` | what becomes of a refused commit, handling reports of stored or held batches, concrete runs |
| `OutboundLoop`, `OutboundTheorems`, `OutboundSuccess` | the loop of one manual sync, its measure, and when it succeeds |
| `SessionState`, `Checkpoint`, `EventHandler`, `Inbound` | staging, engine tokens, durable checkpoints, event handlers and `syncNow` over the real fields, the batch for the daemon |
| `BootstrapCodec`, `BootstrapSnapshot`, `BootstrapCoordinator` | lifecycle records, snapshots, and the coordinator of the lifecycle history |
| `LifecycleReading`, `SnapshotReading` | the lifecycle format over field values alone, and when snapshots can be flattened and rebuilt |
| `LifecycleServer`, `LifecycleHistory` | lifecycle records on the shared server, and the append-only history over whole runs |
| `Policy`, `Agent`, `AgentHistory`, `AgentGrants`, `PromptQueue` | authorization threads, grants, what justifies an allow or a denial, what is remembered and for how long, prompts |
| `ManagedRules`, `RuleCompilation`, `PolicyMode` | catalog policy, rules, the daemon-wide mode |

Large components enter the protocol proofs as function values with laws (`Transport`, `Judge`, `Wire`):
each law is proved of the real component and used without unfolding it.

## Modelling decisions

- The server is a map from record id to tagged record, with create-only and tag-checked saves, fresh
  tags, no deletion, and atomic or per-record batches. Requests may be served late or repeatedly, and
  reports may be partial or lost. A batch that names a record twice is refused.
- Files are a path with the size and digest of their bytes. The daemon's object store is
  content-addressed, so a digest fixes the size.
- The daemon's outbound batch is the oldest eight commits with one asset per digest
  (crates/floria-replication/src/sync_control.rs:536-792); settling removes a commit.
- Sorted listings of conflicting entities and record ids are kept as sets; error texts are dropped.
- Swift strings compare by Unicode scalars here; all compared identifiers are ASCII.
- An engine token is represented by the changes and documents it stands behind. Pages arrive only while
  changes are fetched, and a fetch returns normally only after "did fetch".
- A head the engine delivered counts as handled when the saved head cache holds the delivered version or
  one learned later; every other change counts as handled when the daemon applied it. The checkpoint
  handlers key the head cache by record id, which the codec's name check ties one-to-one to the entity id.
- The handler of "did fetch" prepares the staged records with the real preparation; whether the daemon
  accepts a prepared batch is a parameter.
- In a lifecycle run the server is a `Server` value that any device writes to, with batches of new lifecycle
  records and of records under other names. `LifecycleServer.EntityRecordsAreApart` and
  `LifecycleServer.LifecycleRecordsAreNew` show that this is all a device builds.
- A refused atomic batch reports the offending records with their own errors and the others as rolled back
  (`CloudServer.ReportsRefusal`).
- The events of one engine call are handled one after the other. A fetch that does not end is an engine error. One
  send with the handling of its report is a single step of `syncNow`.
- One checkpoint write, one handled event and one locked section of the agent are single steps.
- The daemon's validation of a snapshot returns one with the same records or fails
  (crates/floria-replication/src/sync_control.rs:431-438).
- Globs are modelled for plain ids: `surfaces/**` and `items/<id>/**` match by prefix, and an escaped
  path matches exactly.

## Where the code does less than one might hope

- An account reset that arrives while only a pending retry is recorded is masked, because the first
  failure wins and the next sync forgets a pending retry. Checkpoints are safe if and only if this does not
  happen with something at stake: `Checkpoint.NextKeeps` and `Checkpoint.MaskedResetLosesRecords`.
  CloudSyncService.swift:487-495 discards the session after any error, and then every checkpoint is safe:
  `Checkpoint.DiscardingMakesSafe`.
- The generation check and the grant insert are two steps, so a clear between them is outlived:
  `Agent.StaleGrantIsReachable`. `AgentHistory.ClearIsOutlivedIff` gives the exact condition at the moment
  of the clear. Joined, the two steps leave no such grant.
- A rolled-back head is always damage, so a refused commit takes the conflict branch if and only if some head
  lost its swap, no head would have been accepted and every other refused record is exactly the server's
  (`RefusedCommits.ConflictBranchIff`). A commit with only some heads stale ends in an error;
  `SyncExamples.PartlyStaleIsReachable` reaches that with three devices.
- A commit that landed while its report was lost is settled as a conflict once the device has learned the head
  its own commit made: `SyncTheorems.LandedCommitPlan` gives the exact condition and
  `SyncExamples.LandedCommitInConflict` a run.
- Re-encoding lifecycle records lower-cases a device id written in upper case; equality is up to the
  decoded document, and literal exactly for well-spelled records.

## Model

| member | source | states |
|---|---|---|
| `SyncTheorems.NoLostUpdate` | app/Sources/floria-menubar/CloudRecordCodec.swift:110-161 | In every run of any number of devices, each change of a server record is the serving of a sent batch, and whichever batch it is: a head moves only to a revision of that batch's own commit which names the old revision among its expected heads; a head is created only by such a revision that expects none; every other record is only ever created |
| `SyncTheorems.CachedHeadsAreHistory` | app/Sources/floria-menubar/CloudRecordSyncCoordinator.swift:85-95 | Every head a device caches or has checkpointed is, tag and content, a version the server itself held earlier in the run |
| `SyncTheorems.ObjectsBeforeCommits` | app/Sources/floria-menubar/CloudOutboundPlanner.swift:14-49 | In every reachable state each commit record on the server is the record of the sent commit whose batch created it, and every object that commit lists is on the server with the asset's own digest and size, across restarts, resets, lost and late reports and collision re-fetches |
| `SyncTheorems.ObjectsBeforeSending` | app/Sources/floria-menubar/CloudOutboundPlanner.swift:14-49 | From the moment a commit or its conflict branch is sent, all objects it lists are on the server, and they stay there |
| `SyncTheorems.SettlementIsSound` | app/Sources/floria-menubar/CloudRecordSyncSession.swift:274-359 | A settled commit, accepted or in conflict, has its manifest and all revisions on the server unchanged, then and ever after; an accepted one also saw each of its heads carry its revision |
| `SyncTheorems.OutboxShrinksBySettlement` | app/Sources/floria-menubar/CloudRecordSyncSession.swift:316-358 | A commit leaves a device's outbox only in a step that logs a settlement of its commit id |
| `SyncTheorems.LeavesBySettlementOfItself` | app/Sources/floria-menubar/CloudRecordSyncSession.swift:316-358 | When commit ids are never used twice, it is the settlement of that very commit |
| `SyncTheorems.ConflictBranchTouchesNoHead` | app/Sources/floria-menubar/CloudRecordSyncSession.swift:94-96 | Whatever the server does with a conflict-branch request, it creates records and changes no head |
| `RefusedCommits.ConflictBranchIff` | app/Sources/floria-menubar/CloudSentBatchResolver.swift:13-157 | A refused commit ends, in every dictionary order, in the conflict branch for exactly the entities that lost their swap if and only if some head lost it, none would have been accepted and every other refused record is exactly the server's; it counts as published if and only if the server holds exactly all of it; otherwise it is an error |
| `RefusedCommits.PartlyStaleCommitFails` | app/Sources/floria-menubar/CloudSentBatchResolver.swift:99-108 | A commit with a refused record and an acceptable head writes nothing and ends the sync in an error in every dictionary order |
| `SyncExamples.PartlyStaleIsReachable` | app/Sources/floria-menubar/CloudSentBatchResolver.swift:99-108 | Such a commit is reachable: three devices, one of which moved one of its two heads |
| `SyncTheorems.LandedCommitPlan` | app/Sources/floria-menubar/CloudRecordCodec.swift:118-152 | A commit whose own revisions may already be the heads is sent again whole as long as no cached head carries its revision, and goes to the conflict branch, for exactly those entities, when one does |
| `SyncExamples.LandedCommitInConflict` | app/Sources/floria-menubar/CloudRecordCodec.swift:130-135 | A run in which the only commit is settled as a conflict while the server's head carries its revision |
| `Resending.ResendIsHarmless` | app/Sources/floria-menubar/CloudSentBatchResolver.swift:64-92 | Resending a batch the server already holds exactly changes no record, and handling its report succeeds in every dictionary order, with object collisions reported with or without their assets |
| `Resending.HandlingSucceeds` | app/Sources/floria-menubar/CloudRecordSyncSession.swift:274-359 | When every record was saved or collides with exactly itself, handling the report succeeds: at once, or after exactly the missing assets were fetched and the report resolved again |
| `SyncTheorems.FloriaIsSound` | app/Sources/floria-menubar/CloudOutboundPlanner.swift:14-49 | The real codec, planner and collision rules satisfy every law the protocol proofs rest on |
| `SyncProtocol.StepKeeps` | app/Sources/floria-menubar/CloudRecordSyncSession.swift:241-378 | Every step (local commit, send, serve, collision fetch, report, settlement, head fetch, checkpoint, restart, reset) keeps the protocol invariant |
| `SyncProtocol.StepMoves` | app/Sources/floria-menubar/CloudRecordCodec.swift:118-152 | A step that changes a record is the serving of a request, and creates the record or moves a head by a swap that this request's own commit asked for |
| `SyncProtocol.HeldWasServed` | app/Sources/floria-menubar/CloudRecordSyncCoordinator.swift:85-95 | A version on record was the server's current version at some earlier point of the run |
| `Resolver.ResolveReads` | app/Sources/floria-menubar/CloudSentBatchResolver.swift:13-138 | For every dictionary order the walk has the class, heads, entities and collisions of one order-free reading of the set of reports |
| `Resolver.ResolveIsOrderFree` | app/Sources/floria-menubar/CloudSentBatchResolver.swift:38-157 | Any two dictionary orders give one outcome class with the same heads or entity ids; damaged and thrown count as one failure |
| `Resolver.ConflictsKnown` | app/Sources/floria-menubar/CloudSentBatchResolver.swift:140-157 | In a commit phase every conflict the walk can meet was found by the pre-pass, which fixes the rolled-back-record guard |
| `Resolver.AcceptedBatch` | app/Sources/floria-menubar/CloudSentBatchResolver.swift:44-110 | A batch is accepted only when each record was reported saved or the server was found to hold exactly it |
| `Resolver.AcceptedHeads` | app/Sources/floria-menubar/CloudSentBatchResolver.swift:52-56 | The heads of an accepted commit are records of the report itself, filed under the entity they decode to |
| `Resolver.AcceptedLifecycle` | app/Sources/floria-menubar/CloudSentBatchResolver.swift:46-51 | A lifecycle batch is accepted only when the report shows the server's record for each sent one, byte for byte |
| `Resolver.RolledBackHeadFails` | app/Sources/floria-menubar/CloudSentBatchResolver.swift:99-108 | A report in which a head was only rolled back with its batch fails, in every dictionary order |
| `Resolver.AtomicCommitHeadConflicts` | app/Sources/floria-menubar/CloudSentBatchResolver.swift:140-157 | The pre-pass loop computes the set of lost swaps, and throws exactly when a collision cannot be classified |
| `Resolver.ResolveBatch` | app/Sources/floria-menubar/CloudSentBatchResolver.swift:13-138 | The loops compute the resolution, whose class is the order-free meaning of the report; the `SendReports` rows say, with the codes written out, which reports give which outcome |
| `SendReports.MalformedReport` | app/Sources/floria-menubar/CloudSentBatchResolver.swift:18-36 | A report that repeats an id or names a record never sent is damaged; else one that omits a sent record is retried; and only these are decided before the walk |
| `SendReports.PassingErrorsRetry` | app/Sources/floria-menubar/CloudSentBatchResolver.swift:93-98 | A complete report with readable saves whose failures all carry one of the eight passing codes, at least one of them deciding, is retried, in every order |
| `SendReports.OtherErrorsFail` | app/Sources/floria-menubar/CloudSentBatchResolver.swift:99-110 | Any other code, and a rollback without a lost swap, ends the sync, in every order |
| `SendReports.LifecycleAcceptedIff` | app/Sources/floria-menubar/CloudSentBatchResolver.swift:44-92 | A complete report of a lifecycle batch is accepted if and only if every record was saved as sent or collides with its own document |
| `CloudServer.RecordByRecord` | app/Sources/floria-menubar/CloudSentBatchResolver.swift:196-203 | Objects and conflict branches are saved record by record, so a refused record never stops the others |
| `Planner.AcceptedCollision` | app/Sources/floria-menubar/CloudOutboundPlanner.swift:72-120 | A collision counts as already saved only between records of one identity and type with equal payload, for objects with the exact bytes |
| `Planner.ConflictingCollision` | app/Sources/floria-menubar/CloudOutboundPlanner.swift:104-117 | Only a head with another revision text is an ordinary conflict |
| `RecordCodec.DecodeChecksIdentity` | app/Sources/floria-menubar/CloudRecordCodec.swift:163-214 | A record decodes only under the type and name its own fields determine |
| `RecordCodec.IdentityInjective` | app/Sources/floria-menubar/CloudRecordCodec.swift:216-218 | Record names determine kind and stable id |
| `RecordCodec.ObjectRoundTrip` | app/Sources/floria-menubar/CloudRecordCodec.swift:55-74 | Decoding a built object record gives back digest, size and file |
| `RecordCodec.CommitRoundTrip` | app/Sources/floria-menubar/CloudRecordCodec.swift:76-85 | Decoding a built commit record gives the lower-cased id and the same manifest bytes |
| `RecordCodec.RevisionRoundTrip` | app/Sources/floria-menubar/CloudRecordCodec.swift:87-100 | Decoding a built revision record gives the lower-cased ids and the same envelope bytes |
| `RecordCodec.PlanRevisions` | app/Sources/floria-menubar/CloudRecordCodec.swift:114-152 | One pass fills exactly the heads to save, the entities to fetch and the entities in conflict of the independent per-revision plans |
| `RecordCodec.PlanCommit` | app/Sources/floria-menubar/CloudRecordCodec.swift:110-161 | Over the commit and the cache alone: with every id a UUID and every cached head to be replaced decodable, the plan is a conflict for exactly the cached entities whose head may not be replaced, whatever else is missing; else a fetch of exactly the uncached entities with expected heads; else the immutable records with one head per revision, or the encoding error |
| `RecordCodec.CommitPlanMeans` | app/Sources/floria-menubar/CloudRecordCodec.swift:110-161 | The planned commit, as a function, has that meaning for every commit and cache |
| `RecordCodec.PlanHeadMeans` | app/Sources/floria-menubar/CloudRecordCodec.swift:118-152 | One revision can be planned exactly when its ids are UUIDs and the head it replaces decodes; it conflicts, lacks its head or saves one exactly as cache and expected heads say, and a saved head is the cached record with only its revision changed |
| `RecordReading.DecodeIff` | app/Sources/floria-menubar/CloudRecordCodec.swift:163-214 | A record decodes to a value if and only if it spells that value out: zone, version 1, type, name, UUID or digest fields and payload, each written out |
| `RecordReading.ObjectBuilt` | app/Sources/floria-menubar/CloudRecordCodec.swift:55-74 | An object becomes a record exactly for a lower-case digest, a size below 2^63 and an absolute path; the record spells the object, has no other field and no tag |
| `RecordReading.ImmutableBuilt` | app/Sources/floria-menubar/CloudRecordCodec.swift:76-103 | A commit can be encoded exactly when its ids are UUIDs and its payloads decode and are not empty; the manifest comes first, then each revision in order |
| `RecordReading.UuidIff` | app/Sources/floria-menubar/CloudRecordCodec.swift:311-317 | The accepted ids are exactly 36 characters with four dashes and hexadecimal digits in either case |
| `RecordReading.NextActionMeans` | app/Sources/floria-menubar/CloudOutboundPlanner.swift:14-49 | For every batch: idle exactly without commits; otherwise the first 250 missing objects in order, then the first commit by the meaning of its plan, refused beyond 250 records, with its heads fetched under their written-out names or its conflict branch saved |
| `RecordReading.ClassifyIff` | app/Sources/floria-menubar/CloudOutboundPlanner.swift:72-120 | Every collision: another name or type is damage, an undecodable record an error, heads agree or conflict by revision text, anything else agrees by payload and checked bytes or is damage |
| `SyncTheorems.BatchMeans` | crates/floria-replication/src/sync_control.rs:536-553 | The outbound batch is the eight oldest commits, or all of fewer, with every object they need, one per digest |
| `SyncProtocol.SettledOut` | crates/floria-replication/src/sync_control.rs:556-598 | Settling removes the commits of the settled id and no other |
| `Base64.RoundTrip` | app/Sources/floria-menubar/CloudRecordCodec.swift:293-298 | Decoding the encoding of any byte string gives it back (section 4 of RFC 4648) |
| `Base64.DecodableIff` | app/Sources/floria-menubar/CloudRecordCodec.swift:293-298 | A text decodes if and only if it is letters of the alphabet with at most two padding signs that fill the last group of four, and the padding gives the length of the payload |
| `OutboundLoop.SendLowers` | app/Sources/floria-menubar/CloudRecordSyncSession.swift:274-359 | With no other writer, handling the report of a planned batch throws or lowers (outbox length, unverified objects, stale heads) lexicographically, for every honest server answer |
| `OutboundLoop.FetchLowers` | app/Sources/floria-menubar/CloudRecordSyncSession.swift:368-378 | A head fetch lowers the third component and leaves the others |
| `OutboundLoop.LostSwapIsStale` | app/Sources/floria-menubar/CloudRecordSyncSession.swift:333-346 | A head that lost its swap was cached in another version than the server's |
| `OutboundLoop.GatheredHeads` | app/Sources/floria-menubar/CloudRecordSyncSession.swift:334-344 | The heads merged after a conflict are server copies from the report, and every lost swap is among them |
| `OutboundLoop.GatherHeads` | app/Sources/floria-menubar/CloudRecordSyncSession.swift:334-344 | The loop gathers exactly those heads, and throws exactly when one does not decode |
| `OutboundLoop.OutboundSession.MarkObjectsVerified` | app/Sources/floria-menubar/CloudRecordSyncCoordinator.swift:45-52 | The verified set grows by exactly the digests of the decoded objects |
| `OutboundLoop.OutboundSession.FetchHeads` | app/Sources/floria-menubar/CloudRecordSyncSession.swift:368-400 | The cache is overlaid with the server's current heads for exactly the requested ids; a missing or undecodable record throws and changes nothing |
| `OutboundLoop.OutboundSession.Act` | app/Sources/floria-menubar/CloudRecordSyncSession.swift:316-358 | Acts in place on a resolution: verify, merge and settle, settle, merge conflict heads, or fail; a failure never takes a commit out of the outbox |
| `OutboundLoop.OutboundSession.Send` | app/Sources/floria-menubar/CloudRecordSyncSession.swift:241-314 | Serves, resolves, completes object collisions once, resolves again and acts |
| `OutboundLoop.OutboundSession.Pass` | app/Sources/floria-menubar/CloudRecordSyncSession.swift:87-108 | One pass is idle with an empty outbox, an error that leaves the outbox alone, or lowers the measure; it fails exactly when the plan, the head fetch or the handled send does, and otherwise has exactly their effect |
| `OutboundLoop.OutboundSession.Drain` | app/Sources/floria-menubar/CloudRecordSyncSession.swift:87-108 | The loop ends whatever the server answers, and without an error only with an empty outbox; from any set of states in which every pass succeeds and stays, it ends without an error |
| `OutboundTheorems.FloriaLoopSound` | app/Sources/floria-menubar/CloudOutboundPlanner.swift:14-49 | The real planner satisfies the loop's laws: each action names unverified objects, uncached heads or heads tagged as cached |
| `OutboundSuccess.SyncOutbox` | app/Sources/floria-menubar/CloudRecordSyncSession.swift:87-108 | The loop with the real components ends, and without an error only with an empty outbox. Against a server that answers in full it does succeed when the cache agrees with the server, the waiting commits can be encoded, none of their records is there yet, and each head to be replaced exists or an earlier commit of its own brings it |
| `OutboundSuccess.PlanSends` | app/Sources/floria-menubar/CloudOutboundPlanner.swift:14-49 | Under that condition the plan never fails and never fetches: it sends distinct object records, or a first commit whose records the server all accepts, or its conflict branch |
| `OutboundSuccess.ClearPass` | app/Sources/floria-menubar/CloudRecordSyncSession.swift:87-108 | Under that condition every pass succeeds and keeps the condition |
| `Checkpoint.CheckpointsAreSafe` | app/Sources/floria-menubar/CloudRecordSyncSession.swift:111-183 | In every event sequence with failing pages, failing application, resets and restarts, the durable token covers only changes the daemon applied, heads whose delivered or a later learned version the saved cache holds, and lifecycle documents of the history saved with it |
| `Checkpoint.DiscardingMakesSafe` | app/Sources/floria-menubar/CloudSyncService.swift:487-495 | The same without any condition on account resets when no sync starts in a session with a recorded failure |
| `Checkpoint.RestartSkipsNothing` | app/Sources/floria-menubar/CloudRecordSyncSession.swift:29-57 | In either case, what a restarted engine will not deliver again was applied, is in the restored head cache in that or a later version, or is in the restored history |
| `Checkpoint.OverlayLast` | app/Sources/floria-menubar/CloudRecordSyncCoordinator.swift:85-91 | Of several head versions merged under one id the last stands |
| `Checkpoint.OverlayKeeps` | app/Sources/floria-menubar/CloudRecordSyncCoordinator.swift:85-91 | A head that is not among the merged ones keeps its version |
| `Checkpoint.NextKeeps` | app/Sources/floria-menubar/CloudRecordSyncSession.swift:111-220 | Every event keeps the invariant, an account reset provided it is sticky or has nothing to lose |
| `Checkpoint.MaskedResetLosesRecords` | app/Sources/floria-menubar/CloudRecordSyncSession.swift:122-137 | The condition is exact: from any reachable state where a reset is masked by a pending retry and something is at stake, four events lead to an unsafe checkpoint |
| `Checkpoint.MaskedResetIsReachable` | app/Sources/floria-menubar/CloudRecordSyncSession.swift:352-354 | Such a state is reached by fetching one document and meeting a transient send failure |
| `EventHandler.Session.StateUpdate` | app/Sources/floria-menubar/CloudRecordSyncSession.swift:114-120 | Over the real actor: a token is ignored after a failure, kept in memory during a fetch and saved with heads and history otherwise, as one step of the checkpoint machine |
| `EventHandler.Session.AccountChanged` | app/Sources/floria-menubar/CloudRecordSyncSession.swift:122-137 | Signing out and switching accounts always clear cell, head cache, history, staging and token and record the failure; signing in does so exactly when the session started from a checkpoint, and otherwise changes nothing |
| `EventHandler.Session.WillFetch` | app/Sources/floria-menubar/CloudRecordSyncSession.swift:148-153 | Begins a fetch or records damage, as one step of the machine |
| `EventHandler.Session.FetchedPage` | app/Sources/floria-menubar/CloudRecordSyncSession.swift:142-146 | Over the real coordinator and actor: lifecycle records are staged apart from entity records, partial failures included, as one step of the machine; the page fits exactly when it deletes no lifecycle record and its lifecycle records decode and contradict nothing staged |
| `EventHandler.Session.DidFetch` | app/Sources/floria-menubar/CloudRecordSyncSession.swift:155-183 | Lifecycle, readability, preparation, application, commit and save in order; wherever it fails, the whole new state is the machine's. A checkpoint is saved only when zone, fetch, preparation, application and write succeeded and the accepted history agrees with the local one with any newer generation activated at once; and when none is saved, one of these, the authentication of the lifecycle or of the staged records failed |
| `EventHandler.Session.AcceptReadable` | app/Sources/floria-menubar/CloudRecordSyncSession.swift:164-167 | The lifecycle stages of that handler: they succeed only with a readable history and fail only for one that cannot be finished, or, once finished, for one that is not readable; nothing else changes |
| `EventHandler.Session.CheckReadable` | app/Sources/floria-menubar/CloudRecordSyncSession.swift:165-167 | Succeeds exactly without an accepted snapshot or with one that agrees with the local one and was activated at once if newer; an activation that did not apply is recorded as such, a contradiction as damage |
| `EventHandler.Session.HandleEvent` | app/Sources/floria-menubar/CloudRecordSyncSession.swift:111-220 | Every engine event is exactly its own step of the machine; only the sign-in a fresh engine reports is none |
| `EventHandler.Session.ApplyAndCheckpoint` | app/Sources/floria-menubar/CloudRecordSyncSession.swift:168-183 | A checkpoint is written exactly when a fetch was active, the staged records were authenticated or absent and could be prepared (no deletions, all readable), the daemon applied what is not a head, and the write succeeded |
| `EventHandler.Session.ApplyStaged` | app/Sources/floria-menubar/CloudRecordSyncSession.swift:168-183 | From preparation to saving: each failure leaves exactly the state up to it, and on success exactly the staged heads join the cache |
| `EventHandler.Session.PrepareStaged` | app/Sources/floria-menubar/CloudInboundProcessor.swift:11-53 | Preparation succeeds exactly when nothing is deleted and every staged record reads, and lists exactly the staged heads |
| `EventHandler.Session.SyncNow` | app/Sources/floria-menubar/CloudRecordSyncSession.swift:59-85 | Up to the outbound loop, whatever the engine reports and wherever it stops, the call is a run of the checkpoint machine. On success the run is the start, everything reported while the zone was sent and changes were fetched, the publication of exactly the local documents and the written checkpoint, and the accepted history is readable; it fails only with a recorded failure, an unfinished fetch, a failed publication, an unreadable history or a failed write |
| `EventHandler.Session.RunEngine` | app/Sources/floria-menubar/CloudRecordSyncSession.swift:111-220 | The events of one engine call are a run of the machine, one step for each in their order |
| `EventHandler.Session.StartSync` | app/Sources/floria-menubar/CloudRecordSyncSession.swift:59-61 | Starts exactly unless a failure other than a pending retry is recorded, as one step of the machine |
| `EventHandler.Session.Proceed` | app/Sources/floria-menubar/CloudRecordSyncSession.swift:413-415 | Goes on exactly when no failure is recorded, as one step of the machine |
| `EventHandler.Session.PublishLifecycle` | app/Sources/floria-menubar/CloudRecordSyncSession.swift:72-84 | The lifecycle half is a run of the machine: on success exactly the local documents join the history and the history is readable; on failure the checkpoint stays as it was, and either nothing could be published, for a reason that can be named, or the history is not readable |
| `EventHandler.Session.SaveLatest` | app/Sources/floria-menubar/CloudRecordSyncSession.swift:417-428 | Saves the latest token with heads and history, or abandons the sync, as one step of the machine |
| `EventHandler.Session.SendBatch` | app/Sources/floria-menubar/CloudRecordSyncSession.swift:241-272 | Succeeds exactly when no send was in progress, nothing was recorded, the report was handled and the engine threw at most a partial failure; in every case it is a run of the machine |
| `SessionState.PageIsStaged` | app/Sources/floria-menubar/CloudRecordSyncSession.swift:495-517 | A page is staged without complaint exactly when a fetch is open and it names no id twice nor one staged before; it is then staged whole, a head as a head change; staging drops nothing already staged |
| `SessionState.StagedRecords` | app/Sources/floria-menubar/CloudRecordSyncSession.swift:500-508 | Staging records succeeds exactly when their ids are distinct and new, and then files each under its id |
| `SessionState.SessionActor.StageFetchedDomain` | app/Sources/floria-menubar/CloudRecordSyncSession.swift:495-517 | The two loops update the staged maps exactly as the staging function says, partial results included |
| `SessionState.SessionActor.BeginZoneFetch` | app/Sources/floria-menubar/CloudRecordSyncSession.swift:485-493 | Refuses a second fetch; otherwise starts one with empty staging |
| `SessionState.SessionActor.CommitZoneFetch` | app/Sources/floria-menubar/CloudRecordSyncSession.swift:529-538 | Ends the fetch, empties staging and hands out the latest token |
| `SessionState.SessionActor.ObserveEngineState` | app/Sources/floria-menubar/CloudRecordSyncSession.swift:540-547 | Keeps every token in memory and hands it on for saving only outside a fetch |
| `SessionState.SessionActor.PrepareForManualSync` | app/Sources/floria-menubar/CloudRecordSyncSession.swift:562-575 | Forgets only a pending retry; any other failure stays and is thrown |
| `SessionState.SessionActor.RecordFailure` | app/Sources/floria-menubar/CloudRecordSyncSession.swift:474-476 | The first failure wins |
| `SessionState.SessionActor.ResetTransportCache` | app/Sources/floria-menubar/CloudRecordSyncSession.swift:553-560 | Clears everything but the recorded failure |
| `SessionState.SessionActor.Disposition` | app/Sources/floria-menubar/CloudRecordSyncSession.swift:478-483 | An engine error is swallowed exactly when nothing is recorded, the failure is partial and the phase is finished |
| `Inbound.PagingDoesNotMatter` | app/Sources/floria-menubar/CloudInboundProcessor.swift:11-53 | Any two splits of the same records into pages, and any dictionary orders, give the identical batch and head map, or both fail |
| `Inbound.PreparedExactlyOnce` | app/Sources/floria-menubar/CloudInboundProcessor.swift:26-52 | Every staged record has its place in the batch or head map, and there are no more places than records |
| `Inbound.PreparedHeads` | app/Sources/floria-menubar/CloudInboundProcessor.swift:26-42 | The head map holds exactly the records of head type, each under one entity |
| `Inbound.PrepareForgetsOrder` | app/Sources/floria-menubar/CloudInboundProcessor.swift:43-52 | The same records in another order are prepared alike |
| `Inbound.PrepareInbound` | app/Sources/floria-menubar/CloudInboundProcessor.swift:11-53 | The loop and sorts compute the preparation over any way of reading records, with its deletion, duplicate, codec and staging errors; the `InboundContents` rows say what it holds |
| `InboundContents.PreparedContents` | app/Sources/floria-menubar/CloudInboundProcessor.swift:26-52 | Against the decoder and the asset store: a manifest, revision, staged object or head is in the batch if and only if some record decodes to exactly it, and nothing else is |
| `InboundContents.PrepareRecords` | app/Sources/floria-menubar/CloudInboundProcessor.swift:11-53 | Preparation succeeds exactly for no deletions, distinct ids, decodable records and stageable assets, and gives those contents, each list strictly ascending in its id |
| `InboundContents.BuiltRevisionArrives` | app/Sources/floria-menubar/CloudInboundProcessor.swift:34-35 | A revision that a device built arrives with its own entity id, revision id and envelope |
| `BootstrapSnapshot.SnapshotRoundTrip` | app/Sources/floria-menubar/CloudVaultBootstrapCodec.swift:53-167 | Decoding the records of any encodable snapshot in any order gives its canonical form: lower-cased, canonical base 64, every list sorted |
| `BootstrapSnapshot.RecordsRoundTrip` | app/Sources/floria-menubar/CloudVaultBootstrapCodec.swift:53-167 | Re-encoding a decodable record set gives back the same set, sorted by name: each record equivalent, and literally equal if and only if every record was untagged with a lower-case device id |
| `BootstrapSnapshot.RebuiltHistory` | app/Sources/floria-menubar/CloudVaultBootstrapCodec.swift:123-167 | A rebuilt snapshot stands for exactly the documents of its records and can be flattened again |
| `BootstrapSnapshot.BuildRecords` | app/Sources/floria-menubar/CloudVaultBootstrapCodec.swift:53-119 | The append loops compute the sorted records, or the first error in source order |
| `BootstrapSnapshot.ReadSnapshot` | app/Sources/floria-menubar/CloudVaultBootstrapCodec.swift:123-167 | One pass fills the five collections and the sorts assemble them, or the first error is thrown |
| `SnapshotReading.RebuildIff` | app/Sources/floria-menubar/CloudVaultBootstrapCodec.swift:123-150 | A snapshot can be rebuilt exactly from decodable records with different names and a root among them |
| `SnapshotReading.RebuiltMeans` | app/Sources/floria-menubar/CloudVaultBootstrapCodec.swift:123-167 | It holds the documents of the records and nothing else: devices and enrollments strictly ascending by route, generations by number, envelopes by device and then generation |
| `SnapshotReading.FlattenIff` | app/Sources/floria-menubar/CloudVaultBootstrapCodec.swift:53-119 | A snapshot can be flattened exactly when it is of this vault in any case, every entry is sendable and no two entries share kind and route up to case |
| `SnapshotReading.FlattenedMeans` | app/Sources/floria-menubar/CloudVaultBootstrapCodec.swift:53-119 | The records are those of the entries and nothing else, strictly ascending by name |
| `SnapshotReading.EquivalentIff` | app/Sources/floria-menubar/CloudVaultBootstrapCodec.swift:42-47 | Two lifecycle records are the same exactly when they have one name and type and spell one document; comparing fails exactly when one of such a pair does not decode |
| `BootstrapCodec.NameInjective` | app/Sources/floria-menubar/CloudVaultBootstrapCodec.swift:61-117 | Record names are injective across the five kinds, `envelope-<uuid>-<n>` included |
| `BootstrapCodec.RecordRoundTrip` | app/Sources/floria-menubar/CloudVaultBootstrapCodec.swift:226-255 | A built record decodes to the canonical form of its document |
| `BootstrapCodec.RecordDecoded` | app/Sources/floria-menubar/CloudVaultBootstrapCodec.swift:169-224 | A decodable record carries a canonical document under that document's own name and can be rebuilt, identically if and only if well spelled |
| `LifecycleReading.DecodeIff` | app/Sources/floria-menubar/CloudVaultBootstrapCodec.swift:169-224 | A lifecycle record decodes to a document if and only if it spells it out: zone, version 1, type, name, exactly the allowed fields, a generation from 1 to 2^32 - 1, a payload of 1 to 65536 octets |
| `LifecycleReading.BuiltIff` | app/Sources/floria-menubar/CloudVaultBootstrapCodec.swift:226-255 | A document becomes a record exactly under those bounds, and the record, never saved, spells its canonical form |
| `LifecycleReading.OwnedIff` | app/Sources/floria-menubar/CloudVaultBootstrapCodec.swift:33-40 | Every lifecycle record is recognised by type and by name, and no record the entity codec decodes is |
| `LifecycleHistory.HistoryIsAppendOnly` | app/Sources/floria-menubar/CloudVaultBootstrapCoordinator.swift:84-174 | In every run of the coordinator's steps against a server that any device writes to: between restarts and resets the accepted history only grows, all of it is on the server, and an accepted document is the only one accepted or on the server under its key from then on |
| `LifecycleServer.AcceptedIsOnServer` | app/Sources/floria-menubar/CloudSentBatchResolver.swift:159-165 | With the real matching rule, when the report of a lifecycle batch resolves as accepted, the server holds each sent document |
| `LifecycleServer.Deliver` | app/Sources/floria-menubar/CloudRecordSyncSession.swift:241-314 | A lifecycle batch sent through server and resolver counts as delivered exactly when its report resolves as accepted, and then the server holds all its documents |
| `LifecycleServer.ServerDocsGrow` | app/Sources/floria-menubar/CloudVaultBootstrapCodec.swift:226-255 | Whatever batches devices write, the lifecycle documents on the server only grow |
| `LifecycleServer.EntityRecordsAreApart` | app/Sources/floria-menubar/CloudRecordCodec.swift:163-218 | A record the entity codec decodes never has the id of a lifecycle record |
| `BootstrapCoordinator.Coordinator.StageFetched` | app/Sources/floria-menubar/CloudVaultBootstrapCoordinator.swift:109-140 | Succeeds exactly when no lifecycle record was deleted, all decode and none changes a staged one; stages exactly the lifecycle documents, hands on the rest, and never touches the accepted history; a deletion stages nothing, and any other failure leaves exactly the records before the first that cannot be staged |
| `BootstrapCoordinator.Coordinator.FinishFetch` | app/Sources/floria-menubar/CloudVaultBootstrapCoordinator.swift:144-174 | Accepted becomes what the daemon made of old accepted plus staged, or nothing changes; with nothing staged the accepted snapshot is confirmed by the daemon again; fails only on contradiction, missing root, unflattenable accepted snapshot or refusal |
| `BootstrapCoordinator.Coordinator.MergedCandidate` | app/Sources/floria-menubar/CloudVaultBootstrapCoordinator.swift:153-169 | A candidate exists exactly when the histories agree and have a root, and has exactly their documents |
| `BootstrapCoordinator.Coordinator.OutboundRecords` | app/Sources/floria-menubar/CloudVaultBootstrapCoordinator.swift:84-105 | Sends exactly the local documents not accepted yet; fails exactly when a shared one changed or a snapshot cannot be flattened |
| `BootstrapCoordinator.Coordinator.Publish` | app/Sources/floria-menubar/CloudRecordSyncSession.swift:72-84 | Sends the additions as one batch through the server and the resolver: success makes the accepted history exactly old accepted plus fetched plus local, with every local document accepted before or on the server; failure accepts nothing, and happens only when the local snapshot contradicts the accepted one or cannot be flattened, more than 250 records are new, the server's report was not accepted, or the daemon or the merged history refuses |
| `BootstrapCoordinator.Coordinator.EnsureReadable` | app/Sources/floria-menubar/CloudVaultBootstrapCoordinator.swift:183-218 | Succeeds exactly when shared records agree and a newer remote generation was activated at once; a contradiction and an activation that did not apply are told apart |
| `BootstrapCoordinator.SplitConserves` | app/Sources/floria-menubar/CloudVaultBootstrapCoordinator.swift:113-139 | Splitting a page loses and duplicates nothing |
| `Agent.StaleGrantsSlippedThrough` | crates/floria-agent/src/agent.rs:145-205 | Under any interleaving, after a change completed every cached grant was inserted after the clear, and it belongs to a request that loaded an older generation if and only if its check passed before the bump; restored grants are gone |
| `Agent.JoinedLeavesNoStaleGrant` | crates/floria-agent/src/agent.rs:282-292 | With check and insert as one step no such grant exists |
| `Agent.StaleGrantIsReachable` | crates/floria-agent/src/agent.rs:284-287 | With the source's two steps such a grant is reachable, by a concrete run |
| `AgentHistory.ClearIsOutlivedIff` | crates/floria-agent/src/agent.rs:282-292 | A grant of an older generation can be cached after a clear if and only if, when it cleared, some thread stood between the check and the insert of a storable answer for an older request |
| `Agent.SingleFlight` | crates/floria-agent/src/agent.rs:221-241 | At most one unresolved prompt exists per grant key and generation |
| `Agent.JoinersAgree` | crates/floria-agent/src/agent.rs:243-259 | Everyone who returns from one flight returns one decision for one key: the one its prompt ended in |
| `Agent.NoStuckWaiter` | crates/floria-agent/src/agent.rs:85-99 | A waiter on an incomplete flight has a live leader that always has an enabled step and waits on no flight; on a complete one it can return |
| `AgentHistory.EveryAllowIsJustified` | crates/floria-agent/src/agent.rs:365-418 | Every allow traces to the thread's own earlier request: it was ruled Allow, or audit-only waived its prompt level, or the request asks the user in enforced mode and a flight of its own key that the thread itself led or joined carries the user's allow, or a lookup of its own found a live remembered allow |
| `AgentHistory.EveryDenialIsJustified` | crates/floria-agent/src/agent.rs:365-418 | Every denial traces as well: it was ruled Deny, or the user, a missing app or a timeout refused in a flight of its own key, or a remembered refusal was live |
| `AgentHistory.RulesDecideAtOnce` | crates/floria-agent/src/agent.rs:388-396 | A request configured Deny, in either mode, is denied in every later state; one configured Allow, or waived by audit-only, is allowed in every later state |
| `AgentHistory.RuledOutOfPrompts` | crates/floria-agent/src/agent.rs:388-401 | A request that the rules decide never enters a flight and never looks for a grant |
| `AgentGrants.RememberedAsChosen` | crates/floria-agent/src/agent.rs:458-476 | Every answer remembered in a run lives exactly as long as the user chose when it was stored: today, until the lock, the given time or ten minutes, a day for an app, never beyond 26 hours |
| `AgentGrants.InsertRemembers` | crates/floria-agent/src/agent.rs:283-292 | Storing an answer puts the user's word under the flight's key with that expiry and leaves every other grant, or stores nothing when the scope or the limit forbids it |
| `AgentGrants.CheckedAgainstItsLoad` | crates/floria-agent/src/agent.rs:213-292 | In every run the generation it is held against is the one in force when its leader's request read it, so a durable answer passes if and only if nothing was bumped in between |
| `AgentGrants.CompleteDecides` | crates/floria-agent/src/agent.rs:294-305 | The flight tells everybody the user's word, and a denial when there is none |
| `AgentGrants.GrantLasts` | crates/floria-agent/src/agent.rs:309-320 | A remembered answer stays, unchanged, until it expires, is cleared or dropped, or is replaced under its own key; looking others up never costs it |
| `AgentGrants.PromptedOnlyWithoutGrant` | crates/floria-agent/src/agent.rs:217-241 | A thread leads or joins a flight only after a lookup of its own, under the lock, found no live grant |
| `AgentGrants.LiveGrantDecides` | crates/floria-agent/src/agent.rs:217-230 | A lookup that finds a live grant returns its decision at once |
| `Agent.EveryGrantWasChosen` | crates/floria-agent/src/agent.rs:262-306 | Every entry remembered in the run is an explicit durable user choice for exactly that key, never a failure |
| `Agent.NextKeeps` | crates/floria-agent/src/agent.rs:207-306 | Every atomic step of every thread keeps the agent invariant |
| `PromptQueue.Replay` | app/Sources/floria-menubar/PromptPresenter.swift:76-302 | After any interleaving of events, answered then on-screen then queued requests are the arrivals in order; each answer has the event that produced it, no earlier than its request was shown, in order: an allow is its own allow press, under Touch ID its own successful report after that press, with the scope pressed; any other answer carries only the scope of its deny press |
| `PromptQueue.Presenter.PresentNext` | app/Sources/floria-menubar/PromptPresenter.swift:92-139 | Denies exactly the expired head of the queue and shows the first live request |
| `PromptQueue.Presenter.Show` | app/Sources/floria-menubar/PromptPresenter.swift:76-90 | Enqueues with a deadline that saturates at the largest 64-bit number and leaves the screen; on a free screen the request is shown at once, or denied if already expired |
| `PromptQueue.Presenter.Settle` | app/Sources/floria-menubar/PromptPresenter.swift:173-205 | Counts only for the request on screen and once; a Touch ID allow answers nothing yet; any other choice is the next answer, followed by the denials of exactly the expired requests before the next one shown |
| `PromptQueue.Presenter.Expire` | app/Sources/floria-menubar/PromptPresenter.swift:207-215 | Denies the request on screen, even while Touch ID is pending |
| `PromptQueue.Presenter.CompleteBiometric` | app/Sources/floria-menubar/PromptPresenter.swift:286-302 | Answers the request on screen with the callback's verdict; for any other request nothing is answered |
| `PromptQueue.Presenter.AnsweredOnce` | app/Sources/floria-menubar/PromptPresenter.swift:222-233 | Distinct requests are answered at most once |
| `ManagedRules.NormalizeIsCanonical` | crates/floria-agent/src/managed_rules.rs:25-39 | Two lists normalise to the same list if and only if every object has the same strictest level |
| `ManagedRules.NormalizeIsStable` | crates/floria-agent/src/managed_rules.rs:25-39 | Normalisation ignores order and repetition and is idempotent |
| `ManagedRules.NormalizeMeaning` | crates/floria-agent/src/managed_rules.rs:25-39 | The result is strictly sorted by object and keeps every level |
| `ManagedRules.LevelIsStrictest` | crates/floria-agent/src/managed_rules.rs:108-118 | The level of an object is that of one of its items, and at least as strict as each: denying above a fingerprint above a click above allowing |
| `ManagedRules.NormalizeManagedPolicy` | crates/floria-agent/src/managed_rules.rs:25-39 | Sorting and merging into the last item computes the normal form |
| `RuleCompilation.CompilationPreservesPolicy` | crates/floria-agent/src/managed_rules.rs:41-106 | First match over base and compiled rules is the direct reading of the items unless a base rule of equal or higher priority matches; where the items are silent the compiled rules change nothing |
| `RuleCompilation.CatalogDecides` | crates/floria-agent/src/managed_rules.rs:25-106 | For the catalog's items as they come: a signature under surfaces/ goes by its resource, any other request by the secret, surface or item id its path spells out, at a level some such item has and none exceeds, unless a base rule of the written-out priority or higher matches; otherwise the base rules decide |
| `RuleCompilation.CompileManagedRules` | crates/floria-agent/src/managed_rules.rs:41-106 | The loops emit one rule per item, then one per item id in order with the strictest level of all sharers |
| `RuleCompilation.MatchingSorted` | crates/floria-core/src/rules.rs:165-189 | The stable priority sort commutes with dropping the rules that do not match |
| `RuleCompilation.TopDecides` | crates/floria-core/src/rules.rs:173-189 | When the matching rules of the highest priority agree, they decide |
| `RuleCompilation.LivePolicy.ReplaceManagedPolicy` | crates/floria-agent/src/agent.rs:184-205 | After the first install a refresh leaves rules, grants and generation alone if and only if every strictest level is unchanged; otherwise it recompiles, bumps and clears; either way the rules in force decide as the new items say |
| `PolicyMode.SurvivesCrashes` | crates/floria-agent/src/policy_mode.rs:23-124 | After any sequence of sets, queries and reopens under a non-decreasing clock with failing writes, memory and storage both mean the last successful change as of now |
| `PolicyMode.ReopenReportsTheSame` | crates/floria-agent/src/policy_mode.rs:23-52 | A daemon reopened at any point reports what the live one would have |
| `PolicyMode.NothingRelaxedAfterExpiry` | crates/floria-agent/src/policy_mode.rs:102-129 | After an audit window expired nothing is relaxed until a new change succeeds, whatever fails or restarts |
| `PolicyMode.ChangeGoverns` | crates/floria-agent/src/policy_mode.rs:65-129 | After a successful change, whatever is queried, refused, lost or restarted: an audit window of n seconds waives the prompts of exactly those n seconds, one without a duration those of all later times, normal mode none, and no other level is ever changed |
| `PolicyMode.PolicyModeState.Set` | crates/floria-agent/src/policy_mode.rs:65-100 | Succeeds exactly for normal mode without a duration, or audit-only with none or one of at least a second whose end fits 63 bits, when the write succeeds; memory and storage then hold that mode and that end; otherwise nothing changes |
| `PolicyMode.PolicyModeState.CurrentStatus` | crates/floria-agent/src/policy_mode.rs:54-63 | Reports the unexpired status and drops an expired one even when writing that down fails; as one call of that model |
| `PolicyMode.PolicyModeState.Evaluate` | crates/floria-agent/src/policy_mode.rs:102-115 | Reports the mode in force and waives exactly prompts and fingerprints, to Allow, exactly in audit-only mode; as one call of that model |

## Left out

- Presentation (views, menu bar, dock, window management), packaging and release scripts: no deep state.
- Socket plumbing and message types of the control and agent protocols; only the sync types appear, as datatypes.
- Cryptography, signatures, SHA-256 and the glob engine: they enter as values or small contracts.
- Asset staging and the checkpoint file: content-addressed storage and one atomic cell.
- `GrantCache` persistence and metadata; entries live in a map and a restored entry is marked as such.
- `grant_key`, `grant_object` and the midnight arithmetic of `today_ttl`: the key and the time left are inputs.
- Lifecycle batches inside `SyncProtocol`: they have their own runs over the same server model in `LifecycleHistory`.
- Interleaving of an account change with the three reads of one checkpoint write, and mutual exclusion of sync tasks in `CloudSyncService`.
- Rule ids, subject facets and disabled rules: a base rule is a priority, a level and an arbitrary predicate on the request.
- OutboundLoop.OutboundSession.Drain: assumes one honest writer and no new commits while it runs; with other writers the loop may be prolonged.
- OutboundSuccess.SyncOutbox: the success condition is sufficient, not necessary; a head brought only by an earlier commit with several revisions is not covered, because a conflict on another entity would leave it out.
- Checkpoint.CheckpointsAreSafe: requires the reset condition above, which is exact; `Checkpoint.DiscardingMakesSafe` needs none.
- PromptQueue.Presenter.AnsweredOnce: assumes distinct request ids, as the daemon's counter provides.
