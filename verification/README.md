# Verified model of the Company Brain and its protocols

This project models, in Dafny 4.11, the parts of the repository that keep derived state in step with an
authoritative record across deletions, retries and crashes, and proves what they promise.
`dafny verify dfyconfig.toml` covers the whole project.

* **Company Brain.** `BrainTypes`, `BrainStore` and `StoreHistory` model the versioned, tombstoned and audited
  store of one tenant. `CompanyBrain` and `BrainProjector` model the in-memory model and the projection of one
  governed record into it. `MemoryCommands`, `BrainMemory` and `MemoryPlans` describe a governed change as the
  sequence of atomic store writes it makes, the journal row last; `MemoryProjector` holds the imperative form
  and ties it to that description. The results are in `MemoryView` (the store is the view of its journal), `MemoryAttribution`
  (what each written record says and on whose behalf),
  `MemoryClosure`, `MemoryRuns` and `MemoryRetries` (when every intermediate state can be read back), `MemoryReplay` (when
  re-running an interrupted change is the same as not interrupting it) and `MemoryLimits` (histories in which either fails).
* **Qualified reads and bounded context.** `WorldModel` qualifies relationships for a principal, `WorldModelQueries`
  holds the loops, `WorldModelLaws` the guarantees, among them non-interference of hidden evidence, and `QualifiedReads` what a read says
  in terms of the tenant's rows and access lists. `Reachability`
  is the impact all three graph traversals compute. `ContextPacket` and `PacketLaws` cover the selection and
  eviction of a bounded packet for any rendering size; `ContextHealth` and `EvidenceReceipts` the gates over it.
* **Protocols over runs.** `ArtifactOutbox` and `OutboxFencing`, `JobQueue` and `JobProgress`, `ConcurrencyLock`, and
  the remediation workflow: `ControlPlane` (state, receipts and audit of one workflow), `RemediationActivities`
  (what each activity persists and what a retry of it does), `RemediationWorkflow` (the control loop as a state
  machine), `RemediationSafety` (what every run keeps) and `RemediationOutcomes` (what is recorded, and why a run ended as it did).
* **Ingestion and risk.** `Ingestion`, `EventPayload`, `IngestionLedger` and `IngestionReplay` cover the pipeline, its
  ledger and the dead-letter queue, `Reconciliation` the manifest repair; `ServiceGraph`, `Risk` and
  `RiskCalibration` the risk score and its threshold.

How the system's terms appear: identifiers that the source joins with colons are structured values, and the kind
of an entity is part of its id, as every id builder makes it; hashes, signatures and digests are the values they
are made of, so equal ones mean equal contents; random tokens are parameters that a run requires to be fresh; a
transaction is one atomic step; instants are integers, confidences, ratios and backoffs are reals; an exception is a
`Result` or `Option` value or a `raised` flag; the number of writes that succeed before a failure is a parameter
(`budget`). Fields that only exist for the statements (`log`, `commits`, `facts`) record what happened.

Five statements hold only under a condition, which the project states exactly, with inputs that show it is needed:

* Every intermediate state of a run can be read back if and only if no write of any attempt retires evidence that a
  visible edge, named by neither the old nor the new row of its source, rests on (`RunIsReadableIff`; `AttemptIsReadableIff`
  for one attempt, finished, failed or cut off anywhere). `CutOffThenRemovedCannotBeRead` is a run that does: a file is
  ingested, delivered again at the same commit with a service mapping and cut off before the journal write, then removed.
  It does not happen when a change that was cut off is retried until it returns before its source moves on to other
  evidence (`RetriedRunsAreReadable`).
* Every re-run of a call that returns equals not interrupting it if and only if the call is a removal, or retires no
  endpoint of its own edges and strands no edge (`RerunEqualsUninterruptedIff`). Both halves are needed:
  `BlamingItsOwnPastCannotBeRerun` is an incident that breaks the first, `CutOffThenChangedCannotBeRerun` a file change that
  breaks the second, and there the second run is refused. A second run that returns is never different unless the
  first half fails (`RerunToSuccess`), so a file change re-run to success always equals an uninterrupted one
  (`FileChangeCanAlwaysBeRerun`), and a document with new evidence does unless its declared cause or resolution is a
  record it retires (`DocumentRetiresItsOwnIff`). All of this holds in histories whose calls stop anywhere, any number of times.
* Two live locks never cover one service under a clock that does not step back; `SteppingBackLocksTwice` shows that
  it must not.
* The health report and the review flag agree on every packet built from the context (`GatesAgree`); the report compares
  only version and qualification, and on a packet built from another context they disagree exactly when it omits
  nothing and only one of the two contexts is free of limitations and conflicts (`GatesAgreeIff`).
* The risk score is monotone when tiers are at least one; `TierZeroLowersTheScore` shows a graph with a tier of zero.

## Model

| member | source | states |
|---|---|---|
| `BrainStore.CompanyBrainStore.Put` | company_brain/store.py:366-380 | an insert or overwrite is one transaction: version 1 or the next one, one audit event, or an error that changes nothing |
| `BrainStore.CompanyBrainStore.PutEvidence` | company_brain/store.py:400-432 | the pointer and its structural entity are written together or not at all |
| `BrainStore.CompanyBrainStore.PutEdge` | company_brain/store.py:474-492 | an edge is stored only between active entities and on active evidence |
| `BrainStore.CompanyBrainStore.DeleteEntity` | company_brain/store.py:494-536 | a tombstone needs the expected version, an active row and no legal hold; otherwise nothing changes |
| `BrainStore.CompanyBrainStore.DeleteEvidence` | company_brain/store.py:538-616 | the pointer and its structural entity are tombstoned together or not at all |
| `BrainStore.CompanyBrainStore.DeleteEdge` | company_brain/store.py:618-671 | an edge is tombstoned under its expected version or left alone |
| `StoreHistory.PutRowStep` | company_brain/store.py:715-753 | a put appends one audit event with the row's new version and never revives, unholds or shortens |
| `StoreHistory.TombstoneStep` | company_brain/store.py:494-536 | a tombstone appends the last audit event of its record |
| `StoreHistory.WriteStep` | company_brain/store.py:837-858 | every request that succeeds only lets rows evolve and keeps every audit trail sound |
| `StoreHistory.EveryRunIsAudited` | company_brain/store.py:978-1004 | over every run the events of a record carry versions 1..v without a gap, created first, tombstoned last or never |
| `StoreHistory.EveryRunEvolves` | company_brain/store.py:842-858 | between any two points of any run no tombstone is revived, no hold lifted, no retention shortened, no event lost |
| `StoreHistory.OneConditionalWriteWins` | company_brain/store.py:837-840 | of two writes conditioned on one version of one record, whatever runs between them, at most one succeeds |
| `CompanyBrain.CompanyBrain.RecordEvidence` | company_brain/model.py:179-188 | a pointer is kept together with the entity that stands for it |
| `CompanyBrain.CompanyBrain.Relate` | company_brain/model.py:208-226 | raises on an unknown endpoint, unknown evidence or a self edge; otherwise merges the evidence and keeps the model linked |
| `CompanyBrain.CompanyBrain.RemoveEntity` | company_brain/model.py:190-201 | the entity and every edge naming it go, so no edge is left dangling |
| `CompanyBrain.CompanyBrain.RemoveEvidence` | company_brain/model.py:203-206 | the pointer, its entity and every edge naming that entity go |
| `CompanyBrain.CompanyBrain.BlastRadius` | company_brain/model.py:273-284 | the scanning worklist ends with exactly the impact of the known changed items over service dependencies |
| `BrainProjector.CompanyBrainProjector.ProjectFileChange` | company_brain/projector.py:69-162 | the sequence of upserts and relates leaves exactly the emission of the file record merged into the model |
| `BrainProjector.CompanyBrainProjector.RemoveFileChangeProjection` | company_brain/projector.py:164-195 | a deletion removes exactly the pointers and changes of every revision of the file and the edges naming them, and reports them |
| `BrainProjector.CompanyBrainProjector.ProjectMapping` | company_brain/projector.py:121-161 | service and owner facts and edges are added only when the record names them |
| `BrainProjector.CompanyBrainProjector.ProjectKnowledgeDocument` | company_brain/projector.py:197-266 | raises exactly for a self-referring incident, leaving what came before that edge; otherwise leaves exactly the document's emission merged in and reports what is unresolved |
| `BrainProjector.CompanyBrainProjector.ProjectDeclared` | company_brain/projector.py:268-300 | adds exactly the declared causal edges towards records that are already known and reports exactly the others as unresolved |
| `BrainProjector.CiteMore` | company_brain/model.py:222-226 | citing one more edge on the same evidence adds up with what was cited before |
| `BrainProjector.FileEmissionSays` | company_brain/projector.py:58-162 | a file states its own entities under their ids and a pointer with its revision, citation and exactly its readers |
| `BrainProjector.FileAttributesSay` | company_brain/projector.py:69-76 | the attributes of a repository and of a service, each under its name, left out when empty |
| `BrainProjector.ChangeAttributesSay` | company_brain/projector.py:77-90 | the attributes of a change, each under its name, left out when empty |
| `BrainProjector.DocumentEmissionSays` | company_brain/projector.py:197-260 | a document states its artifact, service and owner, and a pointer with its kind, revision, citation and exactly its readers |
| `BrainProjector.ArtifactAttributesSay` | company_brain/projector.py:202-214 | the attributes of an artifact, each under its name, left out when empty |
| `MemoryCommands.PerformSettles` | company_brain/memory.py:490-498 | a store command that succeeds leaves what it asks for and no other row changed |
| `MemoryCommands.SettledIsNoop` | company_brain/memory.py:490-498 | a command whose outcome already holds writes nothing |
| `MemoryCommands.RunSettles` | company_brain/memory.py:500-573 | after independent commands have all succeeded, every one of them is settled |
| `MemoryCommands.RerunResumes` | company_brain/memory.py:403-410 | running independent commands again after any prefix of them ends in the very tables of one uninterrupted run |
| `MemoryPlans.PlanIsIndependent` | company_brain/memory.py:356-452 | no two commands of one call write the same record |
| `MemoryPlans.PlanIsPhased` | company_brain/memory.py:397-410 | facts are ensured before edges are settled, and edges before evidence and entities are retired |
| `MemoryPlans.PlanCarries` | company_brain/memory.py:500-573 | the commands of a call are exactly the ensuring, settling and retiring that its old and new row call for |
| `MemoryPlans.PlannedRowIsOk` | company_brain/memory.py:373-396 | the journal row a call writes names its source and owns only source-owned entities |
| `MemoryPlans.CarriedEdge` | company_brain/memory.py:500-542 | after a call every affected edge is active exactly when a candidate row contributes it, on the union of the contributions |
| `MemoryPlans.CarriedEvidence` | company_brain/memory.py:544-562 | after a call a pointer is active if the new row holds it, tombstoned if only the old row did, and otherwise untouched |
| `MemoryPlans.CarriedEntity` | company_brain/memory.py:564-573 | after a call a source-owned entity is active if the new row owns it, tombstoned if only the old row did, and otherwise untouched |
| `MemoryView.ViewStep` | company_brain/memory.py:500-573 | the writes of one call turn the view of the old journal rows into the view of the new ones |
| `MemoryView.CallKeepsView` | company_brain/memory.py:356-452 | a call that returns normally keeps the store equal to the view of its journal |
| `MemoryView.StoreIsTheViewOfTheJournal` | company_brain/memory.py:597-604 | after any sequence of calls that return normally the maintained store equals recomputation from the journal: edges, edge evidence, pointers and owned entities |
| `MemoryView.EveryRecordIsAsJournaled` | company_brain/memory.py:597-604 | the same record by record: active exactly when some active source of the journal contributes it, on exactly the evidence of all that do |
| `MemoryAttribution.PerformLeaves` | company_brain/memory.py:490-542 | a command leaves a record as it was, or leaves in it what it asks for with the one audit event about it |
| `MemoryAttribution.WrittenEdgeIsAttributed` | company_brain/memory.py:500-542 | an edge a finished call wrote rests on all its contributors' evidence and carries, in row and event, the provenance of the first contributor as listed; without a contributor it is removed for that reason |
| `MemoryAttribution.WrittenFactIsAttributed` | company_brain/memory.py:544-572 | an entity or pointer a finished call wrote repeats its record under this call's provenance, or is removed as superseded |
| `MemoryAttribution.ProvenanceNamesTheCall` | company_brain/memory.py:274-314 | the provenance of a call names its system, source, revision, policy and event |
| `MemoryAttribution.RefusedExactlyWhen` | company_brain/memory.py:454-469 | a call is refused exactly when its event already projected something else, or what it brings anew cannot be projected, and changes nothing exactly when the journal holds it already |
| `MemoryAttribution.FinishedRowSays` | company_brain/memory.py:388-402 | the journal row of a finished call is the new contribution, or the last one marked deleted, and no other row changes |
| `MemoryClosure.ClosedThroughout` | company_brain/memory.py:500-573 | as long as no write strands an edge, every state the writes pass through has only grounded visible edges |
| `MemoryClosure.StrandedBreaksClosure` | company_brain/memory.py:555-562 | the state right after a write that retires evidence an edge named by neither row rests on cannot be read back |
| `MemoryRuns.AttemptIsReadableIff` | company_brain/store.py:690-704 | however far a call gets, finished, failed or cut off, it passed only through readable states if and only if it started from one and none of its writes so far strands an edge |
| `MemoryRuns.CallIsClosedThroughoutIff` | company_brain/store.py:690-704 | for a call that returns the condition can be read off the snapshot and the two rows before the call |
| `MemoryRuns.AttemptKeepsSound` | company_brain/memory.py:356-452 | an attempt that returns, raises or is cut off at any write leaves well-formed rows, edges between recorded entities and pointers paired with their entities |
| `MemoryRuns.RunIsReadableIff` | company_brain/store.py:690-704 | in every history of attempts that return, raise or are cut off anywhere, the snapshot can be rebuilt at every intermediate write if and only if no write of any attempt strands an edge |
| `MemoryRetries.FinishTies` | company_brain/memory.py:373-396 | a call that returns names in its row every visible edge on its evidence, whatever an earlier stop left behind |
| `MemoryRetries.TiedIsNotStranded` | company_brain/memory.py:544-562 | a call strands no edge if its row named all edges on its evidence or it retires no evidence |
| `MemoryRetries.RetriedRunsAreReadable` | company_brain/memory.py:316-410 | if cut-off changes are retried until they return before their source moves on to other evidence, the snapshot can be rebuilt at every write of the history |
| `MemoryLimits.LoneUpsertReturns` | company_brain/memory.py:356-410 | in a tenant with no other source, from which nothing was removed, every upsert that plans work returns |
| `MemoryLimits.CutOffThenRemovedCannotBeRead` | company_brain/memory.py:412-452 | one commit mapped to a service on a second delivery that is cut off, then removed, leaves a store no snapshot can be rebuilt from |
| `MemoryLimits.CutOffThenChangedCannotBeRerun` | company_brain/memory.py:316-334 | after the same cut-off the next commit retires nothing it relates and returns, but cut off after the old evidence is retired its second run is refused |
| `MemoryLimits.BlamingItsOwnPastCannotBeRerun` | company_brain/projector.py:277-300 | an incident whose next revision declares the evidence of the first as its cause returns, but cut off before its journal write its second run ends differently |
| `MemoryReplay.RerunEqualsUninterrupted` | company_brain/memory.py:403-410 | cut off after any of its writes, a call that retires nothing it relates ends, if its second run returns, with the records, versions, audit trail and journal row of one run; and its second run does if the snapshot can be rebuilt |
| `MemoryReplay.RerunDiffersWhenItRetiresItsOwn` | company_brain/projector.py:277-300 | a call that relates its record to one it retires does not: cut off before the journal write, its second run ends differently |
| `MemoryReplay.RerunRefusedWhenItStrands` | company_brain/memory.py:323-334 | a call that strands an edge does not either: cut off right after the evidence is retired, its second run is refused |
| `MemoryReplay.RerunEqualsUninterruptedIff` | company_brain/memory.py:500-573 | in every state a history can reach, every re-run of a call that returns equals not being interrupted if and only if it is a removal, or retires no endpoint of its own edges and strands no edge |
| `MemoryReplay.RerunToSuccess` | company_brain/memory.py:316-410 | in every history, whatever was cut off or failed before, a call that retires nothing it relates and is stopped any number of times ends, once it returns, as if never stopped |
| `MemoryReplay.DocumentRetiresItsOwnIff` | company_brain/projector.py:277-299 | a document with new evidence retires what it relates if and only if its declared cause or resolution is a known record it retires |
| `MemoryReplay.FileChangesKeepTheirOwn` | company_brain/projector.py:58-162 | a file change never relates its record to one it retires |
| `MemoryReplay.FileChangeCanAlwaysBeRerun` | company_brain/memory.py:316-334 | in every history with stops anywhere, a file change stopped any number of times and re-run to success equals an uninterrupted one |
| `MemoryProjector.ProjectedEdges` | company_brain/memory.py:377-387 | reading edges back by evidence id yields the emitted ones and those the store already kept on that evidence |
| `MemoryProjector.Projector.Snapshot` | company_brain/store.py:690-704 | rebuilding the in-memory model raises exactly when a visible edge is not grounded |
| `MemoryProjector.Projector.ReconcileRelationships` | company_brain/memory.py:500-542 | settles each affected edge to its membership among the candidate rows, or stops at the first store error |
| `MemoryProjector.Projector.RetireUnreferenced` | company_brain/memory.py:544-573 | tombstones exactly the evidence and entities no candidate row holds, or stops at the first store error |
| `MemoryProjector.Projector.Materialize` | company_brain/memory.py:356-410 | the writes of an upsert in order, the journal row last and only if all succeeded |
| `MemoryProjector.Projector.ProjectChange` | company_brain/memory.py:274-354 | a governed change returns with its whole planned effect or raises after a prefix of its writes with the journal untouched |
| `ConcurrencyLock.LockManager.Acquire` | remediation/concurrency_lock.py:55-93 | grants exactly when nothing unexpired overlaps, else names the least shared service of a blocking lease; scopes stay disjoint |
| `ConcurrencyLock.LockManager.Release` | remediation/concurrency_lock.py:95-99 | removes exactly the named lease and reports whether it was held |
| `ConcurrencyLock.LockManager.ActiveLeases` | remediation/concurrency_lock.py:101-104 | prunes what has expired and lists the rest |
| `ConcurrencyLock.NoServiceIsLockedTwice` | remediation/concurrency_lock.py:66-93 | in every run with a clock that does not step back no service is covered by two live granted leases |
| `ConcurrencyLock.RefusedExactlyWhenLocked` | remediation/concurrency_lock.py:66-84 | a request is refused exactly when a live granted lease overlaps it |
| `ConcurrencyLock.SteppingBackLocksTwice` | remediation/concurrency_lock.py:50-53 | the clock condition is needed: a concrete run in which it steps back locks one service twice |
| `ArtifactOutbox.SqliteArtifactOutbox.Record` | company_brain/artifact_outbox.py:237-281 | stores every delivery of an artifact or nothing; an exact replay is accepted, a conflict raises |
| `ArtifactOutbox.SqliteArtifactOutbox.ClaimNext` | company_brain/artifact_outbox.py:283-358 | leases the first due delivery, pending or expired, under a fresh token and counts the attempt |
| `ArtifactOutbox.SqliteArtifactOutbox.AcknowledgeLease` | company_brain/artifact_outbox.py:360-376 | delivers under exactly the token that holds the lease, else raises and changes nothing |
| `ArtifactOutbox.SqliteArtifactOutbox.RetryLease` | company_brain/artifact_outbox.py:378-396 | requeues under exactly the token that holds the lease, else raises and changes nothing |
| `ArtifactOutbox.BeforeDecides` | company_brain/artifact_outbox.py:309-324 | the queue is ordered by availability, artifact and delivery, and no two deliveries tie |
| `OutboxFencing.EveryRunIsFaithful` | company_brain/artifact_outbox.py:283-396 | over every run each delivery is in the state its own events replay to, with as many attempts as claims |
| `OutboxFencing.NoDeliveryIsLost` | company_brain/artifact_outbox.py:237-281 | a recorded delivery is never lost or changed in content, and a delivered one stays as it is |
| `OutboxFencing.IdempotencyKeysAreUnique` | company_brain/artifact_outbox.py:229-279 | in every run each delivery has an idempotency key of its own |
| `OutboxFencing.OnlyTheLatestUnspentLeaseHolds` | company_brain/artifact_outbox.py:425-435 | a token can acknowledge or retry if and only if the latest event of the delivery is the claim made under it |
| `OutboxFencing.TokensAreDistinct` | company_brain/artifact_outbox.py:327-358 | in every run with fresh tokens no two claims share a token and the log only grows |
| `OutboxFencing.SupersededLeaseIsFenced` | company_brain/artifact_outbox.py:425-435 | once anything follows a claim on its delivery, its token can neither acknowledge nor retry, then or ever after |
| `OutboxFencing.AcknowledgedLast` | company_brain/artifact_outbox.py:360-376 | at most one acknowledgement of a delivery ever succeeds, and nothing follows it |
| `OutboxFencing.UnrelinquishedLeasesAreDisjoint` | company_brain/artifact_outbox.py:293-358 | successive leases of one delivery that were not given back cover disjoint intervals of time |
| `JobQueue.SqliteJobQueue.Claim` | orchestration/jobs.py:84-109 | leases the first claimable job in due order and counts the attempt, or changes nothing |
| `JobQueue.BeforeDecides` | orchestration/jobs.py:88-96 | the queue is ordered by due time and then by id |
| `JobQueue.SqliteJobQueue.Fail` | orchestration/jobs.py:118-146 | requeues with exponential backoff while attempts remain, else dead-letters |
| `JobQueue.DurableRunner.RunOnce` | orchestration/runner.py:18-42 | idle exactly when nothing is claimable; otherwise the next job is claimed, its handler's outcome or the lack of a handler recorded, and the report says what became of it |
| `JobQueue.HandledIsATurn` | orchestration/runner.py:18-42 | every non-idle call of the runner is a turn of the queue |
| `JobQueue.BackoffDoubles` | orchestration/jobs.py:134-136 | the first wait is the base and every further one twice the one before |
| `JobProgress.TurnUsesUp` | orchestration/runner.py:18-42 | every non-idle turn strictly decreases the total of remaining attempts |
| `JobProgress.TurnsAreBounded` | orchestration/jobs.py:84-146 | whatever is enqueued in between, a queue takes at most the turns its jobs allow, and after that many every job is completed or dead-lettered |
| `JobProgress.IdleOnlyWhileWaiting` | orchestration/jobs.py:84-109 | an idle runner with nothing leased and everything due has nothing left to do |
| `JobProgress.WaitsAddUp` | orchestration/jobs.py:118-146 | the backoffs after n failures add up to base times (2^n - 1) |
| `JobProgress.DeadLettersWaited` | orchestration/jobs.py:118-146 | a job dead-lettered on attempt m spent at least base times (2^(m-1) - 1) since its first attempt, whatever else was enqueued and run |
| `ControlPlane.ControlPlaneActivityBridge.PersistWorkflowLifecycle` | orchestration/control_plane_activities.py:91-114 | state and receipt first, then audit; the version is returned only when both are there, and a retry resolves the receipt |
| `ControlPlane.CommitFresh` | state/store.py:136-191 | the next event of a path is committed with its receipt and keeps the store the one the path leads to |
| `ControlPlane.CommitReplayed` | state/store.py:199-211 | an event committed before returns the record stored with it and changes nothing |
| `ControlPlane.PathNamesPredecessors` | state/lifecycle.py:176-214 | on a path each event names the status and version of the record the events before it left |
| `ControlPlane.NothingFollowsATerminalEvent` | state/lifecycle.py:28-76 | no transition leads out of a terminal status |
| `RemediationActivities.RemediationActivities.Advance` | orchestration/control_plane_activities.py:402-443 | one lifecycle event built from the threaded predecessor, never from live state |
| `RemediationActivities.RemediationActivities.PlanRemediation` | orchestration/control_plane_activities.py:482-549 | planned then awaiting approval, or nothing at all when no runbook matches |
| `RemediationActivities.RemediationActivities.ExecuteAction` | orchestration/control_plane_activities.py:645-717 | executing is committed and exported before the control loop runs, its result only after |
| `RemediationActivities.RemediationActivities.RecordOutcome` | orchestration/control_plane_activities.py:720-760 | one terminal event under the status and version the outcome carries |
| `RemediationActivities.PersistFollowsThePath` | orchestration/control_plane_activities.py:75-114 | an attempt at the events of a path, after any part of them was committed, is never refused and returns only with all of them recorded and exported |
| `RemediationActivities.RetryEqualsUninterrupted` | orchestration/control_plane_activities.py:75-84 | a step cut off after any of its writes and retried ends exactly where an uninterrupted one ends |
| `RemediationWorkflow.DrainedTakesTheFirst` | orchestration/remediation_workflow.py:223-252 | draining takes the first admissible signal and answers for each one rejected before it |
| `RemediationWorkflow.AdmittedExactlyWhen` | orchestration/remediation_workflow.py:223-250 | a signal is admitted exactly when it is for this workflow and this plan hash and names an approver and a signature |
| `RemediationWorkflow.ApprovalInbox.Drain` | orchestration/remediation_workflow.py:526-535 | the inbox loop takes, rejects and leaves behind exactly what draining says |
| `RemediationSafety.AttemptStaysUnderway` | orchestration/control_plane_activities.py:402-443 | an attempt at what a phase intends is never refused and leaves a prefix of it |
| `RemediationSafety.ActFits` | orchestration/control_plane_activities.py:645-717 | the control loop runs only after the executing event is recorded and exported |
| `RemediationSafety.StepKeeps` | orchestration/remediation_workflow.py:410-502 | every delivery, drain, time-out and activity attempt, reported or lost, keeps the invariant |
| `RemediationSafety.EveryRunIsSafe` | orchestration/remediation_workflow.py:410-571 | every state of every run is safe and agrees with what its phase claims to have done |
| `RemediationSafety.EveryWriteNamesItsPredecessor` | orchestration/control_plane_activities.py:417-424 | no write of any run is refused, and each names the record's true predecessor status and version |
| `RemediationSafety.MutatesOnceAndBehindEveryGate` | orchestration/remediation_workflow.py:436-502 | the mutation runs at most once, only after an accepted signal bound to this workflow and plan hash, its verified signature, an allowed policy and a safe rehearsal |
| `RemediationSafety.AtMostOneTerminal` | orchestration/remediation_workflow.py:537-571 | at most one terminal transition is recorded, it is the last, and success or rollback only after the mutation |
| `RemediationOutcomes.EventsSayWhatHappened` | orchestration/control_plane_activities.py:482-749 | in every run each event carries what its step is about, and an outcome goes to the lifecycle status its own terminal word names |
| `RemediationOutcomes.GatesCloseInTheirOwnWords` | orchestration/remediation_workflow.py:317-353 | each gate lets the run on or closes it under its own word, reason and approver |
| `RemediationOutcomes.WaitsUntilTheDeadline` | orchestration/remediation_workflow.py:512-537 | an approval is waited for until its deadline, then the run closes for want of one |
| `RemediationOutcomes.AttemptsAreCounted` | orchestration/remediation_workflow.py:371-395 | a step is attempted five times and the action once; the last lost attempt breaks the run off |
| `RemediationOutcomes.FinishesAsToldBySteps` | orchestration/remediation_workflow.py:355-369 | a finished run is escalated, denied, or ended under the status, reason and approver of its one action, exactly as its gates and its action answered |
| `ContextPacket.BoundedPacket` | company_brain/context_packet.py:217-332 | selection and the eviction loop terminate for every size function with the result of the specification |
| `ContextPacket.SelectRelationships` | company_brain/context_packet.py:231-252 | the greedy choice under the relationship and evidence limits, with every refusal counted |
| `ContextPacket.SelectExtras` | company_brain/context_packet.py:254-266 | the uncited references that still have room, with the rest counted |
| `ContextPacket.PacketEvidence` | company_brain/context_packet.py:383-401 | collects the references by id, or refuses when two of one id differ |
| `ContextPacket.KeysAreOrdered` | company_brain/context_packet.py:479-482 | relationship keys are compared by source, then kind, then target |
| `PacketLaws.EvictOne` | company_brain/context_packet.py:304-331 | one eviction takes the last of extras, then limitations, then conflicts, then relationships |
| `PacketLaws.SettlesOnTheFirstFit` | company_brain/context_packet.py:284-332 | the loop settles on the first stage of the fixed eviction order that fits, and fails only when none does |
| `PacketLaws.ChosenAccounts` | company_brain/context_packet.py:231-252 | kept and refused relationships add up, within both limits, and nothing is refused for number before the limit is reached |
| `PacketLaws.ChosenInTurn` | company_brain/context_packet.py:231-252 | each relationship is taken in turn exactly when it has room beside those taken before it, and is otherwise counted under the limit that refused it |
| `PacketLaws.SelectionFillsTheRoom` | company_brain/context_packet.py:254-282 | extras, limitations and conflicts are the first ones, as many as their limits leave room for, with the rest counted |
| `PacketLaws.BuiltIsWithinItsLimits` | company_brain/context_packet.py:167-215 | whatever the context, a returned packet keeps every limit, is sorted, holds what it cites and carries its context's header |
| `PacketLaws.NothingGoesUncounted` | company_brain/context_packet.py:438-454 | kept plus counted omissions equals the source count for relationships, limitations and conflicts |
| `PacketLaws.CitationsAreWhole` | company_brain/context_packet.py:205-214 | a kept relationship is one of the context's and keeps every reference exactly as cited |
| `PacketLaws.RelationshipsGoLast` | company_brain/context_packet.py:304-331 | a relationship is evicted for its bytes only when no extras, limitations or conflicts remain |
| `PacketLaws.ConsistentContextsAreNotRejected` | company_brain/context_packet.py:124-132 | a consistent context yields a packet if and only if some stage fits; validation never turns it away |
| `PacketLaws.CompletePacketIsLossless` | company_brain/context_packet.py:134-138 | a packet without omissions keeps every relationship, limitation, conflict and reference of its context |
| `ContextHealth.ContextHealthReport` | company_brain/context_health.py:101-153 | one issue per reason with its count, none exactly when the context is proposal-eligible; a packet of another context is refused |
| `ContextHealth.GatesAgree` | company_brain/decision_brief.py:115-124 | for a packet built from the context, health is ready if and only if the brief needs no human review |
| `ContextHealth.ForeignPacketSplitsTheGates` | company_brain/context_health.py:107-110 | only version and qualification are compared, so the packet built from an empty context of the same version makes the gates disagree |
| `ContextHealth.GatesAgreeIff` | company_brain/context_health.py:107-163 | on a packet built from another context the gates disagree exactly when it omits nothing and one of the two contexts has limitations or conflicts where the other has none |
| `EvidenceReceipts.SqliteEvidenceReadReceiptStore.Record` | company_brain/evidence_receipts.py:362-388 | append-only: an exact replay is accepted, a different receipt under a used id is refused, and no row ever changes |
| `EvidenceReceipts.EvidenceReadReceiptAuthority.Issue` | company_brain/evidence_receipts.py:193-288 | issues exactly when the packet is the deterministic projection of the context, the lifetime is allowed and a qualified read retained evidence |
| `EvidenceReceipts.EvidenceReadReceiptAuthority.RequireForProposal` | company_brain/evidence_receipts.py:290-334 | accepts exactly a stored, matching, signed, current, qualified, complete and non-empty receipt |
| `EvidenceReceipts.RunsStayHonest` | company_brain/evidence_receipts.py:193-334 | in every run, even with rows rewritten in storage, a signature in the table was made for a read that could be issued |
| `EvidenceReceipts.IssuedExactlyFor` | company_brain/evidence_receipts.py:193-288 | a read is issued a receipt exactly when its packet is what the context projects to and its lifetime is allowed |
| `EvidenceReceipts.SupportedIffNoObjection` | company_brain/evidence_receipts.py:305-334 | a receipt is accepted exactly when scope, principal and packet are its own, the signature holds, the time is within its life and the read was qualified, complete and kept evidence |
| `EvidenceReceipts.IssuedSupportsWhileCurrent` | company_brain/evidence_receipts.py:290-334 | an issued receipt of a whole qualified read with evidence is accepted for its own reader at exactly the instants of its lifetime, and one of another read never |
| `EvidenceReceipts.AcceptedWasIssuedForAWholePacket` | company_brain/evidence_receipts.py:305-334 | an accepted receipt was issued to this scope and principal for a whole, qualified packet with every reference of its context |
| `Reachability.ImpactIsLeast` | company_brain/world_model.py:441-448 | the impact is the least set holding the changed items and closed under dependents |
| `Reachability.ImpactIsReachability` | intelligence/graph.py:36-40 | an item is in the impact if and only if a chain of dependencies leads from it to a changed item |
| `Reachability.ImpactGrows` | intelligence/graph.py:36-40 | more changed items and more links never shrink the impact |
| `ServiceGraph.ServiceGraph.DependentsOf` | intelligence/graph.py:21-34 | the stack loop ends with exactly the impact of the direct dependents |
| `ServiceGraph.ServiceGraph.BlastRadius` | intelligence/graph.py:36-40 | the union over the changed services is exactly the impact of all of them |
| `ServiceGraph.ServiceGraph.MaxTier` | intelligence/graph.py:42-44 | the lowest tier number among known services, three when none is known |
| `WorldModelQueries.FindCycles` | company_brain/world_model.py:361-381 | each usable mutual dependency is reported exactly once and both its keys are marked |
| `WorldModelQueries.FindAmbiguities` | company_brain/world_model.py:383-405 | each service with more than one asserted owner is reported exactly once |
| `WorldModelQueries.DetectConflicts` | company_brain/world_model.py:358-420 | the qualifications come back with exactly the mutual pairs excluded and every conflict noted where it applies |
| `WorldModelQueries.BlastRadius` | company_brain/world_model.py:423-448 | the indexed worklist ends with exactly the impact of the changed services over usable links |
| `WorldModelQueries.QueryContext` | company_brain/world_model.py:162-250 | the loops together compute the qualified context of the specification |
| `WorldModelLaws.DetectionExcludesExactlyMutualPairs` | company_brain/world_model.py:411-419 | after detection an edge is unusable exactly when it was or is half of a usable mutual pair, and nothing else about it changes |
| `WorldModelLaws.MutualPairsShareOneConflict` | company_brain/world_model.py:364-381 | both edges of a mutual pair are excluded under one and the same conflict |
| `WorldModelLaws.IndexedWithinScanned` | company_brain/model.py:273-284 | the indexed impact never exceeds the one the in-memory model scans for |
| `WorldModelLaws.IndexedEqualsScanned` | company_brain/model.py:273-284 | the two are equal when every dependency is usable and joins known services |
| `WorldModelLaws.HiddenEvidenceDoesNotInterfere` | company_brain/world_model.py:162-339 | two tenants that differ only in evidence hidden from a principal give that principal the identical context |
| `WorldModelLaws.UsableIsSupported` | company_brain/world_model.py:289-339 | a usable relationship rests on authorized, fresh and sufficient evidence and is in no mutual pair |
| `WorldModelLaws.ReadsFailClosed` | company_brain/model.py:125-130 | a principal that may see no evidence gets no path, no owner and no confidence |
| `QualifiedReads.ShownExactlyWhenShared` | company_brain/model.py:125-130 | a cited pointer that shares a group or a user with the principal is shown as stored; any other is withheld and counted |
| `QualifiedReads.UsableExactlyWhenSupported` | company_brain/world_model.py:289-339 | a relationship is usable exactly when fresh authorized evidence reaches the threshold; stale evidence never counts, and each reservation is made exactly when it holds |
| `QualifiedReads.QualifiedDescribes` | company_brain/world_model.py:341-355 | evidence is qualified by its age under the first rule that names its source kind, or the fallback |
| `QualifiedReads.ConflictsSay` | company_brain/world_model.py:358-420 | the conflicts are exactly the usable mutual dependencies and the services with more than one asserted owner, each noted on its own edges |
| `QualifiedReads.ScopeSays` | company_brain/world_model.py:162-215 | changed services, impact and owners of a context, stated on the usable edges of the tenant |
| `QualifiedReads.EntitySays` | company_brain/world_model.py:252-287 | an entity is as certain as the fresh evidence of its own evidence edges |
| `QualifiedReads.ExplanationSays` | company_brain/world_model.py:199-250 | the relationships of a context are exactly those that touch its scope, and its confidence is the least a decision may rest on |
| `QualifiedReads.ReservationsSay` | company_brain/world_model.py:451-475 | the evidence of a context is listed once, and each limitation is reported exactly when it holds |
| `WorldModelLaws.CorroborationNeverLowers` | company_brain/world_model.py:486-487 | another piece of evidence never lowers a combined confidence, which stays at most one and at least its best piece |
| `Ingestion.IngestionPipeline.ApplyChanges` | ingestion/pipeline.py:36-69 | the writes of an event in order, index before catalog, cut off exactly where one fails, with the counts of a full application |
| `Ingestion.IngestionPipeline.Process` | ingestion/pipeline.py:27-34 | an event this process remembers changes nothing; a raised one is not remembered |
| `Ingestion.AppliedDecides` | ingestion/pipeline.py:47-69 | applying changes decides index and catalog for their documents, whatever was there before |
| `Ingestion.ReapplyingEqualsApplying` | ingestion/pipeline.py:47-69 | applying an event again after any of its writes ends where one uninterrupted application ends |
| `Ingestion.SameFingerprintIff` | ingestion/catalog.py:39-56 | fingerprints are equal exactly when source, text, language, owner, service, readers by group and readers by user are |
| `Ingestion.RowDescribesItsChange` | ingestion/catalog.py:102-106 | a catalog row carries the source, attributes, readers, state and event of its change |
| `EventPayload.EventRoundTrip` | ingestion/replay.py:12-35 | a queued payload decodes to the event it was made from |
| `IngestionLedger.IngestionWorker.Handle` | ingestion/worker.py:24-34 | a completed event is skipped, a failed one is queued and raised again, a processed one is completed |
| `IngestionReplay.DLQReplayer.ReplayAll` | ingestion/replay.py:43-53 | every row queued at the start is replayed once and leaves the queue unless it raised again |
| `IngestionReplay.EveryRunIsSettled` | ingestion/ledger.py:42-82 | in every run a failed event is queued, a completed one is not, and each row encodes an event of its id |
| `IngestionReplay.CompletedIsFinal` | ingestion/worker.py:25-26 | once completed an event stays completed, is never queued again and delivering it again changes nothing |
| `IngestionReplay.QueuedUntilCompleted` | ingestion/ledger.py:58-82 | a failed event stays queued until it is completed |
| `IngestionReplay.ReplayEqualsUninterrupted` | ingestion/replay.py:43-53 | an event that failed after any of its writes and is replayed after unrelated work leaves index and catalog as success would have |
| `Reconciliation.ApplyingCandidatesMatches` | ingestion/reconciliation.py:54-65 | applying the candidates makes the scope exactly the manifest with matching fingerprints and leaves other scopes alone |
| `Reconciliation.CompleteSays` | ingestion/reconciliation.py:36-48 | a manifest is refused exactly for a record that is no upsert, is of another scope or repeats a document |
| `Reconciliation.MatchSays` | ingestion/reconciliation.py:50-64 | a scope that matches holds an active row for each manifest document and no other, with its attributes and readers as they are now |
| `Reconciliation.SourceReconciler.Observe` | ingestion/reconciliation.py:32-53 | accepts exactly a complete manifest of one scope and collects what is out of date |
| `Reconciliation.SourceReconciler.Reconcile` | ingestion/reconciliation.py:32-73 | on success the scope holds exactly the manifest with its attributes and readers, the counts add up, other scopes are untouched, and a scope that already matches is not written |
| `Risk.AssessChange` | intelligence/risk.py:59-102 | the factors that apply, each with its own points and in order; the score is their sum up to 100, and its band |
| `Risk.RiskIsMonotone` | intelligence/risk.py:59-102 | with tiers of at least one, more dependencies, services, files, flags or past failures never lower the score nor drop a required control |
| `Risk.ControlsSetIn` | intelligence/pr_guardian.py:15-21 | the score at which each control sets in |
| `Risk.TierZeroLowersTheScore` | intelligence/graph.py:42-44 | the tier condition is needed: a tier-zero dependent lowers the score of the same change |
| `RiskCalibration.EvaluateThreshold` | intelligence/risk_calibration.py:54-66 | the four counters are the four tallies of the outcomes |
| `RiskCalibration.CellsPartitionTheSamples` | intelligence/risk_calibration.py:54-66 | the four counts partition the samples, and two of them the failures |
| `RiskCalibration.PositivesFallWithTheThreshold` | intelligence/risk_calibration.py:54-66 | raising the threshold never adds a true or a false positive |
| `RiskCalibration.Sweep` | intelligence/risk_calibration.py:105-137 | the sweep finds a feasible grid threshold that none is better than, or there is no feasible one |
| `RiskCalibration.Calibrate` | intelligence/risk_calibration.py:69-151 | a score out of range raises; the default is kept exactly when the samples allow nothing else; otherwise the choice is unbeaten |
| `RiskCalibration.UnbeatenMissesLeast` | intelligence/risk_calibration.py:105-137 | the choice meets both constraints; of all that do it misses fewest, then is most precise, then closest to the default, then lowest |
| `RiskCalibration.ClassificationIsMonotone` | intelligence/risk_calibration.py:154-166 | a higher score is never classified lower, whatever the threshold |
| `RiskCalibration.ClassesBegin` | intelligence/risk_calibration.py:154-166 | the scores at which each class begins, for every threshold |
| `RiskCalibration.EveryClassOccursIff` | intelligence/risk_calibration.py:154-166 | every class is given to some score if and only if the threshold is between 16 and 75 |

## Left out

- Timestamps of store rows, audit events, journal rows and catalog rows: they carry no decision in the modelled code.
- BrainStore: one keyed table stands for the three record tables, and the audit log is one sequence for the tenant.
- BrainStore.CompanyBrainStore.Put: the stored payload text and its codecs are not modelled; the row holds the value.
- MemoryProjector: the in-memory order in which projected facts are read back is any enumeration of the sets, which covers the sorted order the code uses.
- MemoryReplay: a single writer per tenant, as the code assumes; concurrent projections of one tenant are not modelled.
- BrainProjector: ids are matched by their structure; two files whose paths share a colon-separated suffix are not confused.
- CompanyBrain.CompanyBrain: the unqualified context query and the listing of owners and services of the in-memory model; the qualified query over the store is modelled instead.
- WorldModel: output tuples are sets, maps or listings in store order instead of sorted tuples; the evidence of an entity is combined in order of first mention, which does not matter for a product of reals.
- ContextPacket: rendering to JSON; its size is any function of the packet, and listing by sorted key is left implicit in maps.
- ContextHealth: issue messages; issues are a map from kind to count, as they are unique and sorted by kind.
- EvidenceReceipts: the HMAC and its key; a signature under the secret is a value that only issuing can make, and rewriting stored rows is allowed in every run.
- ControlPlane: fields that are the same for every event of one workflow, and the identifier and digest formats of an event.
- RemediationActivities.Persist: attempts of one activity follow each other; an attempt that goes on after its timeout beside its successor is not modelled.
- RemediationWorkflow: the evidence provider and the planner are deterministic, as one workflow's inputs; signature, policy, rehearsal and action answer anything, and a verdict is lost with its worker at any point.
- RemediationWorkflow: a certified runbook has a name and a plan has a hash, as the catalog makes them; the references of an execution and of a rollback are not carried.
- RemediationWorkflow.Next: the deadline only enables the time-out; a signal may also be drained after it, which allows more runs than the code does.
- JobQueue: a runner that dies while holding a lease is outside the progress statements.
- ConcurrencyLock: lease ids are fresh numbers and the default lifetime is a parameter.
- Ingestion: the Company Brain projections inside the pipeline and a pipeline without a catalog; index and catalog only.
- EventPayload: JSON text; the payload is a tree of values, and a value of another type than the code expects does not decode.
- IngestionReplay.ReplayedInOrder: the rows are replayed in any order that lists each once, which covers the order by creation time.
- Reconciliation: the order by path in which missing documents are deleted.
- Risk: the wording of factors; they are named values with the points of the code.
- RiskCalibration: confidence figures and evidence texts of a calibration.
- HTTP routes, settings, authentication, telemetry, portal and finance views, Markdown rendering, chunking, embeddings and search ranking: no invariant beyond their own bodies.
- Clients of SQLite, Temporal, Azure, GitHub and Kubernetes, the digital twin, the canary executor and the policy evaluators: they enter only as steps with any answer.
- Length and pattern checks on text fields, except the plan-hash and blank checks of the approval signal: they only refuse values.
