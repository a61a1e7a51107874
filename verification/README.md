# ChoraMem core: a verified model

ChoraMem keeps an Agent's long-term memory. Hosts report what happened (`Observe`,
`ReportOutcome`), ask for relevant memory (`SelectMemory`), say which memory the model
was shown (`RecordMemoryDelivery`), and a background worker turns the recorded evidence
into Recollections and Disposition Seeds. A disposable semantic index is projected from
the canonical tables.

This project models that core in Dafny and proves what it keeps over whole runs. Tables
are maps, each PostgreSQL transaction is one atomic step, and work the program splits over
several transactions (snapshot, Worker, commit; lease, apply, acknowledge) is split into
several steps that anything else may interleave with. Time is any integer. The Worker, the
semantic index and the ranker may answer anything at all. References that the program
derives by hashing are structured values: SHA-256 is taken to be collision-free, and
`Framing` and `RequestHashes` prove that the bytes being hashed determine the request.

| part | files | what is proved |
|---|---|---|
| MemoryIndex projection | `ProjectionModel`, `ProjectionSafety`, `ProjectionRebuild`, `Projector` | when nothing is unacknowledged the index is exactly the canonical documents, save exactly those a broken-off Rebuild left behind; acknowledged operations are a prefix of every stream |
| Consolidation Jobs and scheduler | `JobWindows`, `JobModel`, `JobSafety`, `JobTheorems`, `Scheduler` | conservation, first-in first-out, exactly-once effects, drain bound, powerless stale tokens |
| Causal lifecycle and versions | `Causal`, `LifecycleModel`, `LifecycleSafety`, `LifecycleIntake`, `LifecycleCommit`, `LifecycleChanges`, `LifecycleBatch`, `LifecycleTheorems`, `LifecycleResults`, `LifecycleStore` | no self-feedback, complete feedback chains, version store, frozen receipts and contexts, no lost update |
| Anchors of other owners | `LifecycleAnchors`, `LifecycleWitness` | exactly when a window loads, and a run after which one never does |
| One system | `LifecycleJobs`, `LifecycleQueue`, `LifecycleProjection` | intake, queue and engine in one run: scheduled windows are well formed and a drained owner is consolidated; every lifecycle transaction is a sequence of canonical commits of the projection, so a quiescent index is exactly the live memory |
| Intake | `Ledger`, `Intake` | the relational intake with cached Episode refs refines the in-memory Ledger |
| Selection | `Ordering`, `Selection`, `SelectionRanking` | the result ignores input order and is the best few of each kind |
| Tagged text | `TaggedText`, `TaggedTextRoundTrip` | parsing undoes printing; what is accepted is well formed |
| Window evidence | `WindowEvidence` | precedence of origins; the focused formation basis |
| Request hashes and refs | `Framing`, `RequestHashes`, `Naming` | a hash decides the request; the derived refs name Episodes, Outcomes and memories injectively |
| Shared | `Refs` | references, their order, version names, byte lengths |

Each state machine has the same shape: a datatype of tables, a `Step`, a total or guarded
`Do`, runs, an invariant kept by every step, and theorems over `Reachable` states or over
runs. The classes (`Projector`, `Scheduler`, `LifecycleStore`, `Intake`, `Ledger`) do the
work in place, with the program's loops, and every method's contract ties it to the model.

Two things do not hold of the program as it stands; each has a concrete run and the exact
condition under which the property does hold.

- A Rebuild that breaks off leaves documents missing although nothing is outstanding
  (`ProjectionSafety.AbandonedRebuildLosesDocuments`). The index is canonical if and only if
  no canonical document lies after the Rebuild's cursor (`ProjectionRebuild.BrokenOffRebuildIff`),
  or, after a failed page write, if and only if those that do are among the documents stored
  (`FailedPageIff`); after a failed Reset, if and only if it had no effect or there is nothing
  to hold (`FailedResetIff`). Over whole runs: if and only if every document that a Reset
  removed has been written or superseded since (`QuiescentIndexIff`).
- A TEXT revision may rest an Agent's Seed on an Episode of one of the Agent's relationships
  (`LifecycleWitness.ForeignAnchorHappens`). A window loads if and only if every Seed it shows
  has only anchors of its own owner (`LifecycleAnchors.WindowLoadsIff`), so such a Seed is
  never revised again (`ForeignAnchorBlocksForever`), and a frozen Job whose window must show
  it stalls its owner's queue for good (`LifecycleQueue.ForeignAnchorStallsOwner`).

## Model

| member | source | states |
|---|---|---|
| ProjectionSafety.QuiescentIndexIsCanonical | memoryindex/projector.go:92-176 | in every run of one Projector with commits, faults, retries and completed Rebuilds, when no operation is unacknowledged and no Rebuild is in progress the index holds exactly the active canonical documents with their current text |
| ProjectionSafety.ReachableIsSynced | internal/storage/postgres/memory_index_projection.go:18-186 | in every reachable state each key either agrees with the canonical tables or has an unacknowledged operation, sequences rise within a stream in the order of its rows, and acknowledged operations are a prefix of every stream |
| ProjectionSafety.AbandonedRebuildLosesDocuments | memoryindex/projector.go:142-176 | a concrete run: a Rebuild that stops after its Reset leaves a quiescent queue beside an index that misses a document |
| ProjectionRebuild.BrokenOffRebuildIff | memoryindex/projector.go:142-176 | a Rebuild broken off between two of its calls, with nothing outstanding, leaves the index canonical if and only if no canonical document lies after its cursor |
| ProjectionRebuild.FailedPageIff | memoryindex/projector.go:164-166 | after a page write that failed part-way: if and only if every canonical document after the cursor is among those stored |
| ProjectionRebuild.FailedResetIff | memoryindex/projector.go:149-151 | after a Reset that reported failure: if and only if it had no effect or there is no canonical document |
| ProjectionRebuild.QuiescentIndexIff | memoryindex/projector.go:92-176 | over every run, whatever failed or broke off: once nothing is outstanding the index holds current texts of exactly the canonical documents not wiped by a Reset and left unwritten, so it is canonical if and only if there is none |
| ProjectionSafety.CommitPreserves | internal/storage/postgres/memory_index_projection.go:77-115 | a formation, revision or Episode link keeps the invariant: whatever it changed canonically has a fresh unacknowledged operation |
| ProjectionSafety.HydratePreserves | memoryindex/projector.go:118-140 | reading the canonical document before writing it keeps the invariant although commits may land in between |
| ProjectionSafety.AcknowledgePreserves | internal/storage/postgres/memory_index_projection.go:188-202 | acknowledging the applied operation never hides a disagreement |
| ProjectionSafety.StorePagePreserves | memoryindex/projector.go:142-176 | writing a rebuilt page, wholly or partly, keeps every key behind the cursor right |
| ProjectionSafety.MissingDocumentIsDeleted | internal/storage/postgres/memory_index_projection.go:223-320 | an UPSERT whose document is gone has a later DELETE for it still unacknowledged |
| Projector.CursorRoundTrip | internal/storage/postgres/memory_index_projection.go:398-411 | parsing a printed page cursor gives its kind order and ref back |
| Projector.CursorAdvances | memoryindex/projector.go:142-176 | every further page leaves strictly fewer keys, so Rebuild terminates |
| Projector.CursorMoves | memoryindex/projector.go:168-173 | the next page's cursor is a different string, so the not-advanced error cannot occur |
| Projector.FirstKeys | internal/storage/postgres/memory_index_projection.go:322-396 | the page is the least `limit` keys in order and says whether any is left |
| Projector.Store.EnqueueOperation | internal/storage/postgres/memory_index_projection.go:18-75 | rejects an incomplete identity, ignores a known operation, else appends with the stream's next sequence |
| Projector.Store.LeaseOperation | internal/storage/postgres/memory_index_projection.go:129-186 | leases the oldest due operation whose stream has nothing earlier unacknowledged, and finds one exactly when one exists |
| Projector.Store.Acknowledge | internal/storage/postgres/memory_index_projection.go:188-202 | marks the row only for the token that holds it |
| Projector.Store.Release | internal/storage/postgres/memory_index_projection.go:204-221 | releases the row only for the token that holds it |
| Projector.Store.FetchPage | internal/storage/postgres/memory_index_projection.go:322-396 | a page limit outside 1..1000 is an error; otherwise the ordered page after the cursor |
| Projector.Projector.ProcessOne | memoryindex/projector.go:92-116 | one lease, apply and acknowledge or retry, with commits landing anywhere, is a run of the model; it does nothing exactly when nothing is leasable |
| Projector.Projector.Rebuild | memoryindex/projector.go:142-176 | keeps the invariant under failed and partly written pages and with commits before every read and before every page write; it succeeds exactly if the index is clean afterwards; when it fails after its Reset, a settled document agrees if and only if it is not canonical, not after the cursor it names, or among the documents of its last write |
| Refs.RootOfVersionName | internal/storage/postgres/memory_index_projection.go:117-122 | the stream identity taken from a version ref is the root a later revision names |
| Refs.VersionNameInjective | internal/storage/postgres/feedback_consolidation.go:636-637 | "root@number" names one version only |
| JobTheorems.EffectsExactlyOnce | internal/storage/postgres/consolidation.go:101-175 | in every reachable state no Job took effect twice; effects, receipts and frozen windows agree; completed Jobs took effect; no processor met ErrWindowConflict |
| JobTheorems.ReachableInOrder | internal/storage/postgres/consolidation_jobs.go:211-241 | effects of one owner were committed in job_order |
| JobTheorems.ReceiptsAreFrozen | internal/storage/postgres/consolidation.go:165-175 | a receipt is the same in every later state |
| JobTheorems.OneCollectingOneFrozen | internal/storage/postgres/consolidation_jobs.go:87-241 | one owner has at most one collecting and one frozen open Job, the frozen one earlier; Jobs complete in job_order |
| JobTheorems.FrozenForever | internal/storage/postgres/consolidation_jobs.go:195-241 | a frozen window is identical over all retries and later states, and processors work on exactly it |
| JobTheorems.SupersededForever | internal/storage/postgres/consolidation_jobs.go:325-355 | a token its Job no longer carries can neither complete nor release it, now or ever |
| JobTheorems.LeaseSupersedes | internal/storage/postgres/consolidation_jobs.go:284-300 | leasing again supersedes the token carried before |
| JobTheorems.SettlingSupersedes | internal/storage/postgres/consolidation_jobs.go:325-355 | completing or releasing supersedes the token used |
| JobTheorems.EvidenceIsConserved | internal/storage/postgres/consolidation_jobs.go:16-125 | every recorded Episode and Outcome is in a Job of its owner, every Outcome beside its own Episode |
| JobTheorems.EvidenceOnlyMovesForward | internal/storage/postgres/consolidation_jobs.go:252-318 | over any run each Episode and each Outcome stays in its Job or moves to a later Job of the owner |
| JobTheorems.DrainedMeansConsolidated | internal/storage/postgres/consolidation_jobs.go:16-125 | when an owner has no open Job, each of its Episodes and Outcomes lies in a window whose effects were committed |
| JobTheorems.QueueStepsNeverFail | internal/storage/postgres/consolidation_jobs.go:403-457 | on a reachable queue neither the enqueue's constraint nor the lease's partition checks can fail |
| JobTheorems.DrainBound | internal/storage/postgres/consolidation_jobs.go:252-318 | without new evidence, windows frozen plus windows still needed never exceed the backlog divided by the window advance, both quotients rounded up |
| JobSafety.RaceIsHarmless | internal/storage/postgres/consolidation_jobs.go:87-113 | an enqueue that lost the race with a lease ends in the same rows as one that came after it |
| JobSafety.IntakePreserves | internal/storage/postgres/consolidation_jobs.go:19-157 | an intake puts its Episode with all of that Episode's Outcomes in the owner's collecting Job and keeps the queue invariant |
| JobSafety.LeasePreserves | internal/storage/postgres/consolidation_jobs.go:198-323 | a lease keeps the queue invariant, loses no evidence and never fails |
| JobSafety.LookUpNeverConflicts | internal/storage/postgres/consolidation.go:165-172 | a scheduled window's receipt look-up finds nothing or exactly its own receipt |
| JobWindows.FreezeSplits | internal/storage/postgres/consolidation_jobs.go:252-283 | freezing well-formed evidence succeeds: bounded window, nothing collected dropped, remainder Outcomes only with remainder Episodes, remainder smaller by the advance |
| JobWindows.FreezeInventsNothing | internal/storage/postgres/consolidation_jobs.go:252-283 | every ref of window and remainder was collected or in the previous window |
| JobWindows.PartitionSplits | internal/storage/postgres/consolidation_jobs.go:403-457 | Outcomes are split by their Episodes with none dropped or doubled |
| JobWindows.PartitionOutcomes | internal/storage/postgres/consolidation_jobs.go:403-457 | the loop fails exactly when some Outcome is outside its owner or without its Episode |
| JobWindows.AppendUniqueRefs | internal/storage/postgres/consolidation_jobs.go:467-486 | the merged list, and whether anything was added |
| JobWindows.AppendUniqueContents | internal/storage/postgres/consolidation_jobs.go:467-486 | the old list stays a prefix, contents are the union without empty refs, uniqueness is kept |
| Scheduler.PrependPreviousOverlap | internal/storage/postgres/consolidation_jobs.go:357-401 | the loop computes the overlap that the freeze theorem is about |
| Scheduler.FreezeWindow | internal/storage/postgres/consolidation_jobs.go:252-283 | the freezing branch with its clamp and loops is the split of the model |
| Scheduler.PreviousCompleted | internal/storage/postgres/consolidation_jobs.go:362-372 | the newest completed Job of the owner |
| Scheduler.JobStore.EnqueueEvidence | internal/storage/postgres/consolidation_jobs.go:19-125 | extends or creates the collecting Job exactly as the enqueue function says |
| Scheduler.JobStore.LeaseConsolidationJob | internal/storage/postgres/consolidation_jobs.go:198-323 | leases the first ready Job in job_order, freezing it once; an error or an empty queue changes nothing |
| Scheduler.JobStore.CompleteConsolidationJob | internal/storage/postgres/consolidation_jobs.go:325-339 | completes the row of the live token; reports a lost lease exactly when no row matches |
| Scheduler.JobStore.RetryConsolidationJob | internal/storage/postgres/consolidation_jobs.go:341-355 | releases the row of the live token; reports a lost lease exactly when no row matches |
| Scheduler.Processor.constructor | internal/scheduler/scheduler.go:82-111 | whatever the configuration, leases are valid, timers positive, and a window advances by at least one Episode |
| Scheduler.Processor.ProcessOne | internal/scheduler/scheduler.go:113-152 | whatever others do between its transactions the call is a run of the model; the Job completed or released is the one leased, and a completed one has the receipt of its window |
| LifecycleResults.NoSelfFeedback | internal/storage/postgres/feedback.go:387-414 | in every reachable state the runs behind a Seed version's formation or revision differ from the runs behind its reenactments and inhibitions |
| LifecycleResults.FeedbackRestsOnCompleteChain | internal/storage/postgres/feedback_consolidation.go:522-712 | every Outcome behind an inhibition or behavioral revision is non-Agent and attributed to a delivery of that exact version, frozen in the run's context before it and delivered before any AgentAct of the run |
| LifecycleResults.FeedbackMatchesExactly | internal/storage/postgres/feedback_consolidation.go:686-712 | inhibiting Episodes are exactly the Episodes of inhibiting Outcomes; revised Seeds cite each Outcome's Episode, and each cited Episode has a reason |
| LifecycleResults.EpisodesFeedOnce | internal/storage/postgres/feedback_consolidation.go:181-190 | an Episode feeds a version at most once; reenactments of one version come from distinct runs |
| LifecycleResults.OneActiveVersion | internal/storage/postgres/feedback_consolidation.go:636-656 | each Seed and Recollection has versions 1..n without gaps and exactly the n-th is active |
| LifecycleResults.ActiveTextsDiffer | internal/storage/postgres/recollection.go:238-259 | no two active memories of one owner, and application for Recollections, share a text |
| LifecycleResults.ReplayReturnsFirstReceipt | internal/storage/postgres/consolidation.go:70-176 | replaying a committed window in any later state returns the receipt first returned, at the first look-up (its Episodes still load) and inside the commit; another window under the Job conflicts |
| LifecycleTheorems.ReachableWindowsLoad | internal/storage/postgres/consolidation.go:84-102 | in every reachable state the window of every receipt loads, under its own tenant and Job |
| LifecycleResults.ReloadReturnsFirstContext | internal/storage/postgres/memory_context.go:689-859 | a frozen context reloaded in any later state equals the one first built; a different request conflicts; the kind-collision check never fires |
| LifecycleResults.NoLostUpdate | internal/storage/postgres/consolidation.go:136-257 | once a version was revised no later step supersedes it again, and a snapshot that still shows it, as a Seed or as a Recollection, can only be stale |
| LifecycleResults.CommitNeedsFreshView | internal/storage/postgres/consolidation.go:177-227 | a commit has effects only if every Seed shown is still active with the same text, anchors and basis, every Recollection shown is still active with the same text, application and basis, and the Worker's request is unchanged |
| LifecycleResults.CommitWritesOnlyLockedOwners | internal/storage/postgres/recollection.go:525-536 | every owner a commit writes is among those it locked |
| LifecycleResults.InvalidBatchCommitsNothing | internal/storage/postgres/consolidation.go:179-257 | an invalid batch leaves every memory table as it was and still freezes an empty receipt |
| LifecycleResults.SeedsBeginEligible | internal/storage/postgres/consolidation.go:388-558 | in every reachable state a Seed's first version rests on same-owner Episodes: two or more over two sessions or more with a non-Agent Situation each and no shared sealed source, or one with a user Situation |
| LifecycleResults.CommitFormsEligibly | internal/storage/postgres/recollection.go:433-444 | at the commit the basis is eligible on all links, and with a focused anchor it is exactly the anchor-first list of Episode and Outcome pairs |
| LifecycleTheorems.HistoryIsAppendOnly | internal/storage/postgres/feedback_consolidation.go:638-656 | over any run rows only accumulate, versions change only from active to superseded, and sealed Episodes gain only Outcomes |
| LifecycleTheorems.CommitNeverAborts | internal/storage/postgres/feedback_consolidation.go:636-656 | a commit that passes the receipt, window and staleness checks cannot fail on a constraint or a moved row |
| LifecycleChanges.FormationNeverCollides | internal/storage/postgres/consolidation.go:434-449 | the insert of a formation whose text is not taken finds no row under its ref |
| LifecycleIntake.DeliveryFindsNoEpisode | internal/storage/postgres/consolidation_jobs.go:159-193 | an accepted delivery finds no Episode of its run to enqueue |
| LifecycleStore.ClassifyFeedbackBasis | internal/storage/postgres/feedback_consolidation.go:666-684 | splits the refs, and is valid exactly when each is a feedback Episode, allowed anchor or feedback Outcome |
| LifecycleStore.ExactMatch | internal/storage/postgres/feedback_consolidation.go:686-712 | the marking loops decide exactly whether cited Episodes and Outcomes match |
| LifecycleStore.FeedbackBasisIff | internal/storage/postgres/feedback_consolidation.go:666-712 | the two loops together decide exactly the feedback basis of the commit rules |
| LifecycleStore.ValidFeedbackBasis | internal/storage/postgres/recollection.go:482-488 | the check made for INHIBIT and TEXT accepts exactly the feedback basis |
| LifecycleSafety.MaterializedHasRoles | internal/storage/postgres/consolidation.go:578-599 | a materialized Episode always passes the engine's stricter role check, as AgentAct links carry the scoped Agent |
| LifecycleStore.EligibleFormationBasis | internal/storage/postgres/consolidation.go:503-529 | the single pass with its seen-sets decides exactly formation eligibility |
| LifecycleStore.Store.RecordMemoryDelivery | internal/storage/postgres/feedback.go:17-89 | a new valid delivery is recorded, a known key replays exactly for the same request and conflicts for any other, everything else is rejected and changes nothing |
| LifecycleStore.Store.ValidateBindings | internal/storage/postgres/feedback.go:294-385 | accepts exactly deliveries of the run, links of the group, and an AgentAct when delivery-attributed |
| LifecycleStore.Store.ReportOutcome | internal/storage/postgres/feedback.go:91-171 | a malformed report is rejected first; a used key replays exactly for the same report and conflicts for any other; else the Outcome is inserted with its link, or rejected, changing nothing |
| LifecycleStore.Store.SelectMemory | internal/storage/postgres/memory_context.go:29-145 | answers from the frozen context, else freezes the selection it returns |
| LifecycleIntake.BuiltIsRead | internal/storage/postgres/memory_context.go:832-859 | what the activations say of each memory is what its item row and version row say |
| LifecycleStore.BuildMemoryContext | internal/storage/postgres/memory_context.go:832-859 | the loop builds the context from activations alone |
| LifecycleStore.LoadMemoryContext | internal/storage/postgres/memory_context.go:689-804 | the loops read the rows back, claiming each ref's kind; ambiguous exactly when a memory carries the Constitution's ref |
| LifecycleStore.Store.Commit | internal/storage/postgres/consolidation.go:136-257 | the commit transaction with its loop over changes is the commit of the model; a failed one changes nothing |
| LifecycleAnchors.AnchorOwners | internal/storage/postgres/feedback_consolidation.go:595-664 | in every reachable state a Seed's anchors lie in runs that may see it: a relationship's Seed has only its own, a foreign anchor of an Agent's Seed belongs to one of its relationships |
| LifecycleAnchors.WindowLoadsIff | internal/storage/postgres/feedback_consolidation.go:222-231 | a well-formed window with a sound offer loads if and only if every target it shows has only anchors of its own owner |
| LifecycleAnchors.ForeignAnchorBlocksForever | internal/storage/postgres/feedback_consolidation.go:163-231 | once an active Seed has an anchor of another owner it is never revised again, and in no later state does a window that shows it load |
| LifecycleWitness.ForeignAnchorHappens | internal/storage/postgres/feedback_consolidation.go:595-664 | a concrete run from the empty store to such a Seed and a well-formed window, through whose Episode it was delivered, that does not load whatever is offered |
| LifecycleJobs.SnapshotRefines | internal/storage/postgres/consolidation.go:84-110 | what the first look-up answers is what the Job model's snapshot step does, for any related states |
| LifecycleJobs.CommitRefines | internal/storage/postgres/consolidation.go:157-310 | the commit transaction is the Job model's commit step: same receipt and one effect, replay, conflict, or failure; the relation is kept |
| LifecycleQueue.IntakeIsEnabled | internal/storage/postgres/consolidation_jobs.go:127-157 | whenever an Observe or Outcome report changes a materialized Episode, the enqueue of the Episode with all its bound Outcomes can be made |
| LifecycleQueue.JointReachableInv | internal/storage/postgres/store.go:149-163 | in every joint run of intake, queue and engine both sides keep their invariants and mirror each other: same receipts, exactly the materialized Episodes and their Outcomes queued |
| LifecycleQueue.ScheduledWindowsLoad | internal/storage/postgres/consolidation.go:70-128 | whatever a processor works on is a well-formed window, Outcomes included: the engine never calls it invalid, and its state fails to load if and only if a shown Seed has a foreign anchor |
| LifecycleQueue.DrainedMeansRemembered | internal/storage/postgres/consolidation_jobs.go:16-125 | once an owner has no open Job, each of its materialized Episodes, and each Outcome beside its Episode, lies in a window with a receipt |
| LifecycleQueue.ForeignAnchorStallsOwner | internal/storage/postgres/consolidation_jobs.go:211-241 | a frozen Job whose window must show a Seed with a foreign anchor never completes over any further joint run, and no later Job of its owner is ever frozen, leased or completed |
| LifecycleProjection.StepProjects | internal/storage/postgres/memory_index_projection.go:77-115 | every lifecycle transaction is a sequence of enabled canonical commits of the projection, whatever the projector is doing |
| LifecycleProjection.CommitProjects | internal/storage/postgres/consolidation.go:238-302 | a consolidation commit forms and revises, change by change, exactly the documents that the projection model's changes form and revise |
| LifecycleProjection.QuiescentIndexIsMemory | memoryindex/projector.go:92-176 | over any interleaving of lifecycle and projector, a quiescent clean index holds exactly the materialized Episodes and the active versions with their current content |
| Causal.ObserveOnlyAdds | internal/core/ledger/ledger.go:170-214 | nothing admitted is changed, and a sealed Episode gains only Outcomes |
| Ledger.Ledger.ObserveEvent | internal/core/ledger/ledger.go:170-248 | the same errors before any change, the same sources and links, and the recomputed Episode with its links in order |
| Ledger.Snapshot | internal/core/ledger/ledger.go:216-248 | materialized exactly with a Situation and a distinct AgentAct; links sorted and complete |
| Ledger.DescriptionIsUnique | internal/core/ledger/ledger.go:233-247 | the Episode is determined by its links, whatever order the group is visited in |
| Intake.IntakeRefinesLedger | internal/storage/postgres/store.go:113-392 | after any sequence of calls a claimed Observe gives the error, Episode, sources and links that recomputing the snapshot gives |
| Intake.OutcomeRefines | internal/storage/postgres/feedback.go:119-156 | the linking part of ReportOutcome agrees with recomputing the snapshot and keeps its own row's Episode ref exact |
| Intake.AppendRefines | internal/storage/postgres/store.go:265-392 | appending through cached refs agrees with recomputing: same error, links and Episode; changed exactly for a new link |
| Intake.IntakeStaysExact | internal/storage/postgres/store.go:265-392 | after any sequence of calls link and Outcome rows carry the Episode ref exactly when their group is materialized, claims are frozen, sealed groups gained only Outcomes |
| Intake.ClaimsReplay | internal/storage/postgres/store.go:178-206 | a claimed key answers with its first receipt in every later state; a different request under it conflicts and changes nothing |
| Intake.IntakeStore.AppendLinkAndMaterialize | internal/storage/postgres/store.go:265-392 | the in-place inserts and back-fills are the append function |
| Intake.IntakeStore.ObserveEvent | internal/storage/postgres/store.go:113-263 | one transaction: claim, admit, append, freeze the receipt, or roll back |
| SelectionRanking.Select | internal/core/selection/selection.go:96-189 | for any input: an error exactly for an invalid policy; else the cap of the sorted activations of all candidates |
| SelectionRanking.SelectedIsRanked | internal/core/selection/selection.go:107-170 | for distinct candidates the ranking is strict and holds exactly the activations, so there is one result |
| SelectionRanking.SelectIgnoresOrder | internal/core/selection/selection.go:98-375 | equal results for distinct candidates, anchors and index matches in any order, and for queries in any order under which every ref stands for the same query |
| Selection.DistinctRefsResolveAlike | internal/core/selection/selection.go:202-207 | queries with distinct refs may come in any order; of several live ones with one ref the last is meant |
| SelectionRanking.KeptIsBestMax | internal/core/selection/selection.go:171-188 | an activation is kept if and only if fewer than Max of its kind rank before it |
| SelectionRanking.CappedContents | internal/core/selection/selection.go:171-188 | the result consists of exactly the kept activations |
| SelectionRanking.RanksBeforeIsLex | internal/core/selection/selection.go:145-170 | the comparison chain is one lexicographic order |
| SelectionRanking.Activate | internal/core/selection/selection.go:107-143 | a candidate is activated exactly by its best path, over the threshold or indexed and stronger than every live inhibition |
| SelectionRanking.CapEach | internal/core/selection/selection.go:171-188 | the counting loop is the cap |
| SelectionRanking.UnionCandidates | internal/storage/postgres/memory_context.go:672-687 | one entry per kind and version, canonical first, with the index matches of all of them |
| Selection.BestSupportPath | internal/core/selection/selection.go:191-308 | for any queries: the one best path among all indexed, direct and anchor paths, or none |
| Selection.BestIsUnique | internal/core/selection/selection.go:346-375 | a candidate has at most one best path |
| Selection.BetterIsLex | internal/core/selection/selection.go:346-375 | betterPath is a lexicographic order |
| Selection.BetterTotal | internal/core/selection/selection.go:346-375 | betterPath is a strict total order on one candidate's paths |
| Selection.EvidenceIsOwnAnchor | internal/core/selection/selection.go:191-308 | an activation cites one of its candidate's own live support anchors |
| Selection.BestInhibition | internal/core/selection/selection.go:310-325 | the strongest live inhibiting association |
| Selection.LiveAnchors | internal/core/selection/selection.go:327-344 | exactly the complete anchors, sorted |
| Selection.Normalize | internal/core/selection/selection.go:377-388 | a score in 0..1 whatever the ranker returns, unchanged when already there |
| TaggedTextRoundTrip.ParseUndoesPrint | internal/storage/contracttest/contract.go:809-817 | for every well-formed list within the size limit parsing its print gives the list |
| TaggedTextRoundTrip.ParseUndoesPrintAs | internal/storage/contracttest/adaptive_seeds.go:708-710 | the same with each text inline or on a line of its own, in any mixture |
| TaggedTextRoundTrip.ParseIsWellFormed | internal/core/consolidation/parser.go:40-187 | every accepted input yields a well-formed list |
| TaggedTextRoundTrip.ParsePrintParse | internal/core/consolidation/parser.go:40-134 | the print of what was parsed is no longer than the input and parses to the same list |
| TaggedText.WellFormedListMeans | internal/core/consolidation/parser.go:59-132 | well formed means: each change sound, and no existing target twice |
| TaggedText.ParseTaggedText | internal/core/consolidation/parser.go:40-134 | the offset loop with its seen-maps terminates in range and is the grammar |
| TaggedText.ScanBasis | internal/core/consolidation/parser.go:106-122 | the basis loop accepts exactly non-empty lists of distinct valid refs up to the next TARGET |
| TaggedText.ReadOperation | internal/core/consolidation/parser.go:87-101 | inline and own-line texts, and the three bare operations |
| WindowEvidence.DispositionFormationBasis | internal/core/consolidation/evidence.go:51-126 | the three loops give one basis or none, as one condition says |
| WindowEvidence.FormationBasisMeans | internal/core/consolidation/evidence.go:48-126 | the basis starts with the current anchor, goes on with candidates, and pairs each Episode with its only non-Agent Outcome |
| WindowEvidence.HasDispositionFormationAnchor | internal/core/consolidation/evidence.go:35-46 | true exactly for one marked anchor |
| WindowEvidence.AssemblePrefersCurrent | internal/core/consolidation/evidence.go:152-178 | every Episode appears once, as current before related before revision anchor |
| WindowEvidence.AssembleWindowEvidence | internal/core/consolidation/evidence.go:152-178 | the appending loops are that assembly |
| Framing.FrameInjective | internal/storage/postgres/store.go:536-547 | the length-prefixed framing is injective on field lists |
| Framing.HashFields | internal/storage/postgres/store.go:536-547 | the loop writes exactly the framing |
| Framing.HashDecides | internal/storage/postgres/store.go:536-547 | two lists of strings have one hash exactly when equal |
| RequestHashes.ObserveHashDecides | internal/storage/postgres/store.go:499-520 | two Observe requests have one hash exactly when equal |
| RequestHashes.SelectHashDecides | internal/storage/postgres/memory_context.go:884-906 | two Select requests have one hash exactly when equal; with and without an evidence budget never coincide |
| RequestHashes.SortRefs | internal/storage/postgres/feedback.go:480-485 | the refs of a delivery in strict order, none lost |
| RequestHashes.DeliveryHashDecides | internal/storage/postgres/feedback.go:423-432 | two deliveries have one hash exactly when they differ at most in the order of refs |
| RequestHashes.WindowFieldsDecide | internal/storage/postgres/consolidation.go:896-908 | the window's fields determine it, as every Episode ref has the derived shape and none is the bare marker word |
| RequestHashes.WindowHashDecides | internal/storage/postgres/consolidation.go:896-908 | two windows have one hash exactly when equal |
| RequestHashes.MarkerIsNeeded | internal/storage/postgres/consolidation.go:896-908 | the framing relies on that shape: two lists of arbitrary words share their fields |
| Naming.ReceiptHashDecides | internal/storage/postgres/consolidation.go:679-739 | under one Job comparing window hashes is comparing windows of structured identities |
| Naming.JobNamesAreNamed | internal/core/ledger/ledger.go:361-380 | the derived Episode and Outcome refs are injective and never empty, as the joint run and the refinements ask |
| Naming.DocumentNamesAreGood | internal/storage/postgres/consolidation.go:875-894 | so are the derived Episode, Seed and Recollection refs, as the projection asks |

## Left out

- The MySQL adapter, SQL text, drivers, pools, migrations, transport, authentication and SDKs.
- The Worker, the semantic index and the lexical scorer: they may return anything; the bounded ranking of the dispositions and Recollections offered to the Worker is any subset of the active ones.
- Rendering of the Worker's prompt: a request is the sources it is rendered from.
- Clocks, polling and liveness under permanent provider failure; the theorems are about drained or quiescent states.
- A second projector process that writes after its lease has expired: one Projector is assumed, as its mutex and deployment do.
- Monotonicity of selection when an index match is added: an indexed path replaces a stronger lexical one before the inhibition test.
- Advisory locks: a transaction is one step; that writes stay within the locked owners is proved.
- The staleness hashes of a snapshot (feedback state, Recollection state, Worker request) are compared as the values they are taken of.
- Hash truncation to 16 bytes in Seed, Recollection and Outcome refs; injectivity of the Outcome report's field list.
- Validation of Select, Delivery and Outcome requests beyond what is listed (byte limits of their refs): the lifecycle accepts more.
- SelectionRanking.SelectIgnoresOrder: for distinct candidates, which `UnionCandidates` provides; among activations with one kind and version the order of equal keys is the sort's own.
- Intake.OutcomeRefines: the key look-up and the bindings of ReportOutcome are in `LifecycleStore.Store.ReportOutcome`.
- LifecycleResults.SeedsBeginEligible: in later states the sources compared are those of Situation and AgentAct links, since Outcomes may still arrive; `CommitFormsEligibly` has all links.
- LifecycleStore.Store.Commit: reenactments of one batch are taken in citation order, not in ref order, since refs are opaque; which Episode of a run is chosen may differ.
- LifecycleStore.Store.SelectMemory: the ranked selection is a parameter; that it is the ranking is the subject of `SelectionRanking`.
