# The loan ledger, verified

A Dafny model of an event-sourced loan ledger and proofs about it. Applications,
compliance records and agent sessions are rebuilt by replaying streams; handlers load
streams, validate and append with an expected version; a hash chain runs through every
stream; projections, an outbox relay and a what-if projector read the same log. The
modules follow these parts:

- `Prelude`, `Events`, `Replaying`: optional values, the shared event vocabulary, replay.
- `HashChain`, `EventStore`: the chain, its verification and repair; appends with
  optimistic concurrency, the cached tail hash, the log reader.
- `LoanAggregate`, `ComplianceAggregate`, `SessionAggregate`: the three aggregates, each
  as a step function and as the object the program keeps.
- `Handlers`, `Outcomes`, `Verdicts`, `Interleaving`, `WriteCommandHandlers`, `Witnesses`:
  what handlers decide, exactly which commands are accepted and what they write, when the
  written stream still replays, all handlers interleaved one load or append at a time, the
  handlers as code over the store, and for every guard a command that is accepted and then
  breaks it.
- `Placement`, `ComplianceView`, `Summary`: which events live where, and the agreement of
  the projections and recomputations with the aggregates.
- `Daemon`, `Rebuild`: the checkpointed projection daemon, and the compliance tables with
  their shadow rebuild and point-in-time query.
- `WhatIf`, `Outbox`, `Chunker`, `Upcasting`: the causal walk, the lease and retry
  protocol, table chunking, and version chains.

Main results:

- Over every interleaving of handler loads and appends that obeys the commands' guards,
  every loan, compliance and session stream replays, and an approval checked against the
  live compliance record always passes the replay's check of the frozen status
  (`Interleaving.EveryRunStaysHealthy`). In every world that guarded steps reach, a commit
  leaves its stream replayable if and only if its guard held
  (`Interleaving.CommitReplaysIffGuard`). Over every interleaving at all, guarded or not, a
  committed batch was validated against exactly the events before it in its stream, and
  the second phase of a submission commits only if nothing entered the loan stream since
  the first (`Interleaving.EveryCommitSawItsStream`,
  `Interleaving.SecondPhaseFollowsTheFirst`).
- What a replayed record says is what its events say, told without the aggregates: a
  compliance record is FAILED iff some rule failed, CLEARED iff it was requested, nothing
  failed and every required rule passed (`ComplianceAggregate.StatusTellsTheEvents`), and
  likewise for loans (`LoanAggregate.StatusTellsTheEvents`). Every command is accepted
  exactly under stated conditions and writes exactly stated events: a check completes its
  record at the first failure or the last missing pass (`Outcomes.CheckWrites`), and a
  review ends the loan as the human decided (`Outcomes.ReviewEndsAsDecided`).
- On every guarded run the aggregate, the live projection and the batch recomputation agree
  on mandatory, passed and failed rules if and only if every rule event names its rule, and
  then on the status (`ComplianceView.AllThreeAgreeIff`).
- Every stream of every run verifies from position 1, and every kind of tampering is
  located and reported exactly, position by position and field by field
  (`EventStore.EveryRunKeepsTheChain`, `HashChain.ContentTamperReport`,
  `HashChain.HashFieldTamperReport`, `HashChain.DeletionReport`).
- The rebuild keeps "tables = fold of the events up to the checkpoint" through any
  interleaving with writers and daemon passes (`Rebuild.EveryInterleavingIsFaithful`). The
  point-in-time query is right for an application at every moment if and only if the clock
  never ran against the positions of its own events (`Rebuild.QueryIsRightIff`).
- Over every run of commits, daemon passes, batches of any size, resets and rebuilds,
  whatever fails in each of them, a projection is the fold of the log up to its checkpoint
  without its skips, and those are exactly the events whose last try since the last reset
  gave up (`Daemon.EveryTableIsItsFold`). One at the head is what a rebuild now would leave
  if and only if the rebuild gives up on the same events
  (`Daemon.IncrementalMatchesRebuildIff`).
- On any causation graph the memoised walk drops exactly the branch and its causal closure
  if and only if every other closure event lies after the branch and follows it or comes,
  up its chain of causes, to the branch or a closure event between the two
  (`WhatIf.WalkIsExactIff`); causes before effects are enough (`WhatIf.WellOrderedIsExact`).
- The outbox is safe under crashes and expired leases (`Outbox.EveryRunIsSafe`), a relay run
  is a run of that state machine (`Outbox.RunIsItsSteps`), and over any sequence of commits
  and runs claims never exceed the attempts the committed rows have
  (`Outbox.EveryClaimIsPaidFor`). The table bound of the chunker holds exactly under a
  condition on the header and rows (`Chunker.TableBound`).

Where the code falls short of its intent, the model keeps the code's behaviour and proves
when exactly it meets it:

- The compliance handler accepts rules outside the mandatory set, a pass of a failed rule,
  and blank versions or reasons that replay refuses (`Handlers.ComplianceBatchReplaysIff`);
  a decision is accepted while the loan is still SUBMITTED
  (`Handlers.DecisionBatchReplaysIff`), a review in states without a decision
  (`Handlers.ReviewBatchReplaysIff`), and a session start with a blank model version
  (`Handlers.SessionBatchReplaysIff`). `Witnesses` has an accepted command for each.
- A rule with an empty id counts for the aggregate and not for the projections. When its
  first pass completes the check, the projection still takes over the verdict; a second
  pass then sets it back to PENDING (`ComplianceView.UnnamedRuleDiverges`, a guarded run).
- For an empty application id, which the handlers accept, the projections keep no row at
  all, while the aggregates and the recomputations go on (`ComplianceView.FoldsReadTheStream`,
  `Summary.SummaryMatchesLoan`).
- A metadata write can plant a false tail hash, after which appends break the chain
  (`EventStore.AppendKeepsValidIffCacheSound`).
- An event that names a later event as its cause escapes the walk
  (`WhatIf.ForwardCauseIsMissed`), and so does one whose cause is not related to the
  application, unless it follows the branch anyway (`WhatIf.RelatedClosureIff`).
- A clock running against the positions misleads the point-in-time query
  (`Rebuild.ClockOutOfStepMisleads`).
- The daemon skips an event for good when its retries run out, so after an outage a table
  differs from the one that a rebuild leaves once attempts succeed
  (`Daemon.OutageIsRebuiltAway`); `Daemon.JournalMatchesRebuildIff` shows that no condition
  weaker than the exact one does for all projections.
- A header of one word less than the bound overflows by one word
  (`Chunker.UsualTableBound`); a bound of zero or less loses paragraph text
  (`Chunker.ChunkingEngine.SplitIntoParagraphChunks`).
- Upcasting makes readable what the payload model refuses
  (`Upcasting.UpcastKeepsTheDecisionIff`) and makes up a model for an analysis that names
  none (`Upcasting.UpcastKeepsTheAnalysisIff`); an agent is read back from its session
  stream only if the session id has no dash, so session ids in UUID form are attributed to
  the wrong agent name (`Upcasting.AgentIsReadBackIff`).

## Model

| member | source | states |
|---|---|---|
| HashChain.VerifiesIffSealed | src/integrity/audit_chain.py:122-155 | a stream verifies from position 1 exactly when its rows are the sealing of their own contents |
| HashChain.AppendVerdicts | src/event_store.py:175-250 | appending leaves the verdict on old rows alone; new rows are good from the true tail and all bad from any other hash |
| HashChain.AppendKeepsValidIff | src/event_store.py:175-250 | a batch keeps a valid stream valid if and only if it was chained from the true tail |
| HashChain.FinalHashIdentifiesContents | src/integrity/audit_chain.py:155-165 | equal final hashes come only from identical event content sequences |
| HashChain.ViolationsAreTheBadRows | src/integrity/audit_chain.py:132-153 | a violation is listed exactly for the rows with a hash field that differs from the recomputed one, with the row's position and a flag for each field that differs |
| HashChain.RunIntegrityCheck | src/integrity/audit_chain.py:100-167 | the checking loop: valid iff every row verifies, the final hash, and the violations in stream order |
| HashChain.ContentTamperIsLocated | src/integrity/audit_chain.py:118-166 | changing hashed content at position k of a valid stream is seen at exactly k and every later row |
| HashChain.HashFieldTamperIsLocated | src/integrity/audit_chain.py:118-166 | changing only the two hash fields at k is seen at exactly k |
| HashChain.DeletionIsLocated | src/integrity/audit_chain.py:118-166 | deleting event k is seen at exactly the rows after it, so a cut at the end leaves no trace |
| HashChain.ContentTamperReport | src/integrity/audit_chain.py:118-166 | after a content change at index k the listed positions are k+1 to n in order; the first has only its integrity hash in doubt, the later ones both fields |
| HashChain.HashFieldTamperReport | src/integrity/audit_chain.py:118-166 | after a change of the hash fields at k the one listed position is k+1, with a flag for each field that was changed |
| HashChain.DeletionReport | src/integrity/audit_chain.py:118-166 | after the deletion of row k the listed positions are the stored k+2 to n in order, each with both fields |
| HashChain.RepairVerdicts | src/event_store.py:694-742 | repair keeps the hashed contents, and what fails afterwards is what was bad and not repaired |
| HashChain.RepairTouches | src/event_store.py:694-742 | the mode for missing hashes changes only a row that lacks one, the other mode only a row that fails verification, and what is changed verifies |
| HashChain.TallyCounts | src/event_store.py:689-742 | as many violations are counted as the integrity check lists, and as many repairs as rows lack a hash or, in the other mode, as it lists |
| HashChain.TallyBalances | src/event_store.py:712-766 | violations = repaired + unresolved in both modes; nothing stays unresolved in missing_or_invalid mode |
| HashChain.SecondRunRepairsNothing | src/event_store.py:604-768 | a second run repairs nothing and finds only what the first left unresolved |
| HashChain.RepairedVerifiesIffNothingUnresolved | src/event_store.py:604-768 | a repaired stream verifies if and only if nothing was left unresolved |
| EventStore.AppendEffect | src/event_store.py:128-289 | a committed append was made at exactly the current version, extends its stream and the log by its batch, touches no other stream, and keeps positions 1..version and one outbox row per event |
| EventStore.AppendIsAcceptedIff | src/event_store.py:109-173 | exactly when an append is accepted: some events, the right version of the right aggregate type, not archived; and the error of every refusal |
| EventStore.AppendWritesRows | src/event_store.py:200-250 | each row has the next position, the draft's event and version, and the request's correlation and causation before the draft's own |
| EventStore.AppendWritesLog | src/event_store.py:219-273 | each event gets one log entry and one pending outbox row, numbered on, with the time of the append and the given topic or the aggregate's own |
| EventStore.AppendKeepsMetadata | src/event_store.py:128-160 | an append's metadata patch wins over the stream's own keys and leaves the others |
| EventStore.MetadataWrites | src/event_store.py:526-575 | a metadata write puts its keys over the stream's own or in their place, the cached tail included, and changes no other stream |
| EventStore.ArchiveEnds | src/event_store.py:577-602 | an archived stream takes no more events and notes who archived it and why |
| EventStore.CallerHashesAreIgnored | src/event_store.py:202-218 | previous_hash and integrity_hash supplied by a caller never affect what is stored |
| EventStore.ExtendingKeepsSound | src/event_store.py:175-289 | an append keeps a stream verified and its cached tail equal to the recomputed one |
| EventStore.AppendKeepsValidIffCacheSound | src/event_store.py:177-199 | an append keeps a valid stream valid if and only if the cached tail is empty or true |
| EventStore.WipedCacheIsRebuilt | src/event_store.py:182-199 | wiping a true cached tail changes nothing that a later append writes |
| EventStore.AdminKeepsEvents | src/event_store.py:526-768 | archiving, metadata writes and repairs leave every event and its stream where they are |
| EventStore.EveryRunKeepsTheChain | src/event_store.py:98-289 | after any run of appends, archives, repairs and metadata writes sparing last_integrity_hash, every stream verifies and every cached tail is the recomputed one |
| EventStore.RepairedStreamIsSoundIff | src/event_store.py:744-766 | after repair a stream is sound, cache included, if and only if nothing is unresolved |
| EventStore.OneWinnerPerVersion | src/event_store.py:128-173 | however appends interleave, at most one wins for each stream and expected version |
| EventStore.SelectResumes | src/event_store.py:432-498 | reading on from the last event of a page gives exactly the rest |
| EventStore.SelectIs | src/event_store.py:432-498 | the reader gives exactly the events after a position that are of a wanted type |
| EventStore.LogIsOrdered | src/event_store.py:219-250 | every log of a valid store numbers its events without a gap in commit order |
| EventStore.StreamBalances | src/event_store.py:688-766 | per stream, detected violations are repaired plus unresolved ones |
| EventStore.BackfillBalances | src/event_store.py:604-768 | over the whole job violations_detected = events_repaired + unresolved_violations |
| EventStore.EventStore.LoadStream | src/event_store.py:297-404 | the events of a stream in position order, none for a missing stream |
| EventStore.EventStore.Admission | src/event_store.py:109-173 | the refusals of an append, in the order the code checks them |
| EventStore.EventStore.AppendEvents | src/event_store.py:98-295 | one transaction: the store becomes the specified one, or is untouched and the error reported |
| EventStore.EventStore.InsertRows | src/event_store.py:200-273 | the insertion loop seals rows, log entries and outbox rows from the given hash |
| EventStore.EventStore.TailOf | src/event_store.py:870-882 | the fallback walk computes the tail hash of the stream |
| EventStore.EventStore.LoadAll | src/event_store.py:406-498 | the batches are non-empty, none is over-long, and together they are the first wanted events up to the limit |
| EventStore.EventStore.BackfillIntegrityHashes | src/event_store.py:604-768 | the summary is the same in a dry run and when applied; only an applied run changes the listed streams, and to the repaired ones |
| EventStore.EventStore.RepairRows | src/event_store.py:689-742 | the repair loop over one stream: its rows, its tally and its tail hash |
| LoanAggregate.StepKeepsLawful | src/aggregates/loan_application.py:197-309 | every applied event keeps the loan lawful: decided on sessions before a human is awaited, cleared before an approval |
| LoanAggregate.ReplayedIsLawful | src/aggregates/loan_application.py:57-67 | every replayed loan is lawful; a final one was reviewed, an approved one also cleared |
| LoanAggregate.FinalStatesStay | src/aggregates/loan_application.py:311-317 | nothing that still applies changes a finally approved or declined loan |
| LoanAggregate.StatusTellsTheEvents | src/aggregates/loan_application.py:174-309 | the status from the kinds of events alone: EMPTY iff never submitted, final iff approved or declined, waiting for a human iff decided and neither, awaiting analysis iff requested and not decided |
| LoanAggregate.LoanTellsItsDecisions | src/aggregates/loan_application.py:214-259 | the recommendation is the last decision's, compliance and limit are what that one froze, and the known sessions are all that were decided on |
| LoanAggregate.LoanTellsItsSubmission | src/aggregates/loan_application.py:183-200 | a loan is for the application and the positive amount of its submission |
| LoanAggregate.ReplayedDecisionsAreSound | src/aggregates/loan_application.py:214-259 | every decision in a replayable loan comes after an analysis request, names sessions, refers below 0.6 and approves only on a frozen CLEARED status |
| LoanAggregate.ReplayedReviewsAreSound | src/aggregates/loan_application.py:261-300 | every review in a replayable loan follows a decision, an override has its reason, and an outcome follows a review |
| LoanAggregate.ApprovalsRespectTheLimit | src/aggregates/loan_application.py:92-108 | an approved loan holds exactly one approval event, for a positive amount within its assessed limit |
| LoanAggregate.LoanApplication.Apply | src/aggregates/loan_application.py:174-309 | applying one event to the object is the step function, refusals included |
| LoanAggregate.LoanApplication.ApplyDecision | src/aggregates/loan_application.py:214-259 | exactly when a generated decision applies, and the loan after it |
| LoanAggregate.LoanApplication.Replayed | src/aggregates/loan_application.py:57-67 | the replay loop gives the replayed state and the version, or fails where replay fails |
| ComplianceAggregate.StepKeepsConsistent | src/aggregates/compliance_record.py:71-128 | rules are judged within the mandatory set and never both ways, and the status says what the collections say |
| ComplianceAggregate.ReplayedIsConsistent | src/aggregates/compliance_record.py:28-38 | every replayed record is consistent |
| ComplianceAggregate.StatusTellsTheEvents | src/aggregates/compliance_record.py:71-128 | from the events alone: NOT_STARTED iff never requested, FAILED iff some rule failed, CLEARED iff requested, nothing failed and every required rule passed, PENDING iff requested and neither |
| ComplianceAggregate.CollectionsTellTheEvents | src/aggregates/compliance_record.py:71-119 | a rule is mandatory iff a request requires it, failed iff an event says so, and passed iff an event says so and none that it failed |
| ComplianceAggregate.ReplayMovesForward | src/aggregates/compliance_record.py:85-128 | later events never take a status back: FAILED is absorbing and CLEARED never returns to PENDING |
| ComplianceAggregate.ComplianceRecord.Apply | src/aggregates/compliance_record.py:60-119 | applying one event to the object is the step function, refusals included |
| ComplianceAggregate.ComplianceRecord.Replayed | src/aggregates/compliance_record.py:28-38 | the replay loop gives the replayed record and the version |
| SessionAggregate.ReplayedIsLoaded | src/aggregates/agent_session.py:103-113 | a loaded session holds a stripped, non-blank model version |
| SessionAggregate.OutputsUseTheLoadedModel | src/aggregates/agent_session.py:43-52 | in a replayable session every output names the one loaded model, and all outputs are counted |
| SessionAggregate.SessionTellsItsContext | src/aggregates/agent_session.py:92-113 | a replayable session has one context and holds its agent, session id and stripped model version |
| Prelude.StripCuts | src/aggregates/agent_session.py:92-125 | stripping takes away blanks at both ends and nothing else |
| SessionAggregate.AgentSession.Apply | src/aggregates/agent_session.py:92-125 | applying one event to the object is the step function, refusals included |
| SessionAggregate.AgentSession.Replayed | src/aggregates/agent_session.py:27-37 | the replay loop gives the replayed session and the version |
| Handlers.AssessedMax | src/commands/handlers.py:1121-1132 | the assessed limit is the largest recommended limit there is, none if no analysis has one |
| Handlers.ComplianceBatchReplaysIff | src/commands/handlers.py:671-796 | an accepted check extends its stream replayably iff the rule is mandatory, a pass does not target a failed rule, and version and reason are not blank; then the record is the projected one |
| Handlers.DecisionBatchReplaysIff | src/commands/handlers.py:798-889 | an accepted decision extends the loan replayably iff the loan is not SUBMITTED; the status it freezes is CLEARED or FAILED |
| Handlers.ReviewBatchReplaysIff | src/commands/handlers.py:891-974 | given the link between loan and live record, an accepted review extends the loan replayably iff the loan awaits a human, and ends it |
| Handlers.SessionBatchReplaysIff | src/commands/handlers.py:480-564 | a session start extends its stream replayably iff the model version is not blank |
| Handlers.AnalysisBatchesReplay | src/commands/handlers.py:566-669 | accepted analyses always extend their session replayably |
| Handlers.SubmitBatchReplays | src/commands/handlers.py:164-280 | accepted submissions always extend the loan replayably, to SUBMITTED or AWAITING_ANALYSIS |
| Outcomes.CheckIsAcceptedIff | src/commands/handlers.py:671-740 | a check is accepted iff it has a rule version, opens a record only with required checks, keeps its regulation set and gives a reason for a failure |
| Outcomes.CheckWrites | src/commands/handlers.py:740-785 | an accepted check opens a new record, writes its rule event, and completes the record exactly at the first failure (FAILED) or the last missing pass (CLEARED), with the counts and the failed rule |
| Outcomes.ReviewIsAcceptedIff | src/commands/handlers.py:891-931 | a review is accepted iff the loan is open, the decision is one of the two, an override has its reason, and an approval has a positive amount within the limit on a CLEARED record |
| Outcomes.ReviewWrites | src/commands/handlers.py:908-960 | an accepted review writes itself and then exactly the outcome it decided: the approval of the given amount, or the decline |
| Outcomes.ReviewEndsAsDecided | src/commands/handlers.py:891-974 | under the guard the replayed loan is FINAL_APPROVED iff the decision is an approval and FINAL_DECLINED iff it is a decline |
| Outcomes.DecisionIsAcceptedIff | src/commands/handlers.py:798-850 | a decision is accepted iff the loan is open, word and confidence are in range, compliance is decided, an approval has a CLEARED record and some limit, and the sessions are distinct, at least one, and all count |
| Outcomes.DecisionWrites | src/commands/handlers.py:850-889 | an accepted decision freezes the recommendation (referred below 0.6), the live compliance status and the largest limit of all its sessions |
| Outcomes.DecisionLeaves | src/commands/handlers.py:798-889 | under its guard it leaves the loan waiting for a human on what was frozen |
| Outcomes.SubmissionIsAcceptedIff | src/commands/handlers.py:164-187 | a submission is accepted iff the loan is new, the amount positive, and there are documents if they are to be processed |
| Outcomes.SubmissionWrites | src/commands/handlers.py:187-262 | it writes itself, two events for each document in order, and the analysis requests unless documents are processed first |
| Outcomes.PackageWrites | src/commands/handlers.py:330-478 | a package is opened only on an empty stream, refused only without documents, and ends ready for analysis |
| Outcomes.PackageTakesItsSteps | src/commands/handlers.py:360-470 | every document takes its five steps, in order |
| Outcomes.SessionIsAcceptedIff | src/commands/handlers.py:480-500 | a session start is accepted iff no context is loaded and its token count and replay position are in range |
| Outcomes.SessionWrites | src/commands/handlers.py:500-553 | it writes the start, a recovery iff its source names a prior session, and the context |
| Outcomes.CreditWrites | src/commands/handlers.py:566-619 | exactly when a credit analysis is accepted, and the one event it writes |
| Outcomes.FraudWrites | src/commands/handlers.py:621-669 | exactly when a fraud screening is accepted, and the one event it writes |
| Witnesses.DecisionWhileSubmitted | src/commands/handlers.py:798-889 | an approval of a SUBMITTED loan on a cleared record and one contributing session is accepted though its guard fails |
| Witnesses.ReviewWithoutDecision | src/commands/handlers.py:891-974 | a decline of a loan that awaits its analysis is accepted though its guard fails |
| Witnesses.PassOfAFailedRule | src/commands/handlers.py:671-796 | a pass of a rule that failed before is accepted though its guard fails |
| Witnesses.RuleOutsideTheSet | src/commands/handlers.py:671-796 | a first check of a rule outside the required set is accepted though its guard fails |
| Witnesses.BlankWords | src/commands/handlers.py:671-796 | a rule version or a failure reason of white space only is accepted though the guard fails |
| Witnesses.BlankModel | src/commands/handlers.py:480-564 | a session start with a blank model version is accepted though its guard fails |
| Verdicts.CountsAgree | src/commands/handlers.py:762-779 | completed checks never exceed total checks and equal them when CLEARED |
| Verdicts.CheckKeepsWellJudged | src/commands/handlers.py:762-785 | a stream has no completion event while PENDING and exactly one, reporting the replayed record, once CLEARED or FAILED |
| Interleaving.EverySnapshotHolds | src/commands/handlers.py:160-974 | over every interleaving, guarded or not, what a handler in flight has loaded is a prefix of the stream it came from, and the store keeps its invariants |
| Interleaving.EveryCommitSawItsStream | src/commands/handlers.py:164-974 | over every interleaving, guarded or not, a committed batch was validated against exactly the events before it in its own stream, ends that stream and touches no other |
| Interleaving.CommitWritesToItsStream | src/commands/handlers.py:1035-1048 | every command writes to its own stream under its own aggregate type |
| Interleaving.CommitWritesRows | src/commands/handlers.py:786-796 | the rows of a commit are its batch in order, decisions at version two and other events at version one, with the commit's correlation and causation |
| Interleaving.CommitWritesLog | src/event_store.py:219-273 | and so are its entries in the log and the outbox, with the aggregate's topic |
| Interleaving.StreamsOnlyGrow | src/event_store.py:98-295 | over every interleaving each stream at an earlier point is a prefix of what it is later |
| Interleaving.SecondPhaseFollowsTheFirst | src/commands/handlers.py:267-328 | the second phase of a submission commits only if the loan stream is exactly what the first commit of the same submission left |
| Interleaving.CommitReplaysIffGuard | src/commands/handlers.py:671-974 | in every world that guarded steps reach, a commit leaves the stream it wrote replayable if and only if its command's guard held on what it loaded |
| Interleaving.CommitKeepsHealthy | src/commands/handlers.py:798-974 | a guarded commit keeps every stream replayable and every loan linked to its compliance record |
| Interleaving.NextKeepsInv | src/commands/handlers.py:160-974 | loads, commits, crashes and administration all keep the invariant of the handlers in flight |
| Interleaving.EveryRunStaysHealthy | src/commands/handlers.py:160-974 | over every guarded interleaving of handler steps every loan, compliance and session stream replays and every compliance stream is well judged |
| Placement.PlacementReadsBothWays | src/commands/handlers.py:1035-1048 | for a placed event, being in an application's loan or compliance stream is being a loan or compliance event of that application |
| Placement.EveryLogIsPlaced | src/commands/handlers.py:160-974 | every handler-built log has every event in the stream of its kind and application |
| ComplianceView.ComputeComplianceState | src/regulatory/package.py:200-241 | the batch loop computes the collected rules and the status they call for |
| ComplianceView.CollectionsTellTheLog | src/regulatory/package.py:200-241 | required are the checks of the last request, passed and failed the rules whose last event since then passes or fails them |
| ComplianceView.BatchStatusTellsTheLog | src/regulatory/package.py:200-241 | the recomputed status from the log alone: FAILED iff the last word on some rule is a failure, otherwise NOT_STARTED without a required rule, CLEARED iff the last word on each is a pass, else PENDING |
| ComplianceView.ViewTellsTheLog | src/projections/compliance_audit.py:370-429 | the live fold collects the same on every log; after a verdict it holds the verdict, after any other event the recomputed status |
| ComplianceView.FoldsReadTheStream | src/projections/compliance_audit.py:165-212 | on a placed log the live fold and the recomputation of an application read exactly its compliance stream; for an empty application id the live one keeps nothing |
| ComplianceView.FoldsCollectAlike | src/what_if/projector.py:312-353 | the recomputation collects on every stream what the live fold collects |
| ComplianceView.ViewAgreesIff | src/projections/compliance_audit.py:370-429 | the live fold holds the aggregate's mandatory, passed and failed rules if and only if every rule event names its rule, and then its status, although it un-fails passed rules and trusts verdicts |
| ComplianceView.BatchAgreesIff | src/what_if/projector.py:312-353 | the same for the recomputation, which does not look at verdicts |
| ComplianceView.AllThreeAgreeIff | src/projections/compliance_audit.py:370-429 | on every guarded handler run aggregate, projection and recomputation agree on mandatory, passed and failed rules if and only if the stream's rules have names, and then on the status; for an empty application id the projection is empty |
| ComplianceView.UnnamedRuleDiverges | src/projections/compliance_audit.py:383-416 | on a guarded run of two passes of a rule without a name the aggregate is CLEARED while the projection is PENDING |
| Summary.ComputeApplicationSummary | src/regulatory/package.py:167-197 | the regulatory loop is the fold of the application's events |
| Summary.SummaryMatchesLoan | src/projections/application_summary.py:37-174 | on a placed log with a replayable loan, the summary row tells the loan's state, recommendation, decision, amount and limit, an empty application id has no row, and the regulatory state tells the same with AWAITING_ANALYSIS read as SUBMITTED |
| Summary.SummaryMatchesLoanOnRuns | src/projections/application_summary.py:37-174 | the same on every guarded handler run, however other streams interleave |
| WriteCommandHandlers.WriteCommandHandlers.AppendBatch | src/commands/handlers.py:788-796 | appends with the version of the loaded stream; a refusal writes nothing |
| WriteCommandHandlers.WriteCommandHandlers.LoadFor | src/commands/handlers.py:1024-1032 | loads the streams a command needs, in the order the handler does |
| WriteCommandHandlers.WriteCommandHandlers.HandleSubmitApplication | src/commands/handlers.py:164-328 | submission and its two further phases, each only after the append before it succeeded, the last one caused by the last event of the package |
| WriteCommandHandlers.PackageEndsTheLog | src/commands/handlers.py:288-327 | after the package's append the last event of the log is its ready-for-analysis event, which causes the analysis requests |
| WriteCommandHandlers.WriteCommandHandlers.SubmitFirst | src/commands/handlers.py:164-280 | load, validate and first append of a submission |
| WriteCommandHandlers.WriteCommandHandlers.AppendDocumentPackage | src/commands/handlers.py:330-478 | the package events for every path, opened only on a new package stream |
| WriteCommandHandlers.WriteCommandHandlers.HandleStartAgentSession | src/commands/handlers.py:480-564 | the session start handler reports and stores what the specification of its command says |
| WriteCommandHandlers.WriteCommandHandlers.DecideStart | src/commands/handlers.py:485-548 | the refusals and events of a session start, with recovery only for a named prior session |
| WriteCommandHandlers.WriteCommandHandlers.HandleAnalysis | src/commands/handlers.py:566-669 | the two analysis handlers report and store what their command's specification says |
| WriteCommandHandlers.WriteCommandHandlers.HandleComplianceCheck | src/commands/handlers.py:671-796 | the compliance handler reports and stores what its command's specification says |
| WriteCommandHandlers.WriteCommandHandlers.DecideCheck | src/commands/handlers.py:676-785 | refusals, rule event, projected status and the completion event of a check |
| WriteCommandHandlers.WriteCommandHandlers.HandleGenerateDecision | src/commands/handlers.py:798-889 | the decision handler freezes the live status and the assessed limit it extracted |
| WriteCommandHandlers.WriteCommandHandlers.ExtractAssessedMaxLimit | src/commands/handlers.py:1121-1132 | the loop computes the largest limit over all contributing sessions |
| WriteCommandHandlers.WriteCommandHandlers.HandleHumanReviewCompleted | src/commands/handlers.py:891-974 | the review handler validates against the live record and ends the loan |
| WhatIf.ClosureUnfolds | src/what_if/projector.py:178-211 | the closure holds the later events of the branch's stream and whatever it or the branch causes |
| WhatIf.ClosureIsLeast | src/what_if/projector.py:178-211 | the closure is the least such set |
| WhatIf.IsDependent | src/what_if/projector.py:160-211 | the memoised walk ends on every causation graph, cycles included, with the specified answer and memo |
| WhatIf.AnswerIsSound | src/what_if/projector.py:160-211 | with a sound memo the walk answers yes only inside the closure, on any causation graph |
| WhatIf.WalkIsExactIff | src/what_if/projector.py:71-98 | with unique ids the loop drops exactly the branch and its closure if and only if every other closure event lies after the branch and follows it or comes, up its chain of causes, to the branch or a closure event between the two |
| WhatIf.WellOrderedIsExact | src/what_if/projector.py:160-211 | with causes before effects and positions growing, the loop drops exactly the branch and its closure |
| WhatIf.PlainEffectsAreDropped | src/what_if/projector.py:160-211 | later events of the branch's stream and what the branch causes after it are dropped in any case |
| WhatIf.DroppedForAReason | src/what_if/projector.py:160-211 | anything else that is dropped has a cause in the closure |
| WhatIf.RelatedEventsAre | src/what_if/projector.py:136-157 | the related events are those of the loan stream and those that name the application |
| WhatIf.RelatedClosureIff | src/what_if/projector.py:136-157 | the closure taken inside an application's related events is the closure of the whole log cut to them if and only if every related event with an unrelated cause in the closure follows the branch anyway |
| WhatIf.SplitAfter | src/what_if/projector.py:71-98 | the loop partitions the events after the branch into dropped, by the verdict of the walk with the memo at its turn, and kept, in order |
| WhatIf.RunWhatIf | src/what_if/projector.py:35-133 | branches at the first event of the type, drops what the walk says, which is the branch and its closure when causes precede effects; simulated are the events before the branch, each counterfactual event with its own event and place, and the undropped events in order; both outcomes are those of the real and the simulated events |
| WhatIf.SimulationIs | src/what_if/projector.py:83-104 | an injected event is the counterfactual's own, in its override stream or else the branch's, one position on for each, without a cause; the rest are exactly the undropped events after the branch, in order |
| WhatIf.InjectedDecisionDecides | src/what_if/projector.py:214-310 | when an injected decision is the last one on the application, the counterfactual recommendation and limit are its own |
| WhatIf.ComputeApplication | src/what_if/projector.py:279-309 | the loop is the fold of the application's events |
| WhatIf.ApplicationIsTheRegulatoryOne | src/what_if/projector.py:279-309 | the projected application has the regulatory summary's state, recommendation, decision and amount, and the limit of the last decision |
| WhatIf.ComputeOutcome | src/what_if/projector.py:261-276 | the application and compliance outcomes of a list of events |
| WhatIf.KeptIsNotCausedByDropped | src/what_if/projector.py:71-98 | on any causation graph the loop drops what an earlier dropped event causes, so only an event that names a later one as its cause can be kept without it |
| WhatIf.NoEffectOutlivesItsCause | src/what_if/projector.py:83-104 | with causes before effects no kept event was caused by a dropped one |
| WhatIf.ForwardCauseIsMissed | src/what_if/projector.py:185-211 | in a branch, an event and a follower of the branch that caused it, the loop keeps the event though it is in the closure |
| Daemon.AfterEventIsFaithful | src/projections/daemon.py:247-290 | one event applied with its checkpoint, or skipped when retries run out, keeps the table the fold up to the checkpoint minus the skips |
| Daemon.PassMoves | src/projections/daemon.py:50-77 | on a fixed log a pass lifts the lowest checkpoint, or found every projection at the head |
| Daemon.PassTakesABatch | src/projections/daemon.py:50-77 | a projection that is furthest behind takes a full batch or all there is, and every other ends where that one does unless it was ahead |
| Daemon.StaysFaithful | src/projections/daemon.py:50-77 | events committed later change nothing about what a projection has done |
| Daemon.FedIsFaithful | src/projections/daemon.py:235-290 | feeding a projection up to a place keeps its table the fold up to its checkpoint minus its skips, and adds exactly the skips of the events whose retries run out |
| Daemon.FedFurther | src/projections/daemon.py:235-245 | feeding in two stretches is feeding in one, wherever the batches end |
| Daemon.EveryTableIsItsFold | src/projections/daemon.py:50-290 | over every run of commits, passes, batches, resets and rebuilds, each with its own failures: each table is the fold of the events up to its checkpoint minus its skips; an event is done iff it was given since the last reset, and skipped iff the last such try ran out of retries |
| Daemon.IncrementalMatchesRebuildIff | src/projections/daemon.py:146-198 | after every such run a projection whose checkpoint is at the head is in the state a rebuild now leaves, if and only if the rebuild's retries run out on exactly the events whose last try gave up |
| Daemon.JournalMatchesRebuildIff | src/projections/daemon.py:146-198 | for a projection that lists what it took in, equality of the tables alone is already equivalent to that condition |
| Daemon.OutageIsRebuiltAway | src/projections/daemon.py:247-290 | after one pass whose attempts all fail, the table lacks the event at the head, and a rebuild whose attempts succeed has it |
| Daemon.ReaderStartsAfterTheCheckpoint | src/event_store.py:432-498 | the reader after a checkpoint gives exactly the events not yet counted |
| Daemon.ProjectionDaemon.ApplyEventWithRetry | src/projections/daemon.py:247-290 | tries until an attempt succeeds and applies the event once, or after exactly one attempt more than the retries only moves the checkpoint |
| Daemon.ProjectionDaemon.RunOnce | src/projections/daemon.py:50-77 | one batch after the lowest checkpoint: every projection is fed up to its end, none twice, and results count what each took |
| Daemon.ProjectionDaemon.DeliverEvent | src/projections/daemon.py:68-75 | the inner loop gives one event to every projection that is behind it |
| Daemon.ProjectionDaemon.RunProjectionBatch | src/projections/daemon.py:235-245 | one batch for one projection, leaving the others alone |
| Daemon.ProjectionDaemon.RebuildProjection | src/projections/daemon.py:171-181 | reset and batches until one is empty leave the empty table fed with the whole log, the other projections untouched |
| Daemon.ProjectionDaemon.RunUntilIdle | src/projections/daemon.py:79-85 | on a fixed log repeated passes end with every projection fed to the head |
| Rebuild.SubscribedIsEnough | src/projections/compliance_audit.py:91-95 | reading only the subscribed events loses nothing |
| Rebuild.NextKeepsInv | src/projections/compliance_audit.py:71-163 | appends, daemon passes, rebuild pages, the swap and a crash each keep live tables = fold up to the checkpoint |
| Rebuild.EveryInterleavingIsFaithful | src/projections/compliance_audit.py:71-163 | the same over every interleaving, even when a swap moves the checkpoint back |
| Rebuild.ComplianceAuditViewProjection.ReplayIntoShadow | src/projections/compliance_audit.py:98-110 | one batch into the shadow tables, ending at the first event past the end mark |
| Rebuild.ComplianceAuditViewProjection.RebuildFromScratch | src/projections/compliance_audit.py:71-163 | while others append, the swapped-in tables are the fold of the log at the end mark, with that mark as checkpoint and the subscribed events counted |
| Rebuild.StateRowIsTheFold | src/projections/compliance_audit.py:165-212 | the state row of an application is its live fold and its last position |
| Rebuild.RowsAreTheTimeline | src/projections/compliance_audit.py:213-244 | the timeline has one row for each event of an application, with the status after it |
| Rebuild.QueryFindsTheBest | src/projections/compliance_audit.py:277-307 | the query has exactly one answer: the latest row by recording time and then position |
| Rebuild.QueryIsRightIff | src/projections/compliance_audit.py:277-307 | at every moment the query finds the row up to which exactly the application's events recorded by then lie, if and only if recorded_at never falls over that application's events |
| Rebuild.RightStatusIsTheReplay | src/projections/compliance_audit.py:277-307 | a right answer carries the status of replaying exactly the events recorded by then |
| Rebuild.ComplianceAtIsTheReplay | src/projections/compliance_audit.py:277-307 | with recorded_at in step for the application, whatever other applications' clocks do, the answer is right and tells that status |
| Rebuild.ClockOutOfStepMisleads | src/projections/compliance_audit.py:277-307 | with the second check of an application recorded before the first, the query answers PENDING where the replay of the events recorded by then is NOT_STARTED |
| Rebuild.DaemonFoldsTheTables | src/projections/compliance_audit.py:63-69 | the daemon's fold of this projection is the fold of the tables |
| Outbox.NextKeepsInv | src/outbox/relay.py:114-213 | each step of writers and workers keeps one row per event, published rows in the sink once, dead letters out of attempts |
| Outbox.EveryRunIsSafe | src/outbox/relay.py:70-213 | the same over every interleaving of workers, crashes and lease expiry |
| Outbox.InsertedOnce | src/outbox/publishers.py:40-60 | the sink takes an outbox id once |
| Outbox.SettledForGood | src/outbox/relay.py:163-213 | published and dead_letter are absorbing, attempts never fall, the sink only grows |
| Outbox.LeasesAreExclusive | src/outbox/relay.py:114-145 | with a common clock and settling before expiry no row ever has two unsettled holders, and the row is as the claim left it |
| Outbox.ClaimIsLowestFirst | src/outbox/relay.py:119-126 | a claim takes exactly the eligible rows with fewer than a batch of claimed ones below them; an eligible row is left only when the batch is full of lower ids |
| Outbox.DelaysDoubleUpToTheCap | src/outbox/relay.py:215-218 | retry delays are positive and double up to the cap |
| Outbox.DelaysAreMonotone | src/outbox/relay.py:215-218 | more attempts never mean a shorter delay, and no delay exceeds the cap |
| Outbox.DelaysReachTheCap | src/outbox/relay.py:215-218 | every schedule reaches the cap |
| Outbox.FirstDelay | src/outbox/relay.py:215-218 | the first retry waits for the base delay, or the cap if that is less |
| Outbox.LeasedRowIs | src/outbox/relay.py:114-161 | exactly the claimed rows get one more attempt and the lease |
| Outbox.OutboxRelay.ClaimBatch | src/outbox/relay.py:114-161 | the claim returns its messages with their new attempts and leases their rows |
| Outbox.OutboxRelay.Publish | src/outbox/publishers.py:40-60 | what a publish leaves in the sink, whether or not it raises |
| Outbox.OutboxRelay.MarkFailure | src/outbox/relay.py:178-213 | dead letter at the attempt limit, otherwise the delayed retry, and only for a pending row |
| Outbox.RunRowIs | src/outbox/relay.py:70-92 | a run settles exactly the rows it claims and leaves the others alone |
| Outbox.RunDecidesRows | src/outbox/relay.py:70-92 | a claimed row is published iff its publish returned, dead-lettered iff it did not and this was the last attempt, and otherwise waits for the delayed retry, with one more attempt in every case |
| Outbox.SinkHolds | src/outbox/relay.py:70-92 | the sink gains exactly the claimed messages that were not lost |
| Outbox.TallyCountsRows | src/outbox/relay.py:70-92 | the report counts the table: as many published and dead-lettered as rows became so, as many claimed as attempts were spent |
| Outbox.RunIsItsSteps | src/outbox/relay.py:70-92 | an uninterrupted run is a sequence of claim, publish and mark steps of the state machine, which leaves no ticket behind |
| Outbox.OutboxRelay.RunOnce | src/outbox/relay.py:70-92 | claims, publishes and marks every message once, in order, with the messages' own attempts, and reports the tally; the table stays safe |
| Outbox.Tally | src/outbox/relay.py:70-92 | claimed = published + failed and dead_lettered never exceeds failed |
| Outbox.RunsMakeProgress | src/outbox/relay.py:70-92 | a run keeps an attempt left for every pending row, and their sum falls by at least one for each claimed row |
| Outbox.EveryClaimIsPaidFor | src/outbox/relay.py:70-92 | over every sequence of commits and runs of one crash-free worker every pending row has an attempt left, and the attempts left with all claims made never exceed max_attempts for each committed row |
| Outbox.AppendCommitsNewRows | src/event_store.py:251-273 | the outbox rows of an append are pending, untried and numbered on from the table, as the state machine's commits demand |
| Chunker.JoinedHolds | src/refinery/chunker.py:184-195 | a joined row holds every cell in its place with one separator between neighbours, and by its length nothing else |
| Chunker.HeaderHolds | src/refinery/chunker.py:184-192 | the header holds the cells of the headers behind its tag; without room it is the first words of that text between its marks |
| Chunker.TablesAreConserved | src/refinery/chunker.py:173-246 | every chunk starts with the header and is numbered; apart from the markers the lines are the cells of the rows in order, each row behind its tag with one separator between neighbours, and nothing else; a chunk ends only where the next line does not fit |
| Chunker.LinesOfARow | src/refinery/chunker.py:194-208 | the first line of a row is unmarked and every later piece is marked; a row is cut only if it does not fit, into pieces that are full except the last |
| Chunker.HeaderLength | src/refinery/chunker.py:184-192 | the length of the possibly truncated header |
| Chunker.TableBound | src/refinery/chunker.py:173-246 | for every bound: all chunks keep it iff the header leaves one word of room, and a second one unless the rows hold only their tags; then it never fails by more than one word |
| Chunker.UsualTableBound | src/refinery/chunker.py:173-246 | for bounds of five and more: the bound is kept iff the header does not have exactly one word less than it or no row says anything, and is missed by one word at most |
| Chunker.PackingBound | src/refinery/chunker.py:212-244 | a packed chunk is too long exactly when one line is too long for any chunk |
| Chunker.ValidatorAcceptsIffWithin | src/refinery/chunker.py:14-23 | the validator accepts a table's chunks exactly when they keep the bound |
| Chunker.ChunkingEngine.ChunkTable | src/refinery/chunker.py:173-246 | the loops compute the specified chunks |
| Chunker.ChunkingEngine.CollectRowLines | src/refinery/chunker.py:194-208 | rows that fit stay whole, others are cut into marked pieces |
| Chunker.ChunkingEngine.CutRow | src/refinery/chunker.py:201-205 | the slicing loop of a long row |
| Chunker.ChunkingEngine.PackLines | src/refinery/chunker.py:210-244 | the packing loop with its running word count |
| Chunker.ChunkingEngine.SplitIntoParagraphChunks | src/refinery/chunker.py:109-145 | the text is conserved iff the bound is positive or there is no text; pieces are full except the last; a zero bound raises |
| Chunker.ChunkingEngine.Validate | src/refinery/chunker.py:14-23 | accepts iff every table or list chunk keeps the bound and every table chunk mentions its headers |
| Upcasting.UpcastFollowsThePath | src/upcasting/registry.py:80-116 | an upcast follows one contiguous increasing path of registered steps to a version no step leaves, where running it again changes nothing |
| Upcasting.UpcasterRegistry.Register | src/upcasting/registry.py:36-55 | refuses backward and duplicate steps, so every registry leads to later versions only |
| Upcasting.UpcasterRegistry.UpcastEvent | src/upcasting/registry.py:80-116 | the loop terminates on every registry built by registration with the specified result |
| Upcasting.AgentIsReadBackIff | src/upcasting/upcasters.py:237-245 | an agent is read back from its session stream's name iff it has a name and the session id has no dash |
| Upcasting.AgentIsReadIff | src/upcasting/upcasters.py:237-245 | on any stream name: an agent is read exactly from `agent-`, its non-empty name, a dash and a rest without one |
| Upcasting.ReconstructModelVersions | src/upcasting/upcasters.py:196-234 | the two loops compute the rebuilt versions |
| Upcasting.EveryContributorIsCovered | src/upcasting/upcasters.py:196-234 | the rebuilt versions cover exactly the agents named before and those parsed from contributing sessions; none is empty and named ones are kept |
| Upcasting.FirstSessionGivesTheVersion | src/upcasting/upcasters.py:210-233 | an agent's first session decides: the version the metadata has for the session, else the one for the agent, else legacy-unknown |
| Upcasting.UpcastNamesTheAgents | src/upcasting/upcasters.py:93-131 | the upcast decision names a version for every rebuilt agent and the orchestrator, and has a summary |
| Upcasting.UpcastKeepsTheDecisionIff | src/upcasting/upcasters.py:93-131 | a version one decision reads the same after upcasting iff it has no forbidden field and well-typed model versions, or is unreadable anyway |
| Upcasting.UpcastNamesTheModel | src/upcasting/upcasters.py:37-90 | a readable version one analysis stays readable after upcasting, and only its model version may change, to the inferred one |
| Upcasting.ModelIsInferredByRelease | src/upcasting/upcasters.py:44-58 | an analysis takes its own model version, else the metadata's, else the one released when it was recorded, by the calendar's own dates |
| Upcasting.BasisIsInferredByDate | src/upcasting/upcasters.py:66-70 | the regulatory basis likewise, by the rule set in force at the time, unknown without a time |
| Upcasting.UpcastKeepsTheAnalysisIff | src/upcasting/upcasters.py:37-90 | a readable version one analysis means the same after upcasting iff it names its model |
| Upcasting.WrittenAnalysesReadBack | src/commands/handlers.py:566-619 | the analysis a handler writes at version one is read back, upcast, as the event it decided |
| Upcasting.UpcastingKeepsTheLoan | src/upcasting/upcasters.py:93-131 | a loan replayed from upcast rows is the loan replayed from the rows as stored |

## Left out

- The hash is a free constructor over the hashed content and the previous hash; SHA-256, the canonical JSON text and its byte encoding are not part of this model, and stored JSON is taken to read back unchanged.
- PostgreSQL: every transaction is one atomic step and positions are assigned in commit order without gaps; uniqueness constraints of src/schema.sql are assumed, that file is not part of this model. `streams` and `log` in the store are two views of the one `events` table; an event's id is its place in the log.
- Amounts, scores and limits are reals, retry delays and times are integers in units of the clock; floating-point rounding and overflow of very large powers are not modelled.
- Strings are stripped of the ASCII white space only; recommendation, decision and verdict words are held already upper-cased, and a verdict is one of the four statuses.
- Payload fields that no modelled decision reads (applicants, purposes, timestamps, actor ids, notes) are not held; the payload models' numeric bounds are `Events.InBounds`.
- Document paths arrive expanded; the walk through directories, the extraction of facts and the quality notes of a package are not modelled, so the case where given directories expand to no file is not either.
- EventStore.EventStore.LoadStream: windows of positions and limits are left out, since the handlers load whole streams.
- `stream_version` as a reader of its own, and the archive time stamp in a stream's metadata.
- EventStore.EventStore.BackfillIntegrityHashes: the list of stream ids is given instead of selected by id or prefix, so the not-found error of an empty selection is left out; each stream is repaired in its own transaction without other writers in between.
- HashChain.RunIntegrityCheck: verification from a position above 1 restarts from the genesis hash and flags valid windows; only position 1 is modelled. The audit event it may append, the audit ledger and the chaining of audit payloads are left out.
- The hashes `attach_integrity_chain` computes in memory, which treat missing payload fields differently from stored rows.
- Interleaving.EveryRunStaysHealthy: correlation and causation ids are arbitrary inputs of each commit, not the ones a handler would copy from its command.
- Daemon.ProjectionDaemon.RunOnce: two passes at once, and a rebuild's swap in the middle of a pass, are not modelled; checkpoints are read once and saved without comparison, so applying each event once is a promise of a single runner. Which attempts fail is given for each pass, batch and rebuild anew, as a function of projection, event and attempt.
- Daemon.ProjectionDaemon.RunUntilIdle: sleeping between idle passes, stopping and cancellation are not modelled.
- Rebuild.NextKeepsInv: applying an event to the compliance tables is assumed not to fail, and a daemon pass is one step.
- Summary.SummaryMatchesLoan: the summary's compliance status is not claimed to match, because a later passed rule resets it to PENDING.
- WhatIf.RunWhatIf: the related events are given in global order and the closure is taken inside them, see WhatIf.RelatedClosureIff for when that is the closure of the whole log; injected events keep the branch's recording time; the agent performance outcome is left out.
- WhatIf.ComputeOutcome: the agent performance outcome and the choice of projections to compute are left out.
- Outbox.LeasesAreExclusive: nothing is claimed once a lease has run out unsettled; a late failure mark of the first holder can then shorten another holder's lease.
- Outbox.OutboxRelay.RunOnce: a run that nobody interrupts; crashes, other workers and leases that run out are steps of the state machine only. Messages are taken in ascending order of their rows, while the order in which `RETURNING` gives them is not promised; the state machine allows any order. Which publishes fail, and when, is given for each run as a function of the row.
- Outbox: Kafka delivery, message headers and error texts, which no modelled decision reads.
- Chunker.ChunkingEngine.SplitIntoParagraphChunks: texts are their words, so the layout of a short paragraph that is kept verbatim is not modelled; cells of tables are held as their words too.
- Figures, numbered lists, cross references and chunk digests of the chunking engine.
- The store's readers return events at their current version; that upcasting gives back what the handlers wrote is Upcasting.WrittenAnalysesReadBack, since a handler writes decisions at version two and no other event it writes has a version step.
- Upcasting.UpcastKeepsTheDecisionIff: numeric strings and booleans, which the payload model would coerce to numbers, count as malformed.
- Upcasting.UpcastKeepsTheAnalysisIff: the recording time arrives parsed, in seconds; the notes an upcast leaves in the metadata are not held.
- Agent performance and client analytics, the regulatory package's narrative and hash, MCP, REST and authentication layers, document refinery extraction and agent memory reconstruction.
