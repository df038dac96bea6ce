# Agora verification models

A Dafny model of five parts of Agora whose correctness rests on state, interleaving or string
algebra, with proofs of what they promise.

**Telemetry coverage.** A scheduled reconciler and an S3-triggered recorder share one ledger row per log
group. The reconciler puts a subscription filter, starts an export of what came before it, and says "complete"
only on evidence that the recorder wrote. `Telemetry` holds the row and the decisions taken from it.
`CoverageProtocol` is the system for one log group as a state machine: each call of the reconciler, each
update of the recorder, the clock, other owners of filters, deletion and re-creation of the group, exports
that write objects and end, exceptions, kills, and calls that take effect although they raise are steps that
interleave freely. `CoverageInvariant` proves what every step keeps, and `CoverageTheorems` what follows for
whole runs. `CoverageVisits` puts visits together call by call, and `CoverageOutcome` gives, for every state
between visits and every answer of the log service, the row and the report of an undisturbed visit, field by
field. `CoverageEvidence` and `CoverageGuarantees` show whose objects can make a row "complete",
`CoverageProgress` and `CoverageRecovery` which visits cover their group and from which states it can be
covered at all. `CoverageTraces` gives reachable states that show the limits of the promises. `Reconciler` is
the program itself, with its lists and its ledger updated in place and with the others at work before each of
its calls; every method is proved to make exactly steps of the protocol, with an exception for each call that
the services count as raised. `CoverageTurns` shows what such a visit, which is not killed, leaves in report
and row, and `CoverageFailures` what it says of an export that ended badly. `TelemetryServices` is what it
calls, `CoverageReports` what it reports. `ManifestRecorder` is the recorder, with the acts of the reconciler
and of other recorders between its updates, `BackfillKey` the object keys that carry the log-group name to it,
and `BackfillConvergence` shows that the backfills of many groups end under an account-wide limit on exports.

**Gateway names.** `Slug` has the string passes of the normalisers and, beside them, a reference definition
(runs of word characters joined with hyphens). `TargetNames` proves what slugs and target names are, to the
character, and when the two routes to a name agree; `TargetRegistry` the collision check and the registrations
that overlap; `ToolNames` the printing and the two ways of splitting `target___operation`; `TargetIndex` and
`TargetSelection` the validated operation-to-Target index, the selection from it, and the projection used by
development identities.

**Permission claims.** `PermissionClaims` proves that a substring test on the printed claim is exactly a
membership test on the permission set.

**Audit export.** `AuditExport` is the cursor-following collector against an arbitrary page server, and `Csv`
the printer, with a reader after section 2 of RFC 4180 that undoes it.

**Tooling bundles.** `BundleHash` is the framing of file bodies before they are hashed. `BundlePublication`,
`BundleInvariant` and `BundleTheorems` are the publication protocol of any number of processes, with failing
operations and kills. `ToolingBundle` is the publisher, statement by statement, in lock-step with that
protocol.

`Basics`, `Text` and `StringOrder` are shared definitions.

## Assumptions

- Runs of the reconciler do not overlap, its clock is positive and does not go back, and a log group
  is re-created later than it was created before.
- The configuration changes only between runs, and keeps the name of the group's filter.
- Backfill objects of a log group are written by its exports, while these are active. Their events may
  arrive late, in any order and more than once.
- Digests and manifest keys are not empty.
- Nobody else gives the subscription filter a value that the reconciler installed or is about to install.
- Bundle digests do not collide, the bundled files hold no NUL byte, and nobody cleans the
  temporary directory while processes use it.

## Results that differ from what the code seems to promise

- A run that stops between putting the filter and confirming it, on a row that was confirmed before,
  leaves a gap that later visits do not see (`CoverageTraces.AGapIsReachable`). So does a run that goes on, when
  the call raises although it puts the filter (`CoverageTraces.AnUnansweredPutLeavesAGap`). There is no gap
  exactly when neither happened (`CoverageTheorems.GapExactlyAfterUnsafeStop`).
- The evidence for a backfill is some object since the last reset, which another export can have written: one
  of an earlier generation (`CoverageTraces.EvidenceMayBeOld`), or one of the same generation that a killed
  run left unrecorded (`CoverageTraces.EvidenceMayBeLost`). All evidence of a generation is guaranteed to come
  from its own exports, with exactly the window of the row, if and only if at its reset no object of an earlier
  export is still to come, or the log group is gone, or there is nothing to export
  (`CoverageGuarantees.GenerationEvidenceExactly`). Evidence of the very export that the row names is
  guaranteed only where nothing can be exported (`CoverageGuarantees.OwnEvidenceExactly`); for generations
  that lose no export, under the condition before (`CoverageGuarantees.OwnUnlessLostExactly`).
- An export that ends without an object leaves its log group uncovered for good, unless the group, its filters
  or the configuration change (`CoverageTraces.EmptyExportIsFinal`). When that happens is characterised for
  every state between visits (`CoverageRecovery.CoverableExactly`).
- The last delivery time can go back (`CoverageTraces.LiveTimeIsNotMonotone`): exactly when a delivery is
  recorded that is older than the one recorded last (`CoverageTheorems.LiveTimeGoesBackExactly`). It is the
  newest time exactly when the newest delivery was recorded last (`CoverageTheorems.LiveTimeIsNewestExactly`).
- A generation can start two exports (`CoverageTraces.TwoExportsInAGeneration`): exactly when a run stopped
  between starting one and writing it down, or was refused one that did start
  (`CoverageTheorems.OneExportPerGeneration`).
- A failed or cancelled export is never retried, so that its log group cannot be covered before a reset
  (`CoverageProgress.FailureIsFinal`).
- In an S3 event key a space is a plus sign, which the recorder does not decode. It finds the log group all
  the same, and the key exactly when it has no space (`BackfillKey.EventKeyRoundTrip`).
- A name and its slug give the same target name exactly when the name has an ASCII alphanumeric and
  lowering it keeps its canonical form up to the cut (`TargetNames.LegacyAgreementExactly`); only U+0130 and
  U+212A can change that form (`TargetNames.LegacyAgreement`), and both do
  (`TargetNames.DottedIDisagrees`, `TargetNames.KelvinDisagrees`).
- The collision check reads a list that may be out of date when the record is stored, so that two registrations
  that overlap can get one target name (`TargetRegistry.OverlapAdmitsBoth`). The names stay distinct exactly
  as long as no registration is overtaken (`TargetRegistry.DistinctUnlessOvertaken`).
- The collision check compares base names, and admits a record whose base name is the sensitivity name of
  another (`TargetRegistry.SplitNameMayBeABaseName`). All names are distinct exactly when no record's name,
  without a sensitivity that it ends with, is the name of a record (`TargetRegistry.AllNamesDistinctExactly`).
- The development projection does not strip the operation, and misses exactly the padded spellings of
  owned operations (`TargetSelection.ProjectionAgrees`).
- The two decoders of tool names agree exactly on plain operations (`ToolNames.DecodersAgree`).
- An export with a limit below one is empty and is not marked as truncated
  (`AuditExport.ZeroLimitLooksComplete`); an unmarked export is everything exactly for limits of at least
  one (`AuditExport.UntruncatedIsEverythingExactly`).
- Bodies with NUL bytes can share their hash input (`BundleHash.FramingCollides`); which lists of bodies
  do is characterised by `BundleHash.AmbiguousExactlyWhenMovable`.

## Model

| member | source | states |
|---|---|---|
| `Telemetry.Inspect` | infra/lambda/telemetry-archive-reconciler/index.py:73-103 | the filter counts as ours exactly when the first one of its name has our destination, our role and the empty pattern; a new one is put exactly when the name is free and fewer than two filters exist |
| `Telemetry.Put` | infra/lambda/telemetry-archive-reconciler/index.py:104-110 | after putting a filter, a look-up by its name finds the value put |
| `Telemetry.PutReplaces` | infra/lambda/telemetry-archive-reconciler/index.py:104-110 | putting a filter replaces the first one of its name, or adds one if there is none, and changes no other |
| `CoverageInvariant.StepKeepsInv` | infra/lambda/telemetry-archive-reconciler/index.py:301-452 | every step of the reconciler, the recorder and the environment, and every exception or kill, keeps all eleven invariants that relate row, filter, exports, recorded objects and their exports, program point and report |
| `CoverageInvariant.RunKeepsInv` | infra/lambda/telemetry-archive-reconciler/index.py:301-452 | every state reachable by any interleaving satisfies them |
| `CoverageTheorems.GapExactlyAfterUnsafeStop` | infra/lambda/telemetry-archive-reconciler/index.py:356-404 | while the filter has the value that a confirmed row records, it has been there since at latest the confirmed time, if and only if no run of this generation stopped between putting and confirming it, or put it without being told |
| `CoverageTheorems.UnsafeStepsRisk` | infra/lambda/telemetry-archive-reconciler/index.py:364-404 | that risk starts exactly with such a step, and ends exactly with a reset |
| `CoverageTheorems.SafeStopsLeaveNoGapRisk` | infra/lambda/telemetry-archive-reconciler/index.py:104-110 | a run without such a step never reaches a state with that risk |
| `CoverageTheorems.NoGapOverRuns` | infra/lambda/telemetry-archive-reconciler/index.py:199-240 | once the backfill is completed, every time since the log group was created is in a finished export or in the life of the filter |
| `CoverageTheorems.BackfillWindow` | infra/lambda/telemetry-archive-reconciler/index.py:199-240 | a started or completed backfill has exactly the window from the recorded creation time to the confirmed time; a task id implies the evidence flag; with a completed backfill the flag is on exactly for a non-empty window |
| `CoverageTheorems.BackfillStatusIsTheTasks` | infra/lambda/telemetry-archive-reconciler/index.py:185-197 | a recorded export has the window of the row, and the row's ended status is the one of that export: completed (not before the window ends), failed or cancelled; what is reported of it is stated by `CoverageFailures` |
| `CoverageTheorems.CompleteIsSound` | infra/lambda/telemetry-archive-reconciler/index.py:243-268 | "complete" is written only with the filter seen as ours, the backfill of this generation completed with an empty window or a backfill object since the last reset, and a recorded delivery at or after the confirmed time and within the lag bound |
| `CoverageTheorems.StaleDeliveriesCannotComplete` | infra/lambda/telemetry-archive-reconciler/index.py:364-436 | a visit cannot end "complete" when every recorded delivery is older than the confirmed time |
| `CoverageTheorems.CompleteMeansArchived` | infra/lambda/telemetry-archive-reconciler/index.py:422-436 | when "complete" is written, the filter is still ours and no run stopped unsafely, nothing since the creation of the log group is lost |
| `CoverageTheorems.ReportAgreesWithRow` | infra/lambda/telemetry-archive-reconciler/index.py:431-452 | after a visit whose last write succeeded, the group is reported as covered exactly if its row says "complete", and the row gives the reported reason of a failure |
| `CoverageTheorems.CountersConserved` | infra/lambda/telemetry-archive-reconciler/manifest.py:102-157 | the live counters are the number and the events of all live objects ever recorded; the backfill counter is the number of objects since the last reset and is positive exactly when the last-object digest is set |
| `CoverageTheorems.OnlyRecorderWritesEvidence` | infra/lambda/telemetry-archive-reconciler/index.py:392-403 | no step but the recorder's touches the live fields, and only the recorder and a reset touch the backfill-object fields |
| `CoverageTheorems.OneExportPerGeneration` | infra/lambda/telemetry-archive-reconciler/index.py:178-239 | a started export is the only one since the last reset exactly when no run stopped between starting one and writing it down, and none was refused that started all the same |
| `CoverageTheorems.LiveTimeGoesBackExactly` | infra/lambda/telemetry-archive-reconciler/manifest.py:143-151 | recording a live object takes the row's delivery time back if and only if its time is smaller than that of the object recorded last |
| `CoverageTheorems.LiveTimeIsNewestExactly` | infra/lambda/telemetry-archive-reconciler/manifest.py:143-151 | the row's delivery time is the newest recorded one if and only if the newest object was recorded last; recording in order is a case of that |
| `CoverageTheorems.FreshnessJudgesTheLast` | infra/lambda/telemetry-archive-reconciler/index.py:255-268 | in every reachable state a delivery is fresh exactly when the live object recorded last is at or after the confirmed time and within the lag bound |
| `CoverageEvidence.EvidenceIsOwn` | infra/lambda/telemetry-archive-reconciler/index.py:243-252 | when "complete" is written for a window that is not empty, nothing of an earlier export was still to come at the last reset, and no export of this generation was lost, every recorded object was written by the export on the row, and there is one |
| `CoverageEvidence.EvidenceIsOfGeneration` | infra/lambda/telemetry-archive-reconciler/index.py:199-252 | whatever exports were lost, when "complete" is written for a window that is not empty and nothing of an earlier export was still to come at the last reset, there are recorded objects, and each was written by an export started since then with exactly the window of the row |
| `CoverageGuarantees.GenerationEvidenceExactly` | infra/lambda/telemetry-archive-reconciler/index.py:392-403 | for every reachable reset: every completion of the generation that it starts rests only on objects of exports of that generation with the row's window, if and only if at the reset no object of an earlier export was still to come, or the log group was gone, or the window was empty |
| `CoverageGuarantees.OwnEvidenceExactly` | infra/lambda/telemetry-archive-reconciler/index.py:209-252 | for every reachable reset: every completion of the generation has an object of the very export that the row names, if and only if the log group was gone or the window was empty |
| `CoverageGuarantees.OwnUnlessLostExactly` | infra/lambda/telemetry-archive-reconciler/index.py:392-403 | for every reachable reset: every completion of the generation in which no export was lost has an object of the export that the row names, if and only if the condition for evidence of the generation holds |
| `CoverageGuarantees.StrayEvidenceCompletes` | infra/lambda/telemetry-archive-reconciler/index.py:243-252 | where that condition fails, for every object that may still arrive, there is a run that completes the generation, losing no export, with that object as its only evidence |
| `CoverageGuarantees.LostEvidenceCompletes` | infra/lambda/telemetry-archive-reconciler/index.py:209-240 | after every reset of a generation that can export, there is a run that loses one of its exports and completes without an object of the one on the row |
| `CoverageProgress.UndisturbedVisitCovers` | infra/lambda/telemetry-archive-reconciler/index.py:301-436 | from every state between visits in which the filter is ours, the row confirms it for this log group and the backfill is completed, a visit without disturbance ends covered if and only if the row has its evidence and a fresh delivery |
| `CoverageProgress.FailureIsFinal` | infra/lambda/telemetry-archive-reconciler/index.py:178-197 | a failed or cancelled backfill keeps its status for its whole generation: no further export starts, and no visit writes "complete" |
| `CoverageFailures.FailedExportIsReported` | infra/lambda/telemetry-archive-reconciler/index.py:185-197 | whatever others do before, in and after a visit in which no call raises or is refused: if it gets past the filter and leaves a row that names an export that had failed (or was cancelled) when it began, the report says `backfill_failed` (or `backfill_cancelled`), and the row says so too, with its status and unknown coverage |
| `CoverageFailures.TurnReportsStatus` | infra/lambda/telemetry-archive-reconciler/index.py:405-421 | such a visit reports a failure exactly if it leaves a row whose backfill has failed or was cancelled, by that name, and the row then has that reason and unknown coverage |
| `CoverageFailures.CompleteGivesNoReason` | infra/lambda/telemetry-archive-reconciler/index.py:415-434 | in every reachable state, also within a visit and after a kill, a row that says "complete" has no failure reason |
| `CoverageOutcome.MissingVisit` | infra/lambda/telemetry-archive-reconciler/index.py:302-312 | from every state between visits without the log group, a visit reports `log_group_not_found` and writes it with unknown coverage, and nothing else of the row changes |
| `CoverageOutcome.RefusedVisit` | infra/lambda/telemetry-archive-reconciler/index.py:330-347 | from every state between visits in which the filter of our name has another destination, role or pattern, or there is no room for it, a visit whose calls succeed ends with a row that is not confirmed, holds the destination, role and pattern that were listed (empty ones without a filter), unknown coverage and the reason, and is otherwise unchanged; the group is reported as drifted, not as subscribed |
| `CoverageOutcome.ConfirmingCalls` | infra/lambda/telemetry-archive-reconciler/index.py:349-404 | from every other state with the log group there, the calls put the filter if it is missing and confirm the row, every field of which is given: a new generation exactly if the filter was put, or the row did not confirm this very filter for this very log group, with its time, an empty task and empty evidence; drift exactly if the row was confirmed before |
| `CoverageOutcome.KeptVisit` | infra/lambda/telemetry-archive-reconciler/index.py:176-177 | a visit that finds the backfill completed leaves its fields, and ends with the coverage that the row's evidence and delivery give |
| `CoverageOutcome.WatchingVisit` | infra/lambda/telemetry-archive-reconciler/index.py:178-197 | a visit that sees the export named on the row: a completed one completes the backfill at the present time; a failed or cancelled one gives the status, the reported error and the row's reason of that name; any other leaves the backfill as it is |
| `CoverageOutcome.UnseenVisit` | infra/lambda/telemetry-archive-reconciler/index.py:180-184 | a visit that does not see that export reports `backfill_task_unobservable`, writes it, and leaves the backfill |
| `CoverageOutcome.SkippingVisit` | infra/lambda/telemetry-archive-reconciler/index.py:199-208 | for a log group created no earlier than the confirmed time, the backfill is completed at that time, with the window from creation to confirmation and without need of evidence |
| `CoverageOutcome.ExportingVisit` | infra/lambda/telemetry-archive-reconciler/index.py:209-240 | otherwise an export with exactly that window is started; the row names it as running, with the window and in need of evidence |
| `CoverageOutcome.LimitedVisit` | infra/lambda/telemetry-archive-reconciler/index.py:226-231 | with too many exports already, the backfill is pending, and no error is reported |
| `CoverageOutcome.DeniedVisit` | infra/lambda/telemetry-archive-reconciler/index.py:226-232 | an export that is refused otherwise is reported with its error, which the row gives as reason; the backfill stays as it is |
| `CoverageRecovery.CoveredInTwoVisits` | infra/lambda/telemetry-archive-reconciler/index.py:301-436 | from every state between visits that satisfies the invariants, in which the group is there, its filter is ours or can be put, and its export can still give evidence or will be started anew, two visits whose calls all succeed end with "complete", given the completion of the export, an object and a live delivery between them |
| `CoverageRecovery.CoverableExactly` | infra/lambda/telemetry-archive-reconciler/index.py:301-436 | for every reachable state between visits: some run in which nobody touches the group, its filters or the configuration writes "complete" if and only if that condition holds; otherwise no such run does, however many visits, deliveries, exceptions and kills it has |
| `CoverageTraces.TwoExportsInAGeneration` | infra/lambda/telemetry-archive-reconciler/index.py:209-240 | there is a run in which one generation starts two exports, the first of which no row names |
| `CoverageTraces.AGapIsReachable` | infra/lambda/telemetry-archive-reconciler/index.py:364-404 | there is a run after which the row is confirmed, the filter is younger than the row says, and the next visit would not reset |
| `CoverageTraces.AnUnansweredPutLeavesAGap` | infra/lambda/telemetry-archive-reconciler/index.py:104-110 | there is a run without a kill that leaves the same gap: the put raises and takes effect, the failure is reported and written, and the next visit would not reset |
| `CoverageTraces.LiveTimeIsNotMonotone` | infra/lambda/telemetry-archive-reconciler/manifest.py:139-157 | there is a run after which recording a live object moves the last delivery time back |
| `CoverageTraces.EvidenceMayBeOld` | infra/lambda/telemetry-archive-reconciler/index.py:243-252 | there is a run that ends "complete" although every recorded backfill object is older than the confirmed time and was written by another export than the one on the row |
| `CoverageTraces.EvidenceMayBeLost` | infra/lambda/telemetry-archive-reconciler/index.py:209-252 | there is a run that ends "complete" in its first generation, with nothing of an earlier one to come, and without an object of the export on the row |
| `CoverageTraces.EmptyExportIsFinal` | infra/lambda/telemetry-archive-reconciler/index.py:178-197 | there is a run after which an export is completed without an object, and from which the group can only be covered after a change of the group, its filters or the configuration |
| `CoverageTurns.VisitCountsExceptions` | infra/lambda/telemetry-archive-reconciler/index.py:438-452 | for every visit that is not killed, whatever others do in it: at most two of its calls raise; the second one, and nothing else, loses its last write; it reports an exception exactly if a call raised; and unless two did, the row carries the time at which the run began |
| `CoverageTurns.TurnReports` | infra/lambda/telemetry-archive-reconciler/index.py:438-452 | after such a visit and further steps of others, unless two calls raised, the row says "complete" exactly if the group is covered and gives the reported reason of a failure; covered implies subscribed and not failed, and subscribed implies matched |
| `TelemetryServices.CoverageLedger.Update` | infra/lambda/telemetry-archive-reconciler/index.py:131-156 | a successful update assigns exactly the fields given, leaves the others and all other rows, and returns the whole row; a failed one changes no row and is counted for its log group |
| `TelemetryServices.LogsClient.PutSubscriptionFilter` | infra/lambda/telemetry-archive-reconciler/index.py:104-110 | success puts the filter at the present time; a call that raises is counted, and either changes nothing or puts the filter all the same |
| `Reconciler.ReconcileRun.SubscriptionStatus` | infra/lambda/telemetry-archive-reconciler/index.py:66-115 | the method makes protocol steps, one exception for each call that raised; it ends ready to confirm exactly when the filter is ours or was put, to refuse otherwise, with the reported reason, and at the handler when a call raised |
| `Reconciler.ReconcileRun.StartBackfillOf` | infra/lambda/telemetry-archive-reconciler/index.py:166-240 | in every branch (kept, polled, skipped, exported, limited, denied, or started although refused) the calls and ledger writes are those of the protocol, the failed ones exactly those that the services counted, and the returned row and error are those it goes on with; what they come to, field by field, is stated by `CoverageOutcome` for each branch |
| `Reconciler.ReconcileRun.Confirm` | infra/lambda/telemetry-archive-reconciler/index.py:349-404 | decides on a reset, takes the confirmation time, and writes the confirmation, as one protocol step after the clock; drift is reported exactly for a reset of a confirmed row; an exception leads to the handler |
| `Reconciler.ReconcileRun.FinishGroup` | infra/lambda/telemetry-archive-reconciler/index.py:422-436 | the coverage is written by the protocol's step, and the group joins the covered list exactly when that visit ends covered; without a call that raised it cannot return before both |
| `Reconciler.ReconcileRun.ReconcileGroup` | infra/lambda/telemetry-archive-reconciler/index.py:301-436 | one visit, with the recorder and the environment at work before each call, makes the protocol's calls for this group from the first on, without a kill and with exactly as many exceptions and refusals as the services counted; it changes nothing of other groups, adds to the lists what the protocol's report gained, and raises exactly when it comes to the handler |
| `Reconciler.ReconcileRun.Visit` | infra/lambda/telemetry-archive-reconciler/index.py:438-452 | with the exception handler, a group gets exactly one such visit, after and before steps of others; all five lists grow by its report; unless two calls raised, the row carries the time of the run and agrees with the report |
| `Reconciler.ReconcileRun.Reconcile` | infra/lambda/telemetry-archive-reconciler/index.py:271-472 | under interference with every group, during and between the visits: every expected group is visited once by the protocol's calls; each list holds exactly the groups whose visit reported so, and the failures with their reasons; covered, subscribed and matched are nested, duplicate-free parts of the sorted expected groups, failed and covered are disjoint, and the status is "complete" exactly when there are groups and all are covered; a group is reported with an exception exactly if a call about it raised, and unless two calls did, its row carries the time of the run, says "complete" exactly if it is covered, and gives the reported reason |
| `Reconciler.ReconcileRun.BackfillIsReported` | infra/lambda/telemetry-archive-reconciler/index.py:405-421 | after such a run, for every subscribed group none of whose calls raised or was refused: the report has a failure exactly if the row's backfill has failed (then `backfill_failed`) or was cancelled (then `backfill_cancelled`), and the row gives that reason and unknown coverage |
| `CoverageReports.ReportIsConsistent` | infra/lambda/telemetry-archive-reconciler/index.py:454-472 | lists that follow nested flags are nested subsequences that hold exactly the flagged groups, and the overall status is "complete" exactly when every expected group is covered |
| `BackfillConvergence.VisitLowersRank` | infra/lambda/telemetry-archive-reconciler/index.py:176-240 | a visit never raises the rank of a backfill (pending 2, running 1, ended 0), and lowers it exactly if it sees the end of its running export, has nothing to export, or finds a free slot; it starts an export only then |
| `BackfillConvergence.RoundLowersRank` | infra/lambda/telemetry-archive-reconciler/index.py:176-240 | a run over all groups, before each visit of which exports may end, never raises the total rank (pending 2, running 1, ended 0) and lowers it when at its start it could see a finished export or a free slot for a pending group |
| `BackfillConvergence.RoundRespectsLimit` | infra/lambda/telemetry-archive-reconciler/index.py:210-231 | a run, before each visit of which exports may end, never pushes the number of active exports above the account's limit |
| `BackfillConvergence.BackfillsConverge` | infra/lambda/telemetry-archive-reconciler/index.py:438-440 | among any number of runs in which no row is reset, at most twice as many as there are groups see a finished export or a free slot for a pending group |
| `BackfillConvergence.RankBound` | infra/lambda/telemetry-archive-reconciler/index.py:176-197 | the total rank is zero exactly when every backfill has ended, be it completed, failed or cancelled |
| `BackfillConvergence.ReachableRowsAreValid` | infra/lambda/telemetry-archive-reconciler/index.py:392-403 | every reachable row satisfies what convergence needs, and a visit without reset leaves its backfill fields alone |
| `BackfillConvergence.VisitRefinesProtocol` | infra/lambda/telemetry-archive-reconciler/index.py:176-240 | for every map of the account's tasks that contains those of the log group: with answers taken from that map and from the limit on its active tasks, the protocol's step from the start of a backfill writes the row that the visit computes, its tasks stay those of the account, and the tasks of other groups stay as they are |
| `BackfillKey.UnquoteUndoesEncoding` | infra/lambda/telemetry-archive-reconciler/manifest.py:172 | decoding any percent-encoding of a string gives the string |
| `BackfillKey.QuoteEncodes` | infra/lambda/telemetry-archive-reconciler/index.py:159-163 | the quoted name is a percent-encoding of the name, of unreserved characters and percent signs only |
| `BackfillKey.QuoteExactly` | infra/lambda/telemetry-archive-reconciler/index.py:162 | each byte of the name is printed for itself: letters, digits and the four marks as they are, every other one as a percent sign and its two upper-case hexadecimal digits |
| `BackfillKey.BackfillKeyRoundTrip` | infra/lambda/telemetry-archive-reconciler/manifest.py:35-39 | for every log-group name, stage and suffix, and every URL-encoding of the key in the event, the recorder recovers the name |
| `BackfillKey.EventKeyRoundTrip` | infra/lambda/telemetry-archive-reconciler/manifest.py:172 | with the encoding of event keys that writes a space as a plus sign, the recorder still recovers the name of the log group, and the whole key if and only if it has no space |
| `ManifestRecorder.EventsConserved` | infra/lambda/telemetry-archive-reconciler/manifest.py:121-128 | the events split over the log groups of an object add up to the events of its documents that name one |
| `ManifestRecorder.Recorder.CountEvents` | infra/lambda/telemetry-archive-reconciler/manifest.py:121-128 | the counting loop gives every named log group its events, and no other group |
| `ManifestRecorder.Recorder.RecordLiveObject` | infra/lambda/telemetry-archive-reconciler/manifest.py:121-158 | for every schedule of acts of others (the reconciler, other recorders, the environment) before each row update and after the last: rows and protocol states end exactly as these acts and one update with its own events for each written group make them; on success every named group is written and no event is lost; an object that names no group is refused; a failure in the middle leaves exactly the groups written so far |
| `ManifestRecorder.HistoryIsTheirsAndOurs` | infra/lambda/telemetry-archive-reconciler/manifest.py:139-157 | under every such schedule the deliveries recorded for a log group are those there were and those of others in their order, with the update once among them if the group was written, and not otherwise |
| `ManifestRecorder.NoDeliveryIsLost` | infra/lambda/telemetry-archive-reconciler/manifest.py:139-157 | under every such schedule the row's counter of live objects grows by exactly the deliveries of others, and one for a written group, and its total of events by exactly the events of these |
| `ManifestRecorder.Recorder.RecordBackfillObject` | infra/lambda/telemetry-archive-reconciler/manifest.py:90-119 | the row of the group named in the key gets the protocol's update, and a key without a group is refused without a write |
| `TargetNames.PrefixIsCanonical` | api/src/agora/shared/slug.py:53-60 | the normalised prefix is the lower-case alphanumeric runs joined with hyphens, and is empty exactly when there are none |
| `TargetNames.SlugIsSegment` | api/src/agora/shared/slug.py:33-50 | every slug matches the segment rule, starts and ends alphanumeric, and has no double hyphen |
| `TargetNames.SlugIsCanonical` | api/src/agora/shared/slug.py:33-50 | the slug is the runs of lower-case alphanumerics, dots and underscores of the lowered text, joined with hyphens, without punctuation at either end; for a text without alphanumerics it is the digest |
| `TargetNames.SlugifyIdempotent` | api/src/agora/shared/slug.py:33-50 | slugs are fixed by the slug function |
| `TargetNames.TargetNameShape` | api/src/agora/shared/slug.py:63-81 | a target name is lower-case words joined with single hyphens, with 1 to 93 characters |
| `TargetNames.TargetNameExactly` | api/src/agora/shared/slug.py:53-81 | a target name is the canonical form of the name, or `mcp-` and the digest for a name without alphanumerics, cut at the last place that leaves at most 93 characters and no hyphen at the end |
| `TargetNames.SplitTargetNameShape` | api/src/agora/shared/slug.py:13-23 | with a sensitivity the shape is the same, lower case included, with at most 100 characters; which name it is, is stated by `TargetNames.SensitivityIsAppended` |
| `TargetNames.SensitivityIsAppended` | api/src/agora/shared/slug.py:82-87 | however it is padded and in whatever case: `read`, `create`, `update` and `delete` are appended to the target name in lower case after a hyphen, and every other sensitivity is refused |
| `TargetNames.GatewayAcceptsTargetNames` | api/src/agora/shared/slug.py:63-87 | the Gateway's pattern of 1 to 100 groups of one alphanumeric and an optional hyphen matches every target name |
| `TargetNames.TargetNameIdempotent` | api/src/agora/shared/slug.py:63-81 | target names are fixed by the normaliser |
| `TargetNames.LegacyAgreement` | api/src/agora/shared/slug.py:71-77 | for every name without U+0130 and U+212A, the slug of the name and the name give the same target name if and only if the name has an ASCII alphanumeric, and then it is the canonical form, cut |
| `TargetNames.LegacyAgreementExactly` | api/src/agora/shared/slug.py:71-77 | for every name, the slug of the name and the name give the same target name if and only if the name has an ASCII alphanumeric and the canonical forms of the name and of the lowered name agree up to the cut |
| `TargetNames.DottedIDisagrees` | api/src/agora/shared/slug.py:43 | a concrete name with U+0130 for which the two routes differ |
| `TargetNames.KelvinDisagrees` | api/src/agora/shared/slug.py:43 | a concrete name with U+212A for which the two routes differ |
| `TargetRegistry.FindCollision` | api/src/agora/shared/slug.py:96-125 | it reports nothing exactly when no other MCP record resolves to the target name, and otherwise the first such record |
| `TargetRegistry.RegistryStaysDistinct` | api/src/agora/shared/slug.py:96-125 | whatever registrations and re-registrations arrive one after the other, the admitted MCP records keep pairwise distinct target names |
| `TargetRegistry.StoreKeepsDistinctExactly` | api/src/agora/shared/slug.py:96-125 | storing a record keeps the target names distinct if and only if the check passes for the records that there are at that moment |
| `TargetRegistry.DistinctUnlessOvertaken` | api/src/agora/domains/catalog/router.py:1603-1660 | for every interleaving of registrations that list, check and store at different times: the target names are distinct all the time if and only if no record is stored whose check passed for the listed records and would fail for the present ones |
| `TargetRegistry.OverlapAdmitsBoth` | api/src/agora/domains/runtime/router.py:266-287 | any two registrations for one target name that both list before either stores are both admitted |
| `TargetRegistry.SplitNameDecodes` | api/src/agora/shared/slug.py:14-17 | a name with a sensitivity decodes to base and tag in one way only; the tags' spellings are stated by `TargetNames.SensitivityIsAppended` |
| `TargetRegistry.SplitNamesDistinct` | api/src/agora/shared/slug.py:63-87 | in such a registry all names with a sensitivity are distinct |
| `TargetRegistry.SplitNameMayBeABaseName` | api/src/agora/shared/slug.py:118-119 | registering two concrete records admits both, although the second one's target name is the first one's with a sensitivity |
| `TargetRegistry.AllNamesDistinctExactly` | api/src/agora/shared/slug.py:96-125 | in a registry that the check keeps, all names with and without a sensitivity are distinct if and only if no record's name, without a sensitivity that it ends with, is found by the check |
| `TargetRegistry.StoredNamesResolve` | api/src/agora/shared/slug.py:90-93 | a stored target name is resolved unchanged |
| `TargetRegistry.StoredNameWins` | api/src/agora/shared/slug.py:90-93 | a stored name counts without its padding; a blank one gives way to the target name of the display name |
| `ToolNames.ToolNameRoundTrip` | api/src/agora/shared/gateway_tools.py:198-206 | for every asset name, optional sensitivity and operation, the first runtime name splits at the first separator into the target and the operation, and every runtime name into a spelling of the target and the operation |
| `ToolNames.RuntimeNamesExactly` | api/src/agora/shared/gateway_tools.py:198-206 | for every target and operation the runtime names are, in this order and each once: the target, three underscores and the operation; and, if the target has a hyphen, the same with an underscore for each of its hyphens |
| `ToolNames.ToolNamesDiffer` | api/src/agora/shared/gateway_tools.py:203-206 | different targets or operations share no runtime name |
| `ToolNames.SplitFirstUndoesToolName` | web/src/lib/auditCalls.ts:192-202 | splitting at the first separator undoes printing for every target without a double or final underscore |
| `ToolNames.DecodersSplit` | infra/gateway-targets/data-target/index.py:19-23 | every name with a separator is taken apart at the first one, or cut after the last one, without loss; a name without one is all tool in both |
| `ToolNames.DecodersAgree` | infra/gateway-targets/data-target/index.py:19-23 | splitting at the last separator finds the operation, and agrees with splitting at the first, exactly when the operation neither starts with an underscore nor contains the separator |
| `TargetIndex.ReadTarget` | api/src/agora/shared/gateway_tools.py:136-181 | an accepted entry has a known sensitivity, its stripped name and id, and exactly its operations, stripped, at least one, each once and in the order of their first spellings |
| `TargetIndex.AcceptsExactly` | api/src/agora/shared/gateway_tools.py:136-170 | an entry is accepted if and only if it has a name, an id, the state "ready" and a known sensitivity in any case and padding, and a non-empty list of non-blank operations |
| `TargetIndex.SensitivitiesHaveNames` | api/src/agora/shared/slug.py:82-87 | the sensitivities that an entry may have are exactly those for which a target name can be made |
| `TargetIndex.Claim` | api/src/agora/shared/gateway_tools.py:182-191 | the ownership loop succeeds exactly when no operation has another owner, and then the new target owns exactly its operations |
| `TargetIndex.ReadLedger` | api/src/agora/shared/gateway_tools.py:123-195 | the loop accepts exactly the ledgers whose entries are complete and form a partition by name, sensitivity and operation, and returns them in order |
| `TargetIndex.ReadIndex` | api/src/agora/shared/gateway_tools.py:105-195 | it accepts exactly the well-formed descriptors; without a ledger it gives the stripped legacy name or none, with one the split index of its entries |
| `TargetIndex.AtMostFourTargets` | api/src/agora/shared/gateway_tools.py:127-177 | a split index has at most four targets |
| `TargetSelection.OwnerIsUnique` | api/src/agora/shared/gateway_tools.py:50-61 | the search finds the only owner of an operation, wherever it stands, and nothing exactly when there is none |
| `TargetSelection.Requested` | api/src/agora/shared/gateway_tools.py:74-78 | the request is the distinct stripped spellings of its non-blank strings |
| `TargetSelection.Select` | api/src/agora/shared/gateway_tools.py:63-102 | selection from a split index succeeds exactly when every requested operation is owned, returns the narrowed targets, and otherwise reports exactly the operations without an owner |
| `TargetSelection.SelectionSplitsTheRequest` | api/src/agora/shared/gateway_tools.py:79-102 | a successful selection is again a partition whose operations are a permutation of the request, each is held by the target that the index names for it, and every target in it is one of the index, with the same name, id and sensitivity, and its operations in the same order |
| `TargetSelection.ProjectionAgrees` | api/src/agora/shared/dev_identity.py:123-127 | the projection names the same target as the index exactly when the index is not split, the operation is stripped, or nobody owns its stripped form |
| `TargetSelection.SensitivityIsTheOwners` | api/src/agora/shared/dev_identity.py:113-121 | a sensitivity is known exactly for operations that a split index owns, and is that of the target named; legacy targets never get one |
| `TargetSelection.DevSensitivityExactly` | api/src/agora/shared/dev_identity.py:113-121 | for every list of development targets: the sensitivity of the first one that lists the operation; for an operation that none lists, and for the empty one, that of a sole target without operations, and otherwise none |
| `TargetSelection.ProjectionFollowsOwner` | api/src/agora/shared/dev_identity_catalog.py:18-29 | look-ups in the projected targets follow the owner in the index |
| `PermissionClaims.EncodePermissions` | api/src/agora/permission_claims.py:31-49 | encoding fails exactly when some component is empty, padded, or has a comma or separator; otherwise it prints the sorted elements between commas |
| `StringOrder.LeExactly` | api/src/agora/permission_claims.py:49 | in the order by which the elements are sorted a prefix comes first, and otherwise the first difference decides, by code point |
| `PermissionClaims.ClaimMembership` | api/src/agora/permission_claims.py:49 | for every non-empty comma-free token, its delimited form occurs in the claim exactly when it is one of the elements |
| `PermissionClaims.RoleTest` | api/src/agora/permission_claims.py:43-46 | the delimited role occurs exactly when some permission has that role, on any connection |
| `PermissionClaims.ScopedTest` | api/src/agora/permission_claims.py:47-48 | the delimited pair occurs exactly when that very permission is in the set |
| `PermissionClaims.ClaimIgnoresOrder` | api/src/agora/permission_claims.py:33 | the claim does not depend on the iteration order of the set |
| `PermissionClaims.ClaimDetermines` | api/src/agora/permission_claims.py:31-49 | sets with equal claims grant the same roles and the same scoped permissions |
| `Csv.ReadQuotedUndoesDoubling` | web/src/lib/auditCalls.ts:519 | a quoted field with doubled quotes reads back as its text, whatever it holds |
| `Csv.TableRoundTrip` | web/src/lib/auditCalls.ts:588-590 | for every table of non-empty rows, a reader after RFC 4180 returns exactly the guarded cells |
| `Csv.GuardedCellsAreInert` | web/src/lib/auditCalls.ts:516-518 | for every cell of every table: if white space alone comes before a `=`, `+`, `-` or `@` in it, it reads back with an apostrophe in front, and otherwise unchanged; in no cell that is read back does white space alone come before such a character |
| `Csv.WhiteSpaceDiffers` | web/src/lib/auditCalls.ts:518 | the characters that the printer takes for white space are those of the Python programs but for six, named one by one |
| `Csv.GuardCollisions` | web/src/lib/auditCalls.ts:518 | two texts print alike exactly when they are equal or one is the other, a formula, with the quote already in front |
| `AuditExport.Collect` | web/src/lib/auditCalls.ts:462-514 | for every page server and all limits it ends, having followed the chain up to the first page after which there is no reason or room to go on; it fails exactly at a page of unknown coverage |
| `AuditExport.ToolUsageIndex` | web/src/lib/auditCalls.ts:343-354 | the index holds the last row of every event, and says whether any page reported usage |
| `AuditExport.NoCursorTwice` | web/src/lib/auditCalls.ts:508-510 | no cursor is fetched twice, cyclic servers included |
| `AuditExport.ExportIsAPrefix` | web/src/lib/auditCalls.ts:502-504 | the rows are a prefix of the concatenated pages, no longer than the limit, and all of them when shorter |
| `AuditExport.UntruncatedIsEverything` | web/src/lib/auditCalls.ts:507-513 | with limits of at least one, an export not marked as truncated holds every row of a chain that ended |
| `AuditExport.EndedChainsAreComplete` | web/src/lib/auditCalls.ts:493-513 | a chain that ends within the limits is exported whole and not marked as truncated |
| `AuditExport.ZeroLimitLooksComplete` | web/src/lib/auditCalls.ts:493-513 | with a limit below one nothing is exported and nothing is marked |
| `AuditExport.UntruncatedIsEverythingExactly` | web/src/lib/auditCalls.ts:493-513 | that an unmarked export holds every row of an ended chain is true if and only if both limits are at least one |
| `BundleHash.HashInput` | infra/lib/runtime-deploy/tooling-bundle.ts:109-125 | the loop feeds the digest each path and body, each ended by a NUL byte |
| `BundleHash.FramingIsInjective` | infra/lib/runtime-deploy/tooling-bundle.ts:118-121 | lists of bodies without NUL bytes have the same hash input exactly when they are equal |
| `BundleHash.FramingCollides` | infra/lib/runtime-deploy/tooling-bundle.ts:118-121 | two concrete lists of bodies with NUL bytes that share their hash input |
| `BundleHash.AmbiguousExactlyWhenMovable` | infra/lib/runtime-deploy/tooling-bundle.ts:118-121 | a list of bodies shares its hash input with another one if and only if, between two neighbouring bodies, the marker of the second file also occurs at another place |
| `BundleHash.NulFreeIsUnambiguous` | infra/lib/runtime-deploy/tooling-bundle.ts:118-121 | bodies without a NUL byte share it with no list at all |
| `BundlePublication.Setup.VersionsDiffer` | infra/lib/runtime-deploy/tooling-bundle.ts:126-128 | under a digest without collisions, two contents have the same version exactly when they are equal |
| `BundleInvariant.PublishedIsComplete` | infra/lib/runtime-deploy/tooling-bundle.ts:69-79 | a published directory is the complete bundle of everyone with that version and passes every probe |
| `BundleInvariant.RenameKeepsInv` | infra/lib/runtime-deploy/tooling-bundle.ts:149 | a rename finds its path free or occupied by a complete bundle, and makes a complete bundle appear at once |
| `BundleInvariant.StepKeepsInv` | infra/lib/runtime-deploy/tooling-bundle.ts:126-157 | every operation of every process, and every failure or kill, keeps the invariant, and changes nothing that is published |
| `BundleTheorems.AbsentOrCompleteForEver` | infra/lib/runtime-deploy/tooling-bundle.ts:96-101 | at every moment of every interleaving a staging path is absent or a complete bundle of its version, and a bundle never changes again |
| `BundleTheorems.ReturnedHoldsOwnContent` | infra/lib/runtime-deploy/tooling-bundle.ts:148-157 | a process that returns finds at its path exactly the files it read itself, and `VERSION` with its version in the first line, whoever wrote them |
| `BundleTheorems.EveryProcessReturns` | infra/lib/runtime-deploy/tooling-bundle.ts:129-157 | without failures of its own a process performs a bounded number of operations and then has returned, with its own content and no scratch left, the loser of a rename race included |
| `BundleTheorems.NoScratchIsLeft` | infra/lib/runtime-deploy/tooling-bundle.ts:139-155 | when all processes finished without failures, no scratch directory is left |
| `ToolingBundle.TemporaryDirectory.IsPublished` | infra/lib/runtime-deploy/tooling-bundle.ts:69-79 | the probe, one look at a time among other processes, is the protocol's; it answers yes only when the process may return |
| `ToolingBundle.TemporaryDirectory.Publish` | infra/lib/runtime-deploy/tooling-bundle.ts:142-151 | the block either publishes or ends in the handler, whatever fails |
| `ToolingBundle.TemporaryDirectory.Assemble` | infra/lib/runtime-deploy/tooling-bundle.ts:126-158 | the function makes exactly steps of the protocol, and returns its version only when the path holds its own complete bundle |
| `ToolingBundle.TemporaryDirectory.AssembleSources` | infra/lib/runtime-deploy/tooling-bundle.ts:103-158 | a source that cannot be read fails it before any change; on success every file at the path is the source that was read |

## Left out

- The protocol is about one log group; steps for other groups are its clock ticks. `Reconciler` shows that a visit leaves other groups alone.
- The parameter `now_ms` of `reconcile`, which also replaces the confirmation clock; the scan of the jobs table that lists the groups, which are given in any order.
- A row write that takes effect although it raises; for filters and exports this is a step of the protocol.
- Which deliveries of an object are repetitions: each delivery counts as an object here, as it does for the ledger's counter.
- Reconciler.ReconcileRun.Reconcile: what others do to a log group that is not being visited is done between two visits, at the time it has then.
- Metrics, logging, the form of exception details, and the names of export tasks.
- JSON, gzip, SHA-256, manifests and the AWS clients: documents, digests and answers are parameters or arbitrary choices.
- BackfillKey.BackfillKeyRoundTrip: names and keys are bytes, so that the replacement of malformed UTF-8 is not modelled; stages hold no slash.
- TargetNames.LegacyAgreement: lower-casing is exact for ASCII, U+0130 and U+212A; every other character stays some character that is not an ASCII alphanumeric.
- `declared_agent_tools`, `gateway_tool_prefixes` and `is_safe_tool_identifier`, which would only add easy members.
- The approval and type filter of `catalog_dev_asset_context`, and the resolver around it.
- The token handler, the team and e-mail claims and the Gateway scope in `permission_claims.py`.
- The columns of the audit table, their labels and the conversion of values to text; `Csv` starts from cells of text.
- The filters and the page size of 200 that the collector passes on, and its progress callback.
- BundleTheorems.EveryProcessReturns: fairness of the scheduler is not modelled; the lemma bounds the operations of a process, and one that has not finished can always take the next.
- TargetRegistry.OverlapAdmitsBoth: the registry's own refusal of a second record with the same name and version; two different names can share a target name, which is cut.
- Directory creation inside the scratch directory; a file is written as one operation, whose failure may leave anything.
- The deployment constructs around the bundle, and all user-interface code.
