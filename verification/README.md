# Verified protocols of a durable-file build factory

This project models the protocols by which the MSOS autobuilder moves work from a catalog to a merged
pull request, and proves what those protocols keep. Every service reads JSON or YAML files, makes one
guarded step, writes a file atomically, and must behave correctly if it dies between two writes. The
proofs are about exactly that: every run, every crash point, every interleaving with the other services.

`dafny verify dfyconfig.toml` checks the whole project.

## How the parts fit together

- **Lifecycle evidence.** `JsonText`, `JsonScanner`, `JsonContainer`, `JsonArrays`, `JsonOwnership` and
  `WorkItemSource` are the hand-written JSON extent scanner against JSON concrete syntax trees.
  `LifecycleEvidence` is the emitter with its immutable envelopes and sequence-checked heads, `RevisionWalk`
  and `LifecycleReducer` the reducer, `LifecycleVerdicts` what each of its verdicts says about the evidence,
  `TerminalityLoss` exactly what undoes its terminal verdicts,
  `LifecycleJournal` and `LifecycleRecovery` the hash-chained journal and its recovery,
  `CanonicalClassification` the verdict that refill consumes and how far it is up to date, `LifecycleScenarios`
  attempts told from empty directories on.
- **Refill.** `PacketSelection` chooses a packet. `RefillDispatch` is the invariant of the generation file, the
  jobs branch and the archives; `DecisionBasis` binds a dispatch to evidence; `RefillPlan` is what one
  reconcile decides, and `RefillDecisions` which evidence and which capacity each decision needs;
  `RefillController` the controller itself; `RefillRuns` shows that every planned write is allowed;
  `RefillSafety` draws the conclusions over whole runs. `Supersession`, `SupersessionOutcomes` and
  `SupersessionCrashes` are the replacement of a stuck generation.
- **Completion and publication.** `CheckFold`, `Completion`, `CompletionController`, `CompletionSafety`,
  `CompletionGates` (what GitHub showed before every merge) and `CompletionOutcomes` (what one job comes to);
  `PatchEvidence`, `Publication`, `ControlledPublisher`, `PublicationSafety` and `PublicationOutcomes`.
- **Host.** `HostQueue`, `PersistentHost`, `HostQueueSafety` and `HostOutcomes` (where a pass and a recovery leave
  each job); `HostRefinement` shows that the host's queue meets the assumption refill makes of its host.
- **Lanes, leases, scheduler, catalog.** `Lanes`, `Leases`, `Scheduler`, `CatalogBacklog`, `CatalogPackets`.
- `Outcomes`, `Collections` and `Text` hold what the others share.

Code that changes state step by step is a class or a method here, proved equal to a specification function;
the theorems are lemmas about those functions. Pure code is functions.

## Reading the model

- A hash is the content it is a hash of, so hashes are injective. Identifiers computed from hashes (evidence
  ids, refill job ids, successor generation ids, commits) are datatype values built from what is hashed.
- An atomic write is one step. A crash is a budget: the process performs that many durable effects and no more.
  A lock makes one critical section one process; files outside the lock may change at any time.
- GitHub and Git are a small environment. Others may do anything to a pull request except undo a merge; they
  move the default branch at will; before every read or call they get a turn.
- Time is an integer or a string ordered as the code orders it.

What the proofs assume, where the source needs it:

- Refill: the packet of a work item does not change (`Registry`), job files of a generation come from the jobs
  branch, and only refill submits attempts. `RefillSafety.ChangedPacketEscapes` shows what happens when a packet
  changes: the pinned source commit that refill passes to the builder is not compared there.
- A terminal or provider verdict on an attempt is only read after its archive exists, because the host emits its
  final evidence after archiving. A planned write names the archives it relies on, and the proofs assume that they
  exist when it is made (`RefillSafety.Possible`), which is the weaker assumption: a verdict may be read at any
  moment of the pass before the write that relies on it, and archives are never removed.
- Publication: nobody else touches the job branches.

What the proofs found:

- A restated observation of the same evidence (another time or source reference) is an immutable conflict.
- A merged disposition is never accepted on a review stream that was closed as drafted, so completion's own
  emission after a merge is refused whenever the publisher recorded the draft; completion then fails after the merge.
- A terminal verdict that rests on a drafted descendant is lost exactly when a second stream appears for a job on
  the way to it: a revision before the drafted job, or a review of it with no other draft reachable.
- The freshness digest covers only the attempt's own heads, so an item whose verdict was lost that way is still
  reported terminal from its recorded snapshot.
- A prepared dispatch replayed while the generation is blocked is submitted at once but recorded one pass later.
- A stored completion id of an earlier supersession makes a crashed later one refuse for good.
- Whether a required check passes depends on list order exactly when an untimed report fails or is pending, some
  report is timed, and an untimed one succeeded or a timed failure is no later than a timed success.
- For squash and rebase, recovery records a merge of the validated head even when others merged another head, and
  the ancestry flag it stores is false in both cases.
- A job imported by a sync that never finished can be imported and run a second time.
- A wildcard inside a path segment defeats lane disjointness exactly when some path goes on there within the
  segment: `src/foo*` does, an unclosed bracket does not. Blanks around a pattern defeat it as well.
- The transition records' sequence numbers are not checked when a journal is read; that they are contiguous is
  proved as an invariant instead.
- Looking for a pipeline's direct elements looks through nested arrays, and the named-array search does not look
  inside arrays it has already found; both are modelled as they are.

## Model

| member | source | states |
|---|---|---|
| JsonScanner.JsonObjectSpans | src/msos_autobuilder/lifecycle_evidence.py:352-376 | The scanning loop computes the spans of the scanner machine on any text, or fails exactly when the machine does (unbalanced close, unclosed string or object) |
| JsonScanner.SpansOfDocument | src/msos_autobuilder/lifecycle_evidence.py:352-376 | On the printed text of any JSON value, with any spacing and any escapes in strings, the scan succeeds and returns exactly the extents of the objects, inner before outer |
| JsonScanner.ScanValue | src/msos_autobuilder/lifecycle_evidence.py:352-376 | Scanning the text of a value from any scanner state outside a string returns to that state just past the value, having recorded exactly the value's objects |
| JsonContainer.JsonContainerEnd | src/msos_autobuilder/lifecycle_evidence.py:379-407 | The container-end loop equals the search machine on any text and start |
| JsonContainer.EndOfContainer | src/msos_autobuilder/lifecycle_evidence.py:379-407 | For an object or array printed anywhere in a text, the search from its opening bracket returns its true end |
| JsonArrays.NamedArrayRanges | src/msos_autobuilder/lifecycle_evidence.py:410-447 | The named-array loop equals its search specification on any text and key |
| JsonArrays.SkipSpaces | src/msos_autobuilder/lifecycle_evidence.py:410-447 | Skipping blanks stops at the first character that is not blank |
| JsonArrays.NamedArraysOfDocument | src/msos_autobuilder/lifecycle_evidence.py:410-447 | On a printed document the search finds exactly the arrays that are values of a member with the given key, in order, without looking inside arrays already found |
| JsonOwnership.DirectArraysAreOwn | src/msos_autobuilder/lifecycle_evidence.py:468-494 | For an object outside every array found under the key, the direct-array filter keeps exactly the arrays that are the object's own members under the key |
| JsonOwnership.DirectArraysBelong | src/msos_autobuilder/lifecycle_evidence.py:468-494 | Whatever the object, an array the filter keeps is a member of that very object, not of one nested in it |
| JsonOwnership.DirectIsOwned | src/msos_autobuilder/lifecycle_evidence.py:468-481 | An array that no object span inside the owner encloses is a member of the owner itself |
| JsonOwnership.OwnedIsDirect | src/msos_autobuilder/lifecycle_evidence.py:468-481 | A member array of the owner is enclosed by no object span inside the owner |
| JsonOwnership.OwnedIsFound | src/msos_autobuilder/lifecycle_evidence.py:410-447 | A member array of an object outside the found arrays is among the arrays the search returns |
| WorkItemSource.WorkItemSourceBytes | src/msos_autobuilder/lifecycle_evidence.py:321-349 | The extraction method returns what the source specification returns: the one wanted item of the one ready-work array of the one matching pipeline, or the error for none or several |
| WorkItemSource.CollectWanted | src/msos_autobuilder/lifecycle_evidence.py:321-349 | The loop over candidate spans collects exactly the direct elements that pass the test |
| WorkItemSource.ScannedFit | src/msos_autobuilder/lifecycle_evidence.py:352-376 | On any text at all, JSON or not, the spans a successful scan returns lie in the text and are laminar: any two are nested or disjoint |
| WorkItemSource.DirectElementsAreTop | src/msos_autobuilder/lifecycle_evidence.py:450-465 | The direct elements computed from spans are exactly the outermost objects inside the array's extent |
| WorkItemSource.SourceBytesAreTheItem | src/msos_autobuilder/lifecycle_evidence.py:321-349 | End to end: for a printed document, the bytes returned are the exact printed text of the item the tree-level search selects, and each error case agrees too |
| LifecycleEvidence.EvidenceFiles.EmitLifecycleEvidence | src/msos_autobuilder/lifecycle_evidence.py:769-862 | One emission, with a crash possible between its two writes, has exactly the effect and outcome of the emission specification |
| LifecycleEvidence.EvidenceFiles.WriteImmutable | src/msos_autobuilder/lifecycle_evidence.py:1774-1806 | An envelope is written once: identical content is accepted, different content is refused, nothing is overwritten |
| LifecycleEvidence.EvidenceFiles.ReplaceHead | src/msos_autobuilder/lifecycle_evidence.py:1807-1860 | A head is replaced exactly when it may follow the current one; a refusal leaves all heads alone |
| LifecycleEvidence.EmitKeepsSound | src/msos_autobuilder/lifecycle_evidence.py:769-862 | Every emission keeps the store sound: each head names an existing envelope with its hash, and payloads are valid for their stream |
| LifecycleEvidence.RunsAreSound | src/msos_autobuilder/lifecycle_evidence.py:769-862 | Every store reachable by emissions and crashes from the empty one is sound |
| LifecycleEvidence.HeadsCarryProof | src/msos_autobuilder/lifecycle_evidence.py:769-862 | Over any run, the payload each head stands for carries what proves its claim (archives, commits, hashes, reasons, pull requests), payloads that claim nothing carry nothing, and prepared ones name their own attempt |
| LifecycleEvidence.AcceptedExactly | src/msos_autobuilder/lifecycle_evidence.py:1774-1860 | An emission is accepted if and only if it is valid and lives, nothing else is stored under its id, and it repeats its stream's head or is the next in number on a stream that is not closed |
| LifecycleEvidence.RunsOnlyExtend | src/msos_autobuilder/lifecycle_evidence.py:1774-1860 | Over any run, envelopes are never rewritten or lost, closed heads never move, and head sequences never go back |
| LifecycleEvidence.HeadsCountUp | src/msos_autobuilder/lifecycle_evidence.py:1830-1860 | Over any run the heads a stream takes are numbered one by one from where it stood, from 1 if it had none; none follows a closed head, and the last one is the stream's |
| LifecycleEvidence.ReemissionChangesNothing | src/msos_autobuilder/lifecycle_evidence.py:769-862 | Emitting the same evidence again, whatever was emitted in between, changes nothing: it is acknowledged while its head is still the stream's, and refused once the stream has moved on |
| LifecycleEvidence.CrashedEmissionIsFinished | src/msos_autobuilder/lifecycle_evidence.py:769-862 | An emission retried after dying between its two writes has the effect and outcome it would have had at once |
| LifecycleEvidence.RestatedObservationConflicts | src/msos_autobuilder/lifecycle_evidence.py:769-862 | Once evidence is written, by an emission accepted, refused for its head or cut short, restating it under the same id is an immutable conflict if and only if its observation time or source reference differs, whatever is emitted in between |
| LifecycleEvidence.MergedEvidenceRefusedAfterDraft | src/msos_autobuilder/lifecycle_evidence.py:1849-1852 | Once a review stream is closed as drafted, a later merged disposition on it is refused at every sequence number and after any further run |
| RevisionWalk.DescendantDraftedReason | src/msos_autobuilder/lifecycle_evidence.py:1399-1435 | The revision walk terminates on every graph and computes the walk specification |
| RevisionWalk.WalkDecidesReachability | src/msos_autobuilder/lifecycle_evidence.py:1399-1435 | It returns a reason exactly when a drafted descendant is reachable along queued links, cycles included, and then the reason of the first one |
| RevisionWalk.WalkFindsFirst | src/msos_autobuilder/lifecycle_evidence.py:1399-1435 | A reason returned is the reason of the first drafted job on the chain |
| RevisionWalk.WalkMissesNothing | src/msos_autobuilder/lifecycle_evidence.py:1399-1435 | When nothing is returned, no job on the chain at any distance is drafted |
| LifecycleReducer.ActionFollowsTerminality | src/msos_autobuilder/lifecycle_evidence.py:1045-1216 | The item is excluded exactly when it is terminal, and terminal only with an accepted terminal disposition |
| LifecycleVerdicts.VerdictIsExact | src/msos_autobuilder/lifecycle_evidence.py:1045-1216 | Exactly what each verdict says of the payloads of sound heads: when an attempt is in flight, which evidence each terminal disposition has, and for every other verdict the disposition and integrity of the stream that is missing, blocked or conflicting; phase, outcome, retry and action follow |
| LifecycleVerdicts.ReductionIsExact | src/msos_autobuilder/lifecycle_evidence.py:1045-1216 | The same for the reduction of a sound evidence store, with the drafted descendants found there |
| LifecycleVerdicts.ClassificationIsExact | src/msos_autobuilder/lifecycle_evidence.py:938-994 | Of a settled attempt refill is told terminal if and only if it ended, in flight if and only if it is under way, and unknown otherwise |
| LifecycleReducer.TerminalStreamsAreClosed | src/msos_autobuilder/lifecycle_evidence.py:1045-1216 | Every stream on the way to a terminal verdict from an attempt's own evidence is closed |
| LifecycleReducer.SameStreamsSameVerdict | src/msos_autobuilder/lifecycle_evidence.py:1045-1216 | The verdict depends only on the streams it was read from, whatever proofs or descendants turn up later |
| LifecycleReducer.OwnTerminalityIsPermanent | src/msos_autobuilder/lifecycle_evidence.py:1045-1216 | Once terminal from its own streams, an attempt keeps disposition and action over every later run of emissions and crashes |
| LifecycleReducer.TerminalityIsPermanent | src/msos_autobuilder/lifecycle_evidence.py:1297-1462 | So does every terminal verdict, as long as no second stream turns up for the very jobs its drafted descendant was found through, and completion reports are not withdrawn |
| LifecycleReducer.SharedJobUndoesTerminality | src/msos_autobuilder/lifecycle_evidence.py:1365-1435 | One way to lose a verdict: a second review on the drafted descendant's job with nothing queued behind it makes the item non-terminal again |
| TerminalityLoss.DraftLostExactly | src/msos_autobuilder/lifecycle_evidence.py:1365-1435 | With the first drafted job n links on, an accepted emission loses the draft if and only if it opens a second revision stream for a job before n, or a second review stream for job n while no other drafted job is reachable |
| TerminalityLoss.TerminalityLostExactly | src/msos_autobuilder/lifecycle_evidence.py:1365-1435 | Any emission on a sound store takes a terminal verdict away if and only if it is accepted, the item rests on a queued revision, and it breaks the chain to the first drafted job |
| TerminalityLoss.TerminalThroughoutExactly | src/msos_autobuilder/lifecycle_evidence.py:1045-1216 | Over any run, a terminal item is terminal throughout if and only if no emission undoes it on the store it meets |
| LifecycleScenarios.OpenedStreams | src/msos_autobuilder/lifecycle_evidence.py:769-862 | First emissions on streams of their own are all accepted, whatever the store, and become the heads of exactly those streams |
| LifecycleScenarios.OwnDraftEndsTheItem | src/msos_autobuilder/lifecycle_evidence.py:1045-1216 | Any attempt that emits a passed gate and a drafted review ends its item from its own streams |
| LifecycleScenarios.SecondAttemptReopensTheItem | src/msos_autobuilder/lifecycle_evidence.py:1365-1435 | For any attempt ended by the draft of its queued descendant, from empty directories on, the emitter accepts a review of a second attempt at the descendant's job, and the item is terminal no more |
| LifecycleScenarios.LostDraftHappens | src/msos_autobuilder/lifecycle_evidence.py:938-994 | The same attempt, its snapshot recorded before the second review: the item is still reported terminal while reducing it says it is not |
| LifecycleJournal.LatestTransition | src/msos_autobuilder/lifecycle_evidence.py:1571-1624 | The journal loop returns the last transition, or an error when any record breaks the hash chain |
| LifecycleJournal.ChainExactly | src/msos_autobuilder/lifecycle_evidence.py:1571-1624 | A journal is read if and only if each record holds its own hash and names the hash of the record before it |
| LifecycleJournal.ReadingPinsHistory | src/msos_autobuilder/lifecycle_evidence.py:1571-1624 | Journals that are still read, whatever was done to them, and end in the same record are the same journal |
| LifecycleJournal.RecorderFiles.MaterializeSnapshot | src/msos_autobuilder/lifecycle_evidence.py:1525-1570 | Materialising writes the four files in order and stops where the write budget ends |
| LifecycleJournal.RecorderFiles.PublishSnapshot | src/msos_autobuilder/lifecycle_evidence.py:1473-1523 | Publishing journals a changed snapshot and then materialises it, with a crash possible before any write |
| LifecycleJournal.RecorderFiles.RecoverMaterializedState | src/msos_autobuilder/lifecycle_evidence.py:1626-1671 | Recovery rewrites the files of every journalled attempt from its last transition, with a crash possible before any write |
| LifecycleJournal.LastHashPinsHistory | src/msos_autobuilder/lifecycle_evidence.py:1588-1624 | Two good journals whose last records have equal hashes are the same journal |
| LifecycleRecovery.PublishIsAtomic | src/msos_autobuilder/lifecycle_evidence.py:1473-1570 | A publish that dies anywhere restores to the disk as if it had never run or had completed |
| LifecycleRecovery.UnchangedEvidenceAddsNothing | src/msos_autobuilder/lifecycle_evidence.py:865-920 | Reducing unchanged evidence on a settled disk adds no transition and changes no file |
| LifecycleRecovery.RecoveryRestores | src/msos_autobuilder/lifecycle_evidence.py:1626-1671 | A completed recovery leaves exactly the disk the journals determine: attempt, work-item, generation and watermark files equal the last transition |
| LifecycleRecovery.RecoveryIsIdempotent | src/msos_autobuilder/lifecycle_evidence.py:1626-1671 | Recovering again, or after an interrupted recovery, gives the same disk |
| LifecycleRecovery.SessionRefines | src/msos_autobuilder/lifecycle_evidence.py:865-920 | One recorder session with a crash anywhere behaves like a crash-free recording of a prefix of its work |
| LifecycleRecovery.RecoveryRefinesCrashFreeRun | src/msos_autobuilder/lifecycle_evidence.py:865-920 | Any number of crashing sessions, each starting with recovery, refine one crash-free run of the work that committed |
| CanonicalClassification.DigestIsOrderFree | src/msos_autobuilder/lifecycle_evidence.py:570-582 | The evidence-set digest does not depend on the order heads are listed in, and equal digests mean equal listings up to order |
| CanonicalClassification.DigestIsOfHeads | src/msos_autobuilder/lifecycle_evidence.py:570-582 | Two digests agree if and only if the heads they were computed from are the same map, in whatever order each was listed: comparing digests is the freshness comparison |
| CanonicalClassification.VerdictIsFresh | src/msos_autobuilder/lifecycle_evidence.py:938-994 | A verdict is read only from a snapshot whose own evidence is exactly the attempt's current heads and which was reduced from them with some completion proof and some descendant's draft; terminal is reported exactly for terminal snapshots |
| CanonicalClassification.TerminalVerdictAgreesExactly | src/msos_autobuilder/lifecycle_evidence.py:938-994 | A reported terminal verdict is what reducing now would give if and only if the own heads are terminal, or the execution failed and a completion proof exists now, or the revision is queued and a drafted descendant is found now |
| CanonicalClassification.LostDraftIsStillReported | src/msos_autobuilder/lifecycle_evidence.py:1741-1756 | When another attempt's emission takes away the draft a settled snapshot was reduced with, the item is still reported terminal, though its reduction now is not |
| CanonicalClassification.StaleSnapshotIsRefused | src/msos_autobuilder/lifecycle_evidence.py:1741-1756 | Any head that moved since the snapshot makes every classification of its job fail |
| CanonicalClassification.AbsenceIsAnswered | src/msos_autobuilder/lifecycle_evidence.py:1674-1696 | Without an attempt file the answer is missing or no verdict, as refill requires one or not; with several it is an error; both exactly |
| CanonicalClassification.PublishingKeepsReduced | src/msos_autobuilder/lifecycle_evidence.py:865-920 | Recording reduced snapshots leaves only reduced snapshots in the journals |
| CanonicalClassification.RecordedDisksAreReduced | src/msos_autobuilder/lifecycle_evidence.py:865-920 | Sessions that record reductions of any stores, from an empty disk and killed anywhere, leave only journals of reduced snapshots |
| PacketSelection.SelectNextPacket | src/msos_autobuilder/job_packet.py:340-361 | The duplicate check and the choice of the first ranked packet compute the selection specification |
| PacketSelection.SelectionIsLeast | src/msos_autobuilder/job_packet.py:340-361 | The packet selected is eligible, not excluded, and outranks every other candidate; nothing is selected only when nothing may be; an error means a duplicate |
| PacketSelection.SelectionIgnoresListing | src/msos_autobuilder/job_packet.py:340-361 | The order in which the catalog lists packets never matters |
| RefillDispatch.WritingKeepsSound | src/msos_autobuilder/refill_controller.py:1929-1944 | Each kind of change a dispatch may make (record, exclude, prepare, retry, bookkeeping, submit) keeps the generation, feed and archives accounted for |
| RefillDispatch.HostKeepsSound | src/msos_autobuilder/persistent_host.py:644-747 | So does anything a host may do to the queue |
| RefillDispatch.AtMostOneLive | src/msos_autobuilder/refill_controller.py:3170-3396 | In a sound world at most one job of the generation is in feed, pending or running without an archive |
| RefillDispatch.AttemptsAreBounded | src/msos_autobuilder/refill_controller.py:3170-3396 | Attempts never exceed the distinct work items of the catalog plus one |
| DecisionBasis.BasisHolds | src/msos_autobuilder/refill_controller.py:1992-2048 | A versioned basis passes only if it names this dispatch and, at that moment, the prior attempt's heads are the evidence it names, reduced to a terminal item; reducing them now agrees if and only if the verdict still rests on something |
| DecisionBasis.MovedHeadsStopDispatch | src/msos_autobuilder/refill_controller.py:1992-2048 | A head that moved since the basis was taken stops the dispatch |
| DecisionBasis.UnmovedHeadsPass | src/msos_autobuilder/refill_controller.py:1992-2048 | A basis bound to this dispatch passes as long as the settled terminal snapshot it names is of the heads that exist |
| RefillController.RefillFiles.ReconcileRefill | src/msos_autobuilder/refill_controller.py:2956-3396 | One reconcile makes exactly the planned durable writes, up to the one it dies before, and reports the planned outcome if it lives |
| RefillController.RefillFiles.RecoverPreparedDispatch | src/msos_autobuilder/refill_controller.py:2347-2382 | Recovery of a prepared dispatch commits a matching side effect, blocks on a stale basis or a conflict, and otherwise does nothing |
| RefillController.RefillFiles.MatchingSideEffects | src/msos_autobuilder/refill_controller.py:2120-2152 | The loop over job files finds a match and a conflict exactly when there are such files |
| RefillController.RefillFiles.RecoverUnrecordedAttempt | src/msos_autobuilder/refill_controller.py:1418-1509 | Adopting an unrecorded attempt: malformed or ambiguous evidence and a wrong ordinal block, one candidate is appended and made current |
| RefillController.RefillFiles.UnrecordedCandidates | src/msos_autobuilder/refill_controller.py:1423-1446 | The loop collects exactly the claims of this generation whose job is not recorded, and notes malformed ones |
| RefillController.RefillFiles.SubmitPreparedDispatch | src/msos_autobuilder/refill_controller.py:2309-2344 | Submission pushes the built job if new, and blocks when what was queued is not what was prepared |
| RefillController.RefillFiles.ReplayPreparedDispatch | src/msos_autobuilder/refill_controller.py:2383-2402 | Replay submits the prepared dispatch again and records it unless the generation is blocked |
| RefillController.RefillFiles.CommitAndSubmit | src/msos_autobuilder/refill_controller.py:2051-2096 | A prepared dispatch is saved only after its basis check; then it is submitted and recorded |
| RefillController.RefillFiles.DispatchNext | src/msos_autobuilder/refill_controller.py:2170-2306 | A dry run decides; only a constructed job is prepared |
| RefillController.RefillFiles.ProceedWithCurrent | src/msos_autobuilder/refill_controller.py:3170-3299 | The current attempt's classification decides between waiting, one provider retry, exclusion and blocking |
| RefillRuns.NothingIsStray | src/msos_autobuilder/refill_controller.py:1418-1509 | Once a prepared dispatch is recovered, no job file of the generation is unrecorded |
| RefillRuns.BuiltIsOffered | src/msos_autobuilder/build_next.py:1273-1400 | What the builder constructs or queues is a catalog packet that was not excluded, under the id asked for |
| RefillRuns.ReconcileIsDue | src/msos_autobuilder/refill_controller.py:2956-3396 | Every write of a reconcile, at whatever point it is interrupted and whatever the host does meanwhile, is an allowed change when its turn comes |
| RefillDecisions.EvidenceIsPartitioned | src/msos_autobuilder/refill_controller.py:1824-1912 | What is read of an attempt says exactly one of four things: it ended, it is under way, a provider failed, or nothing can be decided |
| RefillDecisions.WritesAreJustified | src/msos_autobuilder/refill_controller.py:2956-3396 | Whatever a reconcile reads: it excludes an item only when its attempt ended; it prepares and submits only on an enabled, healthy, idle host below every review cap, with no job file in doubt, admission granted, the job nowhere yet and the basis checked; first attempts only after the current one ended, the one provider retry only when due |
| RefillDecisions.CurrentAttemptDecides | src/msos_autobuilder/refill_controller.py:3170-3299 | With free capacity the current attempt is given up and its item excluded if and only if it ended; refill waits if and only if it is under way, backs off if and only if a provider failed and no retry is due, and blocks, changing nothing else, if and only if the evidence is stale, missing, blocked or contradictory |
| RefillDecisions.BusyRefillWaits | src/msos_autobuilder/refill_controller.py:2956-3120 | Without free capacity a reconcile only notes that it is paused, or clears an earlier recovery error and reports what stops it |
| RefillDecisions.FreeSlotIsFilled | src/msos_autobuilder/refill_controller.py:3300-3396 | When a dispatch is due, a packet is offered and its basis is current, exactly that job is prepared, submitted and recorded |
| RefillDecisions.UnrecordedJobDecides | src/msos_autobuilder/refill_controller.py:1418-1509 | A job file on no record blocks refill if it is malformed, contradicted by another or not the next attempt, and is otherwise recorded as current |
| RefillSafety.RefillIsSafe | src/msos_autobuilder/refill_controller.py:2051-2402 | Over every run of reconciles, crashes after any write, host moves and founder commands: at most one live job, at most one feed job and one record per dispatch, bounded attempts, every attempted item excluded or current, and at most one provider retry ever prepared |
| RefillSafety.ExcludedItemsStayOut | src/msos_autobuilder/refill_controller.py:3227-3270 | After an item is excluded no job for it is ever sent again, and recorded attempts are never lost or changed |
| RefillSafety.InterruptedDispatchIsRecorded | src/msos_autobuilder/refill_controller.py:2347-2382 | If the prepared job reached the feed before a crash, the next reconcile records it before anything else |
| RefillSafety.LostDispatchIsReplayed | src/msos_autobuilder/refill_controller.py:2383-2402 | If it did not, the next reconcile with capacity submits the same job once and records it; if the generation was blocked meanwhile, the reconcile after that records it first |
| RefillSafety.ChangedPacketEscapes | src/msos_autobuilder/build_next.py:1273-1400 | A replay submits a job that was never prepared if and only if the packet of the prepared item changed meanwhile and the new one's job is nowhere yet; it then only blocks: the condition that packets stay fixed is needed |
| RefillSafety.SavedDispatchIsCurrent | src/msos_autobuilder/refill_controller.py:2051-2096 | A preparation saved with a versioned basis matched the producer heads at the instant it was saved, and its verdict was still the reduction of them exactly if what it rests on still held |
| Supersession.SupersessionFiles.SupersedeGeneration | src/msos_autobuilder/refill_controller.py:2707-2948 | The supersession makes exactly the planned writes and gives the planned outcome on every path: fresh, after the receipt, and on a replaced generation |
| Supersession.SupersessionFiles.ResumeSupersession | src/msos_autobuilder/refill_controller.py:2728-2815 | The retry path checks receipt, archive, identity, completion binding, classification and preconditions in order, and then only binds the completion |
| Supersession.SupersessionFiles.BeginSupersession | src/msos_autobuilder/refill_controller.py:2878-2948 | The fresh path writes archive, receipt, generation and policy in that order |
| SupersessionCrashes.CrashesAreHarmless | src/msos_autobuilder/refill_controller.py:2707-2948 | With no earlier completion and an unchanged classification, any number of interrupted attempts followed by one that is not end on a disk an uninterrupted run could leave, except that the policy's note of the last decision is the one told exactly by how far the interrupted attempts got; a further attempt writes nothing |
| SupersessionOutcomes.SupersessionDecided | src/msos_autobuilder/refill_controller.py:2672-2948 | A supersession succeeds if and only if the generation named is active and may be replaced, or was replaced for this very request; it writes only with refill paused, the host healthy and idle, nothing prepared and the attempt's fate unclear |
| SupersessionOutcomes.SuccessSupersedes | src/msos_autobuilder/refill_controller.py:2707-2948 | After success the old file is archived, the receipt is the request's, its fresh generation is active and the completion is bound |
| SupersessionCrashes.RetryDecided | src/msos_autobuilder/refill_controller.py:2847-2853 | A retry after a crash succeeds exactly when no other completion id is stored, or the receipt was not written yet, or the completion is already bound; a refusal writes nothing |
| SupersessionCrashes.NothingIsLost | src/msos_autobuilder/refill_controller.py:739-753 | From any disk, over any requests to supersede any generations, each dying anywhere: archives and receipts are never rewritten, the old generation's exact file stays active or archived, and a completion once bound is never cleared |
| CheckFold.ValidateRequiredChecks | src/msos_autobuilder/completion_controller.py:726-762 | The fold and the check of required names return the kept observation of every required name, or the first objection |
| CheckFold.NewestIsKept | src/msos_autobuilder/completion_controller.py:689-723 | When no untimed observation of a name fails or is pending, the kept one is the newest timed, ties by preference; untimed ones count only without timed ones |
| CheckFold.NewestIgnoresOrder | src/msos_autobuilder/completion_controller.py:689-723 | The kept time and state class are then the same for every order of the list |
| CheckFold.UntimedBlocks | src/msos_autobuilder/completion_controller.py:689-723 | When exactly the untimed observations fail or are pending, any of them blocks in every order |
| CheckFold.OrderMayDecide | src/msos_autobuilder/completion_controller.py:689-723 | An example: three reports let the merge through in one order and stop it in another |
| CheckFold.OrderDecidesExactly | src/msos_autobuilder/completion_controller.py:689-723 | Reordering the reports changes whether a check passes if and only if an untimed one fails or is pending, some are timed, and either an untimed one succeeded or a timed failing or pending one is no later than a timed success |
| CheckFold.GreenDependsOnOrderExactly | src/msos_autobuilder/completion_controller.py:726-762 | For any required names, some order of the reports changes whether the merge is let through if and only if the order matters for one of them and each of them passes now or its order matters |
| CompletionController.Controller.CompleteJob | src/msos_autobuilder/completion_controller.py:1288-1431 | Completing a job has exactly the specified effects on ledger and GitHub, with a crash possible before any effect and interference before any read |
| CompletionController.Controller.RecoverExisting | src/msos_autobuilder/completion_controller.py:1433-1574 | Recovery from each ledger status has exactly the specified effects |
| CompletionController.Controller.RecoverIntent | src/msos_autobuilder/completion_controller.py:1477-1516 | A prepared intent is taken as merged, merged now if still eligible, or refused |
| CompletionController.Controller.VerifyAfterMerge | src/msos_autobuilder/completion_controller.py:1070-1120 | Verification demands a merged pull request, its merge commit on the fetched default branch, and for method merge the validated head too |
| CompletionController.Controller.RunOnce | src/msos_autobuilder/completion_controller.py:1576-1672 | A pass takes the jobs in order, stops at the first failure, and saves the ledger held in memory after each finished job |
| CompletionSafety.CompletionIsSafe | src/msos_autobuilder/completion_controller.py:1288-1672 | Over any passes, plans, crashes and interference: no pull request gets a second accepted merge, and each accepted merge is at a published head and stays made; the pull request of every job recorded as merged is merged on GitHub as the very commit recorded, and that commit, and for method merge the validated head too, is on a recorded commit that the default branch headed at some moment of the run |
| CompletionGates.MergesAreVetted | src/msos_autobuilder/completion_controller.py:1026-1068 | Over any passes, crashes and interference, every accepted merge is of valid auto-merge evidence, and among the last three states of GitHub seen when it was called one showed the pull request open at that head, branch and base with nothing against it, and one showed every required check, which a plan named and the ledger notes, green on that very head |
| CompletionOutcomes.NewJobDecided | src/msos_autobuilder/completion_controller.py:1288-1431 | A new job left alone is merged once if and only if authority, evidence, pull request and checks all allow it, and recorded as merged if and only if cleanup, report, evidence and claim succeed as well |
| CompletionOutcomes.KnownJobDecided | src/msos_autobuilder/completion_controller.py:1433-1574 | For every ledger status, exactly when a job left alone is finished or passes, including the re-verification of a merged one |
| CompletionSafety.CrashesKeepTheIntent | src/msos_autobuilder/completion_controller.py:1433-1574 | From any status a crash left, the job keeps its pull request, validated head and merge method, and its status never goes back |
| CompletionSafety.PassKeeps | src/msos_autobuilder/completion_controller.py:1576-1672 | At every loop head the ledger file equals the ledger in memory, and all entries only advance |
| CompletionSafety.RecoveryFinishes | src/msos_autobuilder/completion_controller.py:1433-1574 | Recovery left alone finishes exactly when the merge was verified, stands now, or can still be made, and then records the pull request, head and method of the intent |
| CompletionSafety.RecordAfterForeignMerge | src/msos_autobuilder/completion_controller.py:1433-1574 | After others merged at any head by any method, recovery records unless the method is merge and the validated head is no ancestor; the record is right if and only if the method is merge, or the head is an ancestor of the default branch, or the merge commit is what merging the validated head would have made |
| CompletionSafety.AnotherHeadIsRecorded | src/msos_autobuilder/completion_controller.py:1477-1516 | The failing inputs, for squash and rebase: every head of other content merged by others is recorded as the validated head, with the same ancestry flag as a proper merge |
| CompletionSafety.SquashHidesTheHead | src/msos_autobuilder/completion_controller.py:1070-1120 | For squash and rebase the ancestry flag only tells whether the head was on the branch before, whatever head was merged |
| CompletionSafety.MergingKeeps | src/msos_autobuilder/completion_controller.py:1364-1370 | A merge is accepted only for an open pull request at the published head, so never twice |
| PersistentHost.Host.SyncFeed | src/msos_autobuilder/persistent_host.py:644-747 | The feed loop performs exactly the specified imports and conflict notes, and saves the ledger last |
| PersistentHost.Host.ProcessOne | src/msos_autobuilder/persistent_host.py:1090-1148 | Claiming takes the first approved job in order and archives unreadable files on the way; the claimed job is run and archived |
| PersistentHost.Host.RunClaimed | src/msos_autobuilder/persistent_host.py:1344-1402 | A claimed job is handed to the runner once and archived as completed or failed, whichever way it ends |
| PersistentHost.Host.ArchiveSuccess | src/msos_autobuilder/persistent_host.py:1227-1291 | The job file stays in running until the archive is staged; every failure on the way ends in a failed archive |
| PersistentHost.Host.ArchiveFailure | src/msos_autobuilder/persistent_host.py:1025-1088 | A failed job moves through a fresh staging directory into a failed archive with an unused name |
| PersistentHost.Host.RecoverInterruptedJobs | src/msos_autobuilder/persistent_host.py:947-971 | Recovery archives every running job as interrupted and every staging directory as incomplete |
| HostQueueSafety.ClaimsAreNeverLost | src/msos_autobuilder/persistent_host.py:1025-1291 | Through any history of syncs, passes, recoveries and placed files, dying after any operation: every claimed file is in running, staging or an archive, and no claim is run twice |
| HostQueueSafety.RecoveryEmpties | src/msos_autobuilder/persistent_host.py:947-971 | A finished recovery leaves running and staging empty |
| HostOutcomes.RunDecides | src/msos_autobuilder/persistent_host.py:1344-1402 | A claimed job ends in the completed archive under its id if and only if everything succeeded, otherwise in the failed one, and was handed to the runner if and only if its source had not drifted |
| HostOutcomes.ProcessDecides | src/msos_autobuilder/persistent_host.py:1090-1149 | An uninterrupted pass claims the first approved job listed and lands it as told, archives unreadable files listed before it as failed, and leaves every other job where it was |
| HostOutcomes.IdleDecides | src/msos_autobuilder/persistent_host.py:1090-1149 | A listing without an approved job leaves every job where it was, runs nothing and completes nothing |
| HostOutcomes.RecoveryDecides | src/msos_autobuilder/persistent_host.py:947-971 | A finished recovery puts every running job and every staging directory in a new failed archive with its file, and touches nothing else |
| HostQueueSafety.SyncImports | src/msos_autobuilder/persistent_host.py:683-708 | A sync imports a job exactly when the feed lists it approved, the ledger does not know it and it does not exist locally |
| HostQueueSafety.SyncNotes | src/msos_autobuilder/persistent_host.py:683-740 | A sync notes a conflict for a job exactly when the feed lists it, approved, as another file than it is held to |
| HostQueueSafety.FinishedSyncIsFinal | src/msos_autobuilder/persistent_host.py:644-747 | After one finished sync no later sync imports a job of that feed again, whatever its content then and whatever happened between |
| HostQueueSafety.UnfinishedSyncMayRepeat | src/msos_autobuilder/persistent_host.py:957-971 | Before a sync has finished, a job whose archiving was interrupted is recovered under another name and imported again |
| HostRefinement.SessionIsHostStep | src/msos_autobuilder/persistent_host.py:644-1402 | Every session of the host, wherever it dies, does to refill's jobs only what the refill protocol assumes of a host |
| HostRefinement.OperationIsHostStep | src/msos_autobuilder/persistent_host.py:534-538 | So does every single directory operation: queued jobs come from the feed, archives only grow, and no job is queued and archived at once |
| Lanes.CompatibleLanesAreDisjoint | src/msos_autobuilder/lanes.py:19-71 | Lanes admitted together whose allowed patterns have no surrounding blanks and no wildcard inside a segment never both accept a path |
| Lanes.MatchIsUnderRoot | src/msos_autobuilder/lanes.py:19-63 | Every path such a pattern matches lies under its ownership root |
| Lanes.MidSegmentStarIsShared | src/msos_autobuilder/lanes.py:19-71 | An example for every plain name: lanes owning name* and namex are admitted together and both accept namex |
| Lanes.ApartIsCovered | src/msos_autobuilder/lanes.py:19-71 | For any pattern, blanks included, it shares no such path if and only if its ownership root overlaps every path it matches |
| Lanes.DisjointExactly | src/msos_autobuilder/lanes.py:19-71 | For a pattern without surrounding blanks, no admitted lane of sound patterns shares a wildcard-free path with it if and only if it does not leak: no wildcard inside a segment, outside a tree pattern, can go on within the segment and be filled to a path |
| Lanes.SoundLanesAreDisjoint | src/msos_autobuilder/lanes.py:19-71 | Admitted lanes of sound patterns, tidy or not, never both accept a path without wildcard characters |
| Lanes.BlankIsShared | src/msos_autobuilder/lanes.py:19-71 | For every plain name, a blank before or after it in a pattern makes the pattern share a path with an admitted lane |
| Leases.FileLeaseStore.AcquireLane | src/msos_autobuilder/leases.py:120-148 | Acquiring validates ids and duration, respects the lock, refuses an active lease, and otherwise writes a new one |
| Leases.FileLeaseStore.RenewLane | src/msos_autobuilder/leases.py:150-178 | Renewing needs the owner's own active lease and extends it |
| Leases.FileLeaseStore.ReleaseLane | src/msos_autobuilder/leases.py:180-188 | Releasing deletes the owner's lease, reports a missing one, and refuses another owner's |
| Leases.TenuresNeverOverlap | src/msos_autobuilder/leases.py:120-188 | Over any history of operations and taken or abandoned locks, with a clock that never goes back, no instant lies in two tenures of one lane |
| Leases.GrantedExactly | src/msos_autobuilder/leases.py:120-178 | After any history a lane is granted if and only if the request is valid, no operation is in progress and nobody holds it then, and renewed if and only if the last to hold it is the owner, who still does |
| Leases.ExpiredIsNotRenewed | src/msos_autobuilder/leases.py:150-178 | After any history with a clock that never goes back, a tenure that is over cannot be renewed by its holder when every tenure has its own owner id |
| Scheduler.ParallelScheduler.PlanTasks | src/msos_autobuilder/scheduler.py:43-61 | Planning refuses no tasks, repeated task ids, incompatible lanes and tasks without a backend or workspace, in that order |
| Scheduler.ParallelScheduler.RunTasks | src/msos_autobuilder/scheduler.py:63-142 | A run acquires its lanes in turn, works only if all were acquired and the interval is positive, fails if a task does or a renewal of its own was refused, and releases in reverse on every exit |
| Scheduler.ParallelScheduler.AcquireLanes | src/msos_autobuilder/scheduler.py:79-88 | The acquisition loop stops at the first refusal and reports the lanes it holds |
| Scheduler.ParallelScheduler.ReleaseLanes | src/msos_autobuilder/scheduler.py:141-142 | The release loop goes backwards and stops at the first refusal |
| Scheduler.ReleaseFreesUpToStuck | src/msos_autobuilder/scheduler.py:141-142 | After releasing, a lane is still held exactly when a lane acquired no earlier could not be released |
| Scheduler.RunLeavesNothingHeld | src/msos_autobuilder/scheduler.py:63-142 | Whichever way a run ends, none of its lanes is still held by it, provided none is locked or in other hands when it releases |
| Scheduler.RunSucceedsExactly | src/msos_autobuilder/scheduler.py:43-142 | A run succeeds exactly when its tasks can be planned, every lane is granted, the interval is positive, no task fails, none of its own renewals is refused, and no lane is stuck when it releases |
| PatchEvidence.AgreedPaths | src/msos_autobuilder/controlled_publisher.py:1188-1244 | The path-union loop accepts exactly when every patch is whole and known to the gate, no two touch one path, and the gate lists each touched path once |
| PatchEvidence.AgreedPathsArePartitioned | src/msos_autobuilder/controlled_publisher.py:1205-1243 | Then each path of the gate belongs to exactly one patch |
| ControlledPublisher.Publisher.PublishJob | src/msos_autobuilder/controlled_publisher.py:2026-2224 | Publishing has exactly the specified effects: evidence, base, deterministic commit, base again, push, draft |
| ControlledPublisher.Publisher.PushBranch | src/msos_autobuilder/controlled_publisher.py:2158-2167 | The push happens only if the branch is absent; an equal branch is accepted, a different one refused |
| ControlledPublisher.Publisher.EnsureDraft | src/msos_autobuilder/controlled_publisher.py:2169-2189 | The one open draft at the commit is found, or created and read back |
| ControlledPublisher.Publisher.RunOnce | src/msos_autobuilder/controlled_publisher.py:2302-2542 | A pass verifies drafted entries, skips blocked ones, publishes passed jobs and saves the ledger after each |
| PublicationSafety.OnePullPerBranch | src/msos_autobuilder/controlled_publisher.py:2088-2224 | Over any passes, dying anywhere while the base moves freely: each branch gets at most one push and one draft, the draft is of the pushed commit, and every drafted ledger entry is of a branch and commit that were pushed and drafted |
| PublicationOutcomes.OnlyPassedIsPublished | src/msos_autobuilder/controlled_publisher.py:2026-2224 | Over any passes, every push and every draft is of a listed job that passed its gate, validates and is admitted, on a base its candidate descends from, does not overlap with and passes its checks on |
| PublicationOutcomes.JobDecided | src/msos_autobuilder/controlled_publisher.py:2343-2540 | One job taken alone: exactly when the pass goes on, and what it leaves of a new, drafted, drifted, failed or unknown job |
| PublicationOutcomes.PassLeftAlone | src/msos_autobuilder/controlled_publisher.py:2302-2542 | A pass left alone succeeds if and only if every listed job is passable, and then every publishable job is drafted at its candidate, while failed, drifted and unknown ones hold up nothing |
| PublicationSafety.ChangedBaseFailsClosed | src/msos_autobuilder/controlled_publisher.py:2149-2167 | Once the branch exists nothing is pushed, however the base and pull requests move meanwhile; if it is not the candidate on the base then read, publishing fails and opens nothing |
| PublicationSafety.InterruptedPublicationIsFinished | src/msos_autobuilder/controlled_publisher.py:2088-2224 | While the base stays, a publication that died after its push or its draft is finished by the next one with the same commit and nothing made twice |
| PublicationSafety.NewJobsComeFirst | src/msos_autobuilder/controlled_publisher.py:2338-2342 | A pass takes every listed job once, and all jobs not in the ledger before any that is |
| CatalogBacklog.LoadBacklog | src/msos_autobuilder/catalog_materializer.py:175-247 | Loading succeeds exactly when every listed entry is sound and no two share an order or chapter, and returns exactly those items in ascending order |
| CatalogBacklog.EvaluateEligibility | src/msos_autobuilder/catalog_materializer.py:359-514 | The loop returns the first eligible item; every just-in-time item up to it has its decision recorded, and every recorded decision is such an item's own |
| CatalogBacklog.ChosenChapterIsReady | src/msos_autobuilder/catalog_materializer.py:359-514 | The chapter chosen has the lowest order among those that pass every gate, and all its dependencies are declared terminal or proven merged |
| CatalogBacklog.EligibleExactly | src/msos_autobuilder/catalog_materializer.py:359-514 | Exactly what makes a chapter eligible |
| CatalogBacklog.OnlyProofUnlocks | src/msos_autobuilder/catalog_materializer.py:410-453 | No backlog status, done included, and no exclusion ever unlocks a chapter blocked on a dependency |
| CatalogBacklog.ChoicesAreTopological | src/msos_autobuilder/catalog_materializer.py:359-514 | Over any sequence of choices and merges, chapters are chosen in an order that respects every dependency not declared terminal |
| CatalogPackets.CatalogDirectory.WritePacket | src/msos_autobuilder/catalog_materializer.py:933-995 | A packet is written only under a new name with an unused order and work item; an identical file is left alone; nothing is overwritten |
| CatalogPackets.WritesOnlyAdd | src/msos_autobuilder/catalog_materializer.py:933-995 | Over any writes, orders and work items stay unique and no file is changed or removed |

## Left out

- WorkItemSource.SourceBytesAreTheItem: the tests made on parsed objects (which pipeline, which item) are predicates on their text.
- LifecycleEvidence.EmitKeepsSound: evidence ids cut to 32 hexadecimal digits are taken as injective.
- RefillController.RefillFiles.ReconcileRefill: recovered attempts do not carry where they were found, and report texts are enumerated causes.
- RefillSafety.RefillIsSafe: one generation; starting a generation anew is the founder's command, and supersession is modelled on its own.
- RefillRuns.BuiltIsOffered: admission, fetching the target and building the job body are one outcome that may refuse.
- Supersession.SupersessionFiles.SupersedeGeneration: a generation file is its parsed content and a layout; unreadable files are not modelled.
- CompletionController.Controller.RunOnce: validation of the published evidence, cleanup of workspaces, publishing the report, emitting evidence and releasing the claim are outcomes that may fail.
- CheckFold.ValidateRequiredChecks: state texts are taken as already stripped and lower-case.
- PersistentHost.Host.ProcessOne: running the tasks, preparing the source and collecting patches are one outcome; receipts and evidence emission are not part of this model.
- HostQueueSafety.ClaimsAreNeverLost: queue files are named by the id of the job in them, as the host's own writers name them, and ids are safe names.
- Lanes.MatchIsUnderRoot: character classes have ranges and negation only.
- Lanes.DisjointExactly: paths that hold wildcard characters themselves are covered by CompatibleLanesAreDisjoint only, for tidy patterns; patterns with surrounding blanks are characterised by ApartIsCovered.
- Leases.TenuresNeverOverlap: unreadable lease files are a taken lock.
- Scheduler.ParallelScheduler.RunTasks: finding a backend and a workspace is an outcome per task; semaphores and threads are not modelled, and heartbeats are operations that happen while the tasks run.
- ControlledPublisher.Publisher.RunOnce: proof of merged content, founder-superseded drafts, claim release and drafted-review evidence are not modelled; a closed draft is a fault.
- PublicationSafety.OnePullPerBranch: only the job branches of the remote are modelled, and a merged branch is not deleted.
- CatalogBacklog.EvaluateEligibility: texts are taken as lower-case, and the reason texts and the special report on the guided-shell chapter are left out.
- CatalogPackets.CatalogDirectory.WritePacket: packet validation is one boolean.
- Paging, credentials, HTTP and Git subprocesses, YAML loading, command line, rendering, instruction texts.
- Operating-system locks, temporary files, process liveness, Windows paths.
- Work admission, results relay, revision loop, service error markers and health evidence, which appear as inputs that may refuse.
- Routing, contracts, candidate gates, self-update and notification services, which would add easy members only.
