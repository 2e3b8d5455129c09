# agent-orch in Dafny

A model of agent-orch, a local orchestrator that drives coding agents through a frozen stage graph, with
proofs of what its records, caps, gates and ledgers promise. Each module models one part of the system; the
laws are stated over every input, every run, or every crash-interleaved run of that part.

`dafny verify dfyconfig.toml` checks the whole project.

## What is modelled

**Convergence gate and lifecycle.** `Profiles` is the frozen stage graph and its validation, `GateGraph` the
two graph searches of the convergence gate, `Convergence` the repeat-review record, its scoring and its
baseline. `Lifecycle` gives every controller transaction (claim, commit, cap stop, resume, orphan block,
preflight stop) as a step on the rows of one task; `LifecycleInvariants` proves what every sequence of them
keeps; `ConvergenceLoop` proves that an envelope task on a gate-passing profile still stops although its caps
are lifted, and that resolved findings stay resolved; `FirstReviewBound` decides on which profiles the findings of
the very first review bound that loop. `Controllers` is the controller as an object that updates
those rows in place, proved against `Lifecycle`.

**Trajectory and replay.** `Trajectory` is the hash-chained event store and its admission rules, `Replay` the
pure reducer and the freezing of a snapshot, `ReplayIntegrity` the agreement of store and reducer, `Recorder`
what the controller emits in each transaction, `ReplayAgreement` the agreement of replay and rows.

**Live stream and watch.** `LiveStream` is the two-thread stream of a provider run as atomic steps that may
interleave in any way, `Watch` the window reader over a file that grows while it is read; `Bytes` and `Base64`
are their encodings.

**Daemon.** `Daemon` is the request queue over the lifecycle, with a crash possible between any two durable steps.

**Kanban.** `KanbanCards` gives the card commands, `KanbanLaws` what any deliveries of them keep, `KanbanStores`
the handler that updates rows and events in place. `Quota` and `QuotaLedger` are the weekly budget arithmetic,
the snapshots, their watermarks and the claims.

**Artifacts, stop gate, review sessions.** `JsonText`, `Yaml` and `YamlRoundTrip` are the artifact printer and
reader, `StopGate` the gate records with a crash possible between any two file writes, `ReviewSession` the
reviewer session ledger.

## How to read the model

- A SQLite transaction, an `os.replace` and an atomic file write are single steps. SHA-256 and canonical JSON are
  injective constructors: the hash of something is a value that contains it.
- Generated identifiers (run, lease, operation and session identifiers) are natural numbers, new where the source
  draws a UUID. Provider runs, provider preflights, clocks and what commands find on disk are parameters.
- A transition reason is one of the controller's own codes or any other text; only a reviewer disposition commits
  `waiting_user`, and its reason is never `edge_cap` (orchestrator/controller.py:393-426).
- A stage-run row cannot be `failed` (the schema's check constraint), so committing a `failed` run is refused and rolls back.
- A legacy profile edge named `needs_user_decision` into a terminal stage parks the task there, and it cannot be
  claimed again; the laws hold of such profiles too.
- Where the code and a stronger reading of its documentation part, the code is modelled, the
  difference is exhibited, and the condition is proved in both directions:

  | stronger reading | difference shown by | exact condition |
  |---|---|---|
  | the findings of the first review bound the automatic loop | `FirstReviewBound.TwinOutlasts` | `FirstReviewBound.FirstReviewBoundsExactly` |
  | a live file marked complete holds all that was offered | `LiveStream.InterruptedRecordIsLost` | `LiveStream.LiveFileTellsTheTruth` |
  | of the commands with one expected revision one is accepted | `KanbanLaws.CreateMayShareItsRevision` | `KanbanLaws.OneAcceptedPerRevision` |
  | a decision that was made shows in the records | `StopGate.UnrecordedIsReached` | `StopGate.DecisionShowsExactly` |
  | calls on a reviewer session never overlap | `ReviewSession.ReimportOverlaps` | `ReviewSession.OverlapsExactly` |
  | a written mapping reads back as itself | `YamlRoundTrip.WrittenIsRead` | `YamlRoundTrip.RoundTripExactly` |

## Model

| member | source | states |
|---|---|---|
| Profiles.ValidateProfile | orchestrator/profile.py:105-178 | a profile is accepted exactly when its initial stage is a working stage, every outcome leads to a stage, some stage is terminal, and the caps are positive and cover every edge and nothing else |
| Profiles.ValidateEdges | orchestrator/profile.py:134-176 | one stage passes exactly when it has a positive attempt cap and at least one outcome, and each outcome has an existing target and a cap |
| Profiles.ValidateCaps | orchestrator/profile.py:158-177 | the caps pass exactly when each belongs to a declared outcome and is positive |
| Profiles.EdgeIdInjective | orchestrator/profile.py:47-48 | two edges of dot-free stage names never share the counter key "stage.outcome" |
| GateGraph.ReachableStages | orchestrator/controller.py:1115-1129 | the worklist returns exactly the stages some walk from the initial stage enters |
| GateGraph.HasCycle | orchestrator/controller.py:1132-1165 | the iterative three-colour search terminates and reports a cycle if and only if the induced subgraph has one |
| GateGraph.ExploreFrom | orchestrator/controller.py:1148-1164 | one root's search either finds a real cycle or finishes the root and keeps everything finished |
| GateGraph.GateReachable | orchestrator/controller.py:1167-1193 | the gate holds exactly when every reachable cycle passes both a branching and a correction stage |
| GateGraph.LoopsScoredByRemoval | orchestrator/controller.py:1187-1193 | removing either kind of stage leaves no cycle if and only if every loop has both kinds |
| GateGraph.AcyclicWalkFits | orchestrator/controller.py:1167-1193 | a walk inside an acyclic set of stages is no longer than the set |
| Convergence.AcceptedRecordIsReadable | orchestrator/runner.py:290-339 | a record accepted in the shape a run was asked for reads back the same when no shape is prescribed, and one acceptable in neither shape is unreadable |
| Convergence.ConvergenceVerdict | orchestrator/runner.py:349-363 | improved exactly for a proper subset of the prior live set that touches nothing resolved before; oscillating exactly when something resolved is live again |
| Convergence.ValidateConvergence | orchestrator/runner.py:366-391 | an accepted record's resolved and added sets are the computed ones, and improved means strictly fewer findings and none added |
| Convergence.SealedRecords | orchestrator/controller.py:1319-1346 | exactly the readable branching records are collected, and the pass fails exactly when evidence of an accepted claim is lost |
| Convergence.LastQualifying | orchestrator/controller.py:1287-1306 | the run found is the last usable branching run with a correction after it, if there is one |
| Convergence.AllResolved | orchestrator/controller.py:1313-1317 | the historical set is exactly what some usable review recorded as resolved |
| Convergence.ConvergenceContext | orchestrator/controller.py:1273-1317 | the context of a branching run is unscorable, first or repeat with the baseline, exactly as the committed history demands |
| Convergence.ContinuingRunIsScored | orchestrator/controller.py:1348-1393 | a run that goes on with an ordinary outcome was left untouched and is readable, and as a repeat it lists strictly fewer findings than its baseline, none resolved before |
| Convergence.GoesOnExactly | orchestrator/controller.py:1348-1393 | a branching run goes on if and only if it claimed an ordinary success, the baseline is scorable, its record has the shape asked for, and a repeat's record agrees with the computed sets, shrinks the live set and revives nothing |
| LifecycleInvariants.KeepsConsistent | orchestrator/controller.py:645-1037 | every admissible transaction keeps all lifecycle invariants together |
| LifecycleInvariants.EveryRunIsConsistent | orchestrator/controller.py:183-1037 | every task, after any sequence of claims, commits, resumes, orphan blocks and preflight stops, satisfies them |
| LifecycleInvariants.TaskLaws | orchestrator/controller.py:670-936 | the transition count is the sum of the edge counts plus one exactly while parked on an edge cap; for a capped task it never exceeds the maximum plus the waiting-user resumes; the log is contiguous, chained and tells the status; running means exactly one active run with the task's lease |
| LifecycleInvariants.TerminalEdgeIsFree | orchestrator/controller.py:854-882 | the counter of an edge into a terminal stage is still zero while the task runs |
| LifecycleInvariants.TerminalEdgeEnds | orchestrator/controller.py:848-936 | committing an ordinary outcome into a terminal stage ends the task there; no cap refuses it |
| LifecycleInvariants.NextAttemptIsNew | orchestrator/controller.py:1407-1416 | the next cycle and attempt of a stage are above every earlier run of that stage |
| LifecycleInvariants.HistoryGrows | orchestrator/controller.py:1195-1204 | the committed history only grows, by exactly the run just committed |
| ConvergenceLoop.UncorrectedReviewIsFirst | orchestrator/controller.py:1287-1306 | until a correction is committed every readable review is scored as a first one, whatever it lists |
| ConvergenceLoop.ReviewShrinksBase | orchestrator/controller.py:1287-1306 | a review that goes on after a correction lists strictly fewer findings than the run it is scored against |
| ConvergenceLoop.GroupsCostFindings | orchestrator/controller.py:1348-1393 | each further group of reviews costs at least one finding of the opening live set |
| ConvergenceLoop.SegmentIsBounded | orchestrator/controller.py:1167-1193 | runs committed without a resume in between number at most the review stages times live+1 plus the correction stages times live+2 |
| ConvergenceLoop.LoopIsSegment | orchestrator/controller.py:300-426 | turns of the loop with ordinary outcomes commit one scored run each, along ordinary edges, on top of the history; the last one may end or park the task |
| ConvergenceLoop.AutomaticLoopEnds | orchestrator/controller.py:667-674 | the automatic loop of an uncapped envelope task, its last turn included, is bounded by its stages and its opening live set |
| ConvergenceLoop.NoEndlessLoop | orchestrator/controller.py:300-426 | no infinite sequence of turns with ordinary outcomes exists |
| ConvergenceLoop.RequeuedIsOrdinary | orchestrator/controller.py:741-936 | only an ordinary outcome leaves an envelope task queued, so the loop never goes on otherwise |
| ConvergenceLoop.ResolvedNeverReturns | orchestrator/controller.py:1308-1317 | what an accepted repeat resolved is live in no later review that goes on |
| ConvergenceLoop.RepeatsOnlyShrink | orchestrator/controller.py:1287-1306 | between resumes the live sets of accepted repeats only shrink, also when two share one older baseline |
| ConvergenceLoop.LoopRepeatsOnlyShrink | orchestrator/controller.py:300-426 | the same of the controller's turns: after an accepted repeat, every later review of the stretch that goes on, parks or ends the task lists a subset of its findings |
| ConvergenceLoop.ResolvedStaysResolved | orchestrator/controller.py:1273-1393 | over a task's whole life, across resumes and interruptions, a resolved finding is live in no later review that commits an ordinary outcome, whether it requeues, parks or ends the task |
| ConvergenceLoop.ContextIsUnique | orchestrator/controller.py:1273-1317 | a history has at most one convergence context |
| FirstReviewBound.ContextExists | orchestrator/controller.py:1273-1317 | and every history has one |
| FirstReviewBound.FirstReviewHolds | orchestrator/controller.py:1167-1193 | from any state, if something is there to be scored against, or no loop lies behind two adjacent opening reviews, the stretch is bounded by the findings of its first review |
| FirstReviewBound.TwinOutlasts | orchestrator/controller.py:1287-1306 | a loop behind two adjacent opening reviews lets a new task run longer than its first review allows, in turns of the controller |
| FirstReviewBound.FirstReviewBoundsExactly | orchestrator/controller.py:1167-1193 | for a new task the first review bounds the automatic loop if and only if no walk enters two adjacent reviews before any other review and then some stage twice |
| Controllers.Controller.Submit | orchestrator/controller.py:235-276 | a submitted task is queued at the initial stage with one logged transition and a zero counter for every edge, and satisfies every lifecycle invariant |
| Controllers.Controller.SeedCounters | orchestrator/controller.py:257-260 | exactly one counter at zero with the profile's cap per edge |
| Controllers.Controller.CapsLifted | orchestrator/controller.py:662-669 | the caps only observe exactly for an envelope task on a profile whose every loop is scored |
| Controllers.Controller.ClaimStage | orchestrator/controller.py:645-739 | a claim writes the new run and lease, or a cap stop, or nothing, as the transaction says, and keeps every lifecycle invariant |
| Controllers.Controller.CommitRun | orchestrator/controller.py:741-964 | a commit writes exactly the transaction's rows, a refused one nothing, and every lifecycle invariant is kept |
| Controllers.Controller.FollowEdge | orchestrator/controller.py:848-936 | a declared outcome moves the task along its edge, counts it unless capped, and stops where the cap or the hold says |
| Controllers.Controller.Resume | orchestrator/controller.py:966-1037 | a resume requeues with its allowance and counts the capped edge; a used operation id or a refused resume changes nothing; every lifecycle invariant is kept |
| Controllers.Controller.BlockOrphanedRunning | orchestrator/controller.py:1442-1485 | an interrupted run and its task are blocked and logged together, keeping every lifecycle invariant |
| Controllers.Controller.RecordPreflightStop | orchestrator/controller.py:2446-2519 | an unusable provider leaves a closed run and a stopped task, a task no longer queued is left alone, and every lifecycle invariant is kept |
| Trajectory.TrajectoryStore.Append | orchestrator/trajectory.py:675-797 | an event is stored exactly when it is valid, current, next in the chain, keeps the provider and session rules, points only backwards and is new; otherwise nothing changes |
| Trajectory.TrajectoryStore.CheckProvider | orchestrator/trajectory.py:708-744 | a provider event passes exactly when its invocation's one intent, identity, session and order allow it |
| Trajectory.TrajectoryStore.PriorOf | orchestrator/trajectory.py:709-716 | exactly the stored events of one invocation, in order |
| Replay.ReduceSnapshot | orchestrator/trajectory_replay.py:331-856 | the reducer's loops compute the projection, the faults and the verdict of the folds |
| Replay.ReadEvents | orchestrator/trajectory_replay.py:310-328 | unreadable events are reported and skipped |
| Replay.CheckChain | orchestrator/trajectory_replay.py:396-423 | the pass reports every gap, duplicate, broken link and late parent of the chain fold |
| Replay.CanonicalRuns | orchestrator/trajectory_replay.py:453-459 | the rows by token, and whether tokens repeat |
| Replay.FoldEvents | orchestrator/trajectory_replay.py:462-625 | the dictionaries updated in the loop are those of the event fold |
| Replay.ApplyProvider | orchestrator/trajectory_replay.py:563-606 | an intent opens an invocation, the other provider events must find theirs and come once |
| Replay.CompareAttempts | orchestrator/trajectory_replay.py:627-661 | the attempts pass exactly when each equals what its row says |
| Replay.OpenInvocations | orchestrator/trajectory_replay.py:663-675 | exactly the invocations without handover or result count as unknown |
| Replay.CollectRefs | orchestrator/trajectory_replay.py:677-690 | the reference table, and whether an identifier ever changed its meaning |
| Replay.ReadInventory | orchestrator/trajectory_replay.py:692-736 | the inventory by identifier, whether anything in it is corrupt or gone |
| Replay.FreezeSnapshot | orchestrator/trajectory_replay.py:142-232 | freezing assembles events, inventory, rows and manifest consistently, and succeeds whenever no reference identifier changed its meaning |
| ReplayIntegrity.ChainMeans | orchestrator/trajectory_replay.py:396-423 | the chain check is exact: no fault if and only if every event is numbered next, carries its predecessor's hash, is new and points backwards |
| ReplayIntegrity.AdmittedReplaysClean | orchestrator/trajectory.py:675-797 | events admitted one by one, with revisions never falling and run identities fixed, replay without gap, broken chain, bad parent, duplicate or unpaired provider event, bad session predecessor, unknown run or revision regression |
| ReplayIntegrity.TracksStep | orchestrator/trajectory_replay.py:563-606 | what the replay knows of an invocation is what the store's prior events say, event after event |
| ReplayAgreement.ClaimAgrees | orchestrator/controller.py:1605-1641 | after a recorded claim or cap stop the replayed task and attempts equal the rows |
| ReplayAgreement.CommitAgrees | orchestrator/controller.py:1745-1899 | after a recorded commit of any classification the replayed task and attempts equal the rows |
| ReplayAgreement.OrphanAgrees | orchestrator/controller.py:1442-1485 | after a recorded orphan block the replayed task and attempts equal the rows |
| ReplayAgreement.PreflightAgrees | orchestrator/controller.py:2446-2519 | after a recorded preflight stop the replayed task and attempts equal the rows |
| ReplayAgreement.ResumeAgrees | orchestrator/controller.py:966-1037 | after a recorded resume the replayed task and attempts equal the rows |
| ReplayAgreement.CodedAsExpected | orchestrator/controller.py:1501-1511 | an outcome the trajectory accepts is coded as the replay expects it; the literal `other` is refused |
| ReplayAgreement.BaselineFollows | orchestrator/trajectory.py:892-940 | the one baseline of a writer turned on later accounts for every transition so far |
| ReplayAgreement.KeepsSameRefs | orchestrator/controller.py:1656-1743 | a reference identifier never stands for two artifacts |
| ReplayAgreement.EveryStoreIsRecorded | orchestrator/controller.py:1578-1930 | every reachable recorded controller keeps rows, events and accounting in step, whatever appends are refused |
| ReplayAgreement.ReplayAgrees | orchestrator/trajectory_replay.py:331-856 | replay of a frozen reachable trajectory is corrupt exactly when a referenced artifact is damaged, a mismatch exactly while nothing is recorded, and otherwise shows the very status, revision, log length and attempts of the rows; with the writer on since submission every row is an attempt; completeness is lacking exactly when the record is unsure, damaged or empty, and otherwise complete exactly when the writer was on since submission |
| ReplayAgreement.RunsAreReplayed | orchestrator/controller.py:1605-1899 | whenever the writer was turned on, every run begun since is an attempt of the replay |
| ReplayAgreement.EveryStoreBaselines | orchestrator/trajectory.py:892-940 | a baseline is in the record exactly when the writer was off at submission |
| ReplayAgreement.FreezeAndReduce | orchestrator/trajectory_replay.py:142-232 | freezing a reachable trajectory never fails, and its reduction is the one the agreement speaks of |
| LiveStream.EndLineFits | orchestrator/runner.py:1303-1322 | a stage_end line with numbers of up to a hundred digits fits the 512-byte reserve |
| LiveStream.EveryInterleavingIsSane | orchestrator/runner.py:1166-1472 | the queue, file and accounting invariants hold in every interleaving of both threads |
| LiveStream.LiveFileTellsTheTruth | orchestrator/runner.py:1298-1456 | the file never exceeds 8192 bytes and numbers records without a gap, no put finds the queue full, a stage_end line always fits, and a file marked complete holds exactly the queued records in order, which are all that were offered if and only if no interrupt hit between a check and its put |
| LiveStream.InterruptedRecordIsLost | orchestrator/runner.py:1357-1371 | an asynchronous interrupt between the check and the put loses a record from a stream that calls itself complete |
| LiveStream.Live.Offer | orchestrator/runner.py:1357-1371 | an optional record is admitted only below the optional depth and before closing; otherwise the stream is marked incomplete; the stream invariants are kept |
| LiveStream.Live.SendSentinel | orchestrator/runner.py:1323-1327 | the sentinel is queued in the reserved slot |
| LiveStream.Live.Write | orchestrator/runner.py:1402-1427 | a record is written and numbered only if it leaves the reserve; a failed write closes the file for good; the stream invariants are kept |
| LiveStream.Live.Finish | orchestrator/runner.py:1384-1393 | completeness is read after the sentinel, and anything still queued forfeits it |
| LiveStream.Live.WriteEnd | orchestrator/runner.py:1429-1456 | the terminal line may use the reserve, the file is closed after it, and the stream invariants are kept |
| Base64.RoundTrip | orchestrator/watch.py:126-139 | decoding an encoded record gives back the very bytes |
| Watch.CursorRoundTrip | orchestrator/watch.py:156-172 | a formatted cursor parses back exactly when its token is non-empty and has no colon |
| Watch.ScanFrames | orchestrator/watch.py:231-245 | the scan returns the admissible complete lines a buffer starts with, and whether the first one is too long |
| Watch.ReadBuffer | orchestrator/watch.py:216-229 | short reads add up to the snapshot's bytes while the file only grows |
| Watch.ReadWindow | orchestrator/watch.py:175-301 | the answer is about the one size taken before any read, whatever is appended meanwhile; truncation is reported only of a file that is not append-only |
| Watch.WindowCovers | orchestrator/watch.py:246-272 | a success returns exactly the bytes it moves over, ends on a record boundary, and moves unless it is at the snapshot's end |
| Watch.RowSixIsUnreachable | orchestrator/watch.py:293-299 | the last row of the answer table is never reached |
| Watch.PollsRebuildTheFile | orchestrator/watch.py:175-301 | whatever window sizes are used and whatever is appended in between, the decoded records add up to the file up to the cursor, which is a record boundary |
| Watch.FedBackCursorIsAccepted | orchestrator/watch.py:200-214 | a cursor fed back is never out of range or inside a record |
| Watch.LiveFilesAreNeverOversized | orchestrator/watch.py:261-283 | no file the live writer can produce in any interleaving reads as oversized |
| Daemon.EveryWorldIsSane | orchestrator/daemon.py:78-90 | every crash-interleaved run keeps all tasks consistent and every operation id unique |
| Daemon.AppliedAtMostOnce | orchestrator/daemon.py:102-166 | no two transitions of one or of two tasks carry the same operation id, so no request creates or resumes twice |
| Daemon.TaskIsKept | orchestrator/controller.py:204-214 | a submitted task is never submitted again; it keeps its content and everything it has logged |
| Daemon.NoClaimBeforeResume | orchestrator/controller.py:161-169 | a run interrupted by a crash is followed by another run of its task only after a resume under an operation id not used before |
| Daemon.ArchivedHasResult | orchestrator/daemon.py:211-219 | whatever has been archived has its result on disk |
| KanbanLaws.RedeliveryChangesNothing | orchestrator/kanban/commands.py:408-420 | redelivering commands in any interleaving leaves what delivering each operation id once leaves |
| KanbanLaws.ReplayReportsTheOriginal | orchestrator/kanban/commands.py:426-451 | a replay reports the recorded result, reason and revision whatever happened since; another command under the same id conflicts and changes nothing |
| KanbanLaws.WriteIsGood | orchestrator/kanban/commands.py:907-1319 | every accepted command moves the revision by one, and its recorded delta says exactly what it did to the card |
| KanbanLaws.EveryBoardIsKept | orchestrator/kanban/commands.py:374-423 | every reachable board keeps the fold, the revisions and the bound approvals |
| KanbanLaws.EventsTellTheCard | orchestrator/kanban/commands.py:864-1319 | folding a card's accepted events gives its revision, state, fields, generation and approval hash; revisions are 0, 1, 2, ...; an approval is the hash of the contract on its approve event with no scope field changed since; ready and done imply one |
| KanbanLaws.AcceptedNamesItsRevision | orchestrator/kanban/commands.py:617-648 | every accepted command but create names the revision it moved |
| KanbanLaws.OneAcceptedPerRevision | orchestrator/kanban/commands.py:599-648 | two accepted commands about a card carry the same expected revision if and only if the first is the create and was sent with the revision the second one moved |
| KanbanLaws.CreateMayShareItsRevision | orchestrator/kanban/commands.py:876-904 | create accepts and records an expected revision that a later edit uses again |
| KanbanStores.KanbanStore.HandleRequest | orchestrator/kanban/commands.py:374-451 | a used operation id replays, a new one performs its command, in one transaction, and the board keeps its fold, revisions and bound approvals |
| KanbanStores.KanbanStore.CreateCard | orchestrator/kanban/commands.py:864-904 | create performs what the specification decides |
| KanbanStores.KanbanStore.EditCard | orchestrator/kanban/commands.py:907-959 | edit performs what the specification decides; a scope edit revokes the approval and takes a ready card back |
| KanbanStores.KanbanStore.ApproveCard | orchestrator/kanban/commands.py:962-1021 | approve performs what the specification decides and binds the card to its event |
| KanbanStores.KanbanStore.Invalidate | orchestrator/kanban/commands.py:1156-1212 | withdraw and return perform what the specification decides |
| KanbanStores.KanbanStore.FinishCard | orchestrator/kanban/commands.py:1282-1382 | done performs what the specification decides |
| Quota.EvaluatePool | orchestrator/kanban/quota.py:41-145 | the loop debits exactly the claims past the watermark and answers with the first reason that applies |
| Quota.EligibleExactly | orchestrator/kanban/quota.py:128-144 | on a sound, fresh snapshot a night is admitted if and only if the estimate is within the nightly cap and could be spent in every remaining window without reaching the reserve |
| Quota.EvaluatePools | orchestrator/kanban/quota.py:148-203 | all pools are eligible exactly when there is one and every distinct required pool affords its share |
| Quota.ReserveIsNeverTouched | orchestrator/kanban/quota.py:128-144 | no admission sequence of any length takes the remaining quota below the reserve |
| Quota.ModestNightsAreAdmitted | orchestrator/kanban/quota.py:128-144 | from one snapshot with w windows left, w successive nights each asking at most the first night's budget are all admitted |
| QuotaLedger.QuotaStore.SnapshotCommand | orchestrator/kanban/quota.py:206-291 | an observation is stored with the global watermark exactly when it is valid, new and every claim of its pool had safely stopped before it; the watermarks stay sound |
| QuotaLedger.QuotaStore.InvalidateCommand | orchestrator/kanban/quota.py:341-375 | invalidation marks an exact, not yet stale snapshot and nothing else; the watermarks stay sound |
| QuotaLedger.QuotaStore.ClaimsAfterWatermark | orchestrator/kanban/quota.py:311-338 | every debit of the pool past the watermark is loaded whatever its phase, or the read fails on an unreadable claim |
| QuotaLedger.EveryLedgerIsWatermarked | orchestrator/kanban/quota.py:236-271 | in every reachable ledger a covered claim had stopped by the observation, and no watermark runs ahead of the claims |
| QuotaLedger.CoveredOrDebited | orchestrator/kanban/quota.py:236-338 | each claim of a pool is either covered by the latest snapshot, having stopped before it, or debited: never both, never neither |
| QuotaLedger.InvalidationKeepsTheLatest | orchestrator/kanban/quota.py:294-308 | invalidating never makes an older observation current again |
| JsonText.QuoteRoundTrip | orchestrator/start.py:3264-3271 | a printed string reads back as the string |
| JsonText.IntRoundTrip | orchestrator/start.py:3214-3230 | a printed integer reads back as the integer |
| Yaml.ReadYaml | orchestrator/start.py:3138-3145 | the reader answers as the line specification does and refuses leftover lines |
| Yaml.ReadDict | orchestrator/start.py:3157-3181 | the mapping loop computes the recursive specification |
| Yaml.ReadList | orchestrator/start.py:3184-3207 | the list loop computes the recursive specification |
| YamlRoundTrip.ScalarRoundTrip | orchestrator/start.py:3214-3271 | a printed scalar reads back as itself |
| YamlRoundTrip.BlockReads | orchestrator/start.py:3148-3261 | a printed block reads back at any depth and in any context, and the reader stops exactly behind it |
| YamlRoundTrip.WrittenIsRead | orchestrator/start.py:3133-3271 | reading what was written gives the tree back, with an empty list under a key as a mapping and an empty container in a list as null |
| YamlRoundTrip.RoundTripExactly | orchestrator/start.py:3133-3271 | a mapping survives writing and reading exactly when it has no empty list under a key and no empty container in a list |
| StopGate.PlanIsSafe | orchestrator/start.py:381-871 | after each single write of each command every trace of a decision agrees with the artifact |
| StopGate.DoneOnlyIfAllowed | orchestrator/start.py:810-871 | with a crash between any two writes, a stop-gated task is done only if an ALLOW artifact exists, and recorded decisions are the artifact's |
| StopGate.DecisionIsFinal | orchestrator/start.py:441-568 | the artifact and the decision of either record never change, a decided gate keeps its decision, and no later sync turns a BLOCK into done |
| StopGate.DecisionShowsExactly | orchestrator/start.py:810-871 | with an artifact and no write under way, the records show the decision if and only if the task record has it, and no later command, sync or crash changes that |
| StopGate.CrashAfterArtifact | orchestrator/start.py:861-863 | a crash right after the artifact leaves a decision no record shows |
| StopGate.UnrecordedIsReached | orchestrator/start.py:441-871 | from a routed task, through its execution and its sync, that state is reached |
| StopGate.ArtifactAloneStaysUnrecorded | orchestrator/start.py:826-827 | in that state no command ever records the decision or makes the task done |
| StopGate.GateHome.StartSync | orchestrator/start.py:441-568 | a sync writes the execution result and a pending or decided gate into both records, and keeps every recorded decision |
| StopGate.GateHome.GateDecide | orchestrator/start.py:810-871 | a decision is written once, only over a pending gate without an artifact, and agrees with the artifact |
| StopGate.GateHome.EnqueueReview | orchestrator/start.py:598-697 | a gate review is enqueued at most once and only while the gate is pending |
| StopGate.GateHome.RecordAdvice | orchestrator/start.py:700-807 | a reviewer's recommendation is recorded and leaves the gate undecided |
| ReviewSession.EveryCallIsAccounted | orchestrator/review_session.py:113-174 | in every crash-interleaved run each call is settled by a hash-verified manifest of its log, session and model, or pending in its series' record or predecessor chain; and whatever is pending there was announced and is open |
| ReviewSession.OverlapsExactly | orchestrator/review_session.py:85-156 | a call that begins on a session overlaps an earlier unresolved one if and only if some series was rehydrated away from that session with its call pending |
| ReviewSession.ReimportOverlaps | orchestrator/review_session.py:47-144 | a crash, a rehydration and an import of the old session into another series lead there |
| ReviewSession.SessionStore.Begin | orchestrator/review_session.py:148-156 | the pending call is written under the lock before any spawn, or nothing changes; every call stays accounted for |
| ReviewSession.SessionStore.Complete | orchestrator/review_session.py:160-174 | only a verified manifest of this run, session and model clears the pending call; every call stays accounted for |
| ReviewSession.SessionStore.Replace | orchestrator/review_session.py:113-144 | rehydration keeps the whole predecessor record, pending work included; every call stays accounted for |

## Left out

- ConvergenceLoop.AutomaticLoopEnds: bounds by the live set of the last review of the first group of reviews; the very first review bounds a new task's loop exactly on the profiles FirstReviewBound.FirstReviewBoundsExactly names.
- FirstReviewBound.FirstReviewHolds: for a task already under way the condition is sufficient only; both directions are proved for a new task.
- ConvergenceLoop.RepeatsOnlyShrink: speaks of accepted repeats only, because a first review in the wrong shape is held and yet read as usable later.
- Daemon.AppliedAtMostOnce: does not say that a request is ever applied; a daemon that keeps crashing applies nothing.
- ReplayAgreement.ReplayAgrees: the writer is on throughout or turned on once; turning it off again leaves gaps and is not modelled.
- Profiles.ValidateProfile: does not model the version, type, owner, timeout, prompt and identifier checks, which look at one field each and influence no transition.
- Replay.FoldEvents: does not accumulate usage buckets and model-visible boundaries, which no fault and no verdict depends on.
- Replay.ApplyProvider: does not keep elapsed times, usage and final-response references, for the same reason.
- Replay.FreezeSnapshot: does not model sensitivity ranking and the size, media and retention fields of an inventory item.
- KanbanStores.KanbanStore.ApproveCard: what the source files and the JSON checks of the approval payload find is a parameter.
- KanbanStores.KanbanStore.FinishCard: what the report, seal and closeout-gate checks find is a parameter.
- Replay.ReduceSnapshot: reports which faults occurred, not at which event; usage buckets, model-visible boundaries and elapsed times of the projection are not modelled.
- Process spawning, pipes, signals, timeouts and provider preflight: a provider run is any result with any response.
- `classify_result`, `validate_sealed_boundary` and the manifest bytes: a sealed run is its response and reason, or lost.
- Sandbox profiles, containment sentinels and the containment inspection: filesystem facts with one-branch checks.
- The intake resolver, risk keywords, routing tables and prompts: text matching and prose.
- JSON encoding beyond scalars, regular expressions of identifiers, Unicode normalisation and secret detection: an event they refuse counts as a refused append.
- Floating-point scalars, inline JSON and bare words in YAML artifacts: read as foreign text, never printed by the modelled writer.
- SQLite mechanics, schema migration and read-only opens: each transaction is one step.
- The millisecond tie-break of `_next_attempt`: runs are ordered by insertion.
- Card placement and worker observations read a board view that is not part of this model: what they find is a parameter.
- The closeout gate chain of `_validate_gate` reads files: what it finds is a parameter; only the reuse of a closeout is checked in the model.
- The progress-management daemon, quarantine of unreadable files, CLI, doctor, configuration loading and demo: plumbing or easy members.
- The `parse_yaml_mapping` reader of profiles: a second, mapping-only reader of the kind already modelled.
