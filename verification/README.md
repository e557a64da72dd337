# supervsr in Dafny

A model of supervsr, an implementation of Viewstamped Replication with flexible
quorums, negative acknowledgements, a journal ring, copy-on-write checkpoints
and a quorum-written superblock, with proofs of what its parts promise.
`dafny verify dfyconfig.toml` checks everything.

## What is modelled

- **Consensus** (`Consensus*`, `Selection*`, `SharedLog`, `Quorums`, `Chains`).  A cluster takes
  steps over a message set that only grows.  A header is the whole hash chain it
  ends, so that equal checksums mean equal chains.  The journal of a replica maps
  ops to what their slots hold; writes finish in any order, and a crash keeps,
  loses or damages each unfinished one.  `SelectionSearch` holds the loops that
  the new primary runs, proved equal to the specification that the protocol
  proof uses.
- **Journal** (`JournalWindow`, `Journal`, `JournalRuns`, `JournalSlots`, `Wal`,
  `WalRuns`).  The two copies of every header, the four physical effects of an append, and recovery.
- **Superblock** (`Superblock`, `SuperblockStore`).  Rotating partial writes and the
  selection on opening.
- **Blocks** (`Allocator`, `AllocatorRuns`, `BlockAllocator`, `CheckpointCycle`,
  `References`, `WalkState`, `Reachability`, `Ewah`, `Trailers`, `TrailerStore`).
  Two-phase release, what a checkpoint needs and the walk that finds it, and how
  the free sets are stored in blocks they account for themselves.
- **Sessions** (`Sessions`, `SessionAnswers`, `SessionTable`).  Admission, execution,
  what a client is told, and the slot table.
- **Lock-free structures** (`Ring`, `FramePool`), one atomic access at a time.
- **Clock and repair budget** (`Clock`, `RepairBudget`).

## Agreement

Agreement does not hold of the protocol as the source has it.  It holds of every
run in which five conditions are met, each of which a replica could check before
it takes the step (`Consensus.Guarded`); and for each of them there is a run
that meets the other four and in which two replicas commit different headers at
one op (`ConsensusTight.EveryGuardIsNeeded`).  So a set of these conditions
ensures agreement if and only if it holds all five
(`ConsensusTight.GuardsSufficeIff`).  In the source:

- `canAcknowledge` looks only at the op itself.  Journal writes finish in any
  order, and after a crash recovery stops below the first op that is missing; the
  join that follows then counts as a nack of the op that was acknowledged.
- `beginViewChangeNow` stores the local head while prepares are still being
  written.  After a crash the stored head no longer marks what a slot holds from
  an abandoned view as obsolete, and it is replayed up to the stored commit bound.
- `handleView` accepts a reply to an old request in the view it is already in,
  and repairs towards its shorter log.
- `handleView` acts on a view before it is promised on disk.  After a crash the
  replica can join an earlier view with a prepare of the later one, whose commit
  field proves a commit of which the earlier view knows nothing.
- `beginRepairWindow` ends in the installation of a log view with only part of
  its log, which then outranks the replicas that have the rest.

The view promise (`ConsensusPromise`) needs none of these conditions, and the
conditions cost no progress: whatever requests arrive, and whichever replicas
crash and restart between them, some run within the conditions commits them all
everywhere (`ConsensusProgress.EveryRequestCanCommit`).

One cause of the first case can be seen in the selection alone: an op that a
replication quorum holds un-nacked survives exactly when no lower op above the
committed bound is cut (`SelectionProofs.HeldOpKeptIff`), and a lower op can be
(`SelectionProofs.HeldOpCanBeCut`).

## Other findings

- Of the supported 4, 6 and 8 superblock copies only 4 leave something to open
  after every crash (`SuperblockStore.OnlyFourCopiesNeverStick`).
- A session whose last request number is 2^32 - 1 is stuck: every request of it is
  dropped, the last one sent again included (`SessionAnswers.AnswersByLog`).

## Assumptions

- Checksums are injective, and no two requests for a view use the same nonce.
- A block or superblock copy is written atomically; opening the superblock store
  runs its repair to completion; no write is misdirected and no sync is reported
  falsely.
- The sets of reachable blocks and of trailer blocks are disjoint, because a block
  is read under one type only.
- A release is not cancelled while a checkpoint is being written, and only its own
  checkpoint gives up a trailer reservation.
- One reply at a time is being stored in the session table.
- Queue positions, free-list tags, sequences, views and ops are unbounded; request
  numbers wrap at 32 bits, and the arithmetic of the journal window and of the
  clock saturates or fails at 64 bits.

## Model

| member | source | states |
|---|---|---|
| Quorums.TableIntersects | replication/config.go:392-411 | The quorum table is defined exactly for 1 to 6 active replicas; for each of them a replication quorum meets every view-change quorum and every set of nacks large enough to truncate, the view-change and nack quorums are the smallest that do, and no quorum exceeds the membership. |
| Quorums.Intersect | replication/config.go:396-407 | Any two sets of replicas whose sizes sum past the membership share a member. |
| Selection.BoundIsMaximum | replication/view_change.go:386-402 | The committed bound is at least the primary's own progress and every valid join's bound, and is one of them. |
| Selection.HeadIsMaximum | replication/view_change.go:386-402 | The highest head is at least every join's head and is attained. |
| Selection.LatestIsMaximum | replication/view_change.go:469-477 | The canonical log view is the maximum over the joins and is attained. |
| SelectionProofs.SelectionShape | replication/view_change.go:402-430 | Whenever selection resolves, its headers are a gap-free hash-linked run from its commit upward, and some join holds a copy of each. |
| SelectionProofs.SelectionEnds | replication/view_change.go:402-430 | The run starts at the committed bound, fits the buffer, and stops only at the highest head or at an op that a negative quorum disowns. |
| SelectionProofs.SelectionHead | replication/view_change.go:402-430 | The chosen head extends the header at the committed bound and is reported by some join. |
| SelectionProofs.HeldIsNotCut | replication/view_change.go:491-527 | An op whose candidate a replication quorum of senders holds un-nacked is never itself cut, when a replication and a negative quorum always overlap. |
| SelectionProofs.HeldOpKeptIff | replication/view_change.go:386-527 | When selection resolves, an op so held is at or below the chosen head, with the held header, if and only if no op strictly between the bound and it is cut. |
| SelectionProofs.HeldOpCanBeCut | replication/view_change.go:412-416 | A valid join set in which two of three members hold op 2 un-nacked and the selection nevertheless ends at op 0; op 1, nacked by both senders, is where it is cut. |
| SelectionProofs.SelectionKeepsHeldOps | replication/view_change.go:386-527 | The chosen head is at or above every op up to which a replication quorum holds the candidates un-nacked. |
| SelectionProofs.AgreedChainSurvives | replication/view_change.go:432-527 | If the senders of the latest log view agree on a chain and no negative quorum disowns it, the selection extends it. |
| SelectionProofs.CandidateIsBest | replication/view_change.go:432-467 | Every sender that may offer a header at an op offers none of a later log view than the candidate's and, in that log view, none of a later header view. |
| SelectionProofs.EvidenceByFields | replication/view_change.go:491-527 | A sender disowns an op, or holds a copy of the candidate, exactly as its head, window, nack bit, present bit and log view say. |
| SelectionProofs.BoundByFields | replication/view_change.go:479-489 | The committed bound is at or above every sender's commit, checkpoint, head less the pipeline, oldest reported op and the commit field of its head, and is attained by one of them or by the primary itself. |
| SharedLog.UnanimousSelect | replication/view_change.go:386-430 | If every replica joins with the same log, all of it is selected, whatever the quorums. |
| SelectionSearch.SelectCanonicalSuffix | replication/view_change.go:386-430 | The loops resolve exactly when the specification does, and leave its headers in the buffer, head first. |
| SelectionSearch.FindCandidate | replication/view_change.go:432-467 | The candidate loop finds the specified candidate, or reports a conflict exactly when there is one. |
| SelectionSearch.CountEvidence | replication/view_change.go:491-527 | The evidence loop counts exactly the senders that disown the op and those that hold a copy. |
| SelectionSearch.CheckDisowns | replication/view_change.go:495-524 | One sender disowns the op exactly if the op is outside its window, nacked, or, in an older log view, different from the candidate or, with no candidate, of an older view. |
| SelectionSearch.ReverseFront | replication/view_change.go:426-428 | The in-place reversal turns the first `count` headers round and touches no others. |
| SelectionSearch.FindBounds | replication/view_change.go:386-402 | One pass computes the committed bound and the highest head. |
| SelectionSearch.FindLatest | replication/view_change.go:469-477 | One pass computes the latest log view. |
| ConsensusSafety.AgreementOverRuns | replication/view_change.go:71-527 | Over every run of any length from a formatted cluster in which the five conditions of `Consensus.Guarded` hold at every step, with crashes, damaged journal slots and any loss, delay, repetition or reordering of messages: no two replicas ever commit different headers at one op, in any views. |
| ConsensusSafety.StepKeeps | replication/replica_normal.go:309-626 | Every guarded step of any replica (prepare, write, acknowledge, commit, view change, selection, repair, install, checkpoint, restart) keeps the protocol invariant. |
| ConsensusSafety.RunKeeps | replication/view_change.go:71-527 | The invariant holds in every state of every guarded run. |
| ConsensusSafety.InvAgrees | replication/replica_normal.go:594-626 | In a state with the invariant all headers ever committed lie on one chain. |
| ConsensusSafety.InitInv | replication/format.go:60-140 | The freshly formatted cluster satisfies the invariant. |
| ConsensusSteps.StepCreate | replication/replica_normal.go:309-364 | Creating a prepare extends the log of the primary's view and keeps the invariant. |
| ConsensusSteps.StepAccept | replication/replica_normal.go:366-429 | Accepting a prepare that names the local head as its parent keeps the invariant. |
| ConsensusSteps.StepAck | replication/replica_normal.go:503-533 | Acknowledging an op whose predecessors are all durable keeps the invariant. |
| ConsensusViews.StepCommit | replication/replica_normal.go:594-626 | Committing an op with a replication quorum of acknowledgements in one view, or up to a learned bound, or during repair, only commits chosen headers. |
| ConsensusViews.StepPersist | replication/view_change.go:82-102 | Persisting a view with no write in flight keeps the invariant. |
| ConsensusViews.StepSendJoin | replication/view_change.go:229-284 | A join reports what the journal still owes; sending it keeps the invariant. |
| ConsensusSelect.SelectionCovers | replication/view_change.go:386-527 | What a new primary selects contains every header that could still be chosen in an earlier view. |
| ConsensusRecovery.StepSelect | replication/view_change.go:368-384 | Selecting the canonical suffix and entering repair towards it keeps the invariant. |
| ConsensusRecovery.StepAcceptView | replication/view_change.go:542-618 | Acting on a view message for a promised view that reaches the local head keeps the invariant. |
| ConsensusRecovery.StepAcceptWindow | replication/replica_repair.go:481-514 | Using a repair window inside the own log view keeps the invariant. |
| ConsensusRecovery.StepContinueWindow | replication/replica_checkpoint.go:375-388 | A backup that has committed all it has and knows of more opens a further repair window in its own view; this needs no extra condition and keeps the invariant. |
| ConsensusSafety.StepInstall | replication/view_change.go:170-216 | Installing a repaired view fixes the log of the view and keeps the invariant. |
| ConsensusSafety.StepRestart | replication/open.go:251-329 | Reopening after any crash, with any unfinished write kept or lost and any slot damaged, keeps the invariant. |
| ConsensusSafety.StepCheckpoint | replication/replica_checkpoint.go:264-287 | Taking a checkpoint at a committed op keeps the invariant. |
| ConsensusPromise.PromiseKept | replication/view_change.go:71-102 | In every run, guarded or not and with any restarts: once a replica has sent a join for a view, every acknowledgement it sends later is for that view or a higher one. |
| ConsensusPromise.StepPromises | replication/view_change.go:170-216 | No step lowers a durable view or log view, joins are sent only for durable views, and acknowledgements only in views at or above the durable one. |
| ConsensusProgress.EveryRequestCanCommit | replication/view_change.go:71-527 | For every sequence of requests with any crashes and restarts between them there is a run from a formatted cluster that meets all five conditions and ends with every replica Normal in one view and with one log that holds exactly those requests in order, all written and committed. So the conditions cost no progress. |
| ConsensusProgress.ChangeView | replication/view_change.go:71-216 | From any state in which the replicas share a written log, whatever their views and commits, a guarded run installs any higher view everywhere with that log. |
| ConsensusProgress.Append | replication/replica_normal.go:309-626 | A primary whose log is settled can take one more request to a commit at every replica. |
| ConsensusProgress.Settle | replication/replica_normal.go:535-626 | Everything prepared in a view can be committed at every replica. |
| ConsensusProgress.CrashOne | replication/open.go:251-329 | A replica that crashes with its log written comes back with the same log and can go on. |
| ConsensusFields.PrepareSteps | replication/replica_normal.go:309-429 | Exactly when a primary may prepare and a backup may take a prepare, and all that changes: the pipeline bounds both, a prepare names the local head as its parent and commits nothing the backup has not. |
| ConsensusFields.WriteSteps | replication/replica_normal.go:431-533 | Exactly when a write finishes and an op may be acknowledged, and all that changes. |
| ConsensusFields.CommitSteps | replication/replica_normal.go:535-626 | Exactly who may commit what: a primary with a replication quorum of acknowledgements of its view, a backup what it has learned, and a repair what it has proven. |
| ConsensusFields.LearnSteps | replication/replica_normal.go:565-593 | Exactly when a primary announces its commit and a backup learns it, and all that changes. |
| ConsensusFields.ViewSteps | replication/view_change.go:71-102 | Exactly when a view change begins, is stored and is joined, and all that changes. |
| ConsensusFields.SelectStep | replication/view_change.go:368-384 | Exactly when the new primary acts on what its joins select, and the repair it then enters. |
| ConsensusFields.ShowSteps | replication/view_change.go:743-786 | Exactly when a view is asked for and shown, and all that changes. |
| ConsensusFields.RepairSteps | replication/replica_repair.go:526-615 | Exactly when repair rewrites a prepare, rebuilds the log and installs the view, and all that changes. |
| ConsensusFields.FormattedCluster | replication/open.go:302-329 | A replica opened on a formatted disk has nothing stored and is Normal in view 0, except that the primary of view 0 is already changing to view 1. |
| ConsensusFields.WindowSteps | replication/replica_repair.go:481-514 | Exactly when a log that runs too far ahead is repaired a window at a time, and the repair then entered. |
| ConsensusFields.OwnViewSteps | replication/replica_checkpoint.go:375-388 | Exactly when a backup gives up on its view, and when it opens a further window in it. |
| ConsensusFields.RestartStep | replication/open.go:251-329 | Exactly which heads a restart can recover after which crashes: the longest run above the checkpoint of prepares that stand; when it counts as clean; and what it then commits. |
| ConsensusResume.RestartResumes | replication/open.go:272-329 | A clean restart resumes. A backup whose promised view is its log view is Normal in it and accepts the next prepare; a replica that had promised a later view can join it at once; the primary of its log view can promise and join the view after. |
| ConsensusResume.RestartMemory | replication/open.go:251-300 | What was durable is unchanged; the commit is the highest of the stored bound, the head's commit field and the head less the pipeline. |
| ConsensusResume.RestartFaulty | replication/open.go:302-329 | With a faulty slot the replica restarts at its checkpoint and can neither join nor acknowledge. |
| ConsensusResume.JoinReports | replication/view_change.go:229-300 | A join reports the local head downward, each header present, nacked exactly if its write has not finished. |
| ConsensusResume.CommonPrefix | replication/view_change.go:688-715 | A clean prefix that log and target share, at or above the commit, is where a repair may start. |
| ConsensusResume.StoredPrefix | replication/view_change.go:688-715 | A faulty replica may also start at a stored prepare above its recovered head, up to its commit bound. |
| ConsensusResume.OnlyCommonPrefix | replication/view_change.go:688-715 | A repair starts nowhere else, but for a faulty replica at a stored prepare up to its commit bound. |
| ConsensusResume.ViewActedOn | replication/view_change.go:542-618 | A view message is acted on exactly if it was sent for the replica's own or a later view of another primary; if, in its own view, the replica is changing view or asked for it; if it proves no less committed than is known; and if what it adds fits the pipeline. |
| ConsensusResume.WindowContinues | replication/replica_checkpoint.go:375-388 | A backup that has committed all it has and knows of more begins to repair the next stretch, of pipeline length at most, in its own view. |
| ConsensusResume.GivesUp | replication/replica_normal.go:565-593 | A backup that hears of a commit it cannot match changes nothing but its status: it acknowledges nothing more, and a view change that was put off can still begin. |
| ConsensusResume.CheckpointTaken | replication/replica_checkpoint.go:264-287 | A checkpoint is taken exactly at a committed and written op above the last one, by a replica that is Normal or past its rebuild, and changes only the checkpoint and the stored bound. |
| AckBeforeLowerOps.GuardNeeded | replication/replica_normal.go:655-678 | Three replicas: if an op may be acknowledged while a lower op is still being written, two replicas commit different headers at one op, even though the other four conditions hold throughout. |
| ViewBeforeWrites.GuardNeeded | replication/view_change.go:82-102 | Three replicas: the same if a view may be persisted while a prepare is in flight, because the stored head then covers a slot that still holds an abandoned prepare. |
| LateViewMessage.GuardNeeded | replication/view_change.go:550-566 | Two replicas: the same if a late view message of the own log view may shorten the log. |
| UnpromisedView.GuardNeeded | replication/view_change.go:542-618 | Five replicas: the same if a view message may be acted on before its view is promised on disk. |
| PartialWindow.GuardNeeded | replication/replica_repair.go:481-514 | Three replicas: the same if a repair window may install a later log view with part of its log. |
| ConsensusTight.EveryGuardIsNeeded | replication/config.go:392-411 | For each of the five conditions there is a configuration of the quorum table and a run that meets the other four and violates agreement, so none can be dropped. |
| ConsensusTight.GuardsSufficeIff | replication/config.go:392-411 | A set of the five conditions ensures agreement, in every run of every configuration of the quorum table with two or more active replicas, if and only if it holds all five. |
| JournalWindow.WindowFits | replication/wal_recovery.go:286-304 | For every valid configuration and checkpoint, the highest op recovery keeps lies within one journal length of the checkpoint. |
| JournalWindow.AcknowledgedInWindow | replication/replica_normal.go:655-678 | Every op a replica may acknowledge lies in that window with a whole pipeline to spare. |
| JournalWindow.WindowGrows | replication/wal_recovery.go:286-304 | The window never moves down as the checkpoint advances. |
| JournalWindow.WindowDistinctSlots | replication/wal.go:172-177 | Two ops of one window use the same slot only if they are the same op, so an append there never clobbers another op above the checkpoint. |
| JournalWindow.AcknowledgedStaysInWindow | replication/wal_recovery.go:286-304 | An op acknowledged under one checkpoint stays in the window of every later checkpoint below it, so the future-op rule never discards it. |
| JournalWindow.WindowDefined | replication/replica_checkpoint.go:9-24 | The window is defined exactly when its end fits in 64 bits. |
| JournalWindow.WindowByFields | replication/replica_checkpoint.go:9-24 | The end of the window, the bounds for acknowledging, the trigger and the next checkpoint in plain arithmetic on the configuration; a checkpoint that ends a compaction round is followed by one that does. |
| JournalWindow.ValidByFields | replication/config.go:209-224 | A configuration is valid exactly if the pipeline has 1 to 15 places and what the journal has left after a compaction round, two pipelines and the rounding is a positive number of whole rounds. |
| Journal.HeldSlotRecovers | replication/wal.go:280-346 | A slot whose two copies are each an admissible header of one op or undecodable is recovered with one of those headers or reported faulty, never empty, truncated or impossible; it is recovered exactly if the prepare survived and the ring copy is the same or is undecodable with nothing newer seen; and the op is not nacked. |
| Journal.RecoveredIsStored | replication/wal.go:280-326 | Whatever recovery installs is the readable prepare of that slot, belongs there, is no future op, and is not excluded by the installed view. |
| JournalSlots.SlotByCopies | replication/wal.go:280-326 | When a slot is recovered, left empty or faulty, for every combination of its two copies. |
| JournalSlots.SlotInJoin | replication/wal_recovery.go:175-190 | In a join after recovery a recovered op is present, an empty slot nacks any op, and a faulty one says nothing. |
| JournalSlots.FailByCopies | replication/wal.go:340-342 | A slot is impossible exactly if a copy holds a header that belongs to another slot. |
| JournalSlots.UnusedSlotsRecover | replication/wal_recovery.go:61-100 | After any run and crash, a slot that no append has used and nothing has damaged is recovered clean and empty, so its op is nacked. |
| JournalSlots.FreshJournalRecovers | replication/wal_recovery.go:27-132 | With nothing appended and nothing damaged, recovery reports no fault and the checkpoint as its head. |
| JournalSlots.CutAppendRecovers | replication/wal.go:193-223 | An append cut after its prepare was synced is recovered with the appended header, if that can be read, is in the window and not superseded, and the ring copy is empty, older or already the new one. |
| JournalSlots.AppendCompletes | replication/wal.go:164-223 | An append that begins and is carried through leaves its slot clean, both copies durable with its header, the op reported as present and not nacked, and every other slot as it was. |
| JournalSlots.BeginIff | replication/wal.go:164-191 | An append in the window may begin exactly while none is running and its slot guards no other op above the checkpoint. |
| JournalSlots.RecoveredTwice | replication/wal_recovery.go:61-116 | After any run: what one recovery installs, a second one finds again unless something was damaged in between. |
| JournalRuns.HeldOpsSurviveRuns | replication/wal_recovery.go:27-132 | After any run of appends cut at any physical step, damage to any copies, discards, view installations, checkpoints, crashes and recoveries, and one more crash: recovery succeeds, and every op whose append completed and which nothing has excluded is present with its own header or in a faulty slot, and is not nacked by a join. |
| JournalRuns.ReplacedOpsSurviveRuns | replication/wal_recovery.go:27-132 | The same for an op that an append of another header began to replace: its slot holds one of the headers written to it or is faulty, is never empty, and is recovered whenever both copies can be read and agree. |
| JournalRuns.RecoveryNeverFails | replication/wal_recovery.go:69-100 | No crash leaves a slot that recovery calls impossible. |
| JournalRuns.AdvanceKeeps | replication/wal.go:193-223 | Each of the four physical effects of an append keeps the held ops, those of the other slots in the rewritten sector included. |
| JournalRuns.BeginKeeps | replication/wal.go:164-191 | Starting an append in the window disturbs no held op, and turns one it replaces into one that may hold either header. |
| JournalRuns.CrashKeeps | replication/wal_recovery.go:27-117 | A crash that keeps, loses or tears the unsynced writes, followed by recovery, keeps the held ops. |
| JournalRuns.DiscardKeeps | replication/wal_recovery.go:192-206 | Discarding above a head keeps every held op up to it. |
| JournalRuns.CheckpointKeeps | replication/replica_checkpoint.go:264-287 | Moving the checkpoint keeps every held op above it. |
| Wal.WAL.BeginAppend | replication/wal.go:164-191 | Refused exactly while another append runs or the slot guards another op above the checkpoint; otherwise one step of the journal machine. |
| Wal.WAL.AdvanceAppend | replication/wal.go:193-223 | Performs exactly one step of the journal machine. |
| Wal.WAL.WriteSector | replication/wal.go:205-211 | Writes exactly the ring entries that share the sector of the slot. |
| Wal.WAL.DiscardAfter | replication/wal_recovery.go:192-206 | Empties exactly the slots above the head, in memory and in the ring. |
| Wal.WAL.Recover | replication/wal_recovery.go:27-132 | Fails as impossible exactly if some slot is, refuses a solo replica exactly if some slot is uncertain, and otherwise rebuilds every slot and the ring as decided, rewrites the ring on disk exactly if it changed, and reports the head of the longest hash-linked run above the checkpoint. |
| Wal.Scan | replication/wal_recovery.go:37-56 | One pass finds the highest op any readable copy names. |
| Wal.UntrustedIsMaximum | replication/wal_recovery.go:306-311 | That op is the maximum over the checkpoint and all readable copies. |
| Wal.RebuildSlots | replication/wal_recovery.go:61-100 | The second pass stops exactly at an impossible slot and otherwise rebuilds every slot and counts the faulty ones. |
| Wal.ExtendHead | replication/wal_recovery.go:117-128 | The last pass returns the end of the hash-linked run from the checkpoint, which cannot be extended. |
| WalRuns.RecoverIsStep | replication/wal_recovery.go:27-117 | The three passes compute the recovery step of the journal machine. |
| WalRuns.ReportIsRun | replication/wal_recovery.go:117-131 | The reported head ends a run of headers from the checkpoint, each in its slot and naming the one before as its parent; no such run is longer; and the faulty slots are counted. |
| WalRuns.ReadableRunRecovered | replication/wal_recovery.go:117-131 | If every op up to some head completed its append, still stands and can be read, the reported head is at or above it and the recovered headers are the appended ones. |
| Superblock.Select | replication/superblock.go:265-328 | The grouping, sorting and choosing loops return a fork, a broken chain, the highest sequence with enough copies, or the right refusal, exactly as specified. |
| Superblock.SelectionUnique | replication/superblock.go:265-328 | The specification leaves no choice of result. |
| Superblock.SelectionByFields | replication/superblock.go:265-328 | In terms of the copies alone: a fork is reported exactly if two copies of one sequence differ, and otherwise a broken chain exactly if a copy does not follow the one before it or regresses from it; a result is held by enough copies and is the highest such; and a refusal means that none is. |
| Superblock.Group | replication/superblock.go:270-290 | Grouping reports a fork exactly if two copies of one sequence differ, and otherwise counts every sequence. |
| Superblock.Sort | replication/superblock.go:291-297 | The exchange sort orders the groups by sequence and loses none. |
| Superblock.ChainIsLinked | replication/superblock.go:298-304 | Comparing neighbours of the sorted groups decides whether every copy but the oldest follows another. |
| Superblock.Choose | replication/superblock.go:305-318 | The last loop finds the highest sequence with enough copies. |
| SuperblockStore.FourCopiesSafe | replication/superblock_store.go:138-189 | With four copies, after any run of persists, crashes and reopenings: a crash at any point leaves copies from which opening selects the old superblock if fewer than two new copies were written and the new one otherwise, never an error; and the superblock in force only advances, its durable state never regressing. |
| SuperblockStore.OnlyFourCopiesNeverStick | replication/superblock.go:346-370 | Of the supported 4, 6 and 8 copies, every reachable crash leaves something to open if and only if there are 4. |
| SuperblockStore.CutFormatRefused | replication/format.go:60-137 | A format cut short is reported as incomplete if at most half of the copies were written, and opens otherwise. |
| SuperblockStore.OverwrittenSelect | replication/superblock_store.go:160-189 | After each prefix of the writes of a persist the selection is the old or the new superblock as stated. |
| SuperblockStore.StepSafe | replication/superblock_store.go:138-189 | Every write, sync, crash and reopening keeps the layout of old and new copies on which this rests. |
| SuperblockStore.Open | replication/superblock_store.go:25-114 | Opening returns the selection over the readable copies and, on success, leaves every copy holding it. |
| SuperblockStore.RepairCopies | replication/superblock_store.go:191-211 | Repair leaves every copy equal to the selected superblock. |
| SuperblockStore.Store.BeginPersist | replication/superblock_store.go:138-158 | Accepted exactly when idle and when the new superblock is the next sequence, names the current one as its parent, and none of checkpoint, commit bound, log view and view decreases. |
| SuperblockStore.Store.AdvancePersist | replication/superblock_store.go:170-189 | Performs one write, or one sync with the move to the next place, of the store machine. |
| SuperblockStore.Store.Persist | replication/superblock_store.go:122-136 | An uninterrupted persist overwrites exactly the rotating write quorum and makes the new superblock current. |
| AllocatorRuns.ReserveNeverTakesLive | replication/block_allocator.go:180-239 | In every run of reserve, publish, forfeit, release, prepare, persist, complete, abort, crash and reopen: `Reserve` never returns a block that the durable checkpoint still needs, nor one the checkpoint being written needs. |
| AllocatorRuns.StepKeeps | replication/block_allocator.go:180-473 | Every operation keeps the invariant on which this rests. |
| AllocatorRuns.CompleteKeeps | replication/block_allocator.go:415-445 | Completing a checkpoint releases only blocks that neither it nor the next reservation needs. |
| AllocatorRuns.AbortKeeps | replication/block_allocator.go:447-473 | Aborting a checkpoint that was not persisted leaves every block the durable checkpoint needs in use. |
| AllocatorRuns.ReopenKeeps | replication/block_allocator.go:77-150 | Reopening from the stored sets restores the invariant. |
| Allocator.ForfeitUndoesReserve | replication/block_allocator.go:227-239 | Giving up a reservation restores the sets it was made from. |
| Allocator.ReservedLife | replication/block_allocator.go:180-239 | In every sound state a reservation takes exactly the lowest free block or, with none, a new one; publishing puts it to use, giving it up frees it, and no other block moves. |
| Allocator.ReleasedLife | replication/block_allocator.go:374-445 | Exactly a block in use can be released and exactly a leaving one kept after all; completing a checkpoint frees exactly the blocks that left with it. |
| Allocator.CompletableLife | replication/block_allocator.go:415-445 | A checkpoint can be completed exactly if it is the current one, every trailer is in use, and no leaving block is reachable. |
| Allocator.AbortedLife | replication/block_allocator.go:447-473 | Aborting loses no block: a trailer that was only reserved is free, a stored one is leaving, and no other block moves. |
| CheckpointCycle.CompletionYieldsStored | replication/block_allocator.go:240-345 | Preparing is a true fixed point: the stored sets contain the trailer blocks themselves, the checkpoint can be completed, and completing it yields exactly the stored acquired and released sets with nothing pending. |
| CheckpointCycle.RestartEqualsContinuing | replication/checkpoint_reachability.go:148-198 | A replica that crashes once a checkpoint is durable, reopens and restores its releases has the same acquired, released, pending and reserved blocks as the one that kept running. |
| CheckpointCycle.CycleReady | replication/replica_checkpoint.go:264-287 | After a completed checkpoint the next one can start: its trailers and everything reachable are in use. |
| CheckpointCycle.StagedSound | replication/checkpoint_reachability.go:454-471 | Staging leaves in use exactly the reachable blocks and the current trailers. |
| BlockAllocator.BlockAllocator.Reserve | replication/block_allocator.go:180-213 | Returns the lowest available block, a new one only if none is available, and nothing only if storage is full. |
| BlockAllocator.BlockAllocator.Publish | replication/block_allocator.go:215-225 | Moves exactly a reserved block to the acquired ones. |
| BlockAllocator.BlockAllocator.Forfeit | replication/block_allocator.go:227-239 | Gives back exactly a reserved block, as released if it was. |
| BlockAllocator.BlockAllocator.Release | replication/block_allocator.go:374-381 | Queues exactly a block in use. |
| BlockAllocator.BlockAllocator.CancelRelease | replication/block_allocator.go:383-390 | Undoes exactly a queued release. |
| BlockAllocator.BlockAllocator.PrepareCheckpoint | replication/block_allocator.go:240-314 | On success exactly as many distinct blocks are reserved as the encodings of the sets that include them need; on failure acquired, released, pending and reserved are as before. |
| BlockAllocator.BlockAllocator.CheckpointDurable | replication/block_allocator.go:415-445 | Refused unless every trailer is stored and nothing to be released is reachable; otherwise releases exactly what was pending when the checkpoint was prepared. |
| BlockAllocator.BlockAllocator.AbortCheckpoint | replication/block_allocator.go:447-473 | Succeeds exactly for the current checkpoint with addresses in range, and then gives up each reserved trailer block and queues each stored one for release; an address out of range stops it there, with the checkpoint still active. |
| Reachability.Resolve | replication/checkpoint_reachability.go:112-146 | On success the marked blocks are exactly those that some chain of references from the manifest blocks and the root arrives at, all in use and no more than the limit. Success implies a well-formed manifest chain and that everything asked for is in use, readable, free of contradictions and within the limit; and if every block also is what is asked for it, these imply success. |
| Reachability.CheckpointGraph.Enqueue | replication/checkpoint_reachability.go:289-323 | Refuses exactly a block that is not in use, a contradiction with what the address is already held to, or one node too many, and then changes nothing; otherwise the node of the address is held to the requirement too. |
| Reachability.CheckpointGraph.Process | replication/checkpoint_reachability.go:335-373 | Does nothing to a processed node; otherwise marks it and gives a node to everything its block refers to, or fails, which shows a defect of the checkpoint. |
| Reachability.CheckpointGraph.VisitManifestChain | replication/checkpoint_reachability.go:242-272 | Walks the whole chain once, newest to oldest; a refusal shows a defect of the chain or of the checkpoint. |
| Reachability.CheckpointGraph.VisitStack | replication/checkpoint_reachability.go:274-287 | Terminates with every node processed, or with a defect of the checkpoint. |
| References.AcceptableByFields | replication/checkpoint_reachability.go:289-373 | What a checkpoint must be like to be accepted, on the fields of its blocks and references: proper references to blocks in use that can be read, no two that no block could satisfy together, and no more than the limit. |
| References.ConflictIff | replication/checkpoint_reachability.go:289-323 | Two requirements conflict exactly if no block could be what both ask for. |
| References.ManifestLinks | replication/checkpoint_reachability.go:242-272 | A readable manifest chain starts at the newest block, and each block names the next. |
| References.ChainByFields | replication/checkpoint_reachability.go:242-272 | A well-formed chain ends at the oldest block, which names no other, and visits no address twice. |
| WalkState.MarkedIsNeeded | replication/checkpoint_reachability.go:289-323 | A marked block is in use and some chain of references leads to it. |
| WalkState.NeededIsMarked | replication/checkpoint_reachability.go:274-323 | Once every node is processed, whatever a chain of references leads to is marked. |
| WalkState.BlockedIsDefect | replication/checkpoint_reachability.go:289-333 | A requirement that is asked for and refused shows that some block is not in use, that two requirements contradict each other, or that more blocks are needed than the limit allows. |
| WalkState.FinishedAccepts | replication/checkpoint_reachability.go:274-333 | A finished walk shows that none of these is the case. |
| Sessions.BuiltLogsReplay | replication/replica_normal.go:94-198 | Every log that any primaries build by admission, at any points of their execution and cut by any view changes, replays to the end: no request meets a missing session. |
| Sessions.ExactlyOnce | replication/replica_normal.go:713-798 | In every such log the requests of one client in one session are numbered 0, 1, 2, ... without gap or repetition. |
| Sessions.AdmissionKeepsOrder | replication/replica_normal.go:94-198 | What a primary admits continues its client's session at the end of the log, whatever part of the log it has executed. |
| Sessions.NothingPending | replication/replica_normal.go:1009-1035 | An admissible request is its client's only entry in the pipeline. |
| Sessions.RecordsAreLatest | replication/sessions.go:159-180 | A record always describes its client's latest entry. |
| Sessions.OldestUnique | replication/sessions.go:296-310 | The client to evict is determined: least op, then least id. |
| SessionAnswers.AnswersByLog | replication/sessions.go:80-108 | The answer to a request in terms of the log alone: no session; session too low or ahead; another release; the last request again, with the same or another checksum; the next request, with the right or a wrong parent; or dropped. If the last number is 2^32 - 1 every request of the session is dropped, that one sent again included. |
| SessionAnswers.AdmittedByLog | replication/replica_normal.go:94-198 | A primary admits exactly a registration of a client that holds no session and is not already registering, and exactly the next request of a held session while no registration and no such request is in the pipeline. |
| SessionAnswers.TableIsRecent | replication/sessions.go:110-180 | The table holds exactly the clients that were active last, as many as fit. |
| SessionAnswers.SessionIsRegistration | replication/sessions.go:312-345 | A session is named after the op of its client's latest registration. |
| SessionTable.WriteStores | replication/sessions.go:110-180 | Writing the planned slot stores the reply in the map that evicts its oldest client. |
| SessionTable.Slots.Lookup | replication/sessions.go:279-294 | Finds the client's slot exactly if it has one, and otherwise a free slot if there is one. |
| SessionTable.Slots.EvictionSlot | replication/sessions.go:296-310 | Finds the slot of the client with the least op and, among those, the least id. |
| SessionTable.Slots.PlanCommit | replication/sessions.go:110-137 | A plan names the slot the map would use, marks only that slot and supersedes its earlier plans; with no slot planned it always succeeds. |
| SessionTable.Slots.CommitAt | replication/sessions.go:159-180 | Accepts exactly a current plan that fits the reply and otherwise changes nothing; into the slot the map would use it stores what the map stores; and no client gets two slots exactly if no other slot holds this one. |
| SessionTable.Slots.Abort | replication/sessions.go:182-186 | Forgets a current plan and nothing else. |
| Ring.RingDelivers | replication/ring.go:62-99 | In every interleaving of many producers and one consumer: what was popped is, in claim order and once each, a prefix of what was claimed; no unread slot is overwritten; and a push is refused only if every slot was taken when it loaded the sequence. |
| Ring.PopFindsNothing | replication/ring.go:85-99 | A pop finds nothing only if nothing is claimed or the producer of the oldest claim has not published it. |
| Ring.PushAlone | replication/ring.go:62-83 | Undisturbed, a push takes the next place in the order and publishes its value, or is refused exactly if every slot is taken. |
| Ring.PopAlone | replication/ring.go:86-99 | Undisturbed, a pop returns the oldest value and frees its slot, or changes nothing exactly if there is none or it is not published yet. |
| Ring.ClaimKeeps | replication/ring.go:68-73 | A claim succeeds only on a free slot. |
| Ring.PublishKeeps | replication/ring.go:74-76 | Publishing makes exactly the claimed value visible. |
| Ring.FreeKeeps | replication/ring.go:93-97 | Freeing a slot gives it to the position one capacity later. |
| FramePool.PoolSafe | replication/protocol/frame_pool.go:189-246 | In every interleaving the free list has no cycle, and a frame on it has no references and is in no thread's hands. |
| FramePool.NoFrameLost | replication/protocol/frame_pool.go:189-246 | Every frame is in exactly one place: on the list, in callers' hands with as many references as its count says, or carried by exactly one thread. |
| FramePool.ReturnsOnLastRelease | replication/protocol/frame_pool.go:204-217 | A frame starts back to the list exactly when its last reference is released, and its count never goes below zero. |
| FramePool.AcquiredIsUnowned | replication/protocol/frame_pool.go:219-234 | A pop whose compare-and-swap succeeds takes the frame at the head, which nobody owns or carries, although it read the link earlier. |
| FramePool.LinkKeeps | replication/protocol/frame_pool.go:236-246 | Storing the link of a carried frame disturbs neither the list nor what other threads have read. |
| FramePool.NeverStuck | replication/protocol/frame_pool.go:189-246 | In every reachable state a thread inside a call can always go on, and a caller at rest can acquire, and can release or retain exactly what has references. |
| FramePool.AcquireAlone | replication/protocol/frame_pool.go:74-88 | Undisturbed, an acquire takes the first free frame with one reference, or fails and changes nothing if there is none. |
| FramePool.ReleaseAlone | replication/protocol/frame_pool.go:204-246 | Undisturbed, a release gives one reference back and, with the last, puts the frame first on the list. |
| FramePool.RetainAlone | replication/protocol/frame_pool.go:189-202 | Undisturbed, a retain adds one reference, unless the count is at its limit. |
| Clock.Agree | replication/clock.go:155-206 | Succeeds exactly if some point lies in a quorum of the intervals; the interval returned is contained in `overlap` of them, and no point lies in more. |
| Clock.Install | replication/clock.go:126-153 | Succeeds exactly if a quorum of the samples is near one point within the largest tolerance, and then installs the narrowest stretch of the deepest agreement at the least of the halved tolerances within which a quorum agrees; none up to half of it would do. |
| Clock.IntervalHolds | replication/clock.go:155-178 | A point lies in a source's interval exactly if it differs from the offset by at most the one-way delay plus the tolerance, within 63 bits. |
| Clock.AgreeWithin | replication/clock.go:155-206 | The result in terms of the samples: as many sources as counted are near every point of it, no point is near more, and no wider stretch of that depth is narrower. |
| Clock.Sweep | replication/clock.go:180-205 | The sweep finds the deepest segment and, among those, the narrowest. |
| Clock.ReachesMonotone | replication/clock.go:126-153 | A quorum that meets within one tolerance meets within every larger one. |
| Clock.SegmentCovered | replication/clock.go:180-205 | As many intervals as the running count contain the segment that follows. |
| Clock.PointCounted | replication/clock.go:180-205 | Whatever contains a point is counted at some endpoint. |
| Clock.OpenNonNegative | replication/clock.go:186-190 | The running count never goes below zero. |
| Clock.InsertionSort | replication/clock.go:224-234 | The in-place sort yields the insertion-sorted sequence. |
| Clock.SortedByFields | replication/clock.go:224-244 | That sequence is a permutation in the order of values, lower ends first, then sources. |
| Clock.IntervalWidens | replication/clock.go:261-297 | A source's saturated interval holds its offset, fits 64 bits and widens with the tolerance. |
| Ewah.DecodeEncode | replication/ewah.go:78-158 | Decoding an encoding gives the words back. |
| Ewah.DecodeIff | replication/ewah.go:120-158 | Decoding accepts exactly the sequences that spell some words, marker by marker in the stated bit layout, and gives those words. |
| Ewah.EncodeShort | replication/checkpoint.go:166-180 | Up to 2^32 - 1 words the encoding is at most one word longer than the set. |
| Ewah.TailIff | replication/ewah.go:160-166 | The tail is valid exactly if no bit from the length on is set. |
| Ewah.EncodeEWAH | replication/ewah.go:78-118 | The cursor loops write the encoding, and fail exactly if the tail is dirty or the destination too short. |
| Ewah.DecodeEWAH | replication/ewah.go:120-158 | The cursor loops accept exactly the codings of the given number of words with a clean tail, and produce those words. |
| TrailerStore.SetSurvivesTrailer | replication/trailer_store.go:50-126 | A bit set encoded, written as a trailer, read back and decoded is the original set, and this fails exactly if the writing is refused or fails. |
| TrailerStore.CodingInPieces | replication/trailer_store.go:66-86 | The pieces of the coding are non-empty, fit a block and join to it; and its size meets the bound checkpoints are held to. |
| Trailers.PiecesProper | replication/trailer_store.go:66-86 | The pieces are non-empty, fit a block, and together are the encoding. |
| TrailerStore.WriteReserved | replication/trailer_store.go:50-90 | Succeeds exactly if the encoding fits, every block is reserved, no write fails and no address is given twice; then the pieces stand in a chain linked backward and the blocks are published. A bad request changes nothing, a failure on the way is rolled back, and no other block is touched. |
| TrailerStore.Rollback | replication/trailer_store.go:128-136 | Releases what was published and gives the other reservations back, repeated addresses included. |
| TrailerStore.RollbackSound | replication/trailer_store.go:128-136 | After a rollback no block stays reserved, what was published waits for release, the rest is available, every other block is as before, and the allocator is sound. |
| TrailerStore.AllPassIff | replication/trailer_store.go:66-86 | All blocks are written exactly if no write fails and the addresses are distinct. |
| Trailers.Read | replication/trailer_store.go:92-126 | Reading succeeds exactly if some chain of blocks stands that the trailer refers to, and then returns what it spells. |
| Trailers.PiecesEven | replication/trailer_store.go:66-86 | The pieces are as equal as they can be, the longer ones first. |
| Trailers.DigitAt | replication/block_allocator.go:347-372 | Words are stored least byte first. |
| RepairBudget.Budget.Reserve | replication/block_repair_budget.go:82-115 | Succeeds exactly if the peer, the credit, the free requests and the references allow it; spends one credit per reference and one request; refused, it spends nothing; and keeps the matching of entries to requests. |
| RepairBudget.Budget.Fulfill | replication/block_repair_budget.go:179-211 | Releases exactly the entries for the block and returns their number, blanks it in every request and frees those that want nothing more; the self-check cannot fail. |
| RepairBudget.Budget.Expire | replication/block_repair_budget.go:213-234 | Gives up exactly the requests that have waited too long, with their entries, and returns the number of those; the self-check cannot fail. |
| RepairBudget.Budget.Check | replication/block_repair_budget.go:280-302 | The self-check is true exactly if both sums balance. |
| RepairBudget.CheckEligible | replication/block_repair_budget.go:117-139 | References are eligible exactly if proper, distinct, not asked of this peer, and not asked of another too recently. |
| RepairBudget.EligibleByFields | replication/block_repair_budget.go:117-139 | In terms of the entries: proper, distinct, on no list of this peer, and on another only from 100 ms ago or earlier. |
| RepairBudget.KeptByFields | replication/block_repair_budget.go:213-234 | A request is given up exactly from 250 ms on. |
| RepairBudget.ReserveMatched | replication/block_repair_budget.go:82-115 | After a reservation every busy entry still belongs to exactly one busy request of the same peer and start time. |
| RepairBudget.FulfilMatched | replication/block_repair_budget.go:179-211 | The same after a block arrives. |
| RepairBudget.ExpireMatched | replication/block_repair_budget.go:213-248 | The same after a request expires. |
| RepairBudget.IdleIsFull | replication/block_repair_budget.go:280-302 | With no busy request every peer has its full credit. |

## Left out

- Solo replicas, standbys, state sync, replacement, scrubbing, release upgrade and reconfiguration.
- Timers, failure detection, backoff, peer choice and everything else that only affects progress.
- Byte layouts of frames, headers, checkpoints and superblocks, their field validation, and the checksum itself.
- Direct I/O, the I/O engine, context cancellation, shutdown, metrics and logging; of I/O only the order of physical effects is kept, and reads and writes do not fail.
- The headers exchanged while a repair window is filled: the model gives the window the prefix of the primary's log that the messages would spell.
- The yield of a checkpoint to a pending view change, and the trigger arithmetic that it bypasses.
- The state machine and block validator, which appear as arbitrary functions.
- The cached replies themselves: reading, repairing and resending them.
- The session trailer codec, `BeginCheckpoint`, `Available`, `Len`, `Destination` and the other simple accessors.
- The order in which `handleView` compares checkpoints before it starts state sync.
- ConsensusSafety.AgreementOverRuns: is stated for guarded runs and for two or more active replicas, because agreement fails without the conditions; the converse for single runs is not claimed, since a run that breaks a condition need not violate agreement.
- ConsensusSafety.StepKeeps: covers guarded steps only, for the same reason.
- ConsensusSafety.RunKeeps: covers guarded runs only, for the same reason.
- ConsensusProgress.EveryRequestCanCommit: says that some run commits everything, not that every fair run does; its crashes come between requests and lose nothing that was written.
- ConsensusSteps.StepAck: requires that no lower op is being written, which the source does not check; AckBeforeLowerOps.GuardNeeded shows what happens otherwise.
- ConsensusViews.StepPersist: requires that no prepare is in flight, which the source does not check; ViewBeforeWrites.GuardNeeded shows what happens otherwise.
- ConsensusRecovery.StepAcceptView: requires a promised view and, in its own log view, a log that reaches the head, which the source does not check; UnpromisedView.GuardNeeded and LateViewMessage.GuardNeeded show what happens otherwise.
- ConsensusRecovery.StepAcceptWindow: requires the own log view, which the source does not check; PartialWindow.GuardNeeded shows what happens otherwise.
- SuperblockStore.FourCopiesSafe: takes copy writes as atomic; a torn second copy can leave nothing to open.
- Reachability.Resolve: says nothing of whether blocks are what is asked for them when it succeeds, because the source does not recheck a processed block when a later reference asks for more.
- Ewah.DecodeEWAH: accepts non-canonical codings as the source does, so only encoding followed by decoding is an identity.
- FramePool.PoolSafe: leaves out the sealed flag, the source binding and the separate count of available frames.
- Clock.Install: leaves out the measuring window and the conversion of the interval into wall-clock time.
