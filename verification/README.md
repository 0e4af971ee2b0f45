# Verification models

Dafny models of the parts of the server and its tools whose correctness rests on state that lives longer than one
call: approvals and their ledgers, hard deletion, the key-tombstone ledger, brainstorm sessions, the Agent registry,
routing, rate limits, webhook replay protection, the sub-task graph, the streaming artifact scanner, and two of the
planning tools (cycle search, traceability document).

`dafny verify dfyconfig.toml` checks everything.

## How the models are built

Postgres tables are maps and sequences, an event stream is an append-only sequence, and a transaction either
commits its writes or leaves everything as it was. Handlers that update rows are methods of a class whose fields are
the rows; each method performs the handler's statements in order and its contract equates the new rows with a
specification function of the old ones. The results are then lemmas about those functions and about whole runs.
Clock readings, fresh identifiers, the policy layer's answers and the event store's other refusals are parameters.
Where a result says that some run exists, its clock readings do not go back.
What a handler answers is stated apart from the handler: a table says what each error means for the state and the
command, and the answer is the first fault in the order of the checks, or success where there is none.
Hash functions are parameters too; where a result needs it, they are assumed to be free of collisions.

| file | models |
|---|---|
| `ApprovalModel`, `ApprovalInvariants`, `ApprovalRuns`, `ApprovalTerms` | one approval: grant, two ledgers, stream, projection; what every run keeps; what a request may count on |
| `ApprovalService` | the same operations as statements on the rows of one approval, the sweep over many, the request index |
| `ApprovalConcurrency`, `ApprovalProgress` | sessions that interleave statement by statement under the row lock; that each one ends |
| `HardDelete`, `HardDeleteRuns`, `HardDeleteAnswers`, `HardDeleteService` | requests composed with approvals that may also be driven directly; who approved, what can be executed, what execution destroys; what each command is answered; the handlers on the tables |
| `TombstoneLedger` | the hash-chained ledger, its export, verification and import, crypto-shredding |
| `Brainstorm`, `BrainstormRuns`, `BrainstormReplies`, `BrainstormService` | limits, cursor, counters, seats, handlers; whole sessions; what each command is answered |
| `AgentRegistry`, `AgentHistory`, `AgentService` | lifecycle fold, live row, lifecycle commands, offline sweep; the row told from the events, what each command is answered |
| `Routing`, `Rerouting` | candidate filter and order; handing a task on |
| `NonceStore`, `RateLimiter` | webhook replay window; fixed-window request limit |
| `TaskGraph` | sub-task creation, edge trigger, ancestor walk |
| `SignatureScan` | chunked signature search |
| `CycleDetector` | depth-first cycle search |
| `Markdown`, `MarkdownRows`, `IdList`, `TraceMatrix`, `TraceTitles` | table parser, escaped and bare rows, identifier ranges, the traceability document |

## Where the code does something other than one might expect

Each of these is stated exactly, with a concrete instance where a promise fails.

- Rebuilding the approval projection from events gives back the live row except while an approval is still pending
  with votes cast: such votes append no event, so the rebuilt row names no decider
  (`RebuildMatchesExactly`, `RebuildForgetsVotes`).
- Opening a hard-delete request attaches whatever approval its requester already has under the same idempotency
  key. Only people can decide through the request's handler, so every executed request was approved by people other
  than its requester (`ExecutedWasApproved`); there were two of them exactly when that key was free or kept a CRITICAL
  approval at opening (`TwoHumansFromTheStart`, `TwoHumansExactly`). Under every setting with a human besides the
  requester, one is enough for some request (`OneHumanIsEnough`).
- A hard-delete request whose approval is decided or ended behind its back, whose grant no longer stands, that has too
  few people to vote, whatever its risk, or whose undecided approval ran past its validity can never be executed from
  that moment on, under any clock that does not go back; every other open one can (`ExecutableExactly`). Any command
  on the approval itself that decides or ends it strands the request (`DirectDecisionStrands`, `StrandedRequest`), and
  an approval that ran out strands it before any sweep notices (`ExpiredRequest`).
- An execution stops at a key that is active although the ledger lists it, as it is when a key is created again after
  an import (`ExecutionExactly`, `KeyHeldBack`).
- A repeated idempotency key is answered with the request it opened, whoever repeats it and for whatever target
  (`OpeningReplays`).
- `add_participant` returns a seat that is the account's own only if the account was not seated before
  (`ReturnedSeat`).
- The offline sweep marks an Agent from a listing it does not check again after locking the row: an Agent revoked in
  between still gets AGENT_MARKED_OFFLINE after AGENT_REVOKED (`AfterRevocationExactly`, `StaleSweepFollowsRevocation`,
  `RevokedThenMarkedOffline`); a sweep key used before leaves a returned Agent online although the sweep reports it
  (`SweepTakesOfflineExactly`, `ReusedKeyKeepsOnline`).
- A printed table row survives parsing exactly when its cells hold no bar, no line break and no outer white space; a
  backslash alone does no harm (`RowRoundTrip`, `DocumentRoundTrip`).
- A signature table with an empty marker reports every file that is not empty (`Report`).
- The rate limiter's true bound over any sixty seconds is twice the configured limit, and it is reached
  (`AnySixtySeconds`, `TwiceIsReached`).
- Re-routing counts assignment reasons with `LIKE 'REROUTE_%'`, in which the underscore matches any character. The
  count is that of the reroutes exactly when no reason chosen by hand matches (`CounterIsHonestExactly`); one that
  does makes a task wait that was never rerouted (`HandReasonUsesUpReroute`).

## Model

| member | source | states |
|---|---|---|
| ApprovalInvariants.PrincipalIsTheEnd | server/verification/independence.py:27-36 | the effective principal is the account where the alias edges end |
| ApprovalTerms.CyclePrincipal | server/verification/independence.py:27-36 | the accounts of a cycle of aliases have one principal, the least of them |
| ApprovalInvariants.AliasesMayNotApprove | server/approvals/eligibility.py:85-91 | nobody whose aliases lead to the requester's or implementer's principal may approve |
| ApprovalInvariants.DecideOutcome | server/approvals/service.py:285-404 | a decision raises, adds one vote, or closes the vote, decided by status, expiry, eligibility and the number of votes; the event store never adds a conflict of its own |
| ApprovalInvariants.TerminateKeeps | server/approvals/service.py:434-456 | cancel, revoke and expiry succeed exactly on a non-terminal grant and keep the invariant |
| ApprovalInvariants.ExpireKeeps | server/approvals/service.py:559-586 | expiry plus escalation succeeds exactly on a non-terminal grant and keeps the invariant |
| ApprovalInvariants.ConsumeOutcome | server/approvals/service.py:611-687 | a use is a replay of its key, or recorded exactly when status, validity, subject and remaining uses allow, or an error |
| ApprovalInvariants.OpenEstablishes | server/approvals/service.py:182-272 | a new request starts in the invariant |
| ApprovalInvariants.DeciderSetSize | server/approvals/service.py:309-315 | counting distinct earlier deciders counts the votes |
| ApprovalRuns.RunKeeps | server/approvals/service.py:162-687 | every run of votes, withdrawals, sweeps and uses keeps the whole invariant |
| ApprovalRuns.BoundedUse | server/approvals/service.py:645-687 | in every reachable state uses never exceed the maximum, each key is used once, CONSUMED means exactly full, and the k-th APPROVAL_CONSUMED event carries count k and belongs to the k-th row |
| ApprovalRuns.QuorumMet | server/approvals/service.py:309-404 | an approval ever granted has exactly the needed number of distinct eligible APPROVE votes and no other, two for a CRITICAL one and one for any other; a pending one has fewer and no REJECT |
| ApprovalRuns.ColumnsAreDerived | server/approvals/service.py:99-149 | status, sequence number and every projection column follow from the stream and the ledgers |
| ApprovalRuns.ApplyExtends | server/approvals/model.py:35-72 | commands only append; terminal statuses and the terms of a grant never change |
| ApprovalRuns.RetryReplays | server/approvals/service.py:624-633 | once a key was consumed, a retry after any further run returns the same event and changes nothing |
| ApprovalRuns.ExactOutcomes | server/approvals/service.py:285-687 | exact success conditions of vote, cancel, revoke and use in every reachable state |
| ApprovalRuns.RebuildProjection | server/projections/approvals.py:103-123 | the rebuild loop computes the fold of the event updates |
| ApprovalRuns.RebuildMatchesExactly | server/projections/approvals.py:19-123 | the rebuilt row is the live row exactly when the approval is not pending with votes cast |
| ApprovalRuns.RebuildForgetsVotes | server/projections/approvals.py:23-47 | a reachable approval whose rebuilt row loses the voter |
| ApprovalTerms.OpensExactly | server/approvals/service.py:182-272 | a request is accepted exactly with a positive maximum, a duration that is not negative and a store that takes it; the grant then has its subject, requester, implementer and maximum, the graver of the two risks, and runs from the reading for the asked duration or a day |
| ApprovalTerms.TermsStay | server/approvals/service.py:228-250 | those terms hold after any run |
| ApprovalTerms.AppendExactly | server/events/store.py:95-155 | an append under a key used before returns the event on record or conflicts with it; under a new key it adds the next event exactly where the store takes it and the stream is as long as expected |
| ApprovalTerms.RunKeepsKeys | server/events/store.py:95-155 | over any run of approval commands no key is recorded twice for the same sender and kind of command |
| ApprovalTerms.VoteExactly | server/approvals/eligibility.py:69-142 | in every reachable state a vote fails for the first of ten obstacles, named by the fields of grant and approver, and succeeds without any; at HIGH and CRITICAL the voter is a person with a fresh proof |
| ApprovalTerms.VotesWereEntitled | server/approvals/eligibility.py:69-142 | every vote of a run was cast, before the expiry, by an active, authorized account whose role covers the risk and whose principal is neither the requester's nor the implementer's, and with a fresh proof where the risk is HIGH or CRITICAL |
| ApprovalTerms.UsesWereWithin | server/approvals/service.py:634-660 | every use of a run was for the subject of the grant and within its validity |
| ApprovalTerms.UseExactly | server/approvals/service.py:634-687 | which error a use under a new key gets in every reachable state, and when it gets none |
| ApprovalTerms.EndsExactly | server/approvals/model.py:35-72 | an approval can be cancelled, revoked and expired exactly while it is pending, approved or partially consumed, and takes the status of that ending |
| ApprovalTerms.SweepSettles | server/approvals/service.py:534-587 | after a sweep every approval that is still open has time left; one that was over or had time left is untouched |
| ApprovalTerms.PromiseOfARequest | server/approvals/service.py:162-687 | from a request on, over any run: the terms asked for, no more uses than asked for and all of them within the terms, every vote from somebody entitled to it |
| ApprovalService.Approval.DecideApproval | server/approvals/service.py:285-404 | the statements of a decision amount to its specification; an error changes nothing |
| ApprovalService.Approval.RecordDecision | server/approvals/service.py:333-389 | append, ledger row, status and projection of a closing vote |
| ApprovalService.Approval.TerminateWith | server/approvals/service.py:434-456 | the statements of an ending amount to its specification |
| ApprovalService.Approval.CancelApproval | server/approvals/service.py:459-486 | only the requester or an administrator cancels; otherwise as specified |
| ApprovalService.Approval.RevokeApproval | server/approvals/service.py:489-511 | revocation as specified |
| ApprovalService.Approval.ConsumeApproval | server/approvals/service.py:601-687 | the statements of a use amount to its specification, with the receipt it returns |
| ApprovalService.SelectDue | server/approvals/service.py:546-554 | exactly the due rows, each once |
| ApprovalService.ExpireApprovals | server/approvals/service.py:534-587 | all due grants end expired and escalated, or none changes; the former exactly when the store refuses no event |
| ApprovalService.SweepAll | server/approvals/service.py:534-587 | after a sweep every row is over or has time left, those that were due are expired and every other row is as it was; or nothing changed, exactly when the store refuses an event |
| ApprovalService.Workspace.RequestApproval | server/approvals/service.py:162-272 | same requester and key return the existing approval, otherwise a new row as specified |
| ApprovalConcurrency.StatementKeeps | server/approvals/service.py:601-687 | one statement changes neither the outcome a transaction is heading for nor what it may assume |
| ApprovalConcurrency.EveryInterleavingIsSerial | server/approvals/service.py:304-687 | under every interleaving, rollbacks included, the committed rows and each reported success or error are those of running the ended commands one after the other |
| ApprovalConcurrency.EveryInterleavingIsReachable | server/approvals/service.py:304-687 | so all results about runs hold under concurrency |
| ApprovalConcurrency.BoundedUseUnderConcurrency | server/approvals/service.py:612-687 | uses stay bounded and numbered, one per key, in every interleaving |
| ApprovalProgress.HolderEnds | server/approvals/service.py:304-687 | nothing but a rollback keeps the session that has the row from ending: after twelve of its own statements at most, whatever others do in between, its command is the next in the log, with the outcome it has on the rows it found |
| ApprovalProgress.FreeLockIsTaken | server/approvals/service.py:304-308 | a free row is taken by whoever asks first |
| ApprovalProgress.RollbackLeavesNothing | server/approvals/service.py:304-687 | a rollback leaves no write, no log entry and no lock behind |
| HardDeleteRuns.ExecutedWasApproved | server/application/hard_delete.py:1085-1196 | an executed request's approval was granted by exactly its quorum of distinct eligible accounts, at least one, all of them human and none of them the requester, at least the waiting period before, and the keys it names are destroyed |
| HardDeleteRuns.TwoHumansExactly | server/application/hard_delete.py:758-857 | an executed request had two human approvers other than its requester exactly when its approval is CRITICAL |
| HardDeleteRuns.OpenedCritical | server/application/hard_delete.py:654-671 | the attached approval is CRITICAL exactly when the key was free or the approval kept under it is CRITICAL |
| HardDeleteRuns.TwoHumansFromTheStart | server/application/hard_delete.py:627-671 | the two from opening to execution, whatever happens in between |
| HardDeleteRuns.OneHumanIsEnough | server/application/hard_delete.py:654-671 | for every setting, any requester and any other human: a reachable executed request of the one whose only approver is the other |
| HardDeleteRuns.TermsNeverChange | server/approvals/service.py:99-106 | the terms of an approval are fixed from its request on, over any run |
| HardDeleteRuns.OpeningReplays | server/application/hard_delete.py:702-721 | asking again under the same key, after any run, names the same request and changes nothing |
| HardDeleteRuns.OneOpenRequest | server/application/hard_delete.py:637-646 | at most one open request per target in every reachable world |
| HardDelete.StepsKeep | server/application/hard_delete.py:758-897 | EXECUTED, REJECTED and CANCELLED requests and destroyed keys are final and approvals only move forward, over any run |
| HardDeleteRuns.ExecutableExactly | server/application/hard_delete.py:1085-1115 | which requests some continuation from a given time on executes, under clocks that do not go back: those executed, those waiting with a standing grant, and those neither the request nor its approval has decided, with as many people who may vote as the approval needs and its validity not over |
| HardDeleteRuns.StuckForever | server/application/hard_delete.py:765-766 | any other request stays unexecuted over every run from that time on |
| HardDeleteRuns.DirectDecisionStrands | server/application/hard_delete.py:765-766 | any vote, withdrawal or expiry on the approval itself that decides or ends it leaves the request waiting for ever |
| HardDeleteRuns.StrandedRequest | server/application/hard_delete.py:1091-1097 | for every setting a reachable request that waits on an approval already given |
| HardDeleteRuns.ExpiredRequest | server/approvals/service.py:303-308 | a reachable request, open, undecided and with voters enough, that is lost because its approval ran out |
| HardDeleteRuns.ExecutionExactly | server/application/hard_delete.py:1085-1129 | an execution succeeds exactly when waiting period, grant, re-authentication and target allow it and the ledger holds no key back |
| HardDeleteRuns.KeyHeldBack | server/application/hard_delete.py:129-150 | a reachable world whose ledger holds a key of the target back |
| HardDeleteRuns.ExecutionShredsTarget | server/application/hard_delete.py:903-1024 | execution destroys and records exactly the keys kept for the target and, for a conversation, its message keys; no other key changes |
| HardDeleteAnswers.OpeningAdds | server/application/hard_delete.py:627-690 | a new request stores its target, requester and waiting hours; under a key not used before it opens a CRITICAL approval for people only, for one use, for a week, on the request itself |
| HardDeleteAnswers.WaitedAsAsked | server/application/hard_delete.py:672-812 | from opening to execution, whatever happens in between: target, requester and hours stay those of the opening, and an execution comes no earlier than those hours after the approval was given |
| HardDeleteAnswers.OpeningAnswer | server/application/hard_delete.py:627-721 | a new opening fails for the first of its faults and goes through without any |
| HardDeleteAnswers.DecidingAnswer | server/application/hard_delete.py:758-857 | the same for decisions, the obstacles of the vote among the faults; the proof asked for at the door stands for the approver's own |
| HardDeleteAnswers.DecisionMoves | server/application/hard_delete.py:792-836 | an accepted decision moves the request exactly when it closes the vote; an approval starts the waiting period of the stored hours |
| HardDeleteAnswers.CancellingAnswer | server/application/hard_delete.py:860-897 | the same for cancellations |
| HardDeleteAnswers.CancellingEnds | server/application/hard_delete.py:860-897 | a cancellation ends the request, and its approval exactly where that is not over and the sender may end it |
| HardDeleteAnswers.ExecutingAnswer | server/application/hard_delete.py:1085-1180 | the same for first executions, with a key held back by the ledger among the faults |
| HardDeleteAnswers.ExecutionEnds | server/application/hard_delete.py:1100-1190 | the first execution ends the request at its moment, names exactly the target's keys, and records who destroyed them and when |
| HardDeleteAnswers.ExecutedAgain | server/application/hard_delete.py:1091-1093 | an executed request is answered the same way after any run and nothing happens again |
| HardDeleteService.Desk.RequestHardDelete | server/application/hard_delete.py:627-721 | opening as specified, a repeated key first, errors in the handler's order |
| HardDeleteService.Desk.ApproveHardDelete | server/application/hard_delete.py:758-857 | one decision by the approval service and the row it leaves, as specified |
| HardDeleteService.Desk.CancelHardDelete | server/application/hard_delete.py:860-897 | cancels the request even where the approval refuses |
| HardDeleteService.Desk.DestroyTarget | server/application/hard_delete.py:903-1024 | the message bodies, then the keys kept for the target, or no change |
| HardDeleteService.Desk.ExecuteHardDelete | server/application/hard_delete.py:1085-1196 | execution as specified; an executed request is answered again without effect |
| TombstoneLedger.VerifyExported | server/application/hard_delete.py:375-394 | reports exactly the rows that do not check out, in order; nothing exactly for an intact ledger |
| TombstoneLedger.VerifyTable | server/events/chain.py:113-128 | reports exactly the two kinds of fault; nothing exactly for an intact table |
| TombstoneLedger.EveryRunVerifies | server/application/hard_delete.py:68-118 | a ledger built by any run of insertions is intact and holds them in order |
| TombstoneLedger.SameHeadSameLedger | server/events/chain.py:22-23 | two intact ledgers with the same last hash are equal row by row |
| TombstoneLedger.ShredAllForgets | server/application/hard_delete.py:129-150 | shredding destroys and records exactly the listed keys; fails exactly for an unknown key or one already recorded while still active |
| TombstoneLedger.ShredAllRecords | server/application/hard_delete.py:68-150 | every line shredding adds names a key that was active, whose it was, the reason, the actor and the moment, which is also the moment the key was destroyed at |
| TombstoneLedger.ShredAllStops | server/application/hard_delete.py:129-150 | a failed shredding names the reason of a reference on its list: unknown, or tombstoned while still active |
| TombstoneLedger.ImportForgets | server/application/hard_delete.py:213-266 | an import lists every entry, destroys every listed key it knows, revives none, touches no other and keeps the chain intact |
| TombstoneLedger.ImportTwice | server/application/hard_delete.py:216-218 | a second import changes no state |
| TombstoneLedger.RestoreThenImport | server/application/hard_delete.py:10-13 | after a restore and an import every key destroyed since is destroyed again |
| TombstoneLedger.ClassesPartition | server/application/hard_delete.py:246-266 | each entry is reported as exactly one of shredded, already destroyed, unknown |
| TombstoneLedger.ImportedRows | server/application/hard_delete.py:228-242 | the reported imports are the appended rows, in order |
| TombstoneLedger.ImportRecords | server/application/hard_delete.py:228-262 | every line an import adds repeats one of its entries, marked as reconciled, and the keys it destroys were destroyed at its moment |
| TombstoneLedger.ReportMeans | server/application/hard_delete.py:228-266 | which keys each of the four lists of the report names |
| TombstoneLedger.Database.InsertTombstone | server/application/hard_delete.py:68-118 | appends one row chained to the last and keeps the ledger sound |
| TombstoneLedger.Database.DestroyKeys | server/application/hard_delete.py:903-919 | the loop destroys all keys or, on an error, changes nothing |
| TombstoneLedger.Database.ImportAndApply | server/application/hard_delete.py:213-266 | the import loop computes the new state and the report specified |
| Brainstorm.ParseLimits | server/brainstorm/limits.py:56-72 | the loop accepts exactly valid mappings, fills in defaults, and every bound is positive |
| Brainstorm.PatchIsLocal | server/application/brainstorm.py:566-571 | a resume's limits are accepted exactly when the patch alone is valid, and limits it does not name stay |
| Brainstorm.ReturnedSeat | server/brainstorm/engine.py:224-248 | the seat returned is the account's own exactly when it was not seated before |
| Brainstorm.StepKeeps | server/application/brainstorm.py:417-639 | every command keeps counters, seats, limits and streaks in step with transcript and events |
| BrainstormRuns.CountersAreTheTranscript | server/brainstorm/engine.py:259-284 | turn number, cursor, per-participant counts, row numbers, seats and last contributor are those of the transcript, and the consecutive count is how often the last contributor spoke since anybody else did or the session was resumed, over any run |
| BrainstormRuns.ClosedIsFrozen | server/application/brainstorm.py:427-428 | nothing changes a closed session |
| BrainstormRuns.StretchBounded | server/brainstorm/limits.py:101-106 | without a resume nobody contributes more often in a row than the limit then in force |
| BrainstormRuns.NoTurnsRemainExactly | server/brainstorm/turns.py:28-34 | an Agent is told no turn remains exactly when a turn limit would stop it |
| BrainstormRuns.ExactRunLength | server/application/brainstorm.py:473-535 | in-turn Agents get exactly min(total, n times turns per Agent) turns, evenly, and which limit stops the next one |
| BrainstormRuns.AgentTurnsRotate | server/brainstorm/engine.py:251-284 | whatever else happens while no Agent joins, Agent turn j belongs to the Agent at place j modulo n and counts differ by at most one |
| BrainstormRuns.Whose | server/brainstorm/engine.py:251-256 | turn k belongs to the Agent at place k modulo n, who never spoke last |
| BrainstormReplies.ParseExactly | server/brainstorm/limits.py:55-76 | limits parse exactly where each key is one of the five and each value an integer large enough; a limit not named has its default |
| BrainstormReplies.AnsweredByFirstFault | server/application/brainstorm.py:417-639 | every command of a reachable session is answered with the first of its faults, told from transcript and command, and goes through without any |
| BrainstormReplies.ContributionExactly | server/application/brainstorm.py:444-535 | in every reachable session a turn is taken exactly by a complete, new contribution in turn that leaves consecutive turns, turns of the Agent, total turns, budget and minutes within their limits |
| BrainstormReplies.BreachPauses | server/application/brainstorm.py:473-488 | a contribution over a limit is rejected with the code of the first one; the session is paused for that reason and takes no turn, over any run, until it is resumed |
| BrainstormReplies.CommandLeaves | server/application/brainstorm.py:417-639 | what joining, pausing, resuming and closing leave behind where they go through: seats, status, limits and exactly one event, or nothing under a repeated key but the pause |
| BrainstormReplies.StartHolds | server/application/brainstorm.py:385-408 | over any run a session keeps the moment it was started at and, until it is resumed, the limits it was started with |
| BrainstormReplies.SeatedAsNamed | server/application/brainstorm.py:396-408 | accounts named once each are seated in that order and in their roles |
| BrainstormService.Rows.constructor | server/application/brainstorm.py:385-408 | starting seats the participants one after the other |
| BrainstormService.Rows.AddParticipant | server/brainstorm/engine.py:224-248 | a new account gets the next seat, a seated one keeps its row; the next seat is returned either way |
| BrainstormService.Rows.Advance | server/brainstorm/engine.py:259-284 | the counter updates of one turn |
| BrainstormService.Rows.ContributeTurn | server/application/brainstorm.py:444-535 | the handler, including the pause a breach leaves behind and the store's refusal of that pause |
| BrainstormService.Rows.JoinBrainstorm | server/application/brainstorm.py:417-441 | only the facilitator seats an account, in any session not closed; the reply is the seat computed |
| BrainstormService.Rows.PauseBrainstorm | server/application/brainstorm.py:538-551 | only the facilitator pauses, and only an open session; a repeated key pauses without a new event |
| BrainstormService.Rows.ResumeBrainstorm | server/application/brainstorm.py:554-603 | only the facilitator resumes a paused session; the patched limits take effect and the consecutive count starts again at zero |
| BrainstormService.Rows.CloseBrainstorm | server/application/brainstorm.py:606-639 | only the facilitator closes, once; the event carries the number of turns |
| AgentRegistry.FoldEvents | server/agents/registry.py:169-221 | the loop computes the fold, history included |
| AgentRegistry.OfflineDueExactly | server/agents/registry.py:437-450 | both offline conditions mean ninety seconds without a heartbeat |
| AgentRegistry.RowIsTheFold | server/agents/registry.py:378-384 | over any run each runtime column equals the fold of the stream, and an online Agent is active and was heard from |
| AgentRegistry.RebuildChangesOnlyMisses | server/agents/registry.py:415-430 | a rebuild changes nothing but, possibly, the missed count |
| AgentRegistry.SameHashSameLifecycle | server/agents/registry.py:147-158 | equal lifecycle hashes mean equal ids, types, sequence numbers and times |
| AgentRegistry.AfterRevocationExactly | server/application/agents.py:707-732 | a command adds a lifecycle event to a revoked Agent exactly when it is a sweep turn on a stale listing |
| AgentRegistry.RevocationIsFinal | server/application/agents.py:498-570 | a revoked Agent stays revoked and offline; with current listings no lifecycle event follows |
| AgentRegistry.StaleSweepFollowsRevocation | server/application/agents.py:712-729 | whenever an online Agent is listed, then revoked and due, the sweep's event follows AGENT_REVOKED |
| AgentRegistry.RevokedThenMarkedOffline | server/application/agents.py:712-729 | a run in which that happens |
| AgentRegistry.SweepTakesOfflineExactly | server/application/agents.py:723-731 | a due Agent goes offline exactly when the sweep's key is new to its stream |
| AgentRegistry.ReusedKeyKeepsOnline | server/application/agents.py:723-731 | a run in which a key used before leaves the Agent online |
| AgentHistory.RowFromHistory | server/agents/registry.py:169-221 | in every reachable state status, online, capacity, last heartbeat and last event are decided by the last event of certain types, the capacity by the last heartbeat |
| AgentHistory.HistoryTells | server/agents/registry.py:205-221 | the history has one entry for each lifecycle event, with the status and the hash right after it |
| AgentHistory.NewCommandAnswer | server/application/agents.py:379-731 | every command under a new key fails for the first of its faults; without any it leaves exactly its own event and the columns that follow |
| AgentHistory.RepeatedAnswer | server/application/agents.py:138-152 | a command under a key used before changes nothing, whatever it says; only a due sweep that would report another count is refused |
| AgentHistory.InServiceWasTested | server/application/agents.py:492-524 | over any run an Agent that is active or offline has passed a connection test |
| AgentService.Record.Replay | server/application/agents.py:138-152 | the search for an earlier event under the caller's key |
| AgentService.Record.RefreshState | server/agents/registry.py:354-384 | folds and writes the columns |
| AgentService.Record.UpdateAgent | server/application/agents.py:379-441 | guards, the error of the first field that fails its check, and the event of an update |
| AgentService.Record.ActivateAgent | server/application/agents.py:492-524 | refused for revoked, active or untested Agents, otherwise AGENT_ACTIVATED and a fresh row; an error changes nothing |
| AgentService.Record.SuspendAgent | server/application/agents.py:541-559 | refused for revoked or suspended Agents, otherwise AGENT_SUSPENDED and a fresh row |
| AgentService.Record.RevokeAgent | server/application/agents.py:563-598 | refused for revoked Agents, otherwise AGENT_REVOKED and a fresh row |
| AgentService.Record.RecordHeartbeat | server/application/agents.py:602-674 | accepted only from active or offline Agents with a known health, a capacity and a usage the recorder takes; an error changes nothing |
| AgentService.Record.MarkOffline | server/application/agents.py:693-704 | only an active Agent that is online goes offline |
| AgentService.Record.SweepTurn | server/application/agents.py:712-731 | acts on the listed row: skips, corrects the missed count, or takes the locked Agent offline without looking again |
| AgentService.Rebuild | server/agents/registry.py:428-429 | refreshes each Agent and nothing else |
| Routing.Candidates | server/agents/routing.py:110-203 | exactly the eligible rows with room, in score and id order |
| Routing.SelectAssignee | server/agents/routing.py:272-317 | the best eligible candidate, or none when there is none |
| Routing.ChoiceIsUnique | server/agents/routing.py:202 | there is only one best candidate |
| Routing.ChoiceIgnoresOrder | server/agents/routing.py:123 | the choice does not depend on the order of the rows |
| Routing.ChoiceExactly | server/agents/routing.py:110-203 | the choice is the fit Agent preferred to every other fit one, a domain match before idleness before the id, and none exactly when no Agent is fit |
| Routing.CandidateTells | server/agents/routing.py:163-201 | the score tells domain match and idleness apart; the capacity is the tighter of the registered one and a positive task limit |
| Rerouting.TaskRow.RerouteTask | server/agents/rerouting.py:156-274 | reassigns to the best Agent not excluded, waits when the limit is used up or nobody is eligible, or leaves the task alone |
| Rerouting.RerouteEndsExactly | server/agents/rerouting.py:156-274 | a task is left alone, goes to an Agent, waits or the command fails, each under its exact condition on the earlier reasons and the eligible Agents, with the row it records |
| Rerouting.PatternExactly | server/agents/rerouting.py:107-115 | the counter's pattern holds of the stem followed by any one character and anything after it |
| Rerouting.CounterIsHonestExactly | server/agents/rerouting.py:107-115 | over any run the counter equals the number of reroutes exactly when no reason chosen by hand matches its pattern |
| Rerouting.HandReasonUsesUpReroute | server/agents/rerouting.py:191-217 | a task never rerouted waits although an eligible Agent is there |
| Rerouting.RerouteOnceAndFresh | server/agents/rerouting.py:187-209 | over any run at most one reroute, to the best eligible Agent, which never held the task before |
| NonceStore.InMemoryNonceStore.RememberNonce | server/agents/webhook_signing.py:47-54 | the pruning loop and the answer, as specified |
| NonceStore.RememberExactly | server/agents/webhook_signing.py:47-54 | a nonce is accepted exactly when no call accepted it within the retention |
| NonceStore.VerifyRequest | server/agents/webhook_signing.py:84-118 | the checks in their order, then the store |
| NonceStore.DeliveredExactly | server/agents/webhook_signing.py:84-118 | in any run a delivery is accepted exactly with all headers, a numeric stamp within the window, a matching signature, a digest not contradicted, and a nonce no delivery was accepted with within the retention |
| NonceStore.AnsweredByFirstFault | server/agents/webhook_signing.py:84-118 | otherwise it is answered with the first of its faults, in the documented order |
| NonceStore.RefusedLeavesNoTrace | server/agents/webhook_signing.py:99-118 | a refused request consumes no nonce: without it every later request gets the same answer |
| NonceStore.NeverTwice | server/agents/webhook_signing.py:84-118 | with enough retention no (timestamp, nonce) is accepted twice in any run |
| NonceStore.RetentionExactly | server/agents/webhook_signing.py:84-118 | enough means twice the window plus one second, less a microsecond, and no less |
| NonceStore.DefaultsAreReplayFree | server/domain/defaults.py:78-79 | the window and retention the server runs with are enough |
| RateLimiter.AgentWindows.CountRequest | server/agents/limits.py:72-84 | one more in the minute, old windows deleted |
| RateLimiter.AgentWindows.EnforceLimits | server/agents/limits.py:249-288 | admission and counting as specified |
| RateLimiter.CountIsExact | server/agents/limits.py:81-84 | deleting old windows never loses a count that a later check reads |
| RateLimiter.AdmissionExactly | server/agents/limits.py:159-177 | a request is admitted exactly when its minute has room and no other limit is exceeded |
| RateLimiter.MinuteBounded | server/agents/limits.py:60-69 | no aligned minute takes more than the limit |
| RateLimiter.AnySixtySeconds | server/agents/limits.py:60-69 | any sixty seconds take at most twice the limit |
| RateLimiter.TwiceIsReached | server/agents/limits.py:60-69 | that bound is reached, for every limit |
| TaskGraph.AncestorsOf | server/application/orchestration.py:66-77 | terminates on any edge table with a chain without repeats that stops only at a task without parent, at a repeat or at 128 tasks; on a forest it is exactly the ancestors |
| TaskGraph.EdgeTrigger | migrations/sql/0002_phase1_core.sql:351-365 | on any edge table the insert trigger reports a cycle exactly when the child is the parent or among the 64 tasks above it, and depth exactly when that climb does not end |
| TaskGraph.TriggerOnForest | migrations/sql/0002_phase1_core.sql:351-365 | on a sound graph the trigger finds every ancestor and stops exactly at 64 levels |
| TaskGraph.Board.CreateRoot | server/application/tasks.py:403-425 | a root task needs a new stream |
| TaskGraph.Board.CreateChild | server/application/tasks.py:429-465 | a sub-task as specified, all checks in order |
| TaskGraph.ReachableGraphIsForest | server/application/tasks.py:439-464 | in every reachable graph depth and root follow the parent, ancestor chains never repeat, have the length of the depth and end at the root |
| TaskGraph.CreationExactly | server/tasks/graph.py:58-87 | a sub-task is accepted exactly within the limits; no cycle check ever stops a new task |
| TaskGraph.CreationAnswer | server/application/tasks.py:429-465 | the creation of a sub-task fails for the first of its faults; without any it adds one task and one edge below the parent, unless the trigger's 64 levels are used up |
| TaskGraph.RootAnswer | server/application/tasks.py:403-425 | a root is accepted exactly with a new id and a store that takes it, and stands alone in its own tree |
| TaskGraph.RunningBounded | server/tasks/graph.py:83-87 | under one policy no task ever has more children that have not ended than it allows, over any run in which ends are final |
| TaskGraph.LimitsHold | server/tasks/graph.py:75-82 | under one policy no task exceeds its fan-out and no chain its depth |
| SignatureScan.SignatureScanner.Report | server/artifacts/scan.py:62-77 | infected exactly when a signature occurs in the whole non-empty contents, however they are cut; names the first signature of the shortest infected prefix |
| SignatureScan.SignatureScanner.Scan | server/artifacts/scan.py:62-80 | reading a file in 64 KiB pieces equals a search of the file |
| SignatureScan.OccursExactly | server/artifacts/scan.py:72-73 | a marker occurs exactly where something before and something after it make up the whole |
| SignatureScan.WindowDecides | server/artifacts/scan.py:70-74 | with nothing found so far the window decides for the longer prefix |
| SignatureScan.InfectionPersists | server/artifacts/scan.py:66-74 | an infected prefix infects the whole |
| CycleDetector.TopoCycle | tools/plan_baseline_lint.py:16-40 | none exactly for acyclic graphs; otherwise a real simple cycle |
| CycleDetector.CycleSearch.Visit | tools/plan_baseline_lint.py:21-33 | terminates; returns a cycle or finishes the node and restores the stack |
| CycleDetector.FinishedGraphIsAcyclic | tools/plan_baseline_lint.py:31-40 | a finishing order of all nodes rules out every closed walk |
| CycleDetector.StackClosesCycle | tools/plan_baseline_lint.py:24-26 | a successor on the stack closes a simple cycle |
| Markdown.ParseTables | tools/baseline.py:48-68 | the loops compute the tables of the split lines |
| Markdown.RowRoundTrip | tools/baseline.py:38-45 | a printed row splits back exactly when no cell holds a bar or outer white space |
| Markdown.PiecesConcat | tools/baseline.py:44 | a bar splits unless a backslash stands before it |
| MarkdownRows.EscapedRowRoundTrip | tools/baseline.py:38-45 | whatever the cells hold, written with their bars escaped they come back from the printed row, each one stripped |
| MarkdownRows.BareRow | tools/baseline.py:40-43 | so they do without the outer bars, also where the last cell ends in an escaped bar |
| MarkdownRows.SeparatorExactly | tools/baseline.py:59 | a separator line is exactly space, a bar or none, space, a colon or none, three dashes and anything |
| IdList.ExpandIds | tools/baseline.py:71-79 | the loops compute the identifiers of a cell |
| IdList.ListRoundTrip | tools/baseline.py:71-79 | a printed list expands to itself exactly when it holds identifiers only |
| IdList.RangeExpands | tools/baseline.py:71-79 | a range expands to every identifier from first to last |
| IdList.RangeIs | tools/baseline.py:77-78 | those identifiers, one by one |
| IdList.IdShape | tools/baseline.py:19 | an identifier is exactly `P` or `V-P`, a digit, a dash and two digits |
| IdList.NotAfterWord | tools/baseline.py:19 | an identifier a word runs into is not found |
| IdList.NotBeforeWord | tools/baseline.py:19 | nor one that runs into a word |
| IdList.RangeBeforeWord | tools/baseline.py:19 | a range whose end runs into a word counts for its first identifier only |
| TraceMatrix.Render | tools/trace_matrix.py:110-155 | the loops print the document's lines |
| TraceMatrix.SectionParses | tools/trace_matrix.py:117-123 | a section parses to its table whatever its cells hold |
| TraceMatrix.LinesComeBack | tools/trace_matrix.py:155 | the printed lines split back |
| TraceMatrix.DocumentRoundTrip | tools/trace_matrix.py:110-155 | the document parses to its three tables exactly when no cell holds a bar, a line break or outer white space |
| TraceMatrix.IdentifiersComeBack | tools/trace_matrix.py:122-148 | expanding the parsed package and Test cells gives every identifier list back, empty ones included |
| TraceTitles.PublishedRoundTrip | tools/trace_matrix.py:111-154 | the same for the document's own titles and sentences |

## Left out

- SQL text, sessions, HTTP and MCP wiring, sockets, backups, the setup pages and translations: input and output.
- Audit rows, notifications, work items and usage records written beside the modelled state.
- Event store internals: an append either replays an identical request, conflicts, is refused for a reason given as
  a parameter, or extends the stream.
- Approval subject validation and unknown risk names: checked before the modelled part of `request_approval`.
- Concurrent first requests under one idempotency key: the lookup in `request_approval` takes no lock.
- Deadlock order between several grant rows: the interleaving model has one row.
- Distinctness of deciders up to aliases: the code compares votes by account only.
- Two hard-delete requests opened at the same moment for one target: the duplicate lookup takes no lock.
- The digest comparison over the event chain around an execution, and the files and message rows it removes.
- The signed ledger and anchors of the hash chains; the text forms of times and identifiers that are hashed.
- The collation behind `ORDER BY key_ref`: strings are ordered by code point.
- Account deletion requests, which open a hard-delete request under an idempotency scope of their own.
- Two contributions to one brainstorm session at the same moment: the session row is not locked while limits and turn
  are checked.
- Brainstorm summaries, decisions and the closing document; who counts as facilitator is a flag.
- Capability lists and the missed-heartbeat history of an Agent: `missed_heartbeats` is written outside the fold.
- Rollback of a whole offline sweep when one turn fails, and the cap of its listing at 100 rows.
- The re-routing of tasks that suspension, revocation and going offline trigger is modelled separately in `Rerouting`.
- Two reroutes of one task at the same moment: the task is not locked while the candidate is chosen.
- The other limits of an Agent (cost, concurrent tasks, wall time) are one flag in `RateLimiter`.
- Clock readings before 1970 in the webhook window, where Python truncates toward zero.
- Two sub-tasks created under one parent at the same moment: its children are counted without a lock.
- Requests of one Agent at the same moment: the count of the minute is read without a lock.
- Retried sub-task creations under a key used before: the event store answers them.
- Non-ASCII digits and word characters in identifiers and in numeric timestamps.
