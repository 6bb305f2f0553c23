# Verification of the runtime's protocols and algorithms

Dafny models of six parts of the repository, with proofs of what they promise in
every interleaving, after every crash, or on every input. `dafny verify
dfyconfig.toml` checks the whole project.

## What is modelled

**Capability leases** (`Leases`, `LeaseProtocol`). The lease store and the manager
are classes; each operation is proved to carry out a pure decision while other
operations may run between its read and its swap. `LeaseProtocol` is the transition
system of all read and swap steps. Tokens are 64-bit and wrap. That a stored token
never decreases is false at one point: a renewal, revocation or expiry of a lease
whose token is the largest value. `TokenFallsExactlyOnWrap` gives the exact condition
before the swap, `WrapHappens` a run, and `WrappedIsDead` shows that such a lease is
never accepted again. Which lease an operation accepts and what it makes of it is stated
field by field on each method and, as `ValidateLaw` and its companions, on the decisions.
A check's resource need not equal the lease's: an attribute that the lease lacks reads as
empty, and `ResourcesEqualIff` says when the two are equal.

**Module audits** (`ModuleTasks`, `AuditStores`, `AuditProtocol`, `AuditSafety`,
`AuditRecovery`, `AuditAnswers`, `AuditRerun`, `AuditConclusion`, `AuditService`). Three durable stores,
written by processes that may crash between any two store calls, be run again, and
compete. Not every undisturbed rerun succeeds once evidence is stored: `RerunConcludes`
says that it does exactly unless the task is blocked by a dependency or superseded,
`RerunMayFail` reaches such a state, and `RunSucceedsIff` says exactly which runs
succeed, whatever state the task is in. Any answer to a commit may be lost in all of them.
A success is told by the task's state and the bundle's fields: passed, rework ready or
under way, or waiting for the user after the third failure. `AuditAnswers` traces every
stored verdict to the auditor's answer.
The safety proof rests on
the command log: a stale process may commit its outcome when the task is already on a
later attempt, and only because its command is in the log does it change nothing. It
also uses that a run id is claimed once for a tenant
(`migrations/postgres/000027_module_audit_coordination.up.sql`). `AuditService` is the
imperative service, proved to make the same store calls as the protocol.

**Agent runs and slots** (`AgentRuns`, `AgentRunProtocol`, `AgentRuntime`; `Slots`,
`SlotScheduling`). Each mutex section is one method of a class and one step of a
transition system; what happens outside the lock is a flight that holds what it read.
`AgentRuntime` also has the operations that span two sections, with any change in between.
A start is not tied to the record it began on, as an operation is: `StartKeepsItsRecordIff`
says exactly when it keeps to it, and `StartMayOutliveItsRecord` gives a run where it does not.
A refusal by the authority ends the run that is found, whatever lease it holds by then:
`RefusalEndsItsLeaseIff` and `RefusalMayEndNewerLease` say when that is the lease refused.
What a heartbeat or renewal installs is stated on its fields, and `HeartbeatIsSection` ties
the methods to the transition system, so that the laws of its runs are laws of the methods.
The slot pool keeps a ghost history of enqueues, grants, releases and withdrawals;
`Slots` proves what every legal history satisfies.

**Compaction and the tool loop** (`TokenBudget`, `Compaction`, `Summaries`, `Gathering`,
`CompactionRuns`, `Transcripts`, `ToolLoop`). A string is a sequence of code points with its UTF-8 widths. The JSON
forms of checkpoints and envelopes are a parameter, with decoding the inverse of
encoding and one section for each text. That retained input is kept verbatim
whenever its estimate fits is false when the newer inputs use the budget up and the
oldest are empty, as `EmptyInputLost` shows; `KeepsAllIff` is the exact condition, and
`WithinBudget` shows that only empty inputs are then missing. `Summaries` says message by
message what a summary and its inputs hold, and `Transcripts` what each request of a
conversation holds: the tool loop keeps every provider call with the conversation it was
made for in ghost state, and proves that each follows from those before it.

**JSON diff** (`JsonPatch`, `JsonDiff`, `JsonCompare`, `JsonDepth`, `JsonPrinted`). Patches are those
of section 4 of RFC 6902 on reference tokens of section 3 of RFC 6901; array indices are their
decimal texts. As printed, the diff is not always a patch: the path of a replaced root is
a slash, which RFC 6901 reads as the member with the empty name, and a value that is null
is left out. `PrintedIsPatchIff` and `PrintedRevertsIff` say exactly when the printed
diff and its inverse are patches, and `NullIsNotPrinted` gives two containers where it is not.

**Scanner and snapshots** (`Scanner`, `Credentials`, `KeyOrder`, `Snapshots`, `CanonicalSnapshots`).
The chunked credential scanner takes any detector, and `ExactIffCoherent` says for which
ones its verdict is that of the whole stream under every chunking; looking for texts of
at most 257 bytes is one. `Credentials` holds the thirteen shipped patterns, which are
not: they have word boundaries and unbounded repeats, and the scan then errs both ways,
as `FalseAlarm` and `Miss` show. A backup is validated as a closed graph with unique
keys, and its canonical order makes digests independent of row order. Sorting is not
assumed stable: a canonical form is any sorted order.

`Texts` holds what is shared about sequences and strings, `Wrappers` the option and result types.

## Model

| member | source | states |
|---|---|---|
| `Leases.NewLeaseManager` | internal/authz/lease.go:401-437 | Settings that are given are kept; with both lifetimes given, it succeeds exactly when the default is within the maximum; with none, they are 300, 900 and 30 seconds; an accepted configuration is positive and ordered. |
| `Leases.MemoryLeaseStore.Put` | internal/authz/lease.go:195-216 | Inserts only when neither the lease id nor the tenant, principal and idempotency key are taken; otherwise the store is unchanged. |
| `Leases.MemoryLeaseStore.Get` | internal/authz/lease.go:218-232 | Finds a lease only under its own tenant. |
| `Leases.MemoryLeaseStore.CompareAndSwap` | internal/authz/lease.go:254-269 | Replaces the stored lease exactly when its fencing token is the expected one, and changes nothing else. |
| `Leases.LeaseManager.Issue` | internal/authz/lease.go:460-564 | Succeeds exactly when admitted, the lifetime asked for is within the cap and leaves time before the grant and the deadline, three whole-second heartbeats fit in it, and the id and request key are free; the lease stored carries what was asked for, from now to exactly that lifetime, with token 1 unless one is given. Otherwise nothing changes. |
| `Leases.LeaseManager.Renew` | internal/authz/lease.go:590-669 | With any other operation between its read and its swap, it succeeds exactly when the lease read is usable, agrees in token, principal, type, role and policy, its grant leaves time, and the store still has that token; the renewed lease gets exactly the lifetime asked for or what the grant leaves, the next token unless kept, and is otherwise the same but for the nonce. |
| `Leases.LeaseManager.Heartbeat` | internal/authz/lease.go:671-722 | The same for a heartbeat: the lease read is usable, agrees in project, task, principal and token, and beat no later than now; it then has at least the default lifetime from now, never less time than before, and nothing else changes. |
| `Leases.LeaseManager.Revoke` | internal/authz/lease.go:724-783 | Only the lease's own principal or a break-glass administrator of its project and task may revoke; a success leaves it REVOKED under the request's digest, and the same request again, or lost to another swap, succeeds exactly when it is already so. |
| `Leases.LeaseManager.Validate` | internal/authz/lease.go:785-823 | Succeeds exactly when the stored lease is in shape, ACTIVE and before its deadlines, agrees with the check in every bound field, the resource, the parameter digest and the token, has the fields that must not be empty so, and holds the capability asked for; it then gives that lease unchanged. The only other change it makes is to expire the active lease that is past a deadline. |
| `Leases.ValidateLaw` | internal/authz/lease.go:785-823 | The same of the decision alone, field by field, so it also holds of every step of the protocol. |
| `Leases.RenewLaw` | internal/authz/lease.go:590-669 | The same for renewals. |
| `Leases.HeartbeatLaw` | internal/authz/lease.go:671-722 | The same for heartbeats. |
| `Leases.RevokeLaw` | internal/authz/lease.go:724-783 | The same for revocations. |
| `Leases.IssueLaw` | internal/authz/lease.go:460-564 | The same for issues. |
| `Leases.ResourcesEqualIff` | internal/authz/lease.go:1023-1033 | Resources that compare as equal are equal if and only if the lease has every attribute that the check leaves empty, because an attribute that the lease lacks reads as empty. |
| `Leases.SwapEvolves` | internal/authz/lease.go:254-269 | Swapping a replacement decided on an earlier read keeps every lease's history going forward, whatever happened in between. |
| `LeaseProtocol.ReachableInv` | internal/authz/lease.go:590-823 | In every interleaving, each snapshot in flight is no newer than the stored lease, equal tokens mean the stored lease is still ACTIVE, and stored deadlines are bounded. |
| `LeaseProtocol.LeasesMoveForward` | internal/authz/lease.go:254-269 | Between any two moments of any run a lease only moves on: its token advances in the order in which tokens are handed out, and an ended lease is frozen. |
| `LeaseProtocol.EndedStaysEnded` | internal/authz/lease.go:724-783 | A lease once REVOKED or EXPIRED never changes again. |
| `LeaseProtocol.StepToNextToken` | internal/authz/lease.go:637-648 | A token is left only from an ACTIVE lease, and only for the very next token. |
| `LeaseProtocol.TokenLeftOnce` | internal/authz/lease.go:254-269 | Each token value is left by at most one successful swap. |
| `LeaseProtocol.TokenFallsExactlyOnWrap` | internal/authz/lease.go:630-648 | The stored token number decreases if and only if the step, seen before it is taken, is the swap of an open operation that replaces the largest 64-bit value, still stored, by the next one. |
| `LeaseProtocol.WrappedIsDead` | internal/authz/lease.go:85-112 | After such a wrap the lease can never be renewed, kept alive, revoked or accepted again: its token is below 1. |
| `LeaseProtocol.WrapHappens` | internal/authz/lease.go:630-648 | A concrete run in which a stored token decreases. |
| `LeaseProtocol.AcceptedIffAuthorized` | internal/authz/lease.go:785-823 | In every interleaving a check is accepted if and only if the lease stored by then authorizes it, field by field. |
| `LeaseProtocol.AcceptedTokensNeverDecrease` | internal/authz/lease.go:785-823 | The tokens accepted by successive validations of one lease never decrease. |
| `LeaseProtocol.NoAcceptancePastDeadline` | internal/authz/lease.go:63-83 | No validation succeeds at or past the stored expiry, the stored heartbeat plus the maximum lifetime, or, except for operation leases, the heartbeat plus three intervals. |
| `LeaseProtocol.DeadlinesStayBounded` | internal/authz/lease.go:500-531 | In every reachable store, last heartbeat <= expiry <= last heartbeat + maximum lifetime. |
| `LeaseProtocol.IssuedLifetime` | internal/authz/lease.go:500-531 | At issue three heartbeat intervals fit in the lifetime, which respects the maximum, the grant and the deadline. |
| `LeaseProtocol.OneLeasePerRequest` | internal/authz/lease.go:195-216 | One tenant, principal and idempotency key never has two leases. |
| `ModuleTasks.AuditProgress` | internal/state/task.go:98-297 | Every audit command moves its submission forward and never reopens a past attempt. |
| `ModuleTasks.OtherProgress` | internal/state/task.go:98-297 | So does every command of the other services. |
| `ModuleTasks.OtherKeepsLlmAudit` | internal/state/task.go:98-297 | No other service's command brings a task into the LLM audit. |
| `ModuleTasks.OtherKeepsPassed` | internal/state/task.go:98-297 | No other service's command makes a task PASSED. |
| `ModuleTasks.CommandsFollowEdges` | internal/state/task.go:98-297 | Every command of any service moves a task along an edge of the state graph or leaves its state; an attempt is counted only by a submission under the current token, and only a new series starts over. |
| `AuditStores.CoordinationStore.Claim` | internal/audit/coordination_postgres.go:44-83 | A claim is inserted unless the submission or the run id is claimed, and succeeds only for exactly the stored claim. |
| `AuditStores.CoordinationStore.MarkDeterministic` | internal/audit/coordination_postgres.go:85-130 | The gate digest is written once; marking again succeeds only with the same digest. |
| `AuditStores.CoordinationStore.Complete` | internal/audit/coordination_postgres.go:132-180 | A row completes once, from the phase its outcome requires; completing again succeeds only with the same digest and outcome. |
| `AuditStores.EvidenceStore.Put` | internal/audit/types.go:160-172 | The first bundle of a submission wins; writing it again is accepted, another one is not. |
| `AuditStores.TaskAuthority.Commit` | internal/eventing/memory.go:151-218 | A logged command is answered from the log and only for the same request; a new one takes effect at the expected version and when allowed, or not at all; no entry is ever changed. |
| `AuditProtocol.AdvanceComesCloser` | internal/audit/service.go:105-243 | Every store call brings a run closer to its end, so an undisturbed run ends. |
| `AuditService.ModuleAuditService.CommitOrObserve` | internal/audit/service.go:309-328 | Commits a command or, when no answer arrives, finds its effect on the task. |
| `AuditService.ModuleAuditService.FinishEvidence` | internal/audit/service.go:245-299 | From stored evidence: complete the row, take the final command, queue rework after a failure; the same store calls as the protocol makes, whose success RerunConcludes fixes. |
| `AuditService.ModuleAuditService.RunPipeline` | internal/audit/pipeline.go:76-192 | Checks, then the gate, then the auditor, then the evidence, in that order; a failed check skips gate and auditor. |
| `AuditService.ModuleAuditService.Run` | internal/audit/service.go:105-243 | An undisturbed call is exactly one process of the protocol driven to its end. |
| `AuditService.ModuleAuditService.Rerun` | internal/audit/service.go:105-243 | On healthy stores, calling again succeeds exactly under the conditions of RerunConcludes and RunSucceedsIff. A success leaves the task PASSED or INTEGRATED for passing evidence, else ready for rework or executing when its attempt is below 3 and waiting for the user at 3, never REWORK_REQUIRED, with row and evidence to match. |
| `AuditSafety.ReachableInv` | internal/audit/service.go:105-299 | Over all runs, crashes, reruns and competing run ids the stores and every live process satisfy the safety invariant. |
| `AuditSafety.FinalCommit` | internal/audit/service.go:279-299 | A final command keeps the safety invariant; a stale process that sends it late, when the task is on another attempt, changes nothing, because its command is in the log. |
| `AuditSafety.PassedIsEarned` | internal/audit/service.go:357-380 | A PASSED task has for its current attempt a COMPLETED row with LLM_SUCCESS, whose evidence digest is that of the stored bundle, whose verdict is PASS, with checks that all passed, no open blocking finding and all criteria met. |
| `AuditSafety.StoresMoveForward` | internal/audit/coordination_postgres.go:85-180 | Between any two moments the row's phase never goes back, and digests, outcome, evidence and log entries are written once. |
| `AuditSafety.CrashLeavesAgreement` | internal/audit/service.go:137-243 | At any crash: rows belong to known submissions, evidence to claimed ones, a completed row names its evidence and the outcome of it, and an outcome the task took note of is on a completed row. |
| `AuditRecovery.ReachableInStep` | internal/audit/service.go:137-328 | If checks are a function of the input, logged commands, rows and evidence always agree on the checks and on how far the task has come. |
| `AuditRecovery.CrashLeavesStoresInStep` | internal/audit/service.go:137-243 | Under the same assumption a crash never leaves a row ahead of the task, or evidence that the row's phase contradicts. |
| `AuditRerun.CommandIsNew` | internal/audit/service.go:309-328 | A command that would take a submission past its present stage is not in the log yet, so a commit of it takes effect. |
| `AuditRerun.RerunConcludes` | internal/audit/service.go:245-299 | On healthy stores with the evidence stored and the row the run's own, the undisturbed rerun succeeds if and only if the task is neither blocked by a dependency nor superseded, whatever answers to commits are lost. The task then has passed, or its rework is ready or executing below attempt 3, or it waits for the user at attempt 3; it is never left in REWORK_REQUIRED. |
| `AuditRerun.EveryRerunConcludes` | internal/audit/service.go:137-299 | The same from every reachable state, however many runs crashed or are still alive. |
| `AuditConclusion.RunConcludesIff` | internal/audit/service.go:105-299 | A submission that waits for its audit or is under it is concluded by an undisturbed run if and only if the row is its own or free to claim, with the evidence stored before or with what the checks and the auditor say now; any other run changes nothing. |
| `AuditConclusion.RunSucceedsIff` | internal/audit/service.go:105-299 | Over all healthy stores and task states, an undisturbed run with an answering auditor succeeds if and only if it owns the stored evidence of a task neither blocked by a dependency nor superseded, or can have the row of a submission to audit. |
| `AuditConclusion.EveryRunSucceedsIff` | internal/audit/service.go:105-299 | The same from every reachable state. |
| `AuditAnswers.VerdictsAreAnswers` | internal/audit/pipeline.go:76-192 | Over all runs and crashes, every stored verdict is what the auditor answered to a run that had that submission, those facts and those checks before it. |
| `AuditAnswers.PassedOnTheAuditorsWord` | internal/audit/pipeline.go:76-192 | A task that passed has a step in its history at which the auditor said PASS, with nothing blocking and all criteria met, to a run auditing its present submission after all its checks had passed. |
| `AuditConclusion.RerunMayFail` | internal/audit/service.go:276-283 | A run that reaches a stored evidence with a blocked or superseded task, where the rerun fails. |
| `Slots.AlwaysConserved` | internal/agentruntime/slots.go:113-182 | Over every history: active equals the number of granted, unreleased requests, each group count the number of its own, active <= limit, and every waiting request is queued once. |
| `Slots.ActiveIsSumOfGroups` | internal/agentruntime/slots.go:113-173 | The active count is the sum of the group counts. |
| `Slots.HandicapIsExact` | internal/agentruntime/slots.go:139-150 | At every later moment the earlier request is ahead, if and only if the later one came at least max(0, priority difference) aging intervals after it. |
| `Slots.NoOvertaking` | internal/agentruntime/slots.go:125-157 | Bounded overtaking over every history with a clock that does not run back, for two requests of one group. |
| `Slots.SoftLimitsComeFirst` | internal/agentruntime/slots.go:125-157 | A group at or over its soft limit is granted a slot only when no waiter's group is under its own. |
| `Slots.GrantedOnce` | internal/agentruntime/slots.go:113-123 | No request is granted twice, nor after it withdrew. |
| `SlotScheduling.DefaultsServedInOrder` | internal/agentruntime/slots.go:96-157 | Requests of one group that ask for no priority of their own are granted in the order in which they came, whatever their roles. |
| `SlotScheduling.GroupsRank` | internal/agentruntime/slots.go:96-111 | Roles share a group exactly when they share a default priority; the groups rank goal, audit, execution, plan, knowledge. |
| `SlotScheduling.SoftLimitsLeaveRoom` | internal/agentruntime/slots.go:38-49 | No group is shut out of an idle pool, and none fills the largest pool while under its soft limit. |
| `SlotScheduling.NewSlotPool` | internal/agentruntime/slots.go:38-49 | A pool is made exactly for limits from 1 to 8. |
| `SlotScheduling.NewRequest` | internal/agentruntime/slots.go:51-60 | Exactly known roles with non-negative priority are admitted, with the role's group and default priority. |
| `SlotScheduling.SlotPool.Enter` | internal/agentruntime/slots.go:60-63 | The first lock section: the request is queued, and what follows in the history are grants only; the pool ends settled. |
| `SlotScheduling.SlotPool.Dispatch` | internal/agentruntime/slots.go:113-123 | Grants until the queue is empty or the limit reached; no signal is ever sent to a full channel. |
| `SlotScheduling.SlotPool.NextWaiter` | internal/agentruntime/slots.go:125-157 | The index found is the first among the best eligible waiters. |
| `SlotScheduling.SlotPool.ReleaseSlot` | internal/agentruntime/slots.go:159-173 | Gives the slot back and hands it on; a second release changes nothing. |
| `SlotScheduling.SlotPool.Cancel` | internal/agentruntime/slots.go:72-83 | After a cancellation the request is neither queued nor active, whether or not a grant came first. |
| `SlotScheduling.SlotPool.RemoveWaiter` | internal/agentruntime/slots.go:175-182 | Takes out exactly the given waiter, if it is queued. |
| `SlotScheduling.SlotPool.Snapshot` | internal/agentruntime/slots.go:86-94 | Active is the number of held slots, the sum of the groups, at most the limit, and equal to it while anyone waits. |
| `AgentRuns.TransitionsInto` | internal/agentruntime/lifecycle.go:8-29 | The transition table, told by where a transition leads. |
| `AgentRuns.EndedIffNoWayOut` | internal/agentruntime/lifecycle.go:8-29 | A run has ended exactly in the states that no transition leaves. |
| `AgentRuns.ShapeLaw` | internal/agentruntime/lifecycle.go:31-74 | A lease is in shape exactly when it covers the moment: issued, before its deadline and its third missed heartbeat, with the regular interval, a token, and distinct capabilities. |
| `AgentRuns.RefreshedLaw` | internal/agentruntime/lifecycle.go:81-128 | What a heartbeat may install is exactly the lease read with a later heartbeat and no less time, in shape, everything else equal. |
| `AgentRuns.ExtendedLaw` | internal/agentruntime/runtime.go:244-254 | What a renewal may install is exactly the lease read with a later deadline, in shape, with the token its kind of lease takes. |
| `AgentRuns.HeartbeatMeans` | internal/agentruntime/runtime.go:206-230 | A heartbeat keeps the granted lease exactly when the lease read was in shape and the grant is acceptable; a run survives without a new lease only a refusal that does not say the lease expired. |
| `AgentRuns.RenewalMeans` | internal/agentruntime/runtime.go:232-263 | The same of a renewal and its confirmation. |
| `AgentRuns.FinishUndoesBegin` | internal/agentruntime/runtime.go:568-619 | Finishing an operation undoes its beginning. |
| `AgentRunProtocol.ReachableInv` | internal/agentruntime/runtime.go:64-798 | The run invariant holds in every interleaving of the lock sections of one run id. |
| `AgentRunProtocol.CompletedIsFrozen` | internal/agentruntime/runtime.go:462-520 | A completed run has its result, and nothing later, no declaration included, changes or replaces its record. |
| `AgentRunProtocol.StatesFollowEdges` | internal/agentruntime/lifecycle.go:8-29 | Every state change is an edge of the transition table except the rollback of a start; a record is replaced only when FAILED or EXPIRED, idle, without result, by the same declaration. |
| `AgentRunProtocol.BusyIffOneOperation` | internal/agentruntime/runtime.go:568-619 | Busy holds exactly while one operation is between begin and finish, on the record it began on, and the run is where the operation put it, CANCELED, EXPIRED or TERMINATED. |
| `AgentRunProtocol.LeaseOverRun` | internal/agentruntime/runtime.go:206-263 | Across any heartbeats and renewals a held lease stays bound to the declaration, its deadline and token never fall, and the token rises by at most one for each replacement. |
| `AgentRunProtocol.ReplacedForGood` | internal/agentruntime/runtime.go:720-733 | No update is lost: a replaced lease is never held again by that record, and no heartbeat or renewal that began from it can succeed. |
| `AgentRunProtocol.HeartbeatIsSection` | internal/agentruntime/runtime.go:206-230 | What the runtime does with the answer to a heartbeat is a legal section of the protocol on whatever record it finds, with the same effect. |
| `AgentRunProtocol.RenewalIsSection` | internal/agentruntime/runtime.go:232-263 | The same for a renewal. |
| `AgentRunProtocol.HeartbeatOverRun` | internal/agentruntime/runtime.go:206-230 | From the lease a heartbeat read, through whatever ran meanwhile on the record, to the lease it leaves, deadline and token never fall and the scope stays. |
| `AgentRunProtocol.RenewalOverRun` | internal/agentruntime/runtime.go:232-263 | The same of a renewal. |
| `AgentRunProtocol.ResultIsCovered` | internal/agentruntime/runtime.go:496-519 | A result is accepted only in RUNNING, idle, with the given payload under the id and token of the lease the record holds, which covers that moment and the declaration. |
| `AgentRunProtocol.SameRecordIff` | internal/agentruntime/runtime.go:64-80 | Over every run of steps the record is the same if and only if no declaration took effect. |
| `AgentRunProtocol.StartKeepsItsRecordIff` | internal/agentruntime/runtime.go:139-171 | However long a start takes, its last section moves the record it finds exactly when that one is STARTING, and that is the record it began on if and only if no declaration took effect in between. |
| `AgentRunProtocol.StartMayOutliveItsRecord` | internal/agentruntime/runtime.go:139-171 | A run in which a declaration does take effect in between, and the old start makes the new record RUNNING. |
| `AgentRunProtocol.SameHoldIff` | internal/agentruntime/runtime.go:720-733 | Over every run of steps a record keeps its lease if and only if no replacement, assignment or declaration takes effect. |
| `AgentRunProtocol.RefusalEndsItsLeaseIff` | internal/agentruntime/runtime.go:748-754 | A refused heartbeat, renewal or check ends whatever run it finds that can end; that run holds the lease it was refused for if and only if no replacement, assignment or declaration took effect in between. |
| `AgentRunProtocol.RefusalMayEndNewerLease` | internal/agentruntime/runtime.go:787-798 | A run in which a refusal ends a record that holds a newer, valid lease. |
| `AgentRuntime.Runtime.Declare` | internal/agentruntime/runtime.go:64-80 | Succeeds exactly for a new id or a retryable record, and leaves every other run alone. |
| `AgentRuntime.Runtime.Transition` | internal/agentruntime/runtime.go:756-768 | Changes the state exactly along an edge of an idle run. |
| `AgentRuntime.Runtime.Wait` | internal/agentruntime/runtime.go:173-188 | The same, for the three waiting states only. |
| `AgentRuntime.Runtime.Stop` | internal/agentruntime/runtime.go:770-785 | Changes the state along an edge even of a busy run. |
| `AgentRuntime.Runtime.Expire` | internal/agentruntime/runtime.go:787-798 | Expires the run if the table has that edge. |
| `AgentRuntime.Runtime.ExpireStale` | internal/agentruntime/runtime.go:547-566 | Expires and reports exactly the runs that can end and whose lease is past its deadline or its third missed heartbeat. |
| `AgentRuntime.Runtime.ReadLease` | internal/agentruntime/runtime.go:704-718 | Gives the lease of a run that has not ended. |
| `AgentRuntime.Runtime.CommitLease` | internal/agentruntime/runtime.go:125-137 | Assigns to a queued idle run only. |
| `AgentRuntime.Runtime.AssignLease` | internal/agentruntime/runtime.go:100-137 | Leases the record found at the end exactly when the run was queued, the lease is in shape and bound to the declaration read, the authority accepts it, and the record found is queued and idle; otherwise changes nothing. |
| `AgentRuntime.Runtime.BeginStart` | internal/agentruntime/runtime.go:139-155 | From LEASED and idle to STARTING. |
| `AgentRuntime.Runtime.EndStart` | internal/agentruntime/runtime.go:156-171 | From STARTING to RUNNING, or back to LEASED; any other state is left alone. |
| `AgentRuntime.Runtime.ReplaceLease` | internal/agentruntime/runtime.go:720-733 | Replaces the lease exactly when it is the revision the update was made from. |
| `AgentRuntime.Runtime.BeginOperation` | internal/agentruntime/runtime.go:568-588 | Makes an idle RUNNING run busy, waiting when the operation is a tool call. |
| `AgentRuntime.Runtime.FinishOperation` | internal/agentruntime/runtime.go:604-619 | Makes the run idle, back to RUNNING only from the wait its tool call put it in. |
| `AgentRuntime.Runtime.CommitResult` | internal/agentruntime/runtime.go:501-519 | Completes with the payload under the lease's id and token, or expires when the lease has run out, or changes nothing. |
| `AgentRuntime.Runtime.Heartbeat` | internal/agentruntime/runtime.go:206-230 | With anything in between: a success installs the granted lease, which has the id, scope, issue time, budget, capabilities, nonce and token of the one read, no earlier deadline, a later heartbeat, and shape; a grant without these, a lease read out of shape or an expired refusal ends the run found; anything else leaves it. |
| `AgentRuntime.Runtime.RenewLease` | internal/agentruntime/runtime.go:232-263 | The same for a renewal, which the authority must confirm: a strictly later deadline, and the same token for an execution, else the next. |
| `AgentRuns.CheckMeans` | internal/agentruntime/runtime.go:621-640 | A check passes exactly on the held lease, in shape, with the capability and confirmed; it is to end the run exactly when the held lease is out of shape or is said to have expired, and then ends every run it finds that can end. |
| `AgentRuntime.Runtime.ValidateLease` | internal/agentruntime/runtime.go:621-640 | With anything in between, what was read decides, exactly as CheckMeans says, and what is found then is ended or left. |
| `AgentRuntime.Runtime.Start` | internal/agentruntime/runtime.go:139-171 | Succeeds exactly when the run was LEASED and idle, its lease passed the check, and the run found at the end is STARTING; a run found STARTING otherwise goes back to LEASED, and any other is left as found. |
| `AgentRuntime.Runtime.Complete` | internal/agentruntime/runtime.go:462-520 | A result is accepted exactly for an accepted output of a RUNNING idle run whose lease passed the check and is still the one held, in shape; a failing call leaves what its check leaves, or the run as found. |
| `AgentRuntime.Runtime.Operate` | internal/agentruntime/runtime.go:568-619 | Once begun, an operation goes ahead exactly when its check passes, and always finishes, on whatever the run has become; if nothing touched the run meanwhile, it is as it was. |
| `TokenBudget.EstimateTextTokens` | internal/agentruntime/compaction.go:300-316 | Computes the estimate by counting. |
| `TokenBudget.TruncateUtf8` | internal/agentruntime/compaction.go:318-327 | Backing up from the byte limit gives the longest prefix of whole code points within it. |
| `TokenBudget.RetainRecentUserInput` | internal/agentruntime/compaction.go:281-298 | The loop and its reversal give the specified recent inputs. |
| `TokenBudget.CutTokens` | internal/agentruntime/compaction.go:288-291 | A cut input uses up the whole remaining budget and at most doubles it; exactly the budget for ASCII. |
| `TokenBudget.RecentIsRecentPart` | internal/agentruntime/compaction.go:281-298 | What is kept is a suffix, in order, with at most its oldest element cut to a prefix. |
| `TokenBudget.RecentBudget` | internal/agentruntime/compaction.go:281-298 | The kept inputs cost at most twice the budget. |
| `TokenBudget.RecentAsciiBudget` | internal/agentruntime/compaction.go:281-298 | ASCII inputs cost at most the budget. |
| `TokenBudget.BudgetDoubles` | internal/agentruntime/compaction.go:281-327 | An input that reaches twice the budget. |
| `TokenBudget.KeepsAllIff` | internal/agentruntime/compaction.go:281-298 | Everything is kept verbatim if and only if all but the oldest input leave some budget, and the oldest fits it by tokens or by bytes. |
| `TokenBudget.EmptyInputLost` | internal/agentruntime/compaction.go:281-298 | Inputs that fit the budget and are not all kept. |
| `TokenBudget.WithinBudget` | internal/agentruntime/compaction.go:281-298 | When the total fits the budget, only empty inputs, the oldest, can be missing. |
| `Compaction.EstimateMessagesTokens` | internal/agentruntime/compaction.go:67-77 | Computes the estimate of a conversation by adding up. |
| `Compaction.EstimateCountsAll` | internal/agentruntime/compaction.go:67-77 | Each token stands for at most four characters of the roles, contents, calls and identifiers, and every message costs four more: no text is left uncounted. |
| `Compaction.ManifestBindings` | internal/agentruntime/compaction.go:94-103 | The bindings are those of the last manifest item of each bindable kind and reference. |
| `Compaction.LastItemIsBound` | internal/agentruntime/compaction.go:94-103 | What is bound to a kind and reference is the last item with them, if its kind is bindable, and nothing if there is none. |
| `Compaction.CanonicalIffBound` | internal/agentruntime/compaction.go:237-262 | A message is kept if and only if it is a context envelope without authority whose last manifest item has the same digests and whose text has that digest. |
| `Compaction.CanonicalIffDeclared` | internal/agentruntime/compaction.go:237-262 | Without a manifest a message is kept if and only if it is a context envelope of a bindable kind, without authority, with a reference. |
| `Compaction.UniqueItemIsBound` | internal/agentruntime/compaction.go:94-103 | An item whose kind and reference are unique in the manifest is bound as it stands. |
| `Compaction.CanonicalPrefix` | internal/agentruntime/compaction.go:273-279 | Splits off the leading system messages. |
| `Gathering.KeptReferenceSet` | internal/agentruntime/compaction.go:114-122 | The references of exactly the kept envelopes. |
| `Gathering.Gather` | internal/agentruntime/compaction.go:123-166 | One pass gives the kept envelopes, the references whose set is theirs, and texts that are exactly what the messages must leave, each at its place and in order: for the summary, and for the inputs. |
| `Gathering.TakeOver` | internal/agentruntime/compaction.go:131-138 | An earlier checkpoint adds no reference whose envelope is not kept. |
| `Gathering.UniqueSorted` | internal/agentruntime/compaction.go:329-344 | The distinct non-empty values in increasing order. |
| `Summaries.AllListed` | internal/agentruntime/compaction.go:123-166 | Exactly these texts, in the order of the messages: for the summary every non-blank assistant text, every call with its name, id and arguments, every non-blank tool result with its call id, every non-empty summary of an earlier checkpoint of the same context; among the inputs the user's own words and those of such checkpoints. |
| `Summaries.SummarySaysAll` | internal/agentruntime/compaction.go:167-171 | In the summary before it is cut each of those texts stands on its own line, in order, with nothing before, between or after them; without any the stand-in sentence stands there. |
| `CompactionRuns.CutSummary` | internal/agentruntime/compaction.go:188-203 | Terminates; the summary is cut only while the list does not fit, until it fits or is empty, each time by four bytes for each token over, or by all of it, and no character more than that takes. |
| `CompactionRuns.DropOldest` | internal/agentruntime/compaction.go:204-209 | Drops an oldest input only when the list with it did not fit. |
| `CompactionRuns.CutLast` | internal/agentruntime/compaction.go:210-223 | The same for the one remaining input. |
| `CompactionRuns.Shrink` | internal/agentruntime/compaction.go:188-226 | Inputs are dropped or cut only once the summary is empty, the oldest first; if it still does not fit, nothing generated is left. |
| `CompactionRuns.CompactMessages` | internal/agentruntime/compaction.go:106-227 | Success: unchanged when it fits, else prefix, kept envelopes and a checkpoint within the target. Context-window-exceeded only if the list with an empty summary and at most one, empty, input does not fit; for an encoding that does not grow when text is taken out, exactly then. The summary is the beginning of one that says all that the messages must leave and nothing else, and the inputs are the latest ones. |
| `CompactionRuns.CompactWithManifest` | internal/agentruntime/compaction.go:94-104 | The same under the bindings of a manifest. |
| `CompactionRuns.CompactedReadsBack` | internal/agentruntime/compaction.go:123-155 | A compacted conversation reads back as its kept messages, its summary and its retained inputs, so compactions compose. |
| `CompactionRuns.ContextSurvives` | internal/agentruntime/compaction.go:106-227 | Over any number of compactions and appended turns the leading system messages and every kept envelope stay verbatim and in order. |
| `CompactionRuns.DeclaredContextSurvives` | internal/agentruntime/compaction.go:94-176 | Over any number of compactions and appended turns, the envelope of an item whose kind and reference are unique in the manifest is still there word for word, in its order among the kept messages. |
| `CompactionRuns.CheckpointNamesKept` | internal/agentruntime/compaction.go:168-172 | A new checkpoint names exactly the references of the kept envelopes, sorted; no earlier or forged checkpoint adds one. |
| `CompactionRuns.InputsAreRecent` | internal/agentruntime/compaction.go:281-298 | Over any number of compactions the inputs still held are the latest ones in order, with at most the oldest cut. |
| `Transcripts.CompactionStaysPaired` | internal/agentruntime/compaction.go:106-227 | Compaction never leaves a tool result without its call. |
| `Transcripts.OwnIdsDistinct` | internal/agentruntime/tool_loop.go:136-150 | The request ids of the rounds and of the final call are distinct. |
| `Transcripts.ThresholdLaw` | internal/agentruntime/compaction.go:45-65 | The compaction threshold is what was configured, if that is within nine tenths of the window, and otherwise the most that is. |
| `Transcripts.SpokenLaw` | internal/agentruntime/runtime.go:283-287 | Every intervention that is not empty becomes a user message, in order, and nothing else does. |
| `Transcripts.PromptStays` | internal/agentruntime/tool_loop.go:29-88 | While nothing is compacted, the prompt stands at the beginning of every request. |
| `Transcripts.ContextInEveryRequest` | internal/agentruntime/tool_loop.go:29-88 | However often it was compacted, every request begins with the prompt's system messages and holds its declared context word for word, in order. |
| `ToolLoop.Conversation.Generate` | internal/agentruntime/runtime.go:302-385 | Sends the conversation, or from the threshold on its compaction to what the window leaves; every request is well paired and, unless the window leaves no room for compaction to start, takes at most 95 hundredths of the window with its overhead and answer. |
| `ToolLoop.Conversation.GenerateWithInterventions` | internal/agentruntime/runtime.go:274-293 | Its first request is made for the given conversation; each repetition for what was sent before it, the interventions, and the answer intervened in, under the intervention's id. It returns what was sent last and the interventions in its answer, which is the last provider answer. |
| `ToolLoop.Conversation.ValidateNativeToolCalls` | internal/agentruntime/tool_loop.go:152-169 | Accepts exactly valid calls of known tools whose ids are new and distinct. |
| `ToolLoop.Conversation.RunCalls` | internal/agentruntime/tool_loop.go:62-87 | Calls are invoked in order, each id once; each answer pairs with its call and carries what that tool returned; the first submission ends them with the manifest in its result. |
| `ToolLoop.Conversation.Finalize` | internal/agentruntime/tool_loop.go:91-104 | One last call without tools; only an accepted output is returned. |
| `ToolLoop.Conversation.Settle` | internal/agentruntime/tool_loop.go:41-50 | An answer without calls is returned when it is accepted, and else asked for once more. |
| `ToolLoop.Conversation.AnswerCalls` | internal/agentruntime/tool_loop.go:60-87 | The conversation goes on with the assistant message of the calls and, for each call in order, the result of that very call. |
| `ToolLoop.Conversation.RunToolLoop` | internal/agentruntime/tool_loop.go:22-89 | The requests are a transcript: the first is made for the prompt, and each later one for what was sent before it, the interventions in its answer, the assistant message with its calls and their results; the last, without tools, only after an answer that cannot be accepted or for what a round with a broken answer began with. Every request is well paired, no call id is invoked twice, rounds stay within the maximum, own ids are the round ids in order and perhaps the final one, and the output is the last answer or the manifest of the last call, accepted. |
| `JsonPatch.EscapeInverts` | internal/cli/diff.go:135-137 | Escaping as in section 3 of RFC 6901 is invertible and leaves no slash. |
| `JsonPatch.PointerInverts` | internal/cli/diff.go:77-137 | A printed path reads back as the same reference tokens. |
| `Texts.ParseDecimal` | internal/cli/diff.go:100-115 | A printed index reads back as that index. |
| `JsonPatch.InvertedUndoes` | internal/cli/diff.go:17-22 | Changes that fit a document are undone by their inverses in reverse order. |
| `JsonDiff.DiffReplays` | internal/cli/diff.go:54-125 | Replaying the changes on the old value gives the new one, and each change tells the truth about its place before and after. |
| `JsonDiff.DiffIsPatch` | internal/cli/diff.go:54-125 | As a patch of section 4 of RFC 6902 the diff turns the old value into the new one, and inverted in reverse order the new into the old. |
| `JsonDiff.EmptyIffEqual` | internal/cli/diff.go:118-120 | The diff is empty if and only if the values are equal. |
| `JsonDiff.PlacesIndependent` | internal/cli/diff.go:54-125 | No change's path is a prefix of another's, and only a replaced root has the empty path. |
| `JsonCompare.ChangeList.Append` | internal/cli/diff.go:127-133 | Appends below 10000 changes, else refuses. |
| `JsonCompare.AppendChanges` | internal/cli/diff.go:54-125 | Succeeds if and only if the shared nesting stays within 128 and the list within 10000, and then has appended the specified changes with printed paths. |
| `JsonCompare.CollectKeys` | internal/cli/diff.go:61-72 | The keys of both objects, each once, sorted. |
| `JsonCompare.Compare` | internal/cli/diff.go:25-39 | The diff of two values, with the exact success condition. |
| `JsonDepth.SharedPlacesWithin` | internal/cli/diff.go:54-60 | No place that both values share lies deeper than the levels that the limit counts. |
| `JsonDepth.DeepestPlace` | internal/cli/diff.go:54-60 | And one lies exactly that deep. |
| `JsonDepth.TooDeepIff` | internal/cli/diff.go:54-60 | The walk is too deep exactly when the values share a place more than 128 levels down. |
| `JsonDepth.ReplacesLeavesOnly` | internal/cli/diff.go:54-125 | Only values that differ and are not both objects or both arrays are replaced, at any depth. |
| `JsonPrinted.MentionsIffDiffers` | internal/cli/diff.go:18-23 | A change has null as its old or new value exactly where the two values differ at a null. |
| `JsonPrinted.PrintedIsPatchIff` | internal/cli/diff.go:18-23 | Read as an RFC 6902 document, the printed diff is a patch from old to new if and only if the root is not replaced, whose path prints as that of the empty key, and no added or replaced place is null in the new value, which is not printed. |
| `JsonPrinted.PrintedRevertsIff` | internal/cli/diff.go:18-23 | Inverted in reverse order it is a patch from new to old if and only if the root is not replaced and no removed or replaced place was null. |
| `JsonPrinted.NullIsNotPrinted` | internal/cli/diff.go:18-23 | Two objects whose printed diff is no patch: a member that comes with a null. |
| `Scanner.ExactIffCoherent` | internal/artifact/content_policy.go:31-57 | For any detector, every chunking is accepted exactly when the whole stream is clean if and only if the detector finds nothing in nothing, still finds what it found when more follows, and after a clean part depends on no more than the last 256 bytes. |
| `Scanner.CoherentScan` | internal/artifact/content_policy.go:31-57 | For such a detector the tail carried on is the end of the stream. |
| `Scanner.LiteralsCoherent` | internal/artifact/content_policy.go:12-57 | Looking for texts of at most 257 bytes is such a detector. |
| `Scanner.CaughtIffBounded` | internal/artifact/content_policy.go:12 | A text is caught under every chunking if and only if it has at most 257 bytes. |
| `Scanner.SinglesPass` | internal/artifact/content_policy.go:31-57 | A stream none of whose windows of 257 bytes looks suspicious passes byte by byte. |
| `Scanner.ScanningWriter.Write` | internal/artifact/content_policy.go:31-57 | Detection exactly when the scan of the chunks so far detects, so for a coherent detector exactly when the stream so far is dirty; what went on is a prefix of what was offered, clean for a coherent detector, with a failing or short destination too; the first error stays. |
| `Credentials.FalseAlarm` | internal/credentials/credentials.go:25 | With the shipped patterns a clean stream is rejected in two chunks: the tail cuts off the letter that kept a word boundary away. |
| `Credentials.Miss` | internal/credentials/credentials.go:36 | With the shipped patterns a credential with 256 or more blanks in it passes byte by byte. |
| `Credentials.ShippedIsNotCoherent` | internal/credentials/credentials.go:24-38 | The shipped detector does not meet the condition of an exact scan. |
| `KeyOrder.CompareStrings` | internal/backup/verify.go:253-264 | The first pair that differs decides. |
| `KeyOrder.KeyTrichotomy` | internal/backup/verify.go:253-264 | On keys of one length the comparison is total and asymmetric. |
| `KeyOrder.KeyTransitive` | internal/backup/verify.go:253-264 | And transitive. |
| `KeyOrder.SortedUnique` | internal/backup/verify.go:216-251 | Rows with unique keys have one sorted order, however permuted. |
| `Snapshots.CheckTable` | internal/backup/verify.go:134-159 | Accepts exactly tables whose rows are good and whose keys are unique. |
| `Snapshots.CheckAudit` | internal/backup/verify.go:176-189 | Accepts exactly distinct, resolved artifact ids and well-formed, resolved evidence references. |
| `Snapshots.WellFormedIffClosed` | internal/backup/verify.go:130-192 | What the validation asks of keys is that every row is there once, is complete, and names only rows that are there, in its own tenant and project. |
| `Snapshots.ValidateSnapshot` | internal/backup/verify.go:130-192 | Accepts exactly such closed graphs; the error is that of an invalid snapshot exactly for a bad header or project, or when the first fault of the audits of otherwise good tables is a malformed reference. |
| `CanonicalSnapshots.CanonicalSnapshot` | internal/backup/verify.go:216-251 | The same graph, with every table and list sorted. |
| `CanonicalSnapshots.CanonicalIffSameGraph` | internal/backup/verify.go:216-251 | For validated snapshots, canonical forms are equal if and only if the snapshots are the same graph up to the order of rows and of each audit's lists. |
| `CanonicalSnapshots.DigestIffSameGraph` | internal/backup/verify.go:97-103 | Hence so are digests. |
| `CanonicalSnapshots.UniquenessNeeded` | internal/backup/verify.go:213-231 | Without unique keys one graph has two canonical forms. |

## Left out

- SQL, transactions and row-level security: each coordination operation is one atomic step with its guards.
- Cryptography: digests are what they digest, lease signatures in the store are dropped, and authentic runtime leases are told apart by their signatures.
- JSON text and URL parsing: inverses or predicates given as parameters. The credential patterns are modelled as they read ASCII text, without the folding of other letters.
- Field-shape checks, role tables and policy decisions: one boolean or predicate for each operation.
- Clocks are integers; durations do not overflow, and times in the agent runtime and the lease manager are arguments.
- Contexts, retries of failed calls and telemetry; a cancelled slot request is its own lock section.
- The provider, the tools and the auditor: arbitrary answers, in the tool loop a script that ends when the outside stops answering.
- Invalid UTF-8 in messages, for which the estimate counts bytes.
- Agent registration (`Register`) and the signing of evidence.
- One task at a time in the audit model: dependents, invalidation and replanning of other tasks are not followed.
- Runs of different ids share no state, so the run protocol follows one id; `AgentRuntime` shows that a section leaves the others alone.
- AppendChanges: the two limits share one error, as they share one error code.
- Operation leases acquired for a single call, output validation against schemas, and prompt assembly.
