# Verified model of the interview platform

This project models the stateful core of the interview platform and proves what
holds over all of its runs. Each component is a module (or a few), with the
operations as functions on values where the proofs need them, and as methods
that rewrite fields in place where the program does; every such method is
proved equal to its function.

| component | modules |
|---|---|
| call lifecycle store of the gateway | `CallDomain`, `CallPaths`, `CallStore`, `CallSteps`, `CallRuns`, `CallLateLink`, `CallBacklog`, `CallKeys`, `CallAnswers`, `CallService`, `CallOverrun` |
| workflow promotion of the AI service | `WorkflowShelf`, `WorkflowSafety`, `WorkflowRuns`, `WorkflowProvenance`, `WorkflowAudit`, `WorkflowReplay`, `WorkflowAnswers`, `WorkflowWorld`, `WorkflowWorldAnswers`, `WorkflowService` |
| browser interview: turn detection and socket loop | `Vad`, `VadDetector`, `SessionMachine`, `InterviewSocket` |
| voice runtime under concurrency | `VoiceRuntime` |
| WAV codec, resampler, chunks | `Wav`, `Studio` |
| rate limiter | `RateLimit` |
| deduplication and managed-call queues | `Dedup`, `ManagedCalls` |
| shared helpers | `Prelude`, `Text`, `Bytes`, `Collections` |

`dafny verify dfyconfig.toml` checks everything.

## How to read it

**Calls.** `CallStore.Database` holds the tables; every transaction of
`CallWorkflow` is a function on it and `CallStore.Step` is one operation of any
kind. `CallRuns.Run` folds operations from the empty database. The buffer of
reports that arrive before their call is linked is replayed in order of arrival
time, ties in row order. The service stamps arrival from the wall clock; the
late-link theorem asks for reports in arrival order (`CallLateLink.Setting`)
and for no earlier buffered row to carry a later stamp.

**The saturation branch.** Step numbers count up from the report's sequence
with a saturating add. A fresh report whose plan runs past `u64::MAX` is refused
in the middle, and the program then commits the log rows of the steps already
taken without the call row (gateway/src/calls.rs:486-512). `CallSteps.Overrun` is
the guard of that branch. "The row agrees with its log" and "late linking is
invisible" are therefore proved to hold if and only if no overrun happens; for a
link in the middle of the reports only those before the link matter.
`CallOverrun` gives a run of two operations into that branch, and the same report
showing a difference between early and late linking. Sequence numbers at least six
below the maximum never overrun (`CallLateLink.SmallSequencesNeverOverrun`).
The outcome label of an event differs between direct delivery and replay
(gateway/src/calls.rs:986-1006), so `CallSteps.Alike` compares recorded event ids
and not their labels. The row shown to the caller differs, too: an overrun answers with
the row its steps would have made, which is not the row on file
(`CallAnswers.DeliveryIsTold`).

**Answers.** `CallAnswers`, `WorkflowAnswers` and `WorkflowWorldAnswers` say of every
transaction when it succeeds, with which error it fails, and how its answer relates
to the tables before and after. An idempotency key of a call is the first 200
characters of the trimmed text; it holds the call it created until that is purged
(`CallKeys.KeyNamesItsCall`, `CallKeys.RepeatedRequest`).

**Stranded reports.** Only `link_provider_call` replays the buffer. A call that is
linked by `register_inbound`, or by a report that names it, leaves what was
buffered for its provider call where it is (gateway/src/calls.rs:334-389, 459-466);
`CallBacklog.BacklogAfterLinkExactly` says when a newly linked call has no backlog.
Links store provider call ids trimmed and the buffer keeps them as they came
(gateway/src/calls.rs:417-471, 949-957), so a report buffered under an id with blanks
at an end is replayed by no operation (`CallBacklog.UntrimmedReportsStay`).

**Workflows.** A `Shelf` is everything the tables hold about one workflow;
queries never cross workflows except by approval id. The content hash is an
arbitrary function of the artifact with its hash field blanked. Safety by hash
needs no assumption; where artifacts instead of hashes are equated
(`WorkflowRuns.ServedArtifactIsTheTestedOne`) the hash is assumed not to collide
on the versions that workflow published. Resolving a route reads the tables three
times outside any transaction; the theorems allow any transactions in between.
`WorkflowWorld` puts all workflows and the sessions started from them together.

**Interview socket.** The neural detector is an arbitrary function of the frames
heard so far. The network, the speech synthesis and the AI service answer through
a `schedule` with one entry per suspension point, so a theorem about `Handle` is a
theorem about every order of messages, barge-ins, failures and closes. `Spoken` and
`Listened` say that an outcome is what the first deciding moment decides, so a
schedule determines it (`SpokenIsDetermined`, `ListenedIsDetermined`). The comment
above `speak_recovery` says the caller keeps going after a recovery
(gateway/src/ws_handler.rs:415-418); after a transcription or agent failure the
`continue` finds no next text, so the interview ends. `InterviewSocket.Interview.Handle`
states this: at most three further events follow such a fault.

**Voice runtime.** Each atomic access to a shared counter or map is one step;
runs interleave the steps of any number of callers.
A reservation counts the bytes of doomed calls too, so a call whose bytes would fit
beside the accepted ones can be refused (`ADoomedCallCanCrowdOut`); it is admitted
if and only if they fit beside everything held at that moment
(`AdmittedExactlyIfItFits`). Taking a number and sending the event are two steps, so
events can be sent out of order (`EventsCanOvertake`); they are in order if and only
if no call announces its event past a smaller number (`SentInOrderExactly`), as when
publishers take turns (`PublishersInTurnPublishInOrder`).

**Rate limiter.** A new key at a full table clears it and forgets all accepted calls
(`ClearingForgets`). That happens in a run if and only if more than `max_keys`
different keys call (`ClearsExactly`); with fewer the window bound holds over the
whole run (`FewKeysNoWindowHoldsMore`). The limiter takes any times. If none comes more
than `delta` before an earlier one, the bound holds for windows `delta` shorter than
the limiter's, and for no longer ones (`BoundIsTight`); the service's only caller
(ai-service/src/pyinterviewbot_ai/main.py:122-126) reads a monotonic clock on one
event loop, which is the case `delta` = 0.

**Managed calls.** A webhook is accepted under the deduplication lock and queued
under the session lock (voice-runtime/src/managed_call.rs:662-683), and the gateway
runs its handlers concurrently (gateway/src/native_voice.rs:491). The two parts are
two steps of a run here, and any steps may come in between. So the events of a call
can be queued in another order than accepted (`WebhooksCanOvertake`), and a webhook
accepted before its call is started can still reach the session
(`AcceptedBeforeTheStart`). What is conserved is therefore stated in the order of
queueing (`NothingLostNothingTwice`); that is the order of acceptance if and only if
no webhook is queued past an earlier accepted one of its call that waits
(`QueuedInOrderExactly`).

**Arithmetic.** The crates set no overflow checks, so release builds wrap: the
detector's millisecond counters and the WAV length fields wrap at 32 bits here too
(a debug build panics instead). The resampler is computed in exact fractions.

## Model

| member | source | states |
|---|---|---|
| CallDomain.Transition | interview-domain/src/call.rs:365-425 | a legal transition leaves a non-terminal state and climbs the lifecycle, so the graph has no cycles |
| CallDomain.TransitionByEvent | interview-domain/src/call.rs:365-425 | the table read by columns: every event has one goal and is legal exactly in its stretch of the lifecycle |
| CallDomain.CallSession.Apply | interview-domain/src/call.rs:504-530 | the session's fields after an event are the advanced row, and unchanged on every error |
| CallDomain.CallSession.LinkProviderCall | interview-domain/src/call.rs:486-502 | linking sets the trimmed id once, and leaves the session unchanged on a conflict or an empty id |
| CallPaths.SearchCorrect | gateway/src/calls.rs:1179-1208 | from any state of the search that satisfies its invariant the breadth-first loop ends with a right answer |
| CallPaths.PlanIsShortest | gateway/src/calls.rs:1179-1208 | the planner's word is legal and no longer than any event word of any length joining the two states; it answers None only if no word does |
| CallPaths.NoTerminalOnTheWay | gateway/src/calls.rs:1179-1208 | a legal word passes through no terminal state |
| CallPaths.WordIsBounded | interview-domain/src/call.rs:365-425 | a legal word climbs the lifecycle by its length, so none has more than seven steps |
| CallPaths.PathTo | gateway/src/calls.rs:1179-1208 | the loop over the queue and the seen list terminates and returns the planner's answer |
| CallStore.SortsByTime | gateway/src/calls.rs:948-972 | the buffered rows are replayed in order of arrival time |
| CallStore.SortIsStable | gateway/src/calls.rs:948-972 | rows of one arrival time are replayed in row order |
| CallStore.SortByTime | gateway/src/calls.rs:948-972 | sorting for the replay loses and adds no row |
| CallSteps.WalkCompletes | gateway/src/calls.rs:472-512 | a planned word whose first step is fresh and whose numbers fit u64 is applied to the end and reaches its target |
| CallSteps.WalkSaturates | gateway/src/calls.rs:486-512 | a planned word whose numbers pass the last u64 is always refused part of the way |
| CallSteps.WholeOrNothing | gateway/src/calls.rs:472-517 | outside the saturation branch a report is applied whole or not at all |
| CallSteps.ReportArrives | gateway/src/calls.rs:472-517 | a report brings the call to its target if and only if it is there already, or the event is new, in sequence, not in the saturation branch and some word leads there; it then advances the version by the shortest distance |
| CallSteps.DeliverIsReplay | gateway/src/calls.rs:472-528 | delivering a report and replaying it from the buffer leave the same row, log and recorded ids if and only if it does not hit the saturation branch |
| CallSteps.TerminalIsFrozen | gateway/src/calls.rs:948-1028 | no replay changes the row or the log of an ended call |
| CallRuns.StepValid | gateway/src/calls.rs:719-776 | every transaction keeps the unique indexes, foreign keys and version bound of the schema |
| CallRuns.StepEffect | gateway/src/calls.rs:246-528 | what any transaction does to any given call is nothing, one delivery, or one replay of its buffer |
| CallRuns.RowAgreesWithLog | gateway/src/calls.rs:246-528 | in every reachable database a call's log is an unbroken legal chain from Requested to its state, of length `version`, with strictly increasing sequences up to `last_sequence` and the end fields set exactly in terminal states, if and only if no report to it hit the saturation branch |
| CallRuns.OverrunExample | gateway/src/calls.rs:486-512 | a report at the last sequence number, to any call waiting for its provider at sequence 2, adds log rows without the call row |
| CallOverrun.OverrunIsReached | gateway/src/calls.rs:486-512 | a run of two operations from the empty tables after which a call's row and log no longer agree |
| CallOverrun.LateLinkShowsTheOverrun | gateway/src/calls.rs:391-528 | a reachable database and a report for which linking late and linking early leave different rows |
| CallRuns.PurgeTerminalExactly | gateway/src/calls.rs:642-649 | a call stays if and only if it did not end before the cutoff; those that stay keep their row, log and events, the index entries go exactly with their calls, and the buffer is untouched |
| CallRuns.PurgeUnmatchedExactly | gateway/src/calls.rs:651-658 | a buffered row stays if and only if it was received at the cutoff or later, and the rows that stay keep their order |
| CallRuns.EndIsFinal | gateway/src/calls.rs:417-528 | once a call has ended nothing changes its row but the filling in of a missing provider id, and nothing changes its log |
| CallRuns.NoEventMovesTwice | gateway/src/calls.rs:948-1028 | over any run no event id changes a call twice, whether redelivered, buffered or replayed, and every event that did is on record |
| CallRuns.ProviderCallIdsAreUnique | gateway/src/calls.rs:391-415 | no two calls ever share a provider call id |
| CallRuns.AcceptedReportsAreKept | gateway/src/calls.rs:417-471 | an accepted report stays in the event table of its call, or else in the buffer or on a call linked to its provider call, through any later run without purges |
| CallBacklog.BacklogAfterLinkExactly | gateway/src/calls.rs:317-466 | a call that has just been linked has no backlog in the buffer if and only if it was linked by `link_provider_call` or nothing was buffered for it |
| CallBacklog.BacklogNeverGrows | gateway/src/calls.rs:417-471 | the backlog of a linked call never grows |
| CallBacklog.UntrimmedReportsStay | gateway/src/calls.rs:317-471 | a report buffered under an id with blanks at an end survives every operation but a purge of the buffer |
| CallKeys.CleanKeysAgree | gateway/src/calls.rs:256-264 | two keys are the same if and only if, trimmed, their first 200 characters agree; a blank key is none |
| CallKeys.KeyNamesItsCall | gateway/src/calls.rs:246-315 | in any run a key is on file exactly for the call that a request with it created and that has not been purged since |
| CallKeys.BeginAnswersExactly | gateway/src/calls.rs:246-315 | after any run a request is answered by the call its key holds, by a conflict if that is of another provider or interview, and only without one by a new call in Initiating, filed with its two steps; nothing else changes |
| CallKeys.RepeatedRequest | gateway/src/calls.rs:246-315 | while the call a keyed request created is not purged, a request with the same key changes nothing and is answered by that call as it stands, or by a conflict |
| CallKeys.KeysCreateOnce | gateway/src/calls.rs:246-315 | two calls come from requests with one key only if the first was purged in between |
| CallAnswers.ReachesExactly | gateway/src/calls.rs:417-466 | a report reaches exactly the call it is about, by call id or else by provider call, if that call is of its provider and linked or linkable to its provider call |
| CallAnswers.ReportIsTold | gateway/src/calls.rs:417-528 | a report is told applied if and only if it moved its call to the target, duplicate if and only if its event was on record, and unmatched only when it is buffered; an error leaves no trace |
| CallAnswers.DeliveryIsTold | gateway/src/calls.rs:472-528 | the label on record is the outcome told, and the row shown is the row on file if and only if the delivery did not overrun |
| CallAnswers.ReplayIsLabelled | gateway/src/calls.rs:948-1028 | a replayed event is labelled applied if and only if the call was elsewhere and some word leads to its target |
| CallAnswers.ReportIsRefused | gateway/src/calls.rs:417-466 | each error of a report has its cause |
| CallAnswers.LinkIsTold | gateway/src/calls.rs:391-415 | linking succeeds if and only if the call is on file, the trimmed id is not blank and neither is linked otherwise; the row told is the row filed, and each error has its cause |
| CallAnswers.RegisterIsTold | gateway/src/calls.rs:317-389 | an inbound call is answered by the call linked to its id, or filed as an active one with its four steps |
| CallLateLink.LinkPointIsInvisible | gateway/src/calls.rs:391-528 | however many of the reports arrive before the link, row, log and recorded ids come out as if all had come after it, if and only if none of those before it overruns on delivery; later ones do not matter |
| CallLateLink.LateLinkIsInvisible | gateway/src/calls.rs:391-528 | buffering every report and then linking equals linking first and delivering each, if and only if no delivery overruns |
| CallLateLink.SmallSequencesNeverOverrun | gateway/src/calls.rs:486-512 | sequences at least six below the last u64 never overrun |
| CallLateLink.LatestIsLast | gateway/src/calls.rs:948-972 | a row received no earlier than all others is replayed last |
| CallService.RunPlan | gateway/src/calls.rs:486-512 | the loop that applies a plan and records its transitions is the walk, rows and completeness included |
| CallService.ReplayUnmatched | gateway/src/calls.rs:948-1028 | the loop over the buffered rows files exactly the replay of all of them and removes them from the buffer |
| CallService.DeliverReport | gateway/src/calls.rs:472-528 | the end of `apply_state` files exactly the delivery of the report |
| CallService.CallWorkflow.BeginCallOutcome | gateway/src/calls.rs:246-315 | the transaction's new tables and outcome, existing calls by idempotency key included |
| CallService.CallWorkflow.RegisterInboundCall | gateway/src/calls.rs:317-389 | the transaction's new tables and outcome for an inbound call |
| CallService.CallWorkflow.Link | gateway/src/calls.rs:391-415 | linking and replaying the buffer, with every refusal leaving the tables unchanged |
| CallService.CallWorkflow.ApplyStateReport | gateway/src/calls.rs:417-528 | the tables and outcome for applied, ignored, duplicate and unmatched reports |
| CallService.CallWorkflow.PurgeTerminalBefore | gateway/src/calls.rs:642-649 | the transaction's new tables: exactly the calls that ended before the cutoff go, with their rows and index entries |
| CallService.CallWorkflow.PurgeUnmatchedBefore | gateway/src/calls.rs:651-658 | only the buffer changes: exactly the rows received before the cutoff go, and the order of the others stays |
| WorkflowShelf.Newest | ai-service/src/pyinterviewbot_ai/workflow_lifecycle.py:151-163 | the query finds a matching row no other matching row is newer than |
| WorkflowSafety.ChecksClear | ai-service/src/pyinterviewbot_ai/workflow_lifecycle.py:648-716 | the production checks raise no problem if and only if the workflow is active, the artifact intact, and test, approval, newest sandbox deployment and binding all fit this content |
| WorkflowSafety.ProductionKeeps | ai-service/src/pyinterviewbot_ai/workflow_lifecycle.py:781-966 | a production deployment, refused or not, keeps the promotion invariant |
| WorkflowSafety.RollbackKeeps | ai-service/src/pyinterviewbot_ai/workflow_lifecycle.py:969-1083 | a rollback keeps the promotion invariant, because its target was cleared |
| WorkflowSafety.StatusKeeps | ai-service/src/pyinterviewbot_ai/workflow_store.py:281-329 | disabling and enabling keep the promotion invariant |
| WorkflowSafety.StepKeeps | ai-service/src/pyinterviewbot_ai/workflow_lifecycle.py:236-1083 | every transaction keeps the promotion invariant, and alters nothing on record except that a live deployment may end and a pending approval be decided |
| WorkflowRuns.EveryProductionDeploymentIsCleared | ai-service/src/pyinterviewbot_ai/workflow_lifecycle.py:693-1083 | in any run every non-failed production deployment names a passing test run and an approved approval tied to it, all of the same content hash, decided by the assigned approver, who is not the requester |
| WorkflowProvenance.StepTraces | ai-service/src/pyinterviewbot_ai/workflow_lifecycle.py:350-645 | every transaction keeps each test run and approval traceable to the operations that made, requested and decided it |
| WorkflowProvenance.EveryProductionDeploymentHasItsHistory | ai-service/src/pyinterviewbot_ai/workflow_lifecycle.py:350-1083 | behind every non-failed production deployment of any run, rollbacks included, stand three operations of that run that took effect, in this order: a test whose suites passed, a request naming that test, and its approval by the assigned approver, who is not the requester |
| WorkflowRuns.OneLiveDeploymentPerEnvironment | ai-service/src/pyinterviewbot_ai/workflow_lifecycle.py:282-330 | at most one deployment is live per environment, and it is the last inserted there that did not fail |
| WorkflowRuns.LiveIsTheLastNonFailed | ai-service/src/pyinterviewbot_ai/workflow_lifecycle.py:151-163 | whatever is live in an environment is the last deployment there that did not fail |
| WorkflowRuns.DisabledServesNothing | ai-service/src/pyinterviewbot_ai/workflow_store.py:296-311 | a disabled workflow has no live deployment |
| WorkflowRuns.DisabledNeverTests | ai-service/src/pyinterviewbot_ai/workflow_lifecycle.py:350-454 | `run_tests` on a disabled workflow changes nothing and succeeds if and only if its key is on record, although it never checks the status |
| WorkflowRuns.VersionsAreForever | ai-service/src/pyinterviewbot_ai/workflow_store.py:332-440 | versions are numbered 1 to n, and each is found unchanged after any later run |
| WorkflowRuns.PublishFreezesTheDraft | ai-service/src/pyinterviewbot_ai/workflow_store.py:332-429 | a publication with a new key gets the next number and the draft and template of that moment |
| WorkflowRuns.ReadsGiveCleared | ai-service/src/pyinterviewbot_ai/workflow_routing.py:64-123 | a route put together from reads of different moments serves a version that is tested and approved |
| WorkflowRuns.RouteServesCleared | ai-service/src/pyinterviewbot_ai/workflow_routing.py:64-123 | the same over any run, with any transactions between the reads |
| WorkflowRuns.ServedArtifactIsTheTestedOne | ai-service/src/pyinterviewbot_ai/workflow_routing.py:97-123 | without hash collisions the tested, the approved and the served version are one and the same |
| WorkflowRuns.RouteIsExactly | ai-service/src/pyinterviewbot_ai/workflow_routing.py:64-123 | resolving at one moment succeeds if and only if the caller may and a live deployment fits the binding, and routes to that deployment; each error has its cause, and the three integrity errors cannot occur |
| WorkflowAudit.DisableRowsVacate | ai-service/src/pyinterviewbot_ai/workflow_store.py:296-319 | the rows logged on disabling vacate exactly the seats of the live deployments |
| WorkflowAudit.StepAgrees | ai-service/src/pyinterviewbot_ai/workflow_store.py:126-147 | every transaction keeps the audit trail in agreement with what is live |
| WorkflowAudit.AuditTellsWhatIsLive | ai-service/src/pyinterviewbot_ai/workflow_lifecycle.py:318-1066 | folding a workflow's audit trail gives, after any run, exactly the live deployment of each environment |
| WorkflowReplay.OperationKeysNeverCollide | ai-service/src/pyinterviewbot_ai/workflow_lifecycle.py:147-148 | keys of different deployment operations never collide |
| WorkflowReplay.RetriesChangeNothing | ai-service/src/pyinterviewbot_ai/workflow_lifecycle.py:197-258 | once a keyed request has had an effect, no retry with that key changes anything, whatever happened in between |
| WorkflowReplay.RetriedSandboxDeployment | ai-service/src/pyinterviewbot_ai/workflow_lifecycle.py:236-258 | the retry answers with the first request's row as it stands by then, or with a conflict for another version |
| WorkflowReplay.KeyKeepsItsRow | ai-service/src/pyinterviewbot_ai/workflow_lifecycle.py:197-207 | a recorded deployment key keeps finding its own row after any run |
| WorkflowReplay.ProductionRecordsExactly | ai-service/src/pyinterviewbot_ai/workflow_lifecycle.py:781-966 | a production request with a new key leaves the key on record if and only if it does not succeed merely because production already serves the version |
| WorkflowReplay.RollbackRecordsExactly | ai-service/src/pyinterviewbot_ai/workflow_lifecycle.py:969-1083 | a successful rollback with a new key leaves the key on record if and only if its target is not the live deployment, and otherwise changes nothing |
| WorkflowAnswers.CleanKeysAgree | ai-service/src/pyinterviewbot_ai/workflow_store.py:74-78 | two keys are the same if and only if they are when stripped; a blank key is none |
| WorkflowAnswers.ProductionAnswersExactly | ai-service/src/pyinterviewbot_ai/workflow_lifecycle.py:781-966 | a production deployment with a new key succeeds if and only if the version exists and has everything it needs, and production then serves it by the row answered; otherwise the caller gets an error, production serves what it served, and an existing version has a failed row |
| WorkflowAnswers.RetriedProductionDeployment | ai-service/src/pyinterviewbot_ai/workflow_lifecycle.py:181-194 | a retry answers with the first request's row as it stands by then, a conflict for another version, or the refusal again |
| WorkflowAnswers.RollbackAnswersExactly | ai-service/src/pyinterviewbot_ai/workflow_lifecycle.py:969-1083 | a rollback with a new key succeeds if and only if the workflow is active and the row named is a production row that did not fail on the configured binding; production then serves what that row served |
| WorkflowAnswers.RetriedRollback | ai-service/src/pyinterviewbot_ai/workflow_lifecycle.py:969-1083 | a retry answers with the first rollback's row as it stands by then |
| WorkflowAnswers.SandboxAnswersExactly | ai-service/src/pyinterviewbot_ai/workflow_lifecycle.py:236-347 | a sandbox deployment with a new key succeeds if and only if the workflow is active, the version exists and the binding provides what it needs; the sandbox then serves it |
| WorkflowAnswers.TestAnswersExactly | ai-service/src/pyinterviewbot_ai/workflow_lifecycle.py:350-457 | a test with a new key is recorded if and only if the sandbox serves the version named by the deployment named, with the verdict of its suites |
| WorkflowAnswers.RetriedTest | ai-service/src/pyinterviewbot_ai/workflow_lifecycle.py:350-457 | a retry answers with the first result |
| WorkflowAnswers.RequestAnswersExactly | ai-service/src/pyinterviewbot_ai/workflow_lifecycle.py:472-576 | a request with a new key is recorded as pending if and only if it asks someone else about a version of an active workflow and a passing test run of it |
| WorkflowAnswers.RetriedRequest | ai-service/src/pyinterviewbot_ai/workflow_lifecycle.py:472-576 | a retry answers with the first approval as decided by then |
| WorkflowAnswers.DecideAnswersExactly | ai-service/src/pyinterviewbot_ai/workflow_lifecycle.py:579-645 | a decision succeeds if and only if it is the approver's on a pending approval of an active workflow; the second look at the test run never refuses it |
| WorkflowAnswers.PublishAnswersExactly | ai-service/src/pyinterviewbot_ai/workflow_store.py:332-429 | a publication with a new key succeeds if and only if the catalogue has the template |
| WorkflowAnswers.RetriedPublication | ai-service/src/pyinterviewbot_ai/workflow_store.py:332-429 | a retry answers with the first version, whatever the draft has become |
| WorkflowAnswers.TamperingIsDetected | ai-service/src/pyinterviewbot_ai/workflow_store.py:96-114 | a stored artifact changed under its hash is refused unless the two collide |
| WorkflowAnswers.StatusIsSet | ai-service/src/pyinterviewbot_ai/workflow_store.py:281-329 | enabling enables; disabling disables and ends exactly what is live |
| WorkflowAnswers.DisableRowsName | ai-service/src/pyinterviewbot_ai/workflow_store.py:296-319 | each live deployment, and no other, is logged as ended with its version and actor |
| WorkflowAnswers.DraftIsReplaced | ai-service/src/pyinterviewbot_ai/workflow_store.py:233-278 | a new draft replaces the old one and changes nothing else |
| WorkflowAnswers.NewWorkflowIsOpen | ai-service/src/pyinterviewbot_ai/workflow_store.py:150-201 | a new workflow is active, serves nothing and publishes its draft as version 1 |
| WorkflowWorld.WorldStepKeeps | ai-service/src/pyinterviewbot_ai/workflow_store.py:150-329 | every operation on all workflows together keeps each one's invariant, distinct names per owner, approvals at home, and sessions and pending starts sound |
| WorkflowWorld.PinnedTemplateStays | ai-service/src/pyinterviewbot_ai/agent.py:169-222 | a session's pinned route and template never change, and stay a tested and approved version of its workflow, under all later operations |
| WorkflowWorld.OwnersNamesStayUnique | ai-service/src/pyinterviewbot_ai/workflow_store.py:150-278 | no owner ever has two workflows of the same name |
| WorkflowWorld.DecisionStaysHome | ai-service/src/pyinterviewbot_ai/workflow_lifecycle.py:579-645 | deciding an approval by its id touches no workflow but the one that asked |
| WorkflowWorldAnswers.CreatedExactly | ai-service/src/pyinterviewbot_ai/workflow_store.py:150-201 | a workflow is added if and only if its owner has none of that name |
| WorkflowWorldAnswers.OperationHappens | ai-service/src/pyinterviewbot_ai/workflow_store.py:233-278 | an operation happens at its workflow, unless it would give an owner two workflows of one name, and nowhere else |
| WorkflowWorldAnswers.DecisionTakesEffect | ai-service/src/pyinterviewbot_ai/workflow_lifecycle.py:579-645 | a decision by approval id takes effect at the workflow that asked, if and only if it may be made there |
| WorkflowWorldAnswers.StartsExactly | ai-service/src/pyinterviewbot_ai/agent.py:169-222 | an undisturbed start inserts its session if and only if the caller may and a live deployment fits the binding, and pins it to that deployment |
| WorkflowService.WorkflowTables.constructor | ai-service/src/pyinterviewbot_ai/workflow_store.py:150-201 | a new workflow's tables |
| WorkflowService.WorkflowTables.EditDraft | ai-service/src/pyinterviewbot_ai/workflow_store.py:233-278 | only the draft and the audit change |
| WorkflowService.WorkflowTables.RetireDeployments | ai-service/src/pyinterviewbot_ai/workflow_store.py:296-319 | exactly the live deployments are retired and logged, in table order |
| WorkflowService.WorkflowTables.ChangeStatus | ai-service/src/pyinterviewbot_ai/workflow_store.py:281-329 | the transaction's new tables |
| WorkflowService.WorkflowTables.PublishVersion | ai-service/src/pyinterviewbot_ai/workflow_store.py:332-429 | the transaction's new tables and result |
| WorkflowService.WorkflowTables.Activate | ai-service/src/pyinterviewbot_ai/workflow_lifecycle.py:282-330 | supersedes the named row and no other, appends the new one and logs it |
| WorkflowService.WorkflowTables.DeployToSandbox | ai-service/src/pyinterviewbot_ai/workflow_lifecycle.py:236-347 | the transaction's new tables and result |
| WorkflowService.WorkflowTables.Test | ai-service/src/pyinterviewbot_ai/workflow_lifecycle.py:350-457 | the transaction's new tables and result; a run passes when every item of its evidence does |
| WorkflowService.WorkflowTables.RequestPromotion | ai-service/src/pyinterviewbot_ai/workflow_lifecycle.py:472-576 | the transaction's new tables and result |
| WorkflowService.WorkflowTables.Decide | ai-service/src/pyinterviewbot_ai/workflow_lifecycle.py:579-645 | the transaction's new tables and result |
| WorkflowService.WorkflowTables.Deploy | ai-service/src/pyinterviewbot_ai/workflow_lifecycle.py:781-966 | the transaction's new tables and result, refused deployments on record as failed |
| WorkflowService.WorkflowTables.Rollback | ai-service/src/pyinterviewbot_ai/workflow_lifecycle.py:969-1083 | the transaction's new tables and result |
| WorkflowService.AllPassed | ai-service/src/pyinterviewbot_ai/workflow_lifecycle.py:399-401 | the verdict on the evidence of the mandatory suites |
| WorkflowService.CollectProblems | ai-service/src/pyinterviewbot_ai/workflow_lifecycle.py:693-716 | the problems collected one by one are those of the checks, in order |
| Vad.PushAppend | gateway/src/vad.rs:72-103 | pushing a and then b gives the events and the detector of pushing a + b, wherever the byte stream is cut |
| Vad.FramesOfTheStream | gateway/src/vad.rs:72-103 | the frames heard are the consecutive 256-sample blocks of the whole stream, with the rest and the odd byte kept back |
| Vad.StreamFires | gateway/src/vad.rs:54-125 | a detector built for a threshold, whatever the pieces the stream comes in, fires what the verdicts on the stream's frames fire for the larger of that threshold and 100 ms |
| Vad.TurnEndsAtTheThreshold | gateway/src/vad.rs:54-125 | such a detector ends a turn within a stream if and only if after speech began the unbroken silence of 16 ms frames first reaches that threshold |
| Vad.ResetStartsAfresh | gateway/src/vad.rs:129-135 | after a reset the events are those of the verdicts from then on, with the same threshold, and the capture begins anew |
| Vad.EventsFireExactly | gateway/src/vad.rs:105-125 | speech starts exactly on the 13th voiced frame in a row (at least 200 ms), and a turn ends exactly when the unbroken silence reaches the threshold |
| Vad.UnreachableThresholdNeverEnds | gateway/src/vad.rs:113-121 | a threshold above the largest multiple of 16 the 32-bit counter holds is never met |
| Vad.DrainFollowsVerdicts | gateway/src/vad.rs:94-125 | the events of a push are those its frames' verdicts fire, given the verdicts since the turn was reset |
| Vad.PushAlternates | gateway/src/vad.rs:105-125 | starts and ends alternate over any push, and a turn ends only after speech began |
| Vad.CaptureIsASuffix | gateway/src/vad.rs:143-167 | the capture is empty or a suffix of the stream since the reset, and begins as its last 9600 bytes or all of it |
| Vad.CapturingOnlyListens | gateway/src/vad.rs:143-167 | a capturing push hears the same frames and fires the same events as a push |
| VadDetector.TurnDetector.constructor | gateway/src/vad.rs:54-69 | a new detector is the fresh one, with the larger of its threshold and 100 ms |
| VadDetector.TurnDetector.ObserveFrame | gateway/src/vad.rs:105-125 | the counters and the event after one verdict |
| VadDetector.TurnDetector.TakeBytes | gateway/src/vad.rs:75-92 | the samples and the odd byte of the stitched stream |
| VadDetector.TurnDetector.DrainFrames | gateway/src/vad.rs:94-100 | every whole frame is cut, heard and observed |
| VadDetector.TurnDetector.PushPcm16 | gateway/src/vad.rs:72-103 | the push |
| VadDetector.TurnDetector.KeepPreroll | gateway/src/vad.rs:147-152 | the ring holds the last 9600 bytes |
| VadDetector.TurnDetector.PushPcm16Capturing | gateway/src/vad.rs:143-167 | the push with its capture |
| VadDetector.TurnDetector.ResetTurn | gateway/src/vad.rs:129-135 | a reset keeps the framing and the detector and clears the turn |
| SessionMachine.CompletedIsFinal | gateway/src/state_machine.rs:83-134 | a legal word of events meets Completed at its end only |
| SessionMachine.TransitionByEvent | gateway/src/state_machine.rs:83-134 | the table read by columns: where each event is legal, and where it leads |
| InterviewSocket.Interview.Apply | gateway/src/ws_handler.rs:461-469 | a legal event moves the state, an illegal one is swallowed and changes nothing |
| InterviewSocket.Interview.CaptureAudio | gateway/src/ws_handler.rs:133-142 | fails exactly over the utterance limit, and keeps the capture a suffix of the audio since the last reset |
| InterviewSocket.Interview.Speak | gateway/src/ws_handler.rs:277-379 | the outcome is what the first deciding moment decides: a failed start or synthesis, a closed or broken connection, an over-long utterance, a barge-in, or the end of the play-out; speech that finishes or fails leaves the detector out of speech, a barge-in leaves it capturing |
| InterviewSocket.SpokenIsDetermined | gateway/src/ws_handler.rs:277-379 | a schedule determines the outcome of a speech and the moment of it |
| InterviewSocket.ListenedIsDetermined | gateway/src/ws_handler.rs:384-413 | a schedule determines the outcome of listening and the moment of it |
| InterviewSocket.Interview.Ask | gateway/src/ws_handler.rs:160-187 | the events applied are those of the speech's outcome, a failure being followed by a recovery, and the handler goes on exactly when one of them is finished or interrupted |
| InterviewSocket.Interview.Process | gateway/src/ws_handler.rs:201-270 | the answer is handed over; the turn is decided if and only if transcription and agent both answer, the interview completes if and only if the agent says so, and a closing remark or a recovery is spoken |
| InterviewSocket.Interview.ListenForTurn | gateway/src/ws_handler.rs:384-413 | the outcome is what the first deciding message decides: ended by audio whose push fires TurnEnded within the limit, too long over it, closed by a close, a read error or the end of the stream, and none of these only at the end of the schedule; an ended turn leaves the candidate speaking with a non-empty answer within the limit |
| InterviewSocket.Interview.SpeakRecovery | gateway/src/ws_handler.rs:419-457 | a recovery leaves the handler ready to listen |
| InterviewSocket.Interview.HandOver | gateway/src/ws_handler.rs:204-212 | the answer handed over is a suffix of the audio since the last one, and the detector is reset |
| InterviewSocket.Interview.Handle | gateway/src/ws_handler.rs:144-271 | for every schedule no event is ever swallowed as illegal; the turn number counts the decided turns and each ended turn hands one answer over; the handler stops before the schedule ends only after a closed connection, an over-long utterance, a recovery that fails, an answer that could not be processed, or completion; a fault while processing is within four events of the end |
| VoiceRuntime.BudgetIsNeverExceeded | voice-runtime/src/runtime.rs:185-220 | under any interleaving the accepted bytes never exceed the limit and the counter equals accepted plus held bytes |
| VoiceRuntime.AtRestTheCounterIsExact | voice-runtime/src/runtime.rs:185-220 | with no call under way the counter equals the accepted bytes, and a lone call is admitted if and only if its bytes fit |
| VoiceRuntime.AdmittedExactlyIfItFits | voice-runtime/src/runtime.rs:199-204 | in any run a call is admitted if and only if, when it reserved, its bytes fitted beside the accepted and the held ones, whatever happens before its check |
| VoiceRuntime.ADoomedCallCanCrowdOut | voice-runtime/src/runtime.rs:199-204 | a run in which a call that fits beside the accepted bytes is refused because of held ones |
| VoiceRuntime.AudioIsTakenExactly | voice-runtime/src/runtime.rs:195-197 | audio is taken up if and only if it is made of whole samples, at least one |
| VoiceRuntime.ProviderDecides | voice-runtime/src/runtime.rs:206-219 | what the provider takes is accepted and what it refuses is given back |
| VoiceRuntime.NumbersAreExact | voice-runtime/src/runtime.rs:84-86 | the numbers issued are exactly 1 to k, each to one caller, and each is published once when all callers have announced |
| VoiceRuntime.OrderIsKeptExactly | voice-runtime/src/runtime.rs:468-472 | a step keeps the events in the order of their numbers if and only if it does not send one while another call holds a smaller number |
| VoiceRuntime.SentInOrderExactly | voice-runtime/src/runtime.rs:468-472 | the events of a run are sent as 1, 2, 3 and so on if and only if no step overtakes |
| VoiceRuntime.PublishersInTurnPublishInOrder | voice-runtime/src/runtime.rs:468-472 | publishers that never overlap publish exactly 1 to k in order |
| VoiceRuntime.EventsCanOvertake | voice-runtime/src/runtime.rs:468-472 | a run that publishes number 2 before number 1 |
| VoiceRuntime.RegistryMatchesProvider | voice-runtime/src/runtime.rs:151-183 | the registry never exceeds its capacity under concurrent starts, ends and sweeps, and with nothing in transit the provider has open exactly the registered sessions and those it failed to end |
| VoiceRuntime.StartsExactlyWithRoom | voice-runtime/src/runtime.rs:151-183 | an undisturbed start is registered if and only if there is room, and otherwise changes nothing |
| VoiceRuntime.RegistersExactlyWithRoom | voice-runtime/src/runtime.rs:163-171 | an opened start is registered if and only if there is room at its turn, and otherwise rolled back |
| VoiceRuntime.EndsCompletely | voice-runtime/src/runtime.rs:269-290 | an ended session is gone from the registry and from the provider |
| VoiceRuntime.LeaksNeedFailures | voice-runtime/src/runtime.rs:163-171 | nothing stays open unnoticed unless the provider failed to end it |
| Text.StripTakesTheEnds | gateway/src/calls.rs:256-257 | trimming takes blanks off the two ends and nothing else |
| Bytes.Read32Le32 | voice-runtime/src/studio.rs:267-271 | little-endian 32-bit numbers read back |
| Wav.DecodeOfEncode | voice-runtime/src/studio.rs:235-311 | decoding any encoded buffer gives the buffer check on its format and on its data as far as the 32-bit length tells |
| Wav.RoundTrip | voice-runtime/src/studio.rs:235-311 | decoding an encoded buffer gives it back if and only if it is mono, of positive rate, of even length and shorter than 2^32 bytes |
| Wav.HeaderStatesTheFormat | voice-runtime/src/studio.rs:235-255 | the header states the format where the RIFF layout has it, with the byte rate and block size of 16-bit mono |
| Wav.HeaderStatesTheLengths | voice-runtime/src/studio.rs:235-255 | the header states the length of the file less eight bytes and the length of the data, as far as 32 bits tell |
| Wav.DecodesExactly | voice-runtime/src/studio.rs:257-311 | a file of a format and a data chunk is decoded if and only if the first states 16-bit mono PCM with a rate and the data are whole samples; each failure has its own error |
| Wav.DecodingIgnoresOtherChunks | voice-runtime/src/studio.rs:265-307 | inserting any padded chunk that is neither fmt nor data at any chunk boundary before the data changes no result, errors included |
| Wav.Decode | voice-runtime/src/studio.rs:257-311 | the walk by offsets terminates, stays in bounds on every byte string, and decodes |
| Studio.Interpolates | voice-runtime/src/studio.rs:222-231 | output sample i, which lies f / d of the way from source sample l to the next, is the nearest integer to that part of the way between the two, ties away from zero |
| Studio.LinesStayLines | voice-runtime/src/studio.rs:222-231 | a source on a straight line gives an output on the same line, to the nearest integer |
| Studio.SameCountIsIdentity | voice-runtime/src/studio.rs:222-231 | as many samples out as in are the same samples |
| Studio.CountKeepsDuration | voice-runtime/src/studio.rs:218-220 | the number of output samples is the nearest integer to n * target / source, or 1 if that is 0 |
| Studio.LiesBetweenNeighbours | voice-runtime/src/studio.rs:223-229 | every output sample lies between its two neighbours in the source, so the clamp never acts |
| Studio.EndsArePreserved | voice-runtime/src/studio.rs:218-231 | the first sample is preserved, and the last when two or more are output |
| Studio.MonotonicityIsPreserved | voice-runtime/src/studio.rs:223-231 | a rising source gives a rising output |
| Studio.OutputSamples | voice-runtime/src/studio.rs:204-233 | the output is exactly max(1, round(n * target / source)) whole samples, the interpolated ones |
| Studio.ResamplePcm16 | voice-runtime/src/studio.rs:204-233 | the loop, odd bytes and short inputs included |
| Studio.ChunksJoin | voice-runtime/src/studio.rs:180-183 | the chunks join back to the data; each is non-empty, even and within the bound, and all but the last are as long as the bound allows |
| RateLimit.AllowsWithin | ai-service/src/pyinterviewbot_ai/rate_limit.py:30-45 | with times at most delta out of order a call is let in if fewer than `limit` were let in for its key in the window that ends now widened by delta at both ends, and only if fewer were in the window that ends delta later, since the last clearing |
| RateLimit.AllowsExactly | ai-service/src/pyinterviewbot_ai/rate_limit.py:30-45 | with calls in time order a call is let in if and only if fewer than `limit` were let in for its key in the window that ends now, since the last clearing |
| RateLimit.NoWindowHoldsMore | ai-service/src/pyinterviewbot_ai/rate_limit.py:30-45 | with times at most delta out of order, between clearings no window delta shorter than the limiter's holds more than `limit` accepted calls of a key |
| RateLimit.BoundIsTight | ai-service/src/pyinterviewbot_ai/rate_limit.py:30-45 | for every disorder up to the window a run in which any longer window can hold more than `limit` |
| RateLimit.RetryIsLeast | ai-service/src/pyinterviewbot_ai/rate_limit.py:41-43 | whatever the times, the retry delay is the least whole number of seconds, at least 1, after which the key is let in |
| RateLimit.TableNeverOutgrows | ai-service/src/pyinterviewbot_ai/rate_limit.py:36-38 | the table never exceeds its key bound, whatever the calls, their times and the limit |
| RateLimit.ClearsExactly | ai-service/src/pyinterviewbot_ai/rate_limit.py:36-38 | a run clears the table if and only if there is a limit and more than `max_keys` different keys call |
| RateLimit.FewKeysNoWindowHoldsMore | ai-service/src/pyinterviewbot_ai/rate_limit.py:30-45 | with at most `max_keys` keys the same bound holds over all accepted calls of the run |
| RateLimit.ClearingForgets | ai-service/src/pyinterviewbot_ai/rate_limit.py:36-37 | a run in which clearing lets a key in twice within a window |
| RateLimit.SlidingWindowLimiter.AllowCall | ai-service/src/pyinterviewbot_ai/rate_limit.py:30-45 | the new table and the decision |
| Dedup.EqualKeysAreFarApart | voice-runtime/src/managed_call.rs:569-581 | two equal keys let in are more than the capacity apart |
| Dedup.RoomForAll | voice-runtime/src/managed_call.rs:569-581 | with room for all of them exactly the first occurrences are let in |
| Dedup.EventDedup.Observe | interview-domain/src/lib.rs:192-204 | a key is turned away exactly when it is among the last `capacity` let in |
| Dedup.BoundedSeen.Insert | voice-runtime/src/managed_call.rs:569-581 | the same, for the other implementation |
| Dedup.ObserveAll | interview-domain/src/lib.rs:182-204 | driven with the same keys both implementations let in exactly what the specification does |
| ManagedCalls.NothingLostNothingTwice | voice-runtime/src/managed_call.rs:607-694 | under any interleaving, for a session whose call no other session has when webhooks are queued, what was drained followed by what is queued is exactly the provider events of the webhooks of its call queued since the call started, once each, in the order of queueing |
| ManagedCalls.OrderIsKeptExactly | voice-runtime/src/managed_call.rs:662-683 | a step keeps the webhooks of a call queued in the order of acceptance if and only if it does not queue one past an earlier accepted one that waits |
| ManagedCalls.QueuedInOrderExactly | voice-runtime/src/managed_call.rs:662-683 | over any run they are queued in the order of acceptance, none skipped, if and only if no step overtakes |
| ManagedCalls.OrderOfAcceptance | voice-runtime/src/managed_call.rs:662-694 | without overtaking the session has got a stretch of the webhooks accepted for its call, in the order of acceptance, up to the last exactly when none waits |
| ManagedCalls.WebhooksCanOvertake | voice-runtime/src/managed_call.rs:662-683 | a run in which two webhooks of a call are queued against the order of their acceptance |
| ManagedCalls.AcceptedBeforeTheStart | voice-runtime/src/managed_call.rs:607-683 | a webhook accepted before its call is started reaches the session when it is queued after the start and not when it is queued before |
| ManagedCalls.AdmissionIsDedup | voice-runtime/src/managed_call.rs:662-667 | under any interleaving the webhooks accepted are those that bounded deduplication of their keys lets in |
| ManagedCalls.RunIsOrdered | voice-runtime/src/managed_call.rs:662-683 | in any run each accepted webhook is queued at most once, and only accepted ones are |
| ManagedCalls.RedeliveryIsTurnedAway | voice-runtime/src/managed_call.rs:662-667 | a webhook changes nothing if and only if one of the last 4096 accepted ones has its key |
| ManagedCalls.EventsMean | voice-runtime/src/managed_call.rs:426-472 | which provider event a webhook becomes, with which text, code and message |
| ManagedCalls.EndedIsForgotten | voice-runtime/src/managed_call.rs:635-647 | an ended session is forgotten, and nothing is queued for it until it is started again |
| ManagedCalls.ManagedCallWorkflow.Conserves | voice-runtime/src/managed_call.rs:607-694 | the conservation law for the workflow object between any two steps |
| ManagedCalls.ManagedCallWorkflow.Accept | voice-runtime/src/managed_call.rs:662-667 | a webhook is accepted exactly if its key is not among the last 4096 accepted |
| ManagedCalls.ManagedCallWorkflow.QueueEvents | voice-runtime/src/managed_call.rs:669-683 | its events are queued for a session with its call, if there is one |
| ManagedCalls.ManagedCallWorkflow.Ingest | voice-runtime/src/managed_call.rs:649-685 | a refused webhook leaves no trace; an accepted one is queued for a session with its call, if there is one |
| ManagedCalls.ManagedCallWorkflow.Start | voice-runtime/src/managed_call.rs:607-625 | the session gets a new, empty queue |
| ManagedCalls.ManagedCallWorkflow.DrainEvents | voice-runtime/src/managed_call.rs:687-694 | hands over the queue and empties it |
| ManagedCalls.ManagedCallWorkflow.End | voice-runtime/src/managed_call.rs:635-647 | forgets the session and names the call to end |

## Left out

- HTTP routing, authentication, webhook signatures, the provider clients and the speech and language engines: input and output.
- SQL text, JSON encoding and UUID generation: transactions are atomic, new ids are parameters, and a clash with an id in use is an error.
- Integer columns are natural numbers; SQLite's signed 64-bit storage of u64 values and times is not modelled.
- Times are parameters; `recorded_at_ms` and the other recording times are omitted, and so are error texts.
- The provider capability tables: the verdict on opening a call is a parameter (`refusal`).
- Draft columns that duplicate the stored draft (name, description, template id) are one field.
- The verdict of the test suites, the environment bindings and the template catalogue are parameters; a database error in the middle of a transaction is not modelled.
- Sessions are never deleted in `WorkflowWorld`; retention of session data would only remove rows.
- Sessions started from a plain template instead of a workflow: a single lookup.
- RateLimit.AllowsExactly: needs calls in time order, because out of order the limiter pops only from the front; `RateLimit.AllowsWithin` covers any disorder.
- RateLimit.NoWindowHoldsMore: the window is shorter than the limiter's by the disorder of the times; `RateLimit.BoundIsTight` shows that it must be.
- RateLimit.RetryIsLeast: no other call or clearing in the meantime.
- The rate limiter's times are exact reals, not floating-point numbers.
- Studio.OutputSamples: floating point is replaced by exact fractions, so rounding errors of f64 are not modelled; a zero source rate, which the buffer type excludes, is a precondition.
- Vad.EventsFireExactly: needs a threshold the 32-bit counter can reach; `Vad.UnreachableThresholdNeverEnds` covers the others.
- VoiceRuntime.BudgetIsNeverExceeded: the 64-bit wrap-around of the byte counter is not modelled; it takes 2^64 bytes in flight.
- VoiceRuntime.NumbersAreExact: the voice states and the broadcast buffer, which may drop events for slow receivers, are not modelled.
- ManagedCalls.NothingLostNothingTwice: needs that since the session's start no other session had its call when a webhook was queued, because otherwise the events go to whichever the hash map yields first.
- ManagedCalls.ManagedCallWorkflow.Conserves: needs the same.
- ManagedCalls.ManagedCallWorkflow.Ingest: runs its two parts without anything in between; `Accept` and `QueueEvents` are the parts for every other interleaving.
- InterviewSocket.Interview.Handle: what is sent to the browser, and how long it plays, is reduced to the schedule.
- The studio's sessions and engines, silence trimming, peak normalization and loudness: floating point with little structure.
- μ-law conversion, the scheduler, reports, evidence graph, templates, compliance and documents: static data or simple folds.
