# Verified models of the sampling runner and its tools

A browser runner claims sampling tasks from a server, enters a prompt into a
consumer chat surface through a separate browser broker, and hands the answer with
its evidence back. Entering a prompt costs quota and cannot be undone, so most of
the code is about one promise: a prompt is never entered twice, whatever is lost,
delayed or cut off. This project models that code, and five pieces around it, in
Dafny and proves what they promise.

| directory | what it models |
|---|---|
| `runner/` | the batch runner, its broker client, the broker, the task client and post-submit assistance |
| `cohort/` | the capture of a reviewed cohort of prompts over one state directory, and where what it records comes from |
| `analysis/` | the algorithms of the portal language audit: a taint search, a glob compiler, three reachability searches |
| `codec/` | broker requests from the object to the bytes of a frame and back, and the canonical JSON text that is hashed |
| `extension/` | the browser extension's task journal and the flags of its background script |
| `worker/` | planning and running a reviewed backfill of response snapshots |

## How the runner is modelled

The socket is an oracle. A request that the runner sends is lost, or stays under way
and reaches the broker at any later point, or is delivered and its reply is lost, or
is delivered and answered; it is delivered at most once. The browser adapter, the
session factory, the evidence store, the task server and the journal may each fail at
every call. A session that is created gets an id that was not in use before: the ids
are digests of a task, its attempt and the lease generation, which the server counts
up (`session-identity.ts`, lines 8-16). Three invariants connect the three state
machines (the runner's phase, the client's flags, the broker's session state), for any
number of tasks and whatever other sessions have left behind:

* `Wire.Accounted`: each session is asked to submit at most once, after its intent was
  recorded at the server and in the journal, and what the browser entered or may still
  enter in a session, of whatever was asked for there, is never more than that.
* `Wire.Orderly`: whatever goes further than preparing a session happens only in
  sessions whose intent was declared.
* `Wire.Tracked`: from the submit intent of a session on, the history of that session
  is a prefix of one fixed course of events, and the session's state, the requests
  under way to it and the runner's position agree with how far it has come.

The history (`BrokerSocket.log`) is ghost. `watch` parameters are ghost too: they say
which session, if any, is being followed, and the runner follows every session from
its intent to its end.

## What turned out not to hold

* **An unsettled result does not always make a run incomplete.** The exit that waits
  out an empty queue assigns the flag instead of adding to it (`run-batch.ts`, line
  81), so in a run that is not limited to a batch and may take a second task, a task
  whose needs-human state could not be saved is forgotten when the queue then keeps
  answering "waiting": the run reports itself complete. `RunBatch.LostFailure` is the
  schedule, `RunBatch.UnsettledForcesIncompleteExactly` the exact condition over
  schedules and `RunBatch.OnlyBatchRunsRemember` over options.
* **The journal migration can lose a crossed submit boundary, and a rerun after a
  crash can end differently**, when two legacy entries have the same task id after
  trimming and the task has no record of its own. `Journal.WhiteSpaceLosesABoundary`
  is an input; `Journal.BoundariesSurviveExactly` and `Journal.RerunIsExact` give one
  and the same exact condition for both, `LastKnowsBest`: of every such task with an
  entry past the boundary, the last entry in the list is past it. It holds for
  distinct task ids.
* **A crash can leave a slot of the cohort that no later run captures**, and more than
  one crash can. The creation of the state file and its content are two steps, and a
  state file torn between them makes every later run fail there, so that the slots
  behind it are not captured either (`Cohort.CrashedCreation`,
  `Cohort.NothingPassesATornSlot`); evidence files are created exclusively as well, so
  a recovery that crashes after the first of them makes every later recovery fail at
  it (`Cohort.CrashedRecovery`); and an intent that names no page is left to a human.
  `Cohort.CaptureIsExact` says which slots of a state directory can still be captured,
  if and only if. Safe, and the price of exclusive creation.
* **The backfill fingerprint can depend on the order in which the database gives
  citations.** It does not if and only if runs with one id are one run and citations of
  a listed run with one index are one citation (`Backfill.FingerprintIsExact`).

## Model

| member | source | states |
|---|---|---|
| NeverTwice.TaskLifetime | apps/browser-runner/src/run-batch.ts:135-358 | From an empty broker, one claimed task with all its attempts and then any number of assists enters the browser's submit at most once, counting a submit that may still arrive; every intent and request is for that task, the history is ordered, and a success keeps its whole story |
| NeverTwice.BatchLifetime | apps/browser-runner/src/run-batch.ts:32-123 | From an empty broker, any batch, however it ends: for each task, in the sessions asked to submit for it the browser has entered or may still enter a prompt at most as often as the task has results that are not a queued retry, and once more only for the one task at work when a run threw; every success so far has its whole story |
| NeverTwice.ServiceLifetime | apps/browser-runner/src/run-batch.ts:32-123 | From an empty broker, any sequence of batches and assists over one broker and one task client, some of which throw: the same bound for each task over all their results, with at most one more for each run that threw; every success ever reported keeps its story, and the whole history is ordered |
| NeverTwice.NeverTwiceForATask | apps/browser-runner/src/run-batch.ts:148-160 | In every state that can come about, for each task, entered and still possible submits in the sessions asked to submit for it are at most the requests for it |
| NeverTwice.EverySubmitWasIntended | apps/browser-runner/src/run-batch.ts:148-160 | In every ordered history a browser submit comes after a request for the same session and prompt, that after the journal record of the intent, and that prompt is the frozen prompt of the claim whose intent the server recorded |
| NeverTwice.NoRetryWithIntent | apps/browser-runner/src/run-batch.ts:252-306 | An attempt that declared a submit intent neither asks the server for a retry nor closes its session as retrying, before or after |
| NeverTwice.SuccessMeansOneSubmit | apps/browser-runner/src/run-batch.ts:148-249 | After whatever history, a success means that the browser entered the observed task's prompt in the observed session, once in the whole history, with none still under way, so a lost submit request never ends in success |
| NeverTwice.ResumePostSubmitTask | apps/browser-runner/src/assist.ts:31-168 | An assist requests no submit, and returns normally only for a post-submit handoff with a profile whose task and session the sink accepted an observation of, after the browser's confirmation, the collected response and the secured evidence of that session; the handoff, the lease that the server gives and the eight steps behind it fix what the assist comes to, success exactly when all of them go through |
| NeverTwice.ConfirmToSink | apps/browser-runner/src/assist.ts:90-111 | Normal return means that the sink accepted an observation of the resumed session and task after the browser confirmed the submission there, that very response was collected there, and the evidence was captured and released; no submit is requested; it ends normally exactly when its steps go through |
| NeverTwice.ConfirmToCleanup | apps/browser-runner/src/assist.ts:82-138 | The three clean-up steps cannot undo the acceptance: normal return still means all of that; it ends normally exactly when its steps, the clean-up with its notes included, go through |
| NeverTwice.FinishResumed | apps/browser-runner/src/assist.ts:81-168 | No branch requests a submit; it succeeds exactly when all its steps go through, and otherwise the failure of the step that threw is given back |
| NeverTwice.GiveBack | apps/browser-runner/src/assist.ts:139-168 | The catch statement always throws: the failure itself as a post-submit one when the server took the task back, a persistence failure when it did not, or the journal's own failure; nothing but browser events is added |
| ExecuteTask.ExecuteClaimedTask | apps/browser-runner/src/run-batch.ts:129-369 | From any state between two tasks: however its attempts go, a task requests at most one submit, and all its work is its own; it asks the server for a retry once for each attempt that failed before submit in a way that allows one while an attempt and a retry endpoint were left, and for no other, and goes on exactly after those whose claim came back; the result is that of the last attempt; queued for retry means no submit request; success has the whole story of its session; a task succeeds exactly when all the steps of its last attempt go through |
| ExecuteTask.RunAttempt | apps/browser-runner/src/run-batch.ts:136-357 | One attempt requests at most one submit; its history has a retry request if and only if it failed with one due, and a retrying close only then; what the server and the human handoff answered fixes the verdict; a success has the whole story of its session |
| ExecuteTask.TryAttempt | apps/browser-runner/src/run-batch.ts:140-249 | An attempt succeeds if and only if its eighteen steps all go through, in order; otherwise the first one that throws is the last one taken, and the failure is in the phase of that step. A failure in the phases before submit leaves no intent and no submit request of this attempt; a normal end is the full course of events of its session up to the sink's acceptance |
| ExecuteTask.OnFailure | apps/browser-runner/src/run-batch.ts:250-353 | No failure branch requests a submit; the retry endpoint is asked only for a failure before submit whose disposition allows a retry while an attempt and the endpoint are left, and then always unless the failure handling itself throws; the answers fix the verdict and the close |
| ExecuteTask.RetryOrFinish | apps/browser-runner/src/run-batch.ts:252-329 | One request to the server, and its answer decides: reclaimed goes again and closes as retrying, queued ends as queued for retry and closes as retrying, left to a human ends needs-human with this error, a call that throws ends needs-human as lost coordination, and a handoff that is not persisted ends as persistence-failed |
| ExecuteTask.FinishWithHuman | apps/browser-runner/src/run-batch.ts:330-353 | Needs-human with the failure's code and phase if and only if the server took it, persistence-failed if and only if it did not |
| ExecuteTask.CloseAttempt | apps/browser-runner/src/run-batch.ts:354-357 | The close of the attempt's session is recorded with its outcome right after what went before, and a retrying close never follows an intent of the attempt |
| ExecuteTask.DeclareIntent | apps/browser-runner/src/run-batch.ts:148-156 | Returns normally only after the server and then the journal recorded the intent for this session and task, which is what a submit request needs; no submit is requested |
| ExecuteTask.SubmitOnce | apps/browser-runner/src/run-batch.ts:157-173 | One submit request at most; a failure that allows recovery in the same session is noted and counts as submitted, any other is the caller's |
| ExecuteTask.ConfirmWithSameSessionRecovery | apps/browser-runner/src/run-batch.ts:385-411 | Tries again exactly after a failure that allows it and while recoveries are left, and the last try is the result; it adds nothing but browser events, and returns normally only once the browser confirmed this session, with the session's history at exactly that point |
| ExecuteTask.CollectWithSameSessionRecovery | apps/browser-runner/src/run-batch.ts:413-438 | The same rule of recovery; the response it returns is the one the browser collected in this session, which stands in its history once |
| ExecuteTask.SubmitAndCollect | apps/browser-runner/src/run-batch.ts:157-199 | The session's events from the submit request to the collected response, in order, confirmation recorded in between |
| ExecuteTask.CaptureAndPersist | apps/browser-runner/src/run-batch.ts:201-249 | The observation is of this session, task and response; the session's history goes on with captured and released evidence and ends in the sink's acceptance of it |
| RunBatch.RunBatch | apps/browser-runner/src/run-batch.ts:32-123 | With a task limit or without, and however the run ends: its results are those of the rounds that took place, in order, and it goes on exactly while no round stopped it and the limit is not reached; the summary's counts are the numbers of its results of each kind and its status says what the rounds did; every success has its whole story; for each task no more submits are requested than it has results that are not a queued retry, and one more for the task at work when a round threw; claims received equal results plus that task plus claims that went back into a running task plus claims still held back |
| RunBatch.TakeRound | apps/browser-runner/src/run-batch.ts:50-88 | One round makes of what the server handed out a result, a waiting round or a drained one, as the queue state says; all it adds to the history is that task's work with at most one submit request, none for a queued retry, and a success has its whole story; a round that throws adds the work of the one task it had claimed, if any |
| RunBatch.ClaimWithRetries | apps/browser-runner/src/run-batch.ts:52-61 | Tries again exactly after a failure and at most twice; the last try is the result, so at most one claim is handed out; the tries are exactly the calls that were made |
| RunBatch.KindsMakeUpTheTotal | apps/browser-runner/src/run-batch.ts:106-118 | The three counts of a summary are the numbers of places in its results that hold a success, a needs-human result and a queued retry, and with the places that hold a persistence failure they make up its total |
| RunBatch.RoundsSay | apps/browser-runner/src/run-batch.ts:62-103 | Whether the loop stopped, drained or counts as incomplete is said by the rounds alone: it stops at a drained round, at a wait that uses up the grace, or after a result past submit of a dedicated profile, and never otherwise |
| RunBatch.StatusIsExact | apps/browser-runner/src/run-batch.ts:103-118 | Incomplete if and only if the rounds leave work: the claims failed, the grace was used up with work expected, a dedicated profile was left after a submit, or a result was not settled and not forgotten; otherwise idle exactly in an unnamed run without results, needs-human exactly when the last round was drained, and complete in the rest; and the loop ends if and only if a round stopped it or the limit is reached |
| RunBatch.UnsettledIsUnanswered | apps/browser-runner/src/run-batch.ts:98-103 | A result counts as unsettled if and only if the handoff to a human was not persisted, the request for a retry was not answered, or the failure itself carries that code |
| RunBatch.UnsettledForcesIncompleteExactly | apps/browser-runner/src/run-batch.ts:79-103 | After an unsettled result a run is incomplete if and only if it is limited to a batch or did not stop by waiting out an empty queue |
| RunBatch.OnlyBatchRunsRemember | apps/browser-runner/src/run-batch.ts:49-103 | Every schedule with an unsettled result that the loop can take, its task limit included, is incomplete if and only if the run is limited to a batch or to at most one task |
| RunBatch.LostFailure | apps/browser-runner/src/run-batch.ts:81-82 | In a run without a batch that may take a second task: a schedule with a persistence failure whose run reports itself complete |
| RemoteClient.BrowserRunnerRemoteClient.ClaimNext | apps/browser-runner/src/remote-client.ts:52-64 | The first held-back claim of the batch comes first and is removed; no claim is lost or given out twice; a lease that the server grants is active from then on, and the queue state is the one it told last |
| RemoteClient.BrowserRunnerRemoteClient.RetryPreSubmit | apps/browser-runner/src/remote-client.ts:84-99 | What the server answers fixes the result: not granted leaves it to a human, granted with the same task is reclaimed, granted with nothing or another task is queued, and the other task's claim is held back, not lost; the number of claims a caller owes a result for does not change |
| RemoteClient.BrowserRunnerRemoteClient.MarkNeedsHuman | apps/browser-runner/src/remote-client.ts:113-128 | Succeeds if and only if the server took the report without scheduling a retry; a scheduled retry is an error, and the lease goes whenever the server answered |
| RemoteClient.BrowserRunnerRemoteClient.SubmitObservation | apps/browser-runner/src/remote-client.ts:130-197 | Under an active lease what the server answers is the result, and a completed task ends its lease; without one it fails |
| RemoteClient.BrowserRunnerRemoteClient.Resume | apps/browser-runner/src/remote-client.ts:70-82 | The server's answer is the result if and only if it is a post-submit lease on the task asked for, with a session, which is active from then on |
| RemoteClient.FirstInBatch | apps/browser-runner/src/remote-client.ts:53-54 | The index of the first claim of the batch, or the length |
| BrokerClient.BrokeredSurfaceSession.Submit | apps/browser-runner/src/broker-client.ts:201-206 | One submit request at most, after which the stub has submitted; a stub that has, or a prompt other than the frozen one, throws and sends nothing; a failure that allows recovery means it was sent |
| BrokerClient.BrokeredSurfaceSession.ConfirmSubmission | apps/browser-runner/src/broker-client.ts:208-216 | Returns normally only once the browser confirmed the submission in this session, followed or not; what is heard from the broker fixes the result, a lost reply included |
| BrokerClient.BrokeredSurfaceSession.CollectResponse | apps/browser-runner/src/broker-client.ts:218-226 | The response is the one the browser collected in this session, followed or not; what is heard from the broker fixes the result, a lost reply included |
| BrokerClient.BrokeredSurfaceSession.CaptureEvidence | apps/browser-runner/src/broker-client.ts:228-250 | Returns normally only once the evidence of this session was captured and released, followed or not |
| BrokerClient.BrokeredSurfaceSession.Close | apps/browser-runner/src/broker-client.ts:264-272 | The stub is closed once the broker agreed, and only then; closing a closed stub succeeds and sends nothing; a lost reply is recoverable if and only if the stub has submitted |
| BrokerClient.CreateSession | apps/browser-runner/src/broker-client.ts:129-137 | A new stub has the id that the broker gave, is for the task and has not submitted; a lost reply leaves a retry open and a refusal comes through |
| BrokerClient.ResumeSession | apps/browser-runner/src/broker-client.ts:139-152 | A stub comes back if and only if the broker gave the expected session, and it counts as having submitted; a lost reply allows recovery |
| Wire.DeliveryIsGood | apps/browser-runner/src/broker-socket.ts:112-120 | Delivering any request under way, with any answers of the browser, keeps the accounts, the order and the followed history, and its reply proves what happened in its session |
| Wire.SubmitRequestIsGood | apps/browser-runner/src/broker-client.ts:201-206 | Requesting a submit after the intent keeps all three invariants; it is the only step that adds to what may be entered |
| Wire.BrokerSocket.Deliver | apps/browser-runner/src/broker-server.ts:58-86 | The broker's answer to one request keeps the invariants |
| Wire.BrokerSocket.Interleave | apps/browser-runner/src/broker-server.ts:58-65 | Any number of late deliveries in any order keep the invariants |
| Wire.BrokerSocket.Await | apps/browser-runner/src/broker-client.ts:71-110 | Lost, late, unanswered or answered: the invariants stay, and a reply that arrives witnesses the history |
| BrokerServer.BrokerService.Handle | apps/browser-runner/src/broker-server.ts:67-205 | One request changes the sessions and replies as the transition function says, for any answers of the adapter; what that function does and does not do is said exactly by the next rows |
| BrokerServer.OrdinaryCourse | apps/browser-runner/src/broker-server.ts:88-205 | From an empty broker a task that is created, opened, prepared, submitted, confirmed, collected and captured gets its session, its acknowledgements, one event of each step and what the browser gave, also when the submit itself throws |
| BrokerServer.ResumedCourse | apps/browser-runner/src/broker-server.ts:224-235 | So does a task that is resumed after its submit, from confirmation to capture |
| BrokerServer.CalledExactlyInTurn | apps/browser-runner/src/broker-server.ts:96-204 | On a session that the broker holds the adapter is called if and only if the request's turn has come by the session's rank, with the frozen prompt for submit and confirm, and the stored artifacts' ids for release; otherwise nothing changes |
| BrokerServer.OutOfTurnReplies | apps/browser-runner/src/broker-server.ts:96-184 | Out of turn the reply is the one the session remembers, or the refusal with its code, phase and disposition |
| BrokerServer.ThrownChangesNothing | apps/browser-runner/src/broker-server.ts:67-136 | A call that throws leaves the session as it was, except that a submit counts as entered, and its error comes through |
| BrokerServer.CallMovesOn | apps/browser-runner/src/broker-server.ts:100-183 | A call that does not moves the session to the next rank, stores the response or the artifacts, and keeps the rest |
| BrokerServer.CallReplies | apps/browser-runner/src/broker-server.ts:96-204 | The reply and the one event of such a call; a handoff under another id or of a fixture is refused, and only a close removes a session |
| BrokerServer.CreateIsExact | apps/browser-runner/src/broker-server.ts:207-222 | The factory is called if and only if the broker has no session; a session of the frozen task is given again and any other one refuses the request as busy |
| BrokerServer.ResumeIsExact | apps/browser-runner/src/broker-server.ts:224-235 | A resumed session is given if and only if it is held for the frozen task, or none is held and the factory gives back the expected id; everything else is refused and changes nothing |
| BrokerServer.FrozenIsAllButThree | apps/browser-runner/src/broker-server.ts:381-394 | Two tasks are one frozen task if and only if they agree in all fields but the surface, the route and the number of artifacts |
| BrokerServer.BrokerService.FindFrozen | apps/browser-runner/src/broker-server.ts:209-210 | Finds a session of the frozen task if and only if there is one |
| BrokerServer.RunKeepsInv | apps/browser-runner/src/broker-server.ts:88-245 | Over every request history there is at most one session, filed under its own id, with submit-started exactly from `submit_unknown` on, a response exactly from `collected` on, and evidence only in `captured` |
| BrokerServer.RankNeverFalls | apps/browser-runner/src/broker-server.ts:88-245 | Until it is closed a session stays, keeps its frozen task, never falls in rank and never replaces a stored response |
| BrokerServer.SubmitIsGuarded | apps/browser-runner/src/broker-server.ts:112-136 | The browser's submit is entered only for the frozen prompt of a session that had not submitted, and the session remembers it |
| BrokerServer.RepeatIsIdempotent | apps/browser-runner/src/broker-server.ts:96-168 | Repeating a successful open, prepare, confirm, collect or capture gives the same reply with no adapter call and no event, whatever the adapter would answer |
| BrokerServer.SubmitsAreBoundedByCreates | apps/browser-runner/src/broker-server.ts:207-235 | Over every request history the submit is entered at most once for each create request; resumed sessions never submit |
| Cohort.EverySlotIsSafe | apps/browser-runner/src/deepseek-local-capture.ts:156-190 | Over any runs, crashes and concurrent runners a slot's prompt is entered at most once, only under a complete state file; a captured slot has both evidence files, complete and hashing to the recorded digests; `Provenance.CapturedIsGiven` says where its content comes from |
| Provenance.CapturedIsGiven | apps/browser-runner/src/deepseek-local-capture.ts:296-331 | Over any runs, crashes and concurrent runners: if a slot is captured, one successful collecting step at that slot gave its answer text, its page and the bytes of both evidence files, each in its place, and its prompt was entered exactly once |
| Provenance.ReceiptIsGiven | apps/browser-runner/src/deepseek-local-capture.ts:154-229 | A complete return reports for every slot, in order, what one session there gave |
| Provenance.ManifestIsCollected | apps/browser-runner/src/deepseek-local-capture.ts:203-221 | A manifest that is there in full holds what all the slots record, under one selector |
| Provenance.CompleteIsPublished | apps/browser-runner/src/deepseek-local-capture.ts:220-229 | A complete return means that the manifest is there in full with the fingerprint of what is returned |
| Provenance.ManifestStays | apps/browser-runner/src/deepseek-local-capture.ts:408-420 | A manifest that is there in full is never replaced in any continuation |
| Provenance.SessionsAreFew | apps/browser-runner/src/deepseek-local-capture.ts:239-294 | A runner opens at most two sessions for each slot it has been at, and one for a slot that it recovers |
| Provenance.FailedOpeningIsExact | apps/browser-runner/src/deepseek-local-capture.ts:261-270 | A failure before the intent is followed by a second session if and only if it may be retried and was the first; otherwise the slot is left to a human and nothing is written |
| Provenance.FailureNotesThePage | apps/browser-runner/src/deepseek-local-capture.ts:261-294 | A failure after the intent writes the page it tells into the intent, and one of a recovery changes nothing |
| Cohort.SubmitNeedsOwnCreation | apps/browser-runner/src/deepseek-local-capture.ts:239-272 | The step that enters a prompt is of the runner that created the slot's state file, whose content is that runner's intent |
| Cohort.SlotsNeverMoveBack | apps/browser-runner/src/deepseek-local-capture.ts:402-446 | State files only move from absent or torn to intent to captured, and a captured slot keeps its observation |
| Cohort.ReceiptsAddUp | apps/browser-runner/src/deepseek-local-capture.ts:192-230 | On normal return captured and needs-human slots sum to all slots, and a complete receipt reports what each slot holds |
| Cohort.RerunOnlyReads | apps/browser-runner/src/deepseek-local-capture.ts:154-162 | Once the cohort is captured a new runner opens no session, and if it returns it is complete |
| Cohort.CompleteReturnsAgree | apps/browser-runner/src/deepseek-local-capture.ts:203-229 | Any two complete returns report the same observations |
| Cohort.CaptureIsExact | apps/browser-runner/src/deepseek-local-capture.ts:154-348 | From every consistent state without runners some continuation captures a slot if and only if it is captured, or no state file up to it is torn, those that are there are for one selector, it has no evidence file, and it is absent or an intent that names its page |
| Cohort.NothingPassesATornSlot | apps/browser-runner/src/deepseek-local-capture.ts:376-400 | A runner that starts when a state file is torn never gets past that slot in any continuation |
| Cohort.ShutForGood | apps/browser-runner/src/deepseek-local-capture.ts:376-400 | Where every runner is stopped at a torn state file, or at one for another selector than an earlier one, no run changes that slot or any behind it |
| Cohort.SpentForGood | apps/browser-runner/src/deepseek-local-capture.ts:163-167 | A slot whose intent names no page, or whose first evidence file is there without a capture, is captured by no run once nobody is at work on it |
| Cohort.CrashedCreation | apps/browser-runner/src/deepseek-local-capture.ts:426-435 | A run that is cut off between creating a state file and writing it, after which no run captures the slot |
| Cohort.CrashedRecovery | apps/browser-runner/src/deepseek-local-capture.ts:333-348 | A recovery that is cut off after creating the first evidence file, after which no run captures the slot although its prompt was entered and its page is known |
| Cohort.OrphanedForever | apps/browser-runner/src/deepseek-local-capture.ts:426-435 | A state file whose creator is gone before writing it stays torn in every continuation, with other runners at work or not, and its slot is never entered |
| Cohort.NextIsSafe | apps/browser-runner/src/deepseek-local-capture.ts:144-446 | Every operation of every runner and every crash keeps the invariants that the other results rest on |
| RawValues.SearchIsExact | apps/web/scripts/portal-language-audit.ts:1168-1224 | On every program, cyclic or not, the search with its path-local set finds exactly the expressions that a raw value flows into over some chain of declarations |
| RawValues.ExpressionProducesRawValue | apps/web/scripts/portal-language-audit.ts:1168-1224 | The search leaves the visiting set as it found it, ends, and answers as the recursive specification does |
| RawValues.IsRaw | apps/web/scripts/portal-language-audit.ts:1168-1172 | Started from scratch, true if and only if a raw value flows into the expression |
| RawValues.FlowsIsReported | apps/web/scripts/portal-language-audit.ts:1178-1188 | Marking only the current path loses nothing: a flow that returns to a declaration is cut short there |
| Glob.Compile | apps/web/scripts/portal-language-audit.ts:3177-3202 | The loop emits the text that the pattern stands for, segment by segment |
| Glob.EmittedParses | apps/web/scripts/portal-language-audit.ts:3199-3201 | The emitted text is a well-formed regular expression with the intended structure for every pattern: nothing of the pattern acts as a special character |
| Glob.CompiledMeansPattern | apps/web/scripts/portal-language-audit.ts:3177-3202 | For every pattern and path the compiled expression matches exactly when the pattern read directly does, where a double star spans no line terminator |
| Reachability.Worklist | apps/web/scripts/portal-language-audit.ts:2883-2904 | A worklist ends with exactly the keys that have a walk from a root |
| Reachability.IndexEdges | apps/web/scripts/portal-language-audit.ts:2866-2871 | The maps hold the edges by either end, in order |
| Reachability.BothSidesMakeAWalk | apps/web/scripts/portal-language-audit.ts:2908-2910 | Reachable on one side and reaching on the other is the same as lying on one walk from a semantic owner to a semantic owner |
| Reachability.OutputSurface | apps/web/scripts/portal-language-audit.ts:2877-2918 | The selected nodes and connected owners are exactly those of edges that carry the language, target a required owner, lie on a semantic walk, or are unresolved children of semantic owners |
| Reachability.WalksAreConnected | apps/web/scripts/portal-language-audit.ts:2905-2918 | Every owner on a walk between semantic owners is connected |
| Reachability.DoesNotReach | apps/web/scripts/portal-language-audit.ts:3566-3591 | The search that stops early reports exactly when nothing is required or something required has no walk from an unblocked root over declared, unblocked dependencies |
| Reachability.BlockingOnlyCuts | apps/web/scripts/portal-language-audit.ts:3553-3566 | Blocking more declarations never makes anything reachable |
| Frames.ReadFrame | apps/browser-runner/src/broker-protocol.ts:210-234 | Over every chunking the loop gives the declarative meaning of the stream, error kinds included |
| Frames.EveryChunkingReads | apps/browser-runner/src/broker-protocol.ts:200-234 | Every chunking of an encoded frame reads as what its body parses to |
| Frames.EveryPartIsTruncated | apps/browser-runner/src/broker-protocol.ts:210-234 | Every chunking of a proper prefix of a frame is refused as truncated |
| Frames.OnlyDeclaredBytesAreRead | apps/browser-runner/src/broker-protocol.ts:217-230 | A value that is read was parsed from a body of the declared length, within bounds, standing right after its header |
| BrokerRequests.RequestIsExact | apps/browser-runner/src/broker-protocol.ts:66-154 | A value parses as a request if and only if the request is well formed and the value is its own object: no field is dropped, added or mixed up |
| BrokerRequests.TaskIsExact | apps/browser-runner/src/broker-protocol.ts:236-287 | The same for a task, the optional field included |
| BrokerRequests.OtherOperations | apps/browser-runner/src/broker-protocol.ts:66-154 | A request whose operation is none of the twelve is unsupported if its name is a text of one to forty code units, and invalid otherwise |
| RequestText.RequestCrossesTheSocket | apps/browser-runner/src/broker-protocol.ts:200-234 | A well-formed request within the limit, printed by the client and read by the broker, arrives as itself under every chunking, and a stream that breaks off yields nothing |
| RequestText.WrittenIsUnderstood | apps/browser-runner/src/broker-protocol.ts:200-227 | Printing, encoding, decoding, parsing and the field names undo each other for every request |
| RequestText.RequestIsWritten | apps/browser-runner/src/broker-client.ts:154-167 | The object literal that the client builds for a request, with its field names in the order it lists them, is the request's own object |
| Utf8.RoundTripIsExact | apps/browser-runner/src/broker-protocol.ts:201-227 | A text survives being written as UTF-8 and read back if and only if its surrogates come in pairs |
| Utf8.StrayByteIsReplaced | apps/browser-runner/src/broker-protocol.ts:226-227 | A byte that no character starts with is read as one U+FFFD, and reading goes on behind it |
| Utf8.BrokenOffIsReplaced | apps/browser-runner/src/broker-protocol.ts:226-227 | The longest part of a character that is broken off is read as one U+FFFD, and reading goes on with the byte that does not belong to it; with the reading of whole characters this fixes what any bytes are read as |
| BrokerRequests.AssertExactKeys | apps/browser-runner/src/broker-protocol.ts:406-414 | The two loops accept if and only if every needed key is there and every key is needed or optional; an unknown key is reported before a missing one |
| Json.PrintRoundTrip | apps/browser-runner/src/deepseek-capture-contract.ts:306-315 | A reader recovers every value from its printed text |
| Json.StringRoundTrip | apps/browser-runner/src/deepseek-capture-contract.ts:311-314 | Strings of arbitrary code units, control characters and lone surrogates included, are recovered from their quoted form |
| Json.EscapedUnitIs | apps/browser-runner/src/deepseek-capture-contract.ts:311-314 | Which code units stand as they are, which are escaped by a letter and which by four lower-case digits, as section 25.5.2.3 of ECMA-262 has it |
| Json.PrintIsWellFormed | apps/browser-runner/src/deepseek-capture-contract.ts:143-146 | The printed text never has a lone surrogate, so encoding it for the hash replaces nothing |
| CanonicalJson.CanonicalIsExact | apps/browser-runner/src/deepseek-capture-contract.ts:306-315 | Two values have one canonical text if and only if they are the same value with objects taken as maps |
| CanonicalJson.CanonicalIsRecovered | apps/browser-runner/src/deepseek-capture-contract.ts:306-315 | The canonical text parses to the same value with the members of every object in order, is the printed text of that value, and has no lone surrogate |
| CanonicalJson.InsertionOrderIsForgotten | apps/browser-runner/src/deepseek-capture-contract.ts:308-312 | Any reordering of an object's members leaves the text unchanged |
| CanonicalJson.SortedAscends | apps/browser-runner/src/deepseek-capture-contract.ts:309-310 | Sorting keeps the keys, and each is smaller than the next ones: at the first code unit in which they differ, or as a proper prefix, the order of section 3.2.3 of RFC 8785 |
| CanonicalJson.BeforeIsSmaller | apps/browser-runner/src/deepseek-capture-contract.ts:309-310 | The comparison by which keys are sorted is the order by the first difference, for any two keys |
| CanonicalJson.EncodedTextsAreExact | apps/browser-runner/src/deepseek-capture-contract.ts:143-146 | The UTF-8 bytes that are hashed agree exactly for the same value |
| Journal.DeviceStorage.MigrateLegacyJournal | apps/browser-extension/src/storage.ts:113-129 | Goes through exactly when all entries involved validate; then every key has its winner or what it had and the legacy record is gone; otherwise nothing was written |
| Journal.DeviceStorage.EnsureJournalMigrated | apps/browser-extension/src/storage.ts:108-111 | One migration for each process, whose outcome stays, a failure too |
| Journal.DeviceStorage.SaveJournal | apps/browser-extension/src/storage.ts:60-64 | An invalid entry or a failed migration writes nothing; otherwise exactly the entry's own key changes after the migration |
| Journal.ValidatedIsExact | apps/browser-extension/src/storage.ts:156-235 | An entry validates if and only if its task id has one to two hundred code units between its white space, its details pass, and an interrupted phase stands only where a human is needed and is another phase; it is kept but for that white space |
| Journal.TrimmedIsTheMiddle | apps/browser-extension/src/storage.ts:230-235 | Trimming takes white space off the two ends and nothing else |
| Journal.CrossedIsExact | apps/browser-extension/src/storage.ts:245-248 | An entry is past the submit boundary unless it is claimed or prepared, or was when it was interrupted, or was interrupted in no phase |
| Journal.Gather | apps/browser-extension/src/storage.ts:118-126 | The loop keeps for each key the last legacy entry that may take its place |
| Journal.OwnRecordWins | apps/browser-extension/src/storage.ts:122-125 | A task's own record stays, unless only the legacy side is past the submit boundary, and then the boundary wins |
| Journal.OtherKeysAreUntouched | apps/browser-extension/src/storage.ts:113-129 | Keys that no legacy entry names are unchanged |
| Journal.BoundariesSurviveExactly | apps/browser-extension/src/storage.ts:113-129 | No crossed boundary is lost if and only if, wherever the legacy list has an entry past the boundary of a task without its own record, the last entry of that task in the list is past it too |
| Journal.RerunIsExact | apps/browser-extension/src/storage.ts:113-129 | A migration cut off between any two key writes and run again ends in the same store under that same condition, and only under it |
| Journal.ManyRerunsEndTheSame | apps/browser-extension/src/storage.ts:113-129 | After any number of cut-off migrations in a row the one that gets through can end in one store only, the one the first would have ended in |
| Journal.DistinctTasksKnowBest | apps/browser-extension/src/storage.ts:113-129 | Distinct task ids meet the condition |
| Journal.WhiteSpaceLosesABoundary | apps/browser-extension/src/storage.ts:118-125 | Two legacy entries, ids apart only in white space, for which a crossed boundary is lost |
| Background.AtMostOneAtATime | apps/browser-extension/src/background.ts:296-363 | Under every interleaving of handlers at most one scheduled run, manual recovery, manual qualification or automatic qualification past its guard is in progress, and the counter is the number of pending keys |
| Background.ReportIsSafe | apps/browser-extension/src/background.ts:88-96 | Work in progress is always reported as running, and each manual entry starts work exactly when nothing is reported |
| Background.ChainDrains | apps/browser-extension/src/background.ts:336-363 | From every consistent state the chain of automatic qualifications lets each waiting one through and empties |
| Background.BackgroundScript.Interleave | apps/browser-extension/src/background.ts:296-416 | The handlers, run one stretch after the other in any order, take the flags through the events' transitions, and never have two kinds of work in progress |
| Background.BackgroundScript.RunNow | apps/browser-extension/src/background.ts:296-308 | The handler's effect on the shared flags is the event's |
| Background.BackgroundScript.QualifySurface | apps/browser-extension/src/background.ts:310-329 | The handler's effect on the shared flags is the event's |
| Background.BackgroundScript.ScheduleAutomaticQualification | apps/browser-extension/src/background.ts:336-362 | The handler's effect on the counter, the pending keys and the chain is the event's |
| Background.BackgroundScript.AutomaticTurn | apps/browser-extension/src/background.ts:347-361 | The guard is evaluated when the turn comes, and a turn that is refused ends |
| Background.BackgroundScript.RecoverNeedsHuman | apps/browser-extension/src/background.ts:405-416 | The handler's effect on the shared flags is the event's |
| Backfill.BuildPlan | apps/worker/src/backfill-response-snapshots-policy.ts:256-324 | A plan is made if and only if the runs are the reviewed set, the cohort fits, every run and citation fits and the fingerprint agrees |
| Backfill.FitsIsExact | apps/worker/src/backfill-response-snapshots-policy.ts:279-308 | A run fits if and only if it is an answered success of the reviewed brand within the window and the channels, and its citations, as they were read, are all of its prompt, brand and model with no two at one place |
| Backfill.PlanIsTheReviewedRuns | apps/worker/src/backfill-response-snapshots-policy.ts:262-273 | A plan has each reviewed run id once, each with all of its citations and no others |
| Backfill.AssertFilteredCohort | apps/worker/src/backfill-response-snapshots-policy.ts:326-370 | Accepts if and only if the cohort is the reviewed set, or for the other brand covers it with approved snapshots and leaves no failure of the reviewed kind unreviewed |
| Backfill.GroupCitations | apps/worker/src/backfill-response-snapshots-policy.ts:512-523 | Each run's list is the sorted list of its citations |
| Backfill.GroupsConserve | apps/worker/src/backfill-response-snapshots-policy.ts:512-523 | Grouping keeps every citation in its own run's group as often as it was given, and sorts each group |
| Backfill.FingerprintIsExact | apps/worker/src/backfill-response-snapshots-policy.ts:223-254 | The hashed identity is the same for every order of runs and citations if and only if runs with one id are one run and citations of a listed run with one index are one citation |
| Backfill.FingerprintForgetsOrder | apps/worker/src/backfill-response-snapshots-policy.ts:223-254 | Under that condition every order of runs and citations gives the same identity |
| Backfill.RepeatedIndexShows | apps/worker/src/backfill-response-snapshots-policy.ts:519-521 | Two different citations of a listed run with one index, among any others, show their order |
| Backfill.Classify | apps/worker/src/backfill-response-snapshots-policy.ts:372-411 | Accepts if and only if the snapshots are of planned runs, one each, and within the reviewed cohort; then each run gets the action of its snapshot |
| Backfill.ClassifiableIsExact | apps/worker/src/backfill-response-snapshots-policy.ts:393-411 | For the brand whose failures are rebuilt, exactly the plans are accepted in which every run has a snapshot that is ready or failed as the request says |
| Backfill.ConsistentIsExact | apps/worker/src/backfill-response-snapshots-policy.ts:377-391 | The snapshots are consistent if and only if each is of a planned run, of its brand, prompt and scope, and no run has two |
| Backfill.ActionsAreExact | apps/worker/src/backfill-response-snapshots-policy.ts:393-410 | Whatever the list of snapshots: a run is rebuilt if and only if its snapshot is neither ready nor pending, or for the other brand failed as the request says; it is left pending or ready exactly by its snapshot |
| Backfill.ReviewedIsClassified | apps/worker/src/backfill-response-snapshots-policy.ts:326-411 | The review and the classification agree: a row is approved exactly when a snapshot in its state has an action, and must be reviewed exactly when that action is to rebuild |
| Backfill.DryRunAddsUp | apps/worker/src/backfill-response-snapshots-policy.ts:445-456 | Existing snapshots and those to create sum to the runs; those to create and to rebuild sum to the rebuild calls |
| Backfill.Execute | apps/worker/src/backfill-response-snapshots-policy.ts:458-485 | Whatever the chunks, rebuild is called once for each rebuild action in order, and the receipt is the tally of the answers; a rejected call ends the run there |
| Backfill.ReceiptAddsUp | apps/worker/src/backfill-response-snapshots-policy.ts:465-484 | The receipt sums to the actions, and its parts to the rebuilds and the pending ones |
| Backfill.ReceiptCounts | apps/worker/src/backfill-response-snapshots-policy.ts:458-485 | `created` is the number of rebuild calls answered ready, `failed` the number answered neither ready nor queued, and `pending` those queued with the runs left pending |
| Backfill.NothingLeftToRebuild | apps/worker/src/backfill-response-snapshots-policy.ts:372-411 | Once every rebuild has ended ready, classifying again is accepted and finds nothing to rebuild |

## Left out

- RunBatch.RunBatch: without a task limit the source's loop need not end; it is watched for any given number of rounds, and the delays between polls are left out.
- NeverTwice.ServiceLifetime: an assist whose handoff names a session that the broker has but has not prepared is left out of the sequence; `NeverTwice.TaskLifetime` covers assists with any handoff.
- ExecuteTask.ExecuteClaimedTask: the statements after the attempt loop are not modelled, because no attempt continues past the last one; numbers of retries and recoveries are any, not just 0 or 1.
- ExecuteTask.CaptureAndPersist: does not relate the saved evidence files to the captured bytes; saving is one call that may fail.
- RemoteClient.BrowserRunnerRemoteClient.SubmitObservation: the size, digest and evidence checks and the uploads before the completion request are one call that may fail.
- BrokerServer.BrokerService.Handle: a session is a value in the map that is replaced, and the queue that runs one request after the other is one call; aliasing of a session object is not captured.
- Wire.BrokerSocket.Await: a request is delivered at most once, as the code assumes; frames that are duplicated or delivered again are not modelled.
- Wire.BrokerSocket.Deliver: the digest that makes a session's id is not modelled; an adapter that would give a new session an id already in use is taken to fail.
- Cohort.NextIsSafe: the two loops are program counters of a state machine, so that runners can be interleaved and cut off between any two file operations; replacing a file by renaming is one step.
- Cohort.ReceiptsAddUp: the sort by slot id before the manifest is left out, because slots are visited in that order; the approval marker and directory checks come before the modelled part.
- RawValues.SearchIsExact: parentheses and casts are already removed from expressions, and what the syntax checks decide about a node is given.
- Glob.CompiledMeansPattern: characters are code points, as the flag of the expression makes them; lone surrogates in a pattern are not modelled.
- Reachability.OutputSurface: which owners are semantic or required and where an edge leads is given; the syntax tree that says so is not modelled.
- BrokerRequests.RequestIsExact: field names are symbols and objects are maps; the message texts of errors are left out.
- RequestText.WrittenIsUnderstood: the reader of JSON accepts what the printer prints; white space, fractions and exponents in a text from another client are not modelled.
- Json.PrintRoundTrip: numbers are safe integers; fractions, exponents and negative zero are not modelled.
- Journal.DeviceStorage.SaveJournal: the fields that migration only copies are one value, taken as already normal, with a flag for whether they validate.
- Background.AtMostOneAtATime: what the handlers do between their flags (tabs, messages, heartbeats) is only the fact that it goes on and ends.
- Backfill.BuildPlan: run ids are numbers in collation order, and hashes are a function that is given; the digest of a single run's source is not modelled.
- Messages, timestamps, delays, journal contents and the heartbeat's schedule: a journal write or a heartbeat check may fail at any time.
- Failures of journal or handoff writes inside the failure handling of an attempt: the run throws, and results are about normal returns.
- Building the list of the cohort's slots and comparing an imported set with it: a fixed list and a comparison element by element.
- Parsing broker responses, the manifest and the backfill request: exact-key parsers like the modelled ones, with no new property.
- The evidence store's files and ownership checks, sockets, HTTP, browser and database calls.
- Loading, listing and removing journal entries, and disconnecting: single reads and writes.
