/** The values that the batch runner, the broker client and the browser broker
    exchange (contracts.ts, errors.ts, broker-protocol.ts), and the history of
    the events that the never-submit-twice results are about. */
module Contracts {

  import opened Optional

  datatype Phase = Claiming | SessionOpen | PreSubmit | Submitting | PostSubmit | GatheringEvidence | Persisting

  datatype Disposition = SafePreSubmitRetry | RecoverSameSession | NeedsHuman

  datatype RunnerError = RunnerError(code: string, phase: Phase, disposition: Disposition)

  /** A thrown JavaScript value: a BrowserRunnerError, or anything else. */
  datatype Thrown = Typed(error: RunnerError) | Untyped

  function Normalize(thrown: Thrown, phase: Phase): RunnerError {
    match thrown
    case Typed(error) => error
    case Untyped => RunnerError("unexpected_runner_error", phase, NeedsHuman)
  }

  /** The outcome of an awaited call. */
  datatype Outcome<+T> = Returned(value: T) | Threw(thrown: Thrown) {
    predicate IsFailure() { Threw? }

    function PropagateFailure<U>(): Outcome<U>
      requires Threw?
    {
      Threw(thrown)
    }

    function Extract(): T
      requires Returned?
    {
      value
    }
  }

  datatype SessionRequirement = AnonymousClean | NewAccountClean | DedicatedSamplingProfile
  datatype SearchRequirement = Forbidden | PlatformDefault
  datatype EvaluationRole = Scored | ObservationOnly
  datatype CloseOutcome = ClosedSucceeded | ClosedRetrying | ClosedNeedsHuman

  datatype RunnerTask = RunnerTask(
    id: string,
    batchId: string,
    brandId: string,
    promptText: string,
    surfaceTargetKey: string,
    captureRouteKey: string,
    sampleIndex: nat,
    sessionRequirement: SessionRequirement,
    searchRequirement: SearchRequirement,
    evaluationRole: EvaluationRole,
    minimumEvidenceArtifacts: Option<nat>,
    automationAttemptCount: nat,
    leaseGeneration: nat)

  datatype Lease = Lease(token: string, generation: nat)

  datatype ClaimedTask = ClaimedTask(
    task: RunnerTask,
    submitConfirmed: bool,
    postSubmitAssist: bool,
    runnerSessionId: Option<string>,
    lease: Option<Lease>)

  datatype SurfaceResponse = SurfaceResponse(
    answerText: string,
    answerHtml: string,
    pageUrl: string,
    webSearchObserved: Option<bool>)

  datatype ArtifactKind = PageSnapshot | Screenshot

  datatype Artifact = Artifact(artifactId: string, kind: ArtifactKind, path: string, sha256: string, bytes: nat)

  datatype SessionMetadata = SessionMetadata(
    sessionId: string,
    profileDirectory: Option<string>,
    lastPageUrl: string,
    fixture: bool)

  datatype Handoff = Handoff(
    taskId: string,
    sessionId: string,
    profileDirectory: Option<string>,
    lastPageUrl: string,
    phase: Phase,
    code: string)

  datatype Observation = Observation(
    sessionId: string,
    task: RunnerTask,
    response: SurfaceResponse,
    evidence: seq<Artifact>)

  datatype TaskResult =
    | Succeeded(taskId: string, observation: Observation)
    | RetryQueued(taskId: string, code: string)
    | PersistenceFailed(taskId: string)
    | NeedsHumanResult(taskId: string, code: string, phase: Phase)

  /** One broker request, without the envelope's version and request id. */
  datatype Request =
    | Ping
    | Create(task: RunnerTask, attempt: nat)
    | Resume(task: RunnerTask, profileDirectory: string, lastPageUrl: string, expectedSessionId: string)
    | Open(sessionId: string)
    | Prepare(sessionId: string)
    | Submit(sessionId: string, promptText: string)
    | Confirm(sessionId: string, promptText: string)
    | Collect(sessionId: string)
    | Capture(sessionId: string)
    | HandoffOf(sessionId: string)
    | Close(sessionId: string, outcome: CloseOutcome)
    | Release(sessionId: string, artifactIds: seq<string>)

  datatype Reply =
    | Pong
    | SessionReply(sessionId: string)
    | Ack
    | ResponseReply(response: SurfaceResponse)
    | EvidenceReply(evidence: seq<Artifact>)
    | HandoffReply(metadata: SessionMetadata)
    | Refused(error: RunnerError)

  /** What happened, in order. The first group is written by the runner around
      its own calls, the second by the browser behind the broker. `attempt` is a
      serial number that no two attempts share. */
  datatype Event =
    | IntentSent(attempt: nat, claim: ClaimedTask, sessionId: string)
    | IntentRecorded(claim: ClaimedTask, sessionId: string)
    | IntentJournaled(sessionId: string)
    | SubmitRequested(task: RunnerTask, sessionId: string)
    | PromptConfirmed(claim: ClaimedTask, sessionId: string)
    | SinkAccepted(observation: Observation)
    | RetryRequested(attempt: nat)
    | CloseRequested(attempt: nat, sessionId: string, outcome: CloseOutcome)
    | BrowserSubmit(sessionId: string, promptText: string)
    | BrowserConfirmed(sessionId: string)
    | ResponseCollected(sessionId: string, response: SurfaceResponse)
    | EvidenceCaptured(sessionId: string, artifacts: seq<Artifact>)
    | EvidenceReleased(sessionId: string)
  {
    /** Produced behind the broker. */
    predicate FromBrowser() {
      BrowserSubmit? || BrowserConfirmed? || ResponseCollected? || EvidenceCaptured? || EvidenceReleased?
    }

    /** About this session. */
    predicate About(id: string) {
      if SinkAccepted? then observation.sessionId == id else !RetryRequested? && sessionId == id
    }

    /** The work of a task with this id, as far as the event says whose it is. */
    predicate WorkOf(taskId: string) {
      match this
      case IntentSent(_, claim, _) => claim.task.id == taskId
      case IntentRecorded(claim, _) => claim.task.id == taskId
      case SubmitRequested(task, _) => task.id == taskId
      case PromptConfirmed(claim, _) => claim.task.id == taskId
      case SinkAccepted(observation) => observation.task.id == taskId
      case RetryRequested(_) => false
      case CloseRequested(_, _, _) => false
      case _ => true
    }
  }
}
