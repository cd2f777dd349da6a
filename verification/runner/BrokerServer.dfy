/** The single-session browser broker (broker-server.ts). */
module BrokerServer {
  import opened Counting
  import opened Optional
  import opened Contracts

  datatype SessionState =
    | Created | Opened | Prepared | SubmitUnknown | Submitted | Confirmed | Collected | Captured

  function Rank(state: SessionState): nat {
    match state
    case Created => 0
    case Opened => 1
    case Prepared => 2
    case SubmitUnknown => 3
    case Submitted => 4
    case Confirmed => 5
    case Collected => 6
    case Captured => 7
  }

  datatype ActiveSession = ActiveSession(
    task: RunnerTask,
    sessionId: string,
    state: SessionState,
    submitStarted: bool,
    response: Option<SurfaceResponse>,
    evidence: Option<seq<Artifact>>)
  {
    /** How the fields of one session fit together. */
    predicate Consistent() {
      && (submitStarted <==> Rank(state) >= Rank(SubmitUnknown))
      && (response.Some? <==> Rank(state) >= Rank(Collected))
      && (evidence.Some? ==> state == Captured)
    }
  }

  type Sessions = map<string, ActiveSession>

  /** What the browser adapter, the session factory and the evidence store answer
      when the broker calls them: they throw, or the call has this result. */
  datatype Answers = Answers(
    thrown: Option<Thrown>,
    newSessionId: string,
    response: SurfaceResponse,
    artifacts: seq<Artifact>,
    metadata: SessionMetadata)

  /** The effect of one request: the sessions after it, the reply, whether the
      browser or the evidence store was called, and the events behind the broker. */
  datatype Step = Step(sessions: Sessions, reply: Reply, called: bool, events: seq<Event>)

  const SEQUENCE_VIOLATION := RunnerError("broker_sequence_violation", PostSubmit, NeedsHuman)

  function PhaseOf(request: Request): Phase {
    match request
    case Create(_, _) => SessionOpen
    case Open(_) => SessionOpen
    case Prepare(_) => PreSubmit
    case Submit(_, _) => Submitting
    case Capture(_) => GatheringEvidence
    case Release(_, _) => GatheringEvidence
    case _ => PostSubmit
  }

  predicate SameFrozenTask(left: RunnerTask, right: RunnerTask) {
    && left.id == right.id
    && left.batchId == right.batchId
    && left.brandId == right.brandId
    && left.promptText == right.promptText
    && left.sampleIndex == right.sampleIndex
    && left.sessionRequirement == right.sessionRequirement
    && left.searchRequirement == right.searchRequirement
    && left.evaluationRole == right.evaluationRole
    && left.automationAttemptCount == right.automationAttemptCount
    && left.leaseGeneration == right.leaseGeneration
  }

  /** At most one session, filed under its own id, with consistent fields. */
  ghost predicate BrokerInv(sessions: Sessions) {
    && (forall a, b :: a in sessions && b in sessions ==> a == b)
    && (forall id :: id in sessions ==> sessions[id].sessionId == id && sessions[id].Consistent())
  }

  ghost predicate HoldsTask(sessions: Sessions, task: RunnerTask, id: string) {
    id in sessions && SameFrozenTask(sessions[id].task, task)
  }

  // ---- What one request does ------------------------------------------------

  function Quiet(sessions: Sessions, reply: Reply): Step {
    Step(sessions, reply, false, [])
  }

  function Failed(sessions: Sessions, request: Request, thrown: Thrown): Step {
    Step(sessions, Refused(Normalize(thrown, PhaseOf(request))), true, [])
  }

  ghost function Dispatch(sessions: Sessions, request: Request, answers: Answers): Step {
    match request
    case Ping => Quiet(sessions, Pong)
    case Create(task, _) => DispatchCreate(sessions, request, answers)
    case Resume(_, _, _, _) => DispatchResume(sessions, request, answers)
    case _ =>
      if request.sessionId !in sessions then Quiet(sessions, Refused(SEQUENCE_VIOLATION))
      else DispatchOn(sessions, request, sessions[request.sessionId], answers)
  }

  ghost function DispatchCreate(sessions: Sessions, request: Request, answers: Answers): Step
    requires request.Create?
  {
    if exists id :: HoldsTask(sessions, request.task, id) then
      var id :| HoldsTask(sessions, request.task, id);
      Quiet(sessions, SessionReply(sessions[id].sessionId))
    else if sessions != map[] then
      Quiet(sessions, Refused(RunnerError("dedicated_profile_busy", SessionOpen, NeedsHuman)))
    else if answers.thrown.Some? then
      Failed(sessions, request, answers.thrown.value)
    else
      var id := answers.newSessionId;
      Step(sessions[id := ActiveSession(request.task, id, Created, false, None, None)], SessionReply(id), true, [])
  }

  function DispatchResume(sessions: Sessions, request: Request, answers: Answers): Step
    requires request.Resume?
  {
    var id := request.expectedSessionId;
    if id in sessions then
      if SameFrozenTask(sessions[id].task, request.task) then Quiet(sessions, SessionReply(sessions[id].sessionId))
      else Quiet(sessions, Refused(SEQUENCE_VIOLATION))
    else if sessions != map[] then
      Quiet(sessions, Refused(SEQUENCE_VIOLATION))
    else if answers.thrown.Some? then
      Failed(sessions, request, answers.thrown.value)
    else if answers.newSessionId != id then
      Step(sessions, Refused(SEQUENCE_VIOLATION), true, [])
    else
      Step(sessions[id := ActiveSession(request.task, id, Submitted, true, None, None)], SessionReply(id), true, [])
  }

  /** The reply a request gets without any adapter call: a remembered result, or
      a refusal. None when the adapter has to be called. */
  function Guard(request: Request, active: ActiveSession): Option<Reply>
    requires !request.Ping? && !request.Create? && !request.Resume?
  {
    match request
    case Open(_) =>
      if active.state == Opened then Some(Ack)
      else if active.state != Created then Some(Refused(SEQUENCE_VIOLATION)) else None
    case Prepare(_) =>
      if active.state == Prepared then Some(Ack)
      else if active.state != Opened then Some(Refused(SEQUENCE_VIOLATION)) else None
    case Submit(_, promptText) =>
      if promptText != active.task.promptText then
        Some(Refused(RunnerError("broker_frozen_prompt_mismatch", Submitting, NeedsHuman)))
      else if active.submitStarted then
        Some(Refused(RunnerError("broker_duplicate_submit", Submitting, NeedsHuman)))
      else if active.state != Prepared then Some(Refused(SEQUENCE_VIOLATION)) else None
    case Confirm(_, promptText) =>
      if promptText != active.task.promptText then
        Some(Refused(RunnerError("broker_frozen_prompt_mismatch", PostSubmit, NeedsHuman)))
      else if active.state == Confirmed then Some(Ack)
      else if active.state != SubmitUnknown && active.state != Submitted then Some(Refused(SEQUENCE_VIOLATION))
      else None
    case Collect(_) =>
      if active.response.Some? then Some(ResponseReply(active.response.value))
      else if active.state != SubmitUnknown && active.state != Submitted && active.state != Confirmed then
        Some(Refused(SEQUENCE_VIOLATION))
      else None
    case Capture(_) =>
      if active.evidence.Some? then Some(EvidenceReply(active.evidence.value))
      else if active.state != Collected then Some(Refused(SEQUENCE_VIOLATION)) else None
    case Release(_, artifactIds) =>
      if active.evidence.None? then Some(Refused(SEQUENCE_VIOLATION))
      else if multiset(artifactIds) != multiset(ArtifactIds(active.evidence.value)) then
        Some(Refused(RunnerError("broker_evidence_identity_mismatch", GatheringEvidence, NeedsHuman)))
      else None
    case HandoffOf(_) => None
    case Close(_, _) => None
  }

  /** The session after the adapter was called. */
  function After(active: ActiveSession, request: Request, answers: Answers): ActiveSession {
    if answers.thrown.Some? then
      if request.Submit? then active.(submitStarted := true, state := SubmitUnknown) else active
    else
      match request
      case Open(_) => active.(state := Opened)
      case Prepare(_) => active.(state := Prepared)
      case Submit(_, _) => active.(submitStarted := true, state := Submitted)
      case Confirm(_, _) => active.(state := Confirmed)
      case Collect(_) => active.(response := Some(answers.response), state := Collected)
      case Capture(_) => active.(evidence := Some(answers.artifacts), state := Captured)
      case Release(_, _) => active.(evidence := None)
      case _ => active
  }

  function ReplyTo(active: ActiveSession, request: Request, answers: Answers): Reply {
    if answers.thrown.Some? then Refused(Normalize(answers.thrown.value, PhaseOf(request)))
    else
      match request
      case Collect(_) => ResponseReply(answers.response)
      case Capture(_) => EvidenceReply(answers.artifacts)
      case HandoffOf(_) =>
        if answers.metadata.sessionId != active.sessionId || answers.metadata.fixture then
          Refused(RunnerError("broker_session_identity_mismatch", PostSubmit, NeedsHuman))
        else HandoffReply(answers.metadata)
      case _ => Ack
  }

  /** The browser's submit counts as entered even when it then throws. */
  function EventsOf(request: Request, answers: Answers): seq<Event> {
    if request.Submit? then [BrowserSubmit(request.sessionId, request.promptText)]
    else if answers.thrown.Some? then []
    else
      match request
      case Confirm(id, _) => [BrowserConfirmed(id)]
      case Collect(id) => [ResponseCollected(id, answers.response)]
      case Capture(id) => [EvidenceCaptured(id, answers.artifacts)]
      case Release(id, _) => [EvidenceReleased(id)]
      case _ => []
  }

  function DispatchOn(sessions: Sessions, request: Request, active: ActiveSession, answers: Answers): Step
    requires !request.Ping? && !request.Create? && !request.Resume?
    requires request.sessionId in sessions
  {
    var id := request.sessionId;
    var guarded := Guard(request, active);
    if guarded.Some? then Quiet(sessions, guarded.value)
    else
      Step(if request.Close? && answers.thrown.None? then sessions - {id}
           else sessions[id := After(active, request, answers)],
           ReplyTo(active, request, answers), true, EventsOf(request, answers))
  }

  function ArtifactIds(artifacts: seq<Artifact>): seq<string> {
    seq(|artifacts|, i requires 0 <= i < |artifacts| => artifacts[i].artifactId)
  }

  // ---- The service ----------------------------------------------------------

  class BrokerService {
    var sessions: Sessions

    constructor ()
      ensures sessions == map[]
    {
      sessions := map[];
    }

    /** The session of a frozen task, if the broker holds one. */
    method FindFrozen(task: RunnerTask) returns (found: Option<string>)
      ensures found.Some? ==> HoldsTask(sessions, task, found.value)
      ensures found.None? ==> forall id :: !HoldsTask(sessions, task, id)
    {
      var rest := sessions.Keys;
      found := None;
      while rest != {} && found.None?
        invariant rest <= sessions.Keys
        invariant found.Some? ==> HoldsTask(sessions, task, found.value)
        invariant found.None? ==> forall id :: id in sessions && id !in rest ==> !HoldsTask(sessions, task, id)
        decreases rest, found.None?
      {
        var id :| id in rest;
        if SameFrozenTask(sessions[id].task, task) {
          found := Some(id);
        } else {
          rest := rest - {id};
        }
      }
    }

    /** One request of the serial queue, for whatever the adapter answers. */
    method Handle(request: Request, answer: Answers) returns (reply: Reply)
      requires BrokerInv(sessions)
      modifies this
      ensures sessions == Dispatch(old(sessions), request, answer).sessions
      ensures reply == Dispatch(old(sessions), request, answer).reply
    {
      match request {
        case Ping => reply := Pong;
        case Create(task, _) => reply := HandleCreate(task, request.attempt, answer);
        case Resume(_, _, _, _) => reply := HandleResume(request, answer);
        case _ =>
          if request.sessionId !in sessions {
            reply := Refused(SEQUENCE_VIOLATION);
          } else {
            reply := HandleActive(request, answer);
          }
      }
    }

    method HandleCreate(task: RunnerTask, attempt: nat, answer: Answers) returns (reply: Reply)
      requires BrokerInv(sessions)
      modifies this
      ensures sessions == DispatchCreate(old(sessions), Create(task, attempt), answer).sessions
      ensures reply == DispatchCreate(old(sessions), Create(task, attempt), answer).reply
    {
      var existing := FindFrozen(task);
      if existing.Some? {
        return SessionReply(sessions[existing.value].sessionId);
      }
      if |sessions| > 0 {
        return Refused(RunnerError("dedicated_profile_busy", SessionOpen, NeedsHuman));
      }
      if answer.thrown.Some? {
        return Refused(Normalize(answer.thrown.value, SessionOpen));
      }
      var id := answer.newSessionId;
      sessions := sessions[id := ActiveSession(task, id, Created, false, None, None)];
      reply := SessionReply(id);
    }

    method HandleResume(request: Request, answer: Answers) returns (reply: Reply)
      requires request.Resume?
      modifies this
      ensures sessions == DispatchResume(old(sessions), request, answer).sessions
      ensures reply == DispatchResume(old(sessions), request, answer).reply
    {
      var id := request.expectedSessionId;
      if id in sessions {
        if !SameFrozenTask(sessions[id].task, request.task) {
          return Refused(SEQUENCE_VIOLATION);
        }
        return SessionReply(sessions[id].sessionId);
      }
      if |sessions| > 0 {
        return Refused(SEQUENCE_VIOLATION);
      }
      if answer.thrown.Some? {
        return Refused(Normalize(answer.thrown.value, PostSubmit));
      }
      if answer.newSessionId != id {
        return Refused(SEQUENCE_VIOLATION);
      }
      sessions := sessions[id := ActiveSession(request.task, id, Submitted, true, None, None)];
      reply := SessionReply(id);
    }

    /** The requests that name a session the broker holds: guards first, then the
        adapter call, then the state change. */
    method HandleActive(request: Request, answer: Answers) returns (reply: Reply)
      requires !request.Ping? && !request.Create? && !request.Resume?
      requires request.sessionId in sessions
      modifies this
      ensures sessions == DispatchOn(old(sessions), request, old(sessions[request.sessionId]), answer).sessions
      ensures reply == DispatchOn(old(sessions), request, old(sessions[request.sessionId]), answer).reply
    {
      var id := request.sessionId;
      var active := sessions[id];
      var refusal := Guard(request, active);
      if refusal.Some? {
        return refusal.value;
      }
      if request.Submit? {
        sessions := sessions[id := active.(submitStarted := true, state := SubmitUnknown)];
      }
      if answer.thrown.Some? {
        return Refused(Normalize(answer.thrown.value, PhaseOf(request)));
      }
      reply := Ack;
      match request {
        case Open(_) => sessions := sessions[id := active.(state := Opened)];
        case Prepare(_) => sessions := sessions[id := active.(state := Prepared)];
        case Submit(_, _) => sessions := sessions[id := sessions[id].(state := Submitted)];
        case Confirm(_, _) => sessions := sessions[id := active.(state := Confirmed)];
        case Collect(_) =>
          sessions := sessions[id := active.(response := Some(answer.response), state := Collected)];
          reply := ResponseReply(answer.response);
        case Capture(_) =>
          sessions := sessions[id := active.(evidence := Some(answer.artifacts), state := Captured)];
          reply := EvidenceReply(answer.artifacts);
        case Release(_, _) => sessions := sessions[id := active.(evidence := None)];
        case HandoffOf(_) =>
          if answer.metadata.sessionId != active.sessionId || answer.metadata.fixture {
            return Refused(RunnerError("broker_session_identity_mismatch", PostSubmit, NeedsHuman));
          }
          reply := HandoffReply(answer.metadata);
        case Close(_, _) => sessions := sessions - {id};
      }
    }
  }

  // ---- Every request keeps the broker consistent ------------------------------

  lemma AfterIsConsistent(active: ActiveSession, request: Request, answers: Answers)
    requires !request.Ping? && !request.Create? && !request.Resume?
    requires active.Consistent() && Guard(request, active).None?
    ensures var after := After(active, request, answers);
            after.Consistent() && after.sessionId == active.sessionId && Advanced(active, after)
  {
  }

  lemma DispatchKeepsInv(sessions: Sessions, request: Request, answers: Answers)
    requires BrokerInv(sessions)
    ensures BrokerInv(Dispatch(sessions, request, answers).sessions)
  {
    hide After, Guard, Advanced, ReplyTo, EventsOf;
    if !request.Ping? && !request.Create? && !request.Resume? && request.sessionId in sessions {
      var active := sessions[request.sessionId];
      if Guard(request, active).None? {
        AfterIsConsistent(active, request, answers);
      }
    }
  }

  /** The browser's submit is entered only for the frozen prompt of a session that
      never submitted before, and that session remembers it. */
  lemma SubmitIsGuarded(sessions: Sessions, request: Request, answers: Answers, event: Event)
    requires BrokerInv(sessions)
    requires event in Dispatch(sessions, request, answers).events && event.BrowserSubmit?
    ensures event.sessionId in sessions
    ensures sessions[event.sessionId].task.promptText == event.promptText
    ensures !sessions[event.sessionId].submitStarted
    ensures event.sessionId in Dispatch(sessions, request, answers).sessions
    ensures Dispatch(sessions, request, answers).sessions[event.sessionId].submitStarted
    ensures request == Submit(event.sessionId, event.promptText)
  {
  }

  /** Repeating a successful open, prepare, confirm, collect or capture gives the
      same reply from the remembered state: no adapter call and no event, whatever
      the adapter would answer the second time. */
  lemma RepeatIsIdempotent(sessions: Sessions, request: Request, first: Answers, second: Answers)
    requires request.Open? || request.Prepare? || request.Confirm? || request.Collect? || request.Capture?
    requires !Dispatch(sessions, request, first).reply.Refused?
    ensures var done := Dispatch(sessions, request, first);
            Dispatch(done.sessions, request, second) == Step(done.sessions, done.reply, false, [])
  {
  }

  // ---- What the broker does for a client that keeps to the course --------------------

  /** Two tasks are the same frozen task when they agree in all but the surface, the route
      and the number of artifacts. */
  lemma FrozenIsAllButThree(left: RunnerTask, right: RunnerTask)
    ensures SameFrozenTask(left, right) <==>
            left.(surfaceTargetKey := right.surfaceTargetKey, captureRouteKey := right.captureRouteKey,
                  minimumEvidenceArtifacts := right.minimumEvidenceArtifacts) == right
  {
  }

  /** What the broker knows that makes it call the adapter for a request to a session it
      holds. */
  ghost predicate InTurn(request: Request, active: ActiveSession)
    requires !request.Ping? && !request.Create? && !request.Resume?
  {
    match request
    case Open(_) => Rank(active.state) == 0
    case Prepare(_) => Rank(active.state) == 1
    case Submit(_, promptText) => Rank(active.state) == 2 && promptText == active.task.promptText
    case Confirm(_, promptText) => 3 <= Rank(active.state) <= 4 && promptText == active.task.promptText
    case Collect(_) => 3 <= Rank(active.state) <= 5
    case Capture(_) => Rank(active.state) == 6
    case Release(_, artifactIds) =>
      active.evidence.Some? && multiset(artifactIds) == multiset(ArtifactIds(active.evidence.value))
    case HandoffOf(_) => true
    case Close(_, _) => true
  }

  predicate OnSession(request: Request) {
    !request.Ping? && !request.Create? && !request.Resume?
  }

  /** On a session that the broker holds the adapter is called exactly for a request whose
      turn it is; otherwise nothing changes and nothing happens. */
  lemma CalledExactlyInTurn(sessions: Sessions, request: Request, answers: Answers)
    requires BrokerInv(sessions) && OnSession(request) && request.sessionId in sessions
    ensures
      var step := Dispatch(sessions, request, answers);
      && (step.called <==> InTurn(request, sessions[request.sessionId]))
      && (!step.called ==> step.sessions == sessions && step.events == [])
  {
    assert sessions[request.sessionId].Consistent();
  }

  /** What the broker remembers of an earlier call, as the reply to the same request. */
  ghost function Remembrance(request: Request, active: ActiveSession): Option<Reply> {
    match request
    case Open(_) => if Rank(active.state) == 1 then Some(Ack) else None
    case Prepare(_) => if Rank(active.state) == 2 then Some(Ack) else None
    case Confirm(_, promptText) =>
      if Rank(active.state) == 5 && promptText == active.task.promptText then Some(Ack) else None
    case Collect(_) => if active.response.Some? then Some(ResponseReply(active.response.value)) else None
    case Capture(_) => if active.evidence.Some? then Some(EvidenceReply(active.evidence.value)) else None
    case _ => None
  }

  /** The refusal of a request whose turn it is not. */
  ghost function RefusalCode(request: Request, active: ActiveSession): string {
    if (request.Submit? || request.Confirm?) && request.promptText != active.task.promptText
    then "broker_frozen_prompt_mismatch"
    else if request.Submit? && Rank(active.state) >= 3 then "broker_duplicate_submit"
    else if request.Release? && active.evidence.Some? then "broker_evidence_identity_mismatch"
    else "broker_sequence_violation"
  }

  /** Out of turn the reply is what the broker remembers, or a refusal that needs a human
      and says what was wrong. */
  lemma OutOfTurnReplies(sessions: Sessions, request: Request, answers: Answers)
    requires BrokerInv(sessions) && OnSession(request) && request.sessionId in sessions
    requires !InTurn(request, sessions[request.sessionId])
    ensures
      var active := sessions[request.sessionId];
      var reply := Dispatch(sessions, request, answers).reply;
      match Remembrance(request, active)
      case Some(remembered) => reply == remembered
      case None =>
        && reply.Refused? && reply.error.code == RefusalCode(request, active)
        && reply.error.disposition == NeedsHuman
        && reply.error.phase ==
             if reply.error.code == "broker_evidence_identity_mismatch" then GatheringEvidence
             else if request.Submit? && reply.error.code != "broker_sequence_violation" then Submitting
             else PostSubmit
  {
    assert sessions[request.sessionId].Consistent();
  }

  /** A request for a session that the broker does not hold is out of sequence. */
  lemma UnknownIsRefused(sessions: Sessions, request: Request, answers: Answers)
    requires OnSession(request) && request.sessionId !in sessions
    ensures Dispatch(sessions, request, answers)
         == Step(sessions, Refused(RunnerError("broker_sequence_violation", PostSubmit, NeedsHuman)), false, [])
  {
  }

  /** When the call throws, the error comes through and the session is as it was, except
      that a submit counts as entered, with its outcome unknown. */
  lemma ThrownChangesNothing(sessions: Sessions, request: Request, answers: Answers)
    requires BrokerInv(sessions) && OnSession(request) && request.sessionId in sessions
    requires InTurn(request, sessions[request.sessionId]) && answers.thrown.Some?
    ensures
      var active, step := sessions[request.sessionId], Dispatch(sessions, request, answers);
      && step.sessions ==
           (if request.Submit?
            then sessions[request.sessionId := active.(submitStarted := true, state := SubmitUnknown)] else sessions)
      && step.events ==
           (if request.Submit? then [BrowserSubmit(request.sessionId, active.task.promptText)] else [])
      && step.reply.Refused?
      && (answers.thrown.value.Typed? ==> step.reply.error == answers.thrown.value.error)
      && (answers.thrown.value.Untyped? ==>
            step.reply.error.code == "unexpected_runner_error" && step.reply.error.disposition == NeedsHuman
            && step.reply.error.phase ==
                 if request.Open? then SessionOpen
                 else if request.Prepare? then PreSubmit
                 else if request.Submit? then Submitting
                 else if request.Capture? || request.Release? then GatheringEvidence
                 else PostSubmit)
  {
    assert sessions[request.sessionId].Consistent();
    assert !request.Submit? ==> sessions[request.sessionId := sessions[request.sessionId]] == sessions;
  }

  /** Where a call that does not throw takes the session. */
  ghost function RankAfter(request: Request, active: ActiveSession): nat {
    match request
    case Open(_) => 1
    case Prepare(_) => 2
    case Submit(_, _) => 4
    case Confirm(_, _) => 5
    case Collect(_) => 6
    case Capture(_) => 7
    case _ => Rank(active.state)
  }

  /** When it does not, the session moves on, stores what it was given, and keeps the rest. */
  lemma CallMovesOn(sessions: Sessions, request: Request, answers: Answers)
    requires BrokerInv(sessions) && OnSession(request) && request.sessionId in sessions && !request.Close?
    requires InTurn(request, sessions[request.sessionId]) && answers.thrown.None?
    ensures
      var active, after := sessions[request.sessionId], Dispatch(sessions, request, answers).sessions;
      && after.Keys == sessions.Keys
      && var later := after[request.sessionId];
         && Rank(later.state) == RankAfter(request, active)
         && later.task == active.task && later.sessionId == active.sessionId
         && later.submitStarted == (active.submitStarted || request.Submit?)
         && later.response == (if request.Collect? then Some(answers.response) else active.response)
         && later.evidence ==
              (if request.Capture? then Some(answers.artifacts) else if request.Release? then None else active.evidence)
  {
    assert sessions[request.sessionId].Consistent();
  }

  /** The reply and the event of such a call. */
  lemma CallReplies(sessions: Sessions, request: Request, answers: Answers)
    requires BrokerInv(sessions) && OnSession(request) && request.sessionId in sessions
    requires InTurn(request, sessions[request.sessionId]) && answers.thrown.None?
    ensures
      var id, step := request.sessionId, Dispatch(sessions, request, answers);
      && (request.Open? || request.Prepare? || request.Submit? || request.Confirm? || request.Release? || request.Close?
          ==> step.reply == Ack)
      && (request.Collect? ==> step.reply == ResponseReply(answers.response))
      && (request.Capture? ==> step.reply == EvidenceReply(answers.artifacts))
      && (request.HandoffOf? ==>
            if answers.metadata.sessionId == id && !answers.metadata.fixture
            then step.reply == HandoffReply(answers.metadata)
            else step.reply == Refused(RunnerError("broker_session_identity_mismatch", PostSubmit, NeedsHuman)))
      && step.events ==
           (if request.Submit? then [BrowserSubmit(id, request.promptText)]
            else if request.Confirm? then [BrowserConfirmed(id)]
            else if request.Collect? then [ResponseCollected(id, answers.response)]
            else if request.Capture? then [EvidenceCaptured(id, answers.artifacts)]
            else if request.Release? then [EvidenceReleased(id)]
            else [])
      && (request.Close? ==> step.sessions == sessions - {id})
  {
    assert sessions[request.sessionId].Consistent();
  }

  /** A create request is answered from a session of the frozen task, is refused while the
      broker has another one, and is passed on exactly when the broker has none. */
  lemma CreateIsExact(sessions: Sessions, task: RunnerTask, attempt: nat, answers: Answers)
    requires BrokerInv(sessions)
    ensures
      var step := Dispatch(sessions, Create(task, attempt), answers);
      && (step.called <==> sessions == map[]) && step.events == []
      && (forall id :: id in sessions ==>
            && step.sessions == sessions
            && step.reply ==
                 if SameFrozenTask(sessions[id].task, task) then SessionReply(id)
                 else Refused(RunnerError("dedicated_profile_busy", SessionOpen, NeedsHuman)))
      && (step.called && answers.thrown.None? ==>
            && step.reply == SessionReply(answers.newSessionId)
            && step.sessions ==
                 map[answers.newSessionId :=
                   ActiveSession(task, answers.newSessionId, Created, false, None, None)])
      && (step.called && answers.thrown.Some? ==>
            && step.sessions == sessions
            && step.reply == Refused(
                 if answers.thrown.value.Typed? then answers.thrown.value.error
                 else RunnerError("unexpected_runner_error", SessionOpen, NeedsHuman)))
  {
    hide SameFrozenTask;
    assert forall id :: id in sessions && SameFrozenTask(sessions[id].task, task) ==> HoldsTask(sessions, task, id);
  }

  /** So is a resume request, for the session that is asked for, and only one that the
      adapter gives back under that very id is taken up, as submitted. */
  lemma ResumeIsExact(sessions: Sessions, request: Request, answers: Answers)
    requires BrokerInv(sessions) && request.Resume?
    ensures
      var id, step := request.expectedSessionId, Dispatch(sessions, request, answers);
      && (step.called <==> sessions == map[]) && step.events == []
      && (step.reply == SessionReply(id) <==>
            || (id in sessions && SameFrozenTask(sessions[id].task, request.task))
            || (sessions == map[] && answers.thrown.None? && answers.newSessionId == id))
      && (step.reply != SessionReply(id) ==> step.reply.Refused? && step.sessions == sessions)
      && (step.reply == SessionReply(id) ==>
            step.sessions ==
              if sessions != map[] then sessions
              else map[id := ActiveSession(request.task, id, Submitted, true, None, None)])
      && (step.reply.Refused? ==>
            step.reply.error ==
              if step.called && answers.thrown.Some?
              then if answers.thrown.value.Typed? then answers.thrown.value.error
                   else RunnerError("unexpected_runner_error", PostSubmit, NeedsHuman)
              else RunnerError("broker_sequence_violation", PostSubmit, NeedsHuman))
  {
  }

  /** A task that keeps to the ordinary course, with a browser that does not fail except
      perhaps in the submit, is served to its end. */
  lemma OrdinaryCourse(
    task: RunnerTask, attempt: nat, id: string, create: Answers, open: Answers, prepare: Answers, submit: Answers,
    confirm: Answers, collect: Answers, capture: Answers)
    requires create.newSessionId == id
    requires create.thrown.None? && open.thrown.None? && prepare.thrown.None? && confirm.thrown.None?
    requires collect.thrown.None? && capture.thrown.None?
    ensures
      var s0 := Dispatch(map[], Create(task, attempt), create);
      var s1 := Dispatch(s0.sessions, Open(id), open);
      var s2 := Dispatch(s1.sessions, Prepare(id), prepare);
      var s3 := Dispatch(s2.sessions, Submit(id, task.promptText), submit);
      var s4 := Dispatch(s3.sessions, Confirm(id, task.promptText), confirm);
      var s5 := Dispatch(s4.sessions, Collect(id), collect);
      var s6 := Dispatch(s5.sessions, Capture(id), capture);
      && s0.reply == SessionReply(id) && s1.reply == Ack && s2.reply == Ack
      && (submit.thrown.None? ==> s3.reply == Ack)
      && s3.events == [BrowserSubmit(id, task.promptText)]
      && s4.reply == Ack && s4.events == [BrowserConfirmed(id)]
      && s5.reply == ResponseReply(collect.response) && s5.events == [ResponseCollected(id, collect.response)]
      && s6.reply == EvidenceReply(capture.artifacts) && s6.events == [EvidenceCaptured(id, capture.artifacts)]
  {
  }

  /** So is one that is resumed after its submit. */
  lemma ResumedCourse(
    request: Request, resume: Answers, confirm: Answers, collect: Answers, capture: Answers)
    requires request.Resume? && resume.newSessionId == request.expectedSessionId
    requires resume.thrown.None? && confirm.thrown.None? && collect.thrown.None? && capture.thrown.None?
    ensures
      var id := request.expectedSessionId;
      var s0 := Dispatch(map[], request, resume);
      var s1 := Dispatch(s0.sessions, Confirm(id, request.task.promptText), confirm);
      var s2 := Dispatch(s1.sessions, Collect(id), collect);
      var s3 := Dispatch(s2.sessions, Capture(id), capture);
      && s0.reply == SessionReply(id)
      && s1.reply == Ack && s1.events == [BrowserConfirmed(id)]
      && s2.reply == ResponseReply(collect.response) && s2.events == [ResponseCollected(id, collect.response)]
      && s3.reply == EvidenceReply(capture.artifacts) && s3.events == [EvidenceCaptured(id, capture.artifacts)]
  {
  }

  // ---- Whole request histories ------------------------------------------------

  datatype Input = Input(request: Request, answers: Answers)

  ghost function Run(sessions: Sessions, inputs: seq<Input>): Sessions
    decreases |inputs|
  {
    if inputs == [] then sessions
    else Run(Dispatch(sessions, inputs[0].request, inputs[0].answers).sessions, inputs[1..])
  }

  ghost function RunEvents(sessions: Sessions, inputs: seq<Input>): seq<Event>
    decreases |inputs|
  {
    if inputs == [] then []
    else
      var step := Dispatch(sessions, inputs[0].request, inputs[0].answers);
      step.events + RunEvents(step.sessions, inputs[1..])
  }

  /** From a consistent broker, in particular the empty one, every request history
      ends in a consistent broker. */
  lemma {:induction false} RunKeepsInv(sessions: Sessions, inputs: seq<Input>)
    requires BrokerInv(sessions)
    ensures BrokerInv(Run(sessions, inputs))
    decreases |inputs|
  {
    if inputs != [] {
      DispatchKeepsInv(sessions, inputs[0].request, inputs[0].answers);
      RunKeepsInv(Dispatch(sessions, inputs[0].request, inputs[0].answers).sessions, inputs[1..]);
    }
  }

  /** `later` is the same session as `earlier`, at the same point or further on. */
  ghost predicate Advanced(earlier: ActiveSession, later: ActiveSession) {
    && later.task == earlier.task
    && Rank(earlier.state) <= Rank(later.state)
    && (earlier.submitStarted ==> later.submitStarted)
    && (earlier.response.Some? ==> later.response == earlier.response)
  }

  predicate Closes(request: Request, id: string) {
    request.Close? && request.sessionId == id
  }

  lemma DispatchAdvances(sessions: Sessions, request: Request, answers: Answers, id: string)
    requires BrokerInv(sessions) && id in sessions && !Closes(request, id)
    ensures id in Dispatch(sessions, request, answers).sessions
    ensures Advanced(sessions[id], Dispatch(sessions, request, answers).sessions[id])
  {
    hide After, Guard, ReplyTo, EventsOf;
    if !request.Ping? && !request.Create? && !request.Resume? && request.sessionId == id {
      if Guard(request, sessions[id]).None? {
        AfterIsConsistent(sessions[id], request, answers);
      }
    }
  }

  /** While a session is not closed it keeps its frozen task, its rank never falls,
      and a response it stored is never replaced. */
  lemma {:induction false} RankNeverFalls(sessions: Sessions, inputs: seq<Input>, id: string)
    requires BrokerInv(sessions) && id in sessions
    requires forall i :: 0 <= i < |inputs| ==> !Closes(inputs[i].request, id)
    ensures id in Run(sessions, inputs)
    ensures Advanced(sessions[id], Run(sessions, inputs)[id])
    decreases |inputs|
  {
    if inputs != [] {
      var next := Dispatch(sessions, inputs[0].request, inputs[0].answers).sessions;
      DispatchKeepsInv(sessions, inputs[0].request, inputs[0].answers);
      DispatchAdvances(sessions, inputs[0].request, inputs[0].answers, id);
      RankNeverFalls(next, inputs[1..], id);
    }
  }

  ghost function SubmitsIn(events: seq<Event>): nat {
    Count(events, (e: Event) => e.BrowserSubmit?)
  }

  ghost function CreatesIn(inputs: seq<Input>): nat {
    Count(inputs, (input: Input) => input.request.Create?)
  }

  /** The session that may still enter the browser's submit, if there is one. */
  ghost function Unspent(sessions: Sessions): nat {
    if exists id :: id in sessions && !sessions[id].submitStarted then 1 else 0
  }

  lemma DispatchSpends(sessions: Sessions, request: Request, answers: Answers)
    requires BrokerInv(sessions)
    ensures var step := Dispatch(sessions, request, answers);
            SubmitsIn(step.events) + Unspent(step.sessions) <= Unspent(sessions) + (if request.Create? then 1 else 0)
  {
    var events := Dispatch(sessions, request, answers).events;
    assert events == [] || events == [events[0]];
    if events != [] {
      CountOne(events[0], (e: Event) => e.BrowserSubmit?);
    }
  }

  /** Whatever the clients send, the browser's submit is entered at most once for
      each create request; resumed sessions never submit. */
  lemma {:induction false} SubmitsAreBoundedByCreates(sessions: Sessions, inputs: seq<Input>)
    requires BrokerInv(sessions)
    ensures SubmitsIn(RunEvents(sessions, inputs)) <= Unspent(sessions) + CreatesIn(inputs)
    decreases |inputs|
  {
    if inputs != [] {
      var step := Dispatch(sessions, inputs[0].request, inputs[0].answers);
      DispatchKeepsInv(sessions, inputs[0].request, inputs[0].answers);
      DispatchSpends(sessions, inputs[0].request, inputs[0].answers);
      SubmitsAreBoundedByCreates(step.sessions, inputs[1..]);
      CountConcat(step.events, RunEvents(step.sessions, inputs[1..]), (e: Event) => e.BrowserSubmit?);
    }
  }
}
