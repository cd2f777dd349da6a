/** The runner's stub for a session that lives behind the broker (broker-client.ts). */
module BrokerClient {
  import opened Optional
  import opened Contracts
  import opened BrokerServer
  import opened Wire

  function TransportFailure(operation: string, phase: Phase): RunnerError {
    RunnerError(
      "broker_" + operation + "_transport_failure",
      phase,
      if phase == Submitting || phase == PostSubmit then RecoverSameSession
      else if phase == GatheringEvidence then NeedsHuman
      else SafePreSubmitRetry)
  }

  function InvalidResult(operation: string): Thrown {
    Typed(RunnerError("broker_protocol_violation", if operation == "create" then SessionOpen else PostSubmit, NeedsHuman))
  }

  /** What the caller sees of a request's fate. */
  function Received(reply: Option<Reply>, operation: string, phase: Phase): Outcome<Reply> {
    match reply
    case None => Threw(Typed(TransportFailure(operation, phase)))
    case Some(Refused(error)) => Threw(Typed(error))
    case Some(result) => Returned(result)
  }

  function Acknowledged(reply: Outcome<Reply>, operation: string): Outcome<()> {
    match reply
    case Threw(thrown) => Threw(thrown)
    case Returned(result) => if result.Ack? then Returned(()) else Threw(InvalidResult(operation))
  }

  /** What a caller gets for what was heard when only an acknowledgement is a result:
      `lost` when nothing was heard. */
  ghost predicate Acked(result: Outcome<()>, heard: Option<Reply>, lost: RunnerError) {
    match heard
    case None => result == Threw(Typed(lost))
    case Some(Refused(error)) => result == Threw(Typed(error))
    case Some(Ack) => result == Returned(())
    case Some(_) => result == Threw(Typed(RunnerError("broker_protocol_violation", PostSubmit, NeedsHuman)))
  }

  function FindKind(evidence: seq<Artifact>, kind: ArtifactKind): Option<Artifact> {
    if evidence == [] then None
    else if evidence[0].kind == kind then Some(evidence[0])
    else FindKind(evidence[1..], kind)
  }

  /** The artifact is the first one of its kind. */
  ghost predicate FirstOfKind(evidence: seq<Artifact>, kind: ArtifactKind, i: nat) {
    i < |evidence| && evidence[i].kind == kind && forall k :: 0 <= k < i ==> evidence[k].kind != kind
  }

  lemma {:induction false} FoundIsFirst(evidence: seq<Artifact>, kind: ArtifactKind)
    ensures FindKind(evidence, kind).None? <==> forall i :: 0 <= i < |evidence| ==> evidence[i].kind != kind
    ensures FindKind(evidence, kind).Some? ==>
              exists i: nat :: FirstOfKind(evidence, kind, i) && evidence[i] == FindKind(evidence, kind).value
  {
    if evidence == [] {
    } else if evidence[0].kind == kind {
      assert FirstOfKind(evidence, kind, 0);
    } else {
      FoundIsFirst(evidence[1..], kind);
      if FindKind(evidence[1..], kind).Some? {
        var i: nat :| FirstOfKind(evidence[1..], kind, i) && evidence[1..][i] == FindKind(evidence[1..], kind).value;
        assert FirstOfKind(evidence, kind, i + 1);
      }
    }
  }

  /** What a capture comes to: what was heard on the request for it, whether the two
      artifacts could be read, and then what was heard on their release. */
  ghost predicate CaptureFits(
    result: Outcome<()>, id: string, captured: Option<Reply>, read: Option<bool>, asked: Option<Request>,
    heard: Option<Reply>)
  {
    match captured
    case None =>
      read.None? && result == Threw(Typed(
        RunnerError("broker_" + "capture" + "_transport_failure", GatheringEvidence, NeedsHuman)))
    case Some(Refused(error)) => read.None? && result == Threw(Typed(error))
    case Some(EvidenceReply(evidence)) =>
      if (forall a :: a in evidence ==> a.kind != PageSnapshot) || (forall a :: a in evidence ==> a.kind != Screenshot)
      then
        read.None? && result == Threw(Typed(RunnerError("broker_protocol_violation", PostSubmit, NeedsHuman)))
      else
        && read.Some?
        && if !read.value then result == Threw(Untyped)
           else
             && ReleasesFirst(asked, id, evidence)
             && Acked(result, heard,
                      RunnerError("broker_" + "release_evidence" + "_transport_failure", GatheringEvidence, NeedsHuman))
    case Some(_) =>
      read.None? && result == Threw(Typed(RunnerError("broker_protocol_violation", PostSubmit, NeedsHuman)))
  }

  /** The release is asked for of the first page snapshot and the first screenshot. */
  ghost predicate ReleasesFirst(asked: Option<Request>, id: string, evidence: seq<Artifact>) {
    exists i: nat, j: nat :: FirstOfKind(evidence, PageSnapshot, i) && FirstOfKind(evidence, Screenshot, j)
      && asked == Some(Request.Release(id, [evidence[i].artifactId, evidence[j].artifactId]))
  }

  class BrokeredSurfaceSession {
    const id: string
    const task: RunnerTask
    const socket: BrokerSocket
    var submitted: bool
    var closed: bool

    constructor (task: RunnerTask, id: string, socket: BrokerSocket, resumed: bool)
      ensures this.task == task && this.id == id && this.socket == socket
      ensures submitted == resumed && !closed
    {
      this.task := task;
      this.id := id;
      this.socket := socket;
      submitted := resumed;
      closed := false;
    }

    /** Every request but a submit goes through here. A closed stub sends nothing. */
    method Exchange(request: Request, operation: string, phase: Phase, ghost watch: Watch)
      returns (result: Outcome<Reply>)
      requires Good(socket.Now(), watch) && Sendable(socket.Now(), request, watch)
      modifies socket, socket.broker
      ensures Good(socket.Now(), watch) && Onward(old(socket.Now()), socket.Now(), watch)
      ensures result.Returned? ==> Proved(request, result.value, socket.Now(), watch)
      ensures closed ==> result == Threw(Untyped) && socket.Now() == old(socket.Now())
      ensures !closed ==> socket.asked == Some(request) && result == Received(socket.heard, operation, phase)
    {
      hide Good, Onward, Proved;
      if closed {
        OnwardReflexive(socket.Now(), watch);
        return Threw(Untyped);
      }
      var reply := socket.Send(request, watch);
      result := Received(reply, operation, phase);
    }

    /** A session that was opened is not one that the runner has gone further with. */
    method Open(task: RunnerTask, ghost watch: Watch) returns (result: Outcome<()>)
      requires Good(socket.Now(), watch)
      modifies socket, socket.broker
      ensures Good(socket.Now(), watch) && Onward(old(socket.Now()), socket.Now(), watch)
      ensures result.Returned? && !watch.Unwatched? ==> id !in socket.spent
      ensures closed || task != this.task ==> result == Threw(Untyped)
      ensures !closed && task == this.task ==> socket.asked == Some(Request.Open(id))
      ensures !closed && task == this.task ==>
                Acked(result, socket.heard,
                      RunnerError("broker_" + "open" + "_transport_failure", SessionOpen, SafePreSubmitRetry))
    {
      hide Good, Onward;
      if task != this.task {
        OnwardReflexive(socket.Now(), watch);
        return Threw(Untyped);
      }
      var reply := Exchange(Request.Open(id), "open", SessionOpen, watch);
      result := Acknowledged(reply, "open");
    }

    method Prepare(task: RunnerTask, ghost watch: Watch) returns (result: Outcome<()>)
      requires Good(socket.Now(), watch)
      modifies socket, socket.broker
      ensures Good(socket.Now(), watch) && Onward(old(socket.Now()), socket.Now(), watch)
      ensures result.Returned? && !watch.Unwatched? ==> Past(socket.Now(), id)
      ensures closed || task != this.task ==> result == Threw(Untyped)
      ensures !closed && task == this.task ==> socket.asked == Some(Request.Prepare(id))
      ensures !closed && task == this.task ==>
                Acked(result, socket.heard,
                      RunnerError("broker_" + "prepare" + "_transport_failure", PreSubmit, SafePreSubmitRetry))
    {
      hide Good, Onward, Past;
      if task != this.task {
        OnwardReflexive(socket.Now(), watch);
        return Threw(Untyped);
      }
      var reply := Exchange(Request.Prepare(id), "prepare", PreSubmit, watch);
      result := Acknowledged(reply, "prepare");
    }

    /** Sends the submit request at most once in the life of the stub, and only for
        the frozen prompt. A failure that leaves room for recovery means that the
        request was sent. */
    method Submit(promptText: string, ghost watch: Watch) returns (result: Outcome<()>, ghost after: Watch)
      requires Good(socket.Now(), watch) && watch.AfterIntent?
      requires Preceded(socket.log, SubmitRequested(watch.claim.task, watch.sessionId))
      requires watch.level == 0 && |Tale(socket.log, watch)| == 3
      requires id == watch.sessionId && promptText == watch.claim.task.promptText
      modifies this`submitted, socket, socket.broker
      ensures Good(socket.Now(), after)
      ensures after == watch || after == Raise(watch, 1)
      ensures result != Threw(Untyped) ==> after == Raise(watch, 1)
      ensures after == watch ==> socket.log == old(socket.log)
      ensures after != watch ==>
                Grown(old(socket.log) + [SubmitRequested(watch.claim.task, watch.sessionId)], socket.log)
      ensures RequestsIn(socket.log) <= RequestsIn(old(socket.log)) + 1
      ensures submitted || promptText != task.promptText
      ensures old(submitted) || promptText != task.promptText ==> result.Threw? && socket.Now() == old(socket.Now())
      ensures old(submitted) || promptText != task.promptText || closed ==> result == Threw(Untyped)
      ensures !old(submitted) && promptText == task.promptText && !closed ==>
                socket.asked == Some(Request.Submit(id, promptText))
      ensures !old(submitted) && promptText == task.promptText && !closed ==>
                Acked(result, socket.heard,
                      RunnerError("broker_" + "submit" + "_transport_failure", Submitting, RecoverSameSession))
    {
      hide Good, Grown, Tale;
      after := watch;
      if promptText != task.promptText || submitted {
        return Threw(Untyped), after;
      }
      submitted := true;
      if closed {
        return Threw(Untyped), after;
      }
      var reply := socket.SendSubmit(watch, id, promptText);
      after := Raise(watch, 1);
      result := Acknowledged(Received(reply, "submit", Submitting), "submit");
    }

    method ConfirmSubmission(promptText: string, ghost watch: Watch) returns (result: Outcome<()>)
      requires Good(socket.Now(), watch) && (!watch.Unwatched? ==> id in socket.spent)
      requires watch.AfterIntent? ==>
                 watch.level == 2 && id == watch.sessionId && promptText == watch.claim.task.promptText
      modifies socket, socket.broker
      ensures Good(socket.Now(), watch) && Onward(old(socket.Now()), socket.Now(), watch)
      ensures result.Returned? ==> BrowserConfirmed(id) in socket.log
      ensures closed || promptText != task.promptText || !submitted ==> result == Threw(Untyped)
      ensures !closed && promptText == task.promptText && submitted ==> socket.asked == Some(Confirm(id, promptText))
      ensures !closed && promptText == task.promptText && submitted ==>
                Acked(result, socket.heard,
                      RunnerError("broker_" + "confirm" + "_transport_failure", PostSubmit, RecoverSameSession))
      ensures watch.AfterIntent? && result.Returned? ==> |Tale(socket.log, watch)| >= 6
    {
      hide Good, Onward, Tale;
      if promptText != task.promptText || !submitted {
        OnwardReflexive(socket.Now(), watch);
        return Threw(Untyped);
      }
      var reply := Exchange(Confirm(id, promptText), "confirm", PostSubmit, watch);
      result := Acknowledged(reply, "confirm");
    }

    method CollectResponse(ghost watch: Watch) returns (result: Outcome<SurfaceResponse>)
      requires Good(socket.Now(), watch) && (!watch.Unwatched? ==> id in socket.spent)
      requires watch.AfterIntent? ==> watch.level == 3 && id == watch.sessionId
      modifies socket, socket.broker
      ensures Good(socket.Now(), watch) && Onward(old(socket.Now()), socket.Now(), watch)
      ensures result.Returned? ==> ResponseCollected(id, result.value) in socket.log
      ensures closed ==> result == Threw(Untyped)
      ensures !closed ==> socket.asked == Some(Collect(id))
      ensures !closed ==>
                match socket.heard
                case None =>
                  result == Threw(Typed(
                    RunnerError("broker_" + "collect" + "_transport_failure", PostSubmit, RecoverSameSession)))
                case Some(Refused(error)) => result == Threw(Typed(error))
                case Some(ResponseReply(response)) => result == Returned(response)
                case Some(_) =>
                  result == Threw(Typed(RunnerError("broker_protocol_violation", PostSubmit, NeedsHuman)))
      ensures watch.AfterIntent? && result.Returned? ==>
                && |Tale(socket.log, watch)| >= 8
                && ReceivedAt(Some(result.value), Tale(socket.log, watch), watch)
    {
      hide Good, Onward, Tale, ReceivedAt;
      var reply := Exchange(Collect(id), "collect", PostSubmit, watch);
      match reply
      case Threw(thrown) => result := Threw(thrown);
      case Returned(value) =>
        if value.ResponseReply? {
          result := Returned(value.response);
        } else {
          result := Threw(InvalidResult("collect"));
        }
    }

    /** Captures, reads and releases the evidence. `captured` is what was heard on the
        capture, `read` whether the artifacts could be read, if it came to that. */
    method CaptureEvidence(ghost watch: Watch)
      returns (result: Outcome<()>, ghost after: Watch, ghost captured: Option<Reply>, ghost read: Option<bool>)
      requires Good(socket.Now(), watch) && (!watch.Unwatched? ==> id in socket.spent)
      requires watch.AfterIntent? ==> watch.level == 4 && id == watch.sessionId
      modifies socket, socket.broker
      ensures Good(socket.Now(), after)
      ensures Onward(old(socket.Now()), socket.Now(), watch)
      ensures closed ==> result == Threw(Untyped)
      ensures !closed ==> CaptureFits(result, id, captured, read, socket.asked, socket.heard)
      ensures after == watch || after == Raise(watch, 5)
      ensures result.Returned? ==> after == Raise(watch, 5)
      ensures result.Returned? ==> Secured(socket.log, id)
      ensures watch.AfterIntent? && result.Returned? ==> |Tale(socket.log, after)| >= 10
    {
      hide Good, Onward, Tale, SealedAt, OnCourse, FindKind, FirstOfKind, Acked;
      after := watch;
      ghost var before := socket.Now();
      var reply := Exchange(Capture(id), "capture", GatheringEvidence, watch);
      captured, read := socket.heard, None;
      if reply.Threw? {
        return Threw(reply.thrown), after, captured, read;
      }
      if !reply.value.EvidenceReply? {
        return Threw(InvalidResult("capture")), after, captured, read;
      }
      var page := FindKind(reply.value.evidence, PageSnapshot);
      var screenshot := FindKind(reply.value.evidence, Screenshot);
      FoundIsFirst(reply.value.evidence, PageSnapshot);
      FoundIsFirst(reply.value.evidence, Screenshot);
      if page.None? || screenshot.None? {
        return Threw(InvalidResult("capture")), after, captured, read;
      }
      var readable: bool := *;
      read := Some(readable);
      if !readable {
        return Threw(Untyped), after, captured, read;
      }
      if watch.AfterIntent? {
        GoodIsOnCourse(socket.Now(), watch);
        RaiseIsGood(socket.Now(), watch, 5);
      }
      after := Raise(watch, 5);
      ghost var middle := socket.Now();
      OnwardMeans(before, middle, watch);
      var released := Release(page.value.artifactId, screenshot.value.artifactId, after);
      RaisedOnward(middle, socket.Now(), watch, after);
      OnwardTransitive(before, middle, socket.Now(), watch);
      OnwardHolds(middle, socket.Now(), watch, EvidenceCaptured(id, reply.value.evidence));
      result := released;
    }

    method Release(page: string, screenshot: string, ghost watch: Watch) returns (result: Outcome<()>)
      requires Good(socket.Now(), watch) && (!watch.Unwatched? ==> id in socket.spent)
      requires watch.AfterIntent? ==> watch.level == 5 && id == watch.sessionId
      modifies socket, socket.broker
      ensures Good(socket.Now(), watch) && Onward(old(socket.Now()), socket.Now(), watch)
      ensures result.Returned? ==> EvidenceReleased(id) in socket.log
      ensures closed ==> result == Threw(Untyped)
      ensures !closed ==> socket.asked == Some(Request.Release(id, [page, screenshot]))
      ensures !closed ==>
                Acked(result, socket.heard,
                      RunnerError("broker_" + "release_evidence" + "_transport_failure", GatheringEvidence, NeedsHuman))
      ensures watch.AfterIntent? && result.Returned? ==> |Tale(socket.log, watch)| >= 10
    {
      hide Good, Onward, Tale;
      var reply := Exchange(Request.Release(id, [page, screenshot]), "release_evidence", GatheringEvidence, watch);
      result := Acknowledged(reply, "release_evidence");
    }

    method HandoffMetadata(ghost watch: Watch) returns (result: Outcome<SessionMetadata>)
      requires Good(socket.Now(), watch)
      modifies socket, socket.broker
      ensures Good(socket.Now(), watch) && Onward(old(socket.Now()), socket.Now(), watch)
      ensures closed ==> result == Threw(Untyped)
      ensures !closed ==> socket.asked == Some(HandoffOf(id))
      ensures !closed ==>
                match socket.heard
                case None =>
                  result == Threw(Typed(
                    RunnerError("broker_" + "handoff" + "_transport_failure", PostSubmit, RecoverSameSession)))
                case Some(Refused(error)) => result == Threw(Typed(error))
                case Some(HandoffReply(metadata)) =>
                  result == if metadata.sessionId == id then Returned(metadata)
                            else Threw(Typed(RunnerError("broker_protocol_violation", PostSubmit, NeedsHuman)))
                case Some(_) =>
                  result == Threw(Typed(RunnerError("broker_protocol_violation", PostSubmit, NeedsHuman)))
    {
      hide Good, Onward;
      var reply := Exchange(HandoffOf(id), "handoff", PostSubmit, watch);
      match reply
      case Threw(thrown) => result := Threw(thrown);
      case Returned(value) =>
        if value.HandoffReply? && value.metadata.sessionId == id {
          result := Returned(value.metadata);
        } else {
          result := Threw(InvalidResult("handoff"));
        }
    }

    /** Closes the stub once the broker has agreed; a closed one sends nothing. */
    method Close(outcome: CloseOutcome, ghost watch: Watch) returns (result: Outcome<()>)
      requires Good(socket.Now(), watch)
      modifies this`closed, socket, socket.broker
      ensures Good(socket.Now(), watch) && Onward(old(socket.Now()), socket.Now(), watch)
      ensures closed == (old(closed) || result.Returned?)
      ensures old(closed) ==> result == Returned(()) && socket.Now() == old(socket.Now())
      ensures !old(closed) ==> socket.asked == Some(Request.Close(id, outcome))
      ensures !old(closed) ==>
                Acked(result, socket.heard,
                      if submitted then RunnerError("broker_" + "close" + "_transport_failure", PostSubmit, RecoverSameSession)
                      else RunnerError("broker_" + "close" + "_transport_failure", SessionOpen, SafePreSubmitRetry))
    {
      hide Good, Onward;
      if closed {
        OnwardReflexive(socket.Now(), watch);
        return Returned(());
      }
      var reply := Exchange(Request.Close(id, outcome), "close", if submitted then PostSubmit else SessionOpen, watch);
      result := Acknowledged(reply, "close");
      if result.Returned? {
        closed := true;
      }
    }
  }

  /** The session's evidence was captured and released. */
  ghost predicate Secured(log: seq<Event>, id: string) {
    EvidenceReleased(id) in log && exists artifacts :: EvidenceCaptured(id, artifacts) in log
  }

  lemma RaisedOnward(earlier: Net, later: Net, watch: Watch, after: Watch)
    requires Onward(earlier, later, after) && (after.Unwatched? <==> watch.Unwatched?)
    ensures Onward(earlier, later, watch)
  {
  }

  lemma OnwardHolds(earlier: Net, later: Net, watch: Watch, event: Event)
    requires Onward(earlier, later, watch) && event in earlier.log
    ensures event in later.log
  {
    var k :| 0 <= k < |earlier.log| && earlier.log[k] == event;
    assert later.log[k] == event;
  }

  /** Asks the broker for a session on a claimed task. */
  method CreateSession(socket: BrokerSocket, task: RunnerTask, attempt: nat, ghost watch: Watch)
    returns (result: Outcome<BrokeredSurfaceSession>)
    requires Good(socket.Now(), watch)
    modifies socket, socket.broker
    ensures Good(socket.Now(), watch) && Onward(old(socket.Now()), socket.Now(), watch)
    ensures result.Returned? ==>
              && fresh(result.value)
              && result.value.socket == socket && result.value.task == task && !result.value.submitted
              && !result.value.closed
    ensures socket.asked == Some(Create(task, attempt))
    ensures match socket.heard
            case None =>
              result == Threw(Typed(RunnerError("broker_" + "create" + "_transport_failure", SessionOpen, SafePreSubmitRetry)))
            case Some(Refused(error)) => result == Threw(Typed(error))
            case Some(SessionReply(id)) => result.Returned? && result.value.id == id
            case Some(_) => result == Threw(Typed(RunnerError("broker_protocol_violation", SessionOpen, NeedsHuman)))
  {
    hide Good, Onward, Proved;
    var reply := socket.Send(Create(task, attempt), watch);
    var received := Received(reply, "create", SessionOpen);
    match received
    case Threw(thrown) => result := Threw(thrown);
    case Returned(value) =>
      if value.SessionReply? {
        var session := new BrokeredSurfaceSession(task, value.sessionId, socket, false);
        result := Returned(session);
      } else {
        result := Threw(InvalidResult("create"));
      }
  }

  /** Takes up the session of an earlier run. Such a session never submits. */
  method ResumeSession(
    socket: BrokerSocket, task: RunnerTask, profileDirectory: string, lastPageUrl: string, expectedSessionId: string,
    ghost watch: Watch)
    returns (result: Outcome<BrokeredSurfaceSession>)
    requires Good(socket.Now(), watch) && !watch.AfterIntent?
    requires watch.BeforeIntent? ==> expectedSessionId in socket.spent
    modifies socket, socket.broker
    ensures Good(socket.Now(), watch) && Onward(old(socket.Now()), socket.Now(), watch)
    ensures result.Returned? ==>
              && fresh(result.value)
              && result.value.socket == socket && result.value.task == task && result.value.submitted
              && result.value.id == expectedSessionId && !result.value.closed
    ensures socket.asked == Some(Resume(task, profileDirectory, lastPageUrl, expectedSessionId))
    ensures match socket.heard
            case None =>
              result == Threw(Typed(RunnerError("broker_" + "resume" + "_transport_failure", PostSubmit, RecoverSameSession)))
            case Some(Refused(error)) => result == Threw(Typed(error))
            case Some(SessionReply(id)) =>
              if id == expectedSessionId then result.Returned?
              else result == Threw(Typed(RunnerError("broker_protocol_violation", PostSubmit, NeedsHuman)))
            case Some(_) => result == Threw(Typed(RunnerError("broker_protocol_violation", PostSubmit, NeedsHuman)))
  {
    hide Good, Onward, Proved;
    var reply := socket.Send(Resume(task, profileDirectory, lastPageUrl, expectedSessionId), watch);
    var received := Received(reply, "resume", PostSubmit);
    match received
    case Threw(thrown) => result := Threw(thrown);
    case Returned(value) =>
      if value.SessionReply? && value.sessionId == expectedSessionId {
        var session := new BrokeredSurfaceSession(task, value.sessionId, socket, true);
        result := Returned(session);
      } else {
        result := Threw(InvalidResult("resume"));
      }
  }
}
