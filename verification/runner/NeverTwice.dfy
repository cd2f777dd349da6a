/** Post-submit assistance (assist.ts), and the results about whole lives: the run of
    a task with any number of later assists, and any batch, never enter a prompt twice. */
module NeverTwice {
  import opened Counting
  import opened Optional
  import opened Contracts
  import opened BrokerServer
  import opened Wire
  import opened BrokerClient
  import opened RemoteClient
  import opened ExecuteTask
  import opened RunBatch

  // ---- Assist -------------------------------------------------------------------

  predicate Resumable(phase: Phase) {
    phase == Submitting || phase == PostSubmit || phase == GatheringEvidence || phase == Persisting
  }

  /** What an assist may add: no submit intent and no submit request. */
  ghost predicate Assisted(earlier: seq<Event>, later: seq<Event>) {
    && earlier <= later
    && RequestsIn(later) == RequestsIn(earlier)
    && forall i :: |earlier| <= i < |later| ==> !later[i].IntentSent? && !later[i].SubmitRequested?
  }

  lemma AssistedTransitive(first: seq<Event>, second: seq<Event>, third: seq<Event>)
    requires Assisted(first, second) && Assisted(second, third)
    ensures Assisted(first, third)
  {
    assert forall i :: 0 <= i < |second| ==> second[i] == third[i];
  }

  lemma OnwardAssists(earlier: Net, later: Net, watch: Watch)
    requires Onward(earlier, later, watch)
    ensures Assisted(earlier.log, later.log)
  {
    hide RequestsIn;
  }

  lemma RecordAssists(log: seq<Event>, event: Event)
    requires !event.IntentSent? && !event.SubmitRequested?
    ensures Assisted(log, log + [event])
  {
    RequestsInConcat(log, [event]);
    CountOne(event, (e: Event) => e.SubmitRequested?);
  }

  /** The sink accepted an observation of the handed-off task and session, after the
      browser confirmed the submission there, collected that response, and captured
      and released the evidence. */
  ghost predicate Accepted(earlier: seq<Event>, later: seq<Event>, handoff: Handoff) {
    exists i :: |earlier| <= i < |later| && AcceptedAt(later, i, handoff)
  }

  ghost predicate AcceptedAt(log: seq<Event>, i: nat, handoff: Handoff)
    requires i < |log|
  {
    && log[i].SinkAccepted?
    && log[i].observation.sessionId == handoff.sessionId
    && log[i].observation.task.id == handoff.taskId
    && BrowserConfirmed(handoff.sessionId) in log[..i]
    && ResponseCollected(handoff.sessionId, log[i].observation.response) in log[..i]
    && Secured(log[..i], handoff.sessionId)
  }

  /** What a failed assist throws: the failure itself, as a post-submit one, when the server
      took the report; otherwise that it did not, or that even this could not be noted. */
  ghost predicate GivenBack(result: Outcome<()>, thrown: Thrown, report: Outcome<bool>) {
    if report == Returned(false) then
      result == Threw(Typed(
        if thrown.Typed? then thrown.error else RunnerError("unexpected_runner_error", PostSubmit, NeedsHuman)))
    else
      || result == Threw(Typed(RunnerError("needs_human_persist_failed", Persisting, NeedsHuman)))
      || result == Threw(Untyped)
  }

  /** How many steps an assist has once it has its lease: the session is taken up; confirm;
      the server is told, unless it knows; collect; capture; the evidence is saved; the
      observation is handed to the sink; and everything is cleaned up. */
  const ASSIST_STEPS: nat := 8

  /** An assist goes through exactly when all its steps do. One that fails after the
      session is taken up is given back. */
  ghost predicate Finished(result: Outcome<()>, steps: Steps, report: Option<Outcome<bool>>) {
    && 1 <= |steps| <= ASSIST_STEPS && (forall i :: 0 <= i < |steps| - 1 ==> steps[i].None?)
    && match steps[|steps| - 1]
       case None => |steps| == ASSIST_STEPS && result == Returned(()) && report.None?
       case Some(thrown) =>
         if |steps| == 1 then result == Threw(thrown) && report.None?
         else report.Some? && GivenBack(result, thrown, report.value)
  }

  /** What an assist comes to, by the handoff, the lease that the server gave, and its steps. */
  ghost predicate AssistFits(
    handoff: Handoff, result: Outcome<()>, lease: Option<Outcome<ClaimedTask>>, steps: Steps,
    report: Option<Outcome<bool>>)
  {
    if handoff.phase == SessionOpen || handoff.phase == PreSubmit || handoff.phase == Claiming then
      lease.None? && result == Threw(Typed(RunnerError("assist_pre_submit_not_resumable", PreSubmit, NeedsHuman)))
    else if handoff.profileDirectory == None || handoff.profileDirectory == Some("") then
      lease.None? && result == Threw(Typed(RunnerError("assist_profile_missing", PostSubmit, NeedsHuman)))
    else
      && lease.Some?
      && match lease.value
         case Threw(thrown) => result == Threw(thrown)
         case Returned(claimed) =>
           if claimed.runnerSessionId == Some(handoff.sessionId) then Finished(result, steps, report)
           else result == Threw(Typed(RunnerError("assist_session_mismatch", PostSubmit, NeedsHuman)))
  }

  /** Takes a submitted task to its end in the retained session. It sends no submit
      request, and asks for the very session of the durable intent. Under the orderly
      watch that session, if the broker has it, is one that was prepared. */
  method ResumePostSubmitTask(options: Options, handoff: Handoff, ghost watch: Watch)
    returns (
      result: Outcome<()>, ghost lease: Option<Outcome<ClaimedTask>>, ghost steps: Steps,
      ghost report: Option<Outcome<bool>>)
    requires Good(options.socket.Now(), watch) && !watch.AfterIntent? && options.remote.Conserved()
    requires watch.BeforeIntent? && Resumable(handoff.phase) ==>
               Retained(options.socket.broker.sessions, handoff.sessionId)
    modifies options.socket, options.socket.broker, options.remote
    ensures Good(options.socket.Now(), watch) && options.remote.Conserved()
    ensures Assisted(old(options.socket.log), options.socket.log)
    ensures AssistFits(handoff, result, lease, steps, report)
    ensures result.Returned? ==>
              && Resumable(handoff.phase) && handoff.profileDirectory.Some?
              && Accepted(old(options.socket.log), options.socket.log, handoff)
  {
    hide Good, Onward, Assisted, Accepted;
    NothingAssists(options.socket.log);
    lease, steps, report := None, [], None;
    if !Resumable(handoff.phase) {
      return Threw(Typed(RunnerError("assist_pre_submit_not_resumable", PreSubmit, NeedsHuman))), lease, steps, report;
    }
    if handoff.profileDirectory.None? || handoff.profileDirectory.value == "" {
      return Threw(Typed(RunnerError("assist_profile_missing", PostSubmit, NeedsHuman))), lease, steps, report;
    }
    var granted;
    ghost var said;
    granted, said := options.remote.Resume(handoff.taskId);
    lease := Some(granted);
    if granted.Threw? {
      return Threw(granted.thrown), lease, steps, report;
    }
    var claimed := granted.value;
    if !claimed.postSubmitAssist {
      return Threw(Typed(RunnerError("assist_resume_contract_invalid", PostSubmit, NeedsHuman))), lease, steps, report;
    }
    if claimed.runnerSessionId != Some(handoff.sessionId) {
      return Threw(Typed(RunnerError("assist_session_mismatch", PostSubmit, NeedsHuman))), lease, steps, report;
    }
    options.socket.TakeUp(handoff.sessionId, watch);
    ghost var start := options.socket.Now();
    var session := ResumeSession(
      options.socket, claimed.task, handoff.profileDirectory.value, handoff.lastPageUrl, handoff.sessionId, watch);
    ghost var middle := options.socket.Now();
    OnwardAssists(start, middle, watch);
    OnwardMeans(start, middle, watch);
    steps := StepOf(session);
    match session
    case Threw(thrown) => result := Threw(thrown);
    case Returned(resumed) =>
      ghost var further;
      result, further, report := FinishResumed(options, claimed, resumed, handoff, watch);
      steps := steps + further;
      AssistedTransitive(start.log, middle.log, options.socket.log);
      if result.Returned? {
        AcceptedSince(start.log, middle.log, options.socket.log, handoff);
      }
  }

  lemma NothingAssists(log: seq<Event>)
    ensures Assisted(log, log)
  {
  }

  lemma AcceptedSince(origin: seq<Event>, earlier: seq<Event>, later: seq<Event>, handoff: Handoff)
    requires origin <= earlier && Accepted(earlier, later, handoff)
    ensures Accepted(origin, later, handoff)
  {
  }

  lemma AcceptedLater(origin: seq<Event>, earlier: seq<Event>, later: seq<Event>, handoff: Handoff)
    requires Accepted(origin, earlier, handoff) && earlier <= later
    ensures Accepted(origin, later, handoff)
  {
    var i :| |origin| <= i < |earlier| && AcceptedAt(earlier, i, handoff);
    assert later[..i] == earlier[..i];
    assert AcceptedAt(later, i, handoff);
  }

  /** A failed attempt to finish closes the session, reports to the server, and throws. */
  method FinishResumed(
    options: Options, claimed: ClaimedTask, session: BrokeredSurfaceSession, handoff: Handoff, ghost watch: Watch)
    returns (result: Outcome<()>, ghost steps: Steps, ghost report: Option<Outcome<bool>>)
    requires session.socket == options.socket && session.id == handoff.sessionId
    requires claimed.task.id == handoff.taskId
    requires Good(options.socket.Now(), watch) && !watch.AfterIntent?
    requires watch.BeforeIntent? ==> session.id in options.socket.spent
    modifies options.socket, options.socket.broker, options.remote`activeClaims, session`closed
    ensures Good(options.socket.Now(), watch)
    ensures Assisted(old(options.socket.log), options.socket.log)
    ensures Finished(result, StepOf(Returned(())) + steps, report)
    ensures result.Returned? ==> Accepted(old(options.socket.log), options.socket.log, handoff)
  {
    hide Good, Onward, Assisted, Accepted;
    ghost var start := options.socket.log;
    report := None;
    var finished;
    finished, steps := ConfirmToCleanup(options, claimed, session, handoff, watch);
    ghost var taken := Returned(());
    WalkedOn(taken, StepOf(taken), 1, finished, steps, ASSIST_STEPS - 1);
    if finished.Returned? {
      assert finished.value == ();
      return finished, steps, report;
    }
    ghost var failed := options.socket.Now();
    ghost var answer;
    result, answer := GiveBack(options, claimed, session, finished.thrown, watch);
    report := Some(answer);
    OnwardAssists(failed, options.socket.Now(), watch);
    AssistedTransitive(start, failed.log, options.socket.log);
  }

  /** The catch statement. `report` is what the server answered to the report. */
  method GiveBack(
    options: Options, claimed: ClaimedTask, session: BrokeredSurfaceSession, thrown: Thrown, ghost watch: Watch)
    returns (result: Outcome<()>, ghost report: Outcome<bool>)
    requires session.socket == options.socket
    requires Good(options.socket.Now(), watch)
    modifies options.socket, options.socket.broker, options.remote`activeClaims, session`closed
    ensures Good(options.socket.Now(), watch)
    ensures Onward(old(options.socket.Now()), options.socket.Now(), watch)
    ensures GivenBack(result, thrown, report)
  {
    hide Good, Onward;
    ghost var start := options.socket.Now();
    var _ := session.Close(ClosedNeedsHuman, watch);
    ghost var closed := options.socket.Now();
    var marked;
    marked, report := options.remote.MarkNeedsHuman(claimed);
    if marked.Threw? {
      var noted := Journal(options, watch);
      OnwardTransitive(start, closed, options.socket.Now(), watch);
      result := if noted.Threw? then noted
                else Threw(Typed(RunnerError("needs_human_persist_failed", Persisting, NeedsHuman)));
    } else {
      result := Threw(Typed(Normalize(thrown, PostSubmit)));
    }
  }

  /** The try statement: after the sink's acceptance, three clean-up steps whose
      failures are noted in the journal. */
  method ConfirmToCleanup(
    options: Options, claimed: ClaimedTask, session: BrokeredSurfaceSession, handoff: Handoff, ghost watch: Watch)
    returns (result: Outcome<()>, ghost steps: Steps)
    requires session.socket == options.socket && session.id == handoff.sessionId
    requires claimed.task.id == handoff.taskId
    requires Good(options.socket.Now(), watch) && !watch.AfterIntent?
    requires watch.BeforeIntent? ==> session.id in options.socket.spent
    modifies options.socket, options.socket.broker, options.remote`activeClaims, session`closed
    ensures Good(options.socket.Now(), watch)
    ensures Assisted(old(options.socket.log), options.socket.log)
    ensures Walked(result, steps, ASSIST_STEPS - 1)
    ensures result.Returned? ==> Accepted(old(options.socket.log), options.socket.log, handoff)
  {
    hide Good, Onward, Assisted, Accepted;
    ghost var start := options.socket.log;
    var accepted;
    accepted, steps := ConfirmToSink(options, claimed, session, handoff, watch);
    if accepted.Threw? {
      return accepted, steps;
    }
    ghost var middle := options.socket.Now();
    ghost var failures, notes;
    result, failures, notes := CleanUp(options, session, watch);
    steps := steps + StepOf(result);
    OnwardAssists(middle, options.socket.Now(), watch);
    OnwardMeans(middle, options.socket.Now(), watch);
    AssistedTransitive(start, middle.log, options.socket.log);
    AcceptedLater(start, middle.log, options.socket.log, handoff);
  }

  /** As many failures as there were are noted, one after the other; none after a note
      that failed. */
  ghost predicate Noted(result: Outcome<()>, failures: nat, notes: Steps) {
    if failures == 0 then result == Returned(()) && notes == [] else Walked(result, notes, failures)
  }

  /** Removes the evidence, closes the session and removes the handoff. `failures` is how
      many of these failed before it ended. */
  method CleanUp(options: Options, session: BrokeredSurfaceSession, ghost watch: Watch)
    returns (result: Outcome<()>, ghost failures: nat, ghost notes: Steps)
    requires session.socket == options.socket
    requires Good(options.socket.Now(), watch)
    modifies options.socket, options.socket.broker, session`closed
    ensures Good(options.socket.Now(), watch)
    ensures Onward(old(options.socket.Now()), options.socket.Now(), watch)
    ensures failures <= 3 && Noted(result, failures, notes)
  {
    hide Good, Onward;
    failures, notes := 0, [];
    ghost var start := options.socket.Now();
    OnwardReflexive(start, watch);
    var evidenceRemoved, handoffRemoved: bool := *, *;
    if !evidenceRemoved {
      failures := 1;
      result := Journal(options, watch);
      notes := StepOf(result);
      if result.Threw? {
        return;
      }
    }
    ghost var middle := options.socket.Now();
    ghost var failed, noted;
    result, failed, noted := CloseAndNote(options, session, watch);
    failures, notes := failures + failed, notes + noted;
    ghost var closed := options.socket.Now();
    OnwardTransitive(start, middle, closed, watch);
    if result.Returned? && !handoffRemoved {
      failures := failures + 1;
      result := Journal(options, watch);
      notes := notes + StepOf(result);
      OnwardTransitive(start, closed, options.socket.Now(), watch);
    }
  }

  method CloseAndNote(options: Options, session: BrokeredSurfaceSession, ghost watch: Watch)
    returns (result: Outcome<()>, ghost failures: nat, ghost notes: Steps)
    requires session.socket == options.socket
    requires Good(options.socket.Now(), watch)
    modifies options.socket, options.socket.broker, session`closed
    ensures Good(options.socket.Now(), watch)
    ensures Onward(old(options.socket.Now()), options.socket.Now(), watch)
    ensures failures <= 1 && Noted(result, failures, notes)
  {
    hide Good, Onward;
    ghost var start := options.socket.Now();
    var closed := session.Close(ClosedSucceeded, watch);
    failures, notes := if closed.Threw? then 1 else 0, [];
    result := Returned(());
    if closed.Threw? {
      ghost var middle := options.socket.Now();
      result := Journal(options, watch);
      notes := StepOf(result);
      OnwardTransitive(start, middle, options.socket.Now(), watch);
    }
  }

  /** Confirm, collect, capture, and hand the observation to the sink. */
  method ConfirmToSink(
    options: Options, claimed: ClaimedTask, session: BrokeredSurfaceSession, handoff: Handoff, ghost watch: Watch)
    returns (result: Outcome<()>, ghost steps: Steps)
    requires session.socket == options.socket && session.id == handoff.sessionId
    requires claimed.task.id == handoff.taskId
    requires Good(options.socket.Now(), watch) && !watch.AfterIntent?
    requires watch.BeforeIntent? ==> session.id in options.socket.spent
    modifies options.socket, options.socket.broker, options.remote`activeClaims
    ensures Good(options.socket.Now(), watch)
    ensures Assisted(old(options.socket.log), options.socket.log)
    ensures Walked(result, steps, 6)
    ensures result.Returned? ==> Accepted(old(options.socket.log), options.socket.log, handoff)
  {
    hide Good, Onward, Assisted, Accepted, Secured;
    ghost var start := options.socket.log;
    var collected;
    collected, steps := ConfirmAndCollectResumed(options, claimed, session, watch);
    ghost var middle := options.socket.Now();
    if collected.Threw? {
      return Threw(collected.thrown), steps;
    }
    var captured, _, _, _ := session.CaptureEvidence(watch);
    ghost var secured := options.socket.Now();
    OnwardAssists(middle, secured, watch);
    OnwardMeans(middle, secured, watch);
    AssistedTransitive(start, middle.log, secured.log);
    steps := steps + StepOf(captured);
    if captured.Threw? {
      return captured, steps;
    }
    var saved: Outcome<seq<Artifact>> := *;
    steps := steps + StepOf(saved);
    match saved {
      case Threw(thrown) => result := Threw(thrown);
      case Returned(evidence) =>
        var observation := Observation(session.id, claimed.task, collected.value, evidence);
        var accepted;
        ghost var said;
        accepted, said := options.remote.SubmitObservation(observation);
        steps := steps + StepOf(accepted);
        if accepted.Threw? {
          return accepted, steps;
        }
        options.socket.Record(SinkAccepted(observation), watch);
        RecordAssists(secured.log, SinkAccepted(observation));
        AssistedTransitive(start, secured.log, options.socket.log);
        AcceptedNow(start, middle.log, secured.log, observation, handoff);
        result := Returned(());
    }
  }

  lemma AcceptedNow(
    start: seq<Event>, middle: seq<Event>, log: seq<Event>, observation: Observation, handoff: Handoff)
    requires Assisted(start, log) && middle <= log
    requires observation.sessionId == handoff.sessionId && observation.task.id == handoff.taskId
    requires BrowserConfirmed(handoff.sessionId) in middle
    requires ResponseCollected(handoff.sessionId, observation.response) in middle
    requires Secured(log, handoff.sessionId)
    ensures Accepted(start, log + [SinkAccepted(observation)], handoff)
  {
    forall e | e in middle ensures e in log {
      var k :| 0 <= k < |middle| && middle[k] == e;
      assert log[k] == e;
    }
    hide Secured;
    assert (log + [SinkAccepted(observation)])[..|log|] == log;
    assert AcceptedAt(log + [SinkAccepted(observation)], |log|, handoff);
  }

  /** The server was told since that the prompt was submitted. */
  ghost predicate ServerTold(earlier: seq<Event>, later: seq<Event>) {
    exists i :: |earlier| <= i < |later| && later[i].PromptConfirmed?
  }

  lemma GrownTellsNothing(earlier: seq<Event>, later: seq<Event>)
    requires Grown(earlier, later)
    ensures earlier <= later && !ServerTold(earlier, later)
  {
  }

  lemma ToldOnTheWay(first: seq<Event>, second: seq<Event>, third: seq<Event>, last: seq<Event>)
    requires first <= second <= third <= last
    requires !ServerTold(first, second) && !ServerTold(third, last)
    ensures ServerTold(first, last) <==> ServerTold(second, third)
  {
    assert forall i :: 0 <= i < |second| ==> second[i] == last[i];
    assert forall i :: 0 <= i < |third| ==> third[i] == last[i];
  }

  lemma TellsTheServer(log: seq<Event>, event: Event)
    requires event.PromptConfirmed?
    ensures ServerTold(log, log + [event])
  {
    assert (log + [event])[|log|] == event;
  }

  /** Confirms, tells the server unless it knows, and collects. */
  method ConfirmAndCollectResumed(
    options: Options, claimed: ClaimedTask, session: BrokeredSurfaceSession, ghost watch: Watch)
    returns (result: Outcome<SurfaceResponse>, ghost steps: Steps)
    requires session.socket == options.socket
    requires Good(options.socket.Now(), watch) && !watch.AfterIntent?
    requires watch.BeforeIntent? ==> session.id in options.socket.spent
    modifies options.socket, options.socket.broker
    ensures Good(options.socket.Now(), watch)
    ensures watch.BeforeIntent? ==> session.id in options.socket.spent
    ensures Assisted(old(options.socket.log), options.socket.log)
    ensures Walked(result, steps, 3)
    ensures result.Returned? ==> (ServerTold(old(options.socket.log), options.socket.log) <==> !claimed.submitConfirmed)
    ensures result.Returned? ==>
              && BrowserConfirmed(session.id) in options.socket.log
              && ResponseCollected(session.id, result.value) in options.socket.log
  {
    hide Good, Onward, Assisted, ServerTold;
    ghost var start := options.socket.Now();
    var confirmed := session.ConfirmSubmission(claimed.task.promptText, watch);
    ghost var first := options.socket.Now();
    OnwardAssists(start, first, watch);
    OnwardMeans(start, first, watch);
    steps := StepOf(confirmed);
    if confirmed.Threw? {
      return Threw(confirmed.thrown), steps;
    }
    ghost var known: Outcome<()> := Returned(());
    if !claimed.submitConfirmed {
      var told;
      ghost var said;
      told, said := options.remote.LeaseRequest(claimed);
      if told.Threw? {
        steps := steps + StepOf(told);
        return Threw(told.thrown), steps;
      }
      options.socket.Record(PromptConfirmed(claimed, session.id), watch);
      RecordAssists(first.log, PromptConfirmed(claimed, session.id));
      AssistedTransitive(start.log, first.log, options.socket.log);
      assert ServerTold(first.log, options.socket.log) by {
        TellsTheServer(first.log, PromptConfirmed(claimed, session.id));
      }
    } else {
      GrownTellsNothing(first.log, first.log);
    }
    steps := steps + StepOf(known);
    ghost var second := options.socket.Now();
    result := session.CollectResponse(watch);
    steps := steps + StepOf(result);
    ghost var third := options.socket.Now();
    OnwardAssists(second, third, watch);
    OnwardMeans(second, third, watch);
    AssistedTransitive(start.log, second.log, third.log);
    OnwardHolds(second, third, watch, BrowserConfirmed(session.id));
    GrownTellsNothing(start.log, first.log);
    GrownTellsNothing(second.log, third.log);
    ToldOnTheWay(start.log, first.log, second.log, third.log);
  }

  // ---- Counting submits ---------------------------------------------------------------

  /** What the browser entered, and what it may still enter, in these sessions. */
  ghost function SubmitsAmong(ids: set<string>): Event -> bool {
    (e: Event) => e.BrowserSubmit? && e.sessionId in ids
  }

  ghost function PendingAmong(ids: set<string>): Request -> bool {
    (r: Request) => r.Submit? && r.sessionId in ids
  }

  ghost function Entered(net: Net, ids: set<string>): nat {
    Count(net.log, SubmitsAmong(ids)) + Count(net.inflight, PendingAmong(ids))
  }

  /** The sessions that were asked to submit for a task, or at all. */
  ghost function SessionsOf(log: seq<Event>, counts: Event -> bool): set<string> {
    set e | e in log && e.SubmitRequested? && counts(e) :: e.sessionId
  }

  /** No set of sessions is entered more often than it has members. */
  lemma {:induction false} OncePerSession(net: Net, ids: set<string>)
    requires Balanced(net)
    ensures Entered(net, ids) <= |ids|
    decreases |ids|
  {
    if ids == {} {
      CountNone(net.log, SubmitsAmong(ids));
      CountNone(net.inflight, PendingAmong(ids));
    } else {
      var id :| id in ids;
      OncePerSession(net, ids - {id});
      CountSplit(net.log, SubmitsAmong(ids), SubmitsAmong(ids - {id}), Submits(id));
      CountSplit(net.inflight, PendingAmong(ids), PendingAmong(ids - {id}), Pending(id));
    }
  }

  lemma {:induction false} SessionsAreFew(log: seq<Event>, counts: Event -> bool)
    requires forall e :: counts(e) ==> e.SubmitRequested?
    ensures |SessionsOf(log, counts)| <= Count(log, counts)
  {
    if log != [] {
      SessionsAreFew(log[1..], counts);
      assert log == [log[0]] + log[1..];
      if counts(log[0]) {
        assert SessionsOf(log, counts) == SessionsOf(log[1..], counts) + {log[0].sessionId};
      } else {
        assert SessionsOf(log, counts) == SessionsOf(log[1..], counts);
      }
    } else {
      assert SessionsOf(log, counts) == {};
    }
  }

  /** For each task, the browser has entered or may still enter a prompt in the sessions
      that were asked to at most as often as a submit was requested for that task. */
  lemma NeverTwiceForATask(net: Net, taskId: string)
    requires Accounted(net)
    ensures Entered(net, SessionsOf(net.log, RequestFor(taskId))) <= Count(net.log, RequestFor(taskId))
  {
    OncePerSession(net, SessionsOf(net.log, RequestFor(taskId)));
    SessionsAreFew(net.log, RequestFor(taskId));
  }

  /** Everything that was entered or may be was in a session that was asked to. */
  lemma AllWereAsked(net: Net)
    requires Accounted(net)
    ensures Count(net.log, (e: Event) => e.BrowserSubmit?) + Count(net.inflight, (r: Request) => r.Submit?)
            <= RequestsIn(net.log)
  {
    var requested := (e: Event) => e.SubmitRequested?;
    var ids := SessionsOf(net.log, requested);
    OncePerSession(net, ids);
    SessionsAreFew(net.log, requested);
    forall e | e in net.log && e.BrowserSubmit? ensures e.sessionId in ids {
      var j :| 0 <= j < |net.log| && net.log[j] == e;
      assert Preceded(net.log[..j], net.log[j]);
      var task: RunnerTask :| SubmitRequested(task, e.sessionId) in net.log[..j];
      assert SubmitRequested(task, e.sessionId) in net.log;
    }
    forall r | r in net.inflight && r.Submit? ensures r.sessionId in ids {
      var task: RunnerTask :| SubmitRequested(task, r.sessionId) in net.log && task.promptText == r.promptText;
    }
    CountWithin(net.log, (e: Event) => e.BrowserSubmit?, SubmitsAmong(ids));
    CountWithin(net.inflight, (r: Request) => r.Submit?, PendingAmong(ids));
  }

  // ---- Whole lives ---------------------------------------------------------------------

  /** Every intent and every submit request of the history is the task's. */
  ghost predicate OnlyFor(log: seq<Event>, taskId: string) {
    forall e :: e in log && (e.IntentSent? || e.SubmitRequested?) ==> e.WorkOf(taskId)
  }

  /** From an empty broker: one claimed task's run, with all its attempts, and then
      any number of assists with whatever handoffs. However requests are lost,
      delayed or answered too late and however the browser fails, the browser's
      submit is entered at most once, counting what may still be under way. */
  method TaskLifetime(options: Options, claim: ClaimedTask, assists: nat) returns (result: Outcome<TaskResult>)
    requires Clean(options.socket.Now()) && options.remote.Conserved()
    modifies options.socket, options.socket.broker, options.remote
    ensures var net := options.socket.Now();
            Count(net.log, (e: Event) => e.BrowserSubmit?) + Count(net.inflight, (r: Request) => r.Submit?) <= 1
    ensures Ordered(options.socket.log) && OnlyFor(options.socket.log, claim.task.id)
    ensures result.Returned? && result.value.Succeeded? ==>
              SuccessStory(options.socket.log, result.value.observation)
  {
    hide Good, SuccessStory, Ran, Assisted, RequestsIn, OnlyFor;
    CleanIsGood(options.socket.Now());
    ghost var attempts;
    result, attempts := ExecuteClaimedTask(options, claim);
    WorkIsOnlyFor(options.socket.log, claim.task.id);
    Unwatch(options.socket.Now());
    var assisted := 0;
    while assisted < assists
      invariant Good(options.socket.Now(), Unwatched) && options.remote.Conserved()
      invariant RequestsIn(options.socket.log) <= 1 && assisted <= assists
      invariant OnlyFor(options.socket.log, claim.task.id)
      invariant result.Returned? && result.value.Succeeded? ==>
                  SuccessStory(options.socket.log, result.value.observation)
    {
      ghost var before := options.socket.log;
      var handoff: Handoff := *;
      var _, _, _, _ := ResumePostSubmitTask(options, handoff, Unwatched);
      AssistMeans(before, options.socket.log, claim.task.id);
      if result.Returned? && result.value.Succeeded? {
        StoryIsKept(before, options.socket.log, result.value.observation);
      }
      assisted := assisted + 1;
    }
    GoodIsAccounted(options.socket.Now());
    AllWereAsked(options.socket.Now());
  }

  lemma CleanIsGood(net: Net)
    requires Clean(net)
    ensures Good(net, BeforeIntent) && RequestsIn(net.log) == 0 && net.log == []
  {
  }

  lemma Unwatch(net: Net)
    requires Good(net, BeforeIntent)
    ensures Good(net, Unwatched)
  {
  }

  lemma GoodIsAccounted(net: Net)
    requires Good(net, Unwatched)
    ensures Accounted(net) && Ordered(net.log)
  {
  }

  lemma WorkIsOnlyFor(log: seq<Event>, taskId: string)
    requires Ran([], log, taskId)
    ensures OnlyFor(log, taskId)
  {
  }

  lemma AssistMeans(earlier: seq<Event>, later: seq<Event>, taskId: string)
    requires Assisted(earlier, later) && OnlyFor(earlier, taskId)
    ensures earlier <= later && RequestsIn(later) == RequestsIn(earlier) && OnlyFor(later, taskId)
  {
    hide RequestsIn;
    forall e | e in later && (e.IntentSent? || e.SubmitRequested?) ensures e in earlier {
      var k :| 0 <= k < |later| && later[k] == e;
      assert k < |earlier| && earlier[k] == e;
    }
  }

  /** For each task, in the sessions that were asked to submit for it the browser has
      entered or may still enter a prompt at most as often as the task has results that
      are not a queued retry, and runs that threw while it was at work. */
  ghost predicate Bounded(net: Net, results: seq<TaskResult>, strays: seq<string>) {
    forall taskId ::
      Entered(net, SessionsOf(net.log, RequestFor(taskId)))
      <= Count(results, ResultFor(taskId)) + Count(strays, IsTask(taskId))
  }

  lemma WarrantedIsBounded(net: Net, results: seq<TaskResult>, strays: seq<string>)
    requires Accounted(net) && Warranted([], net.log, results, strays)
    ensures Bounded(net, results, strays)
  {
    hide Accounted, Entered, SessionsOf, RequestFor, ResultFor, IsTask;
    forall taskId
      ensures Entered(net, SessionsOf(net.log, RequestFor(taskId)))
              <= Count(results, ResultFor(taskId)) + Count(strays, IsTask(taskId))
    {
      NeverTwiceForATask(net, taskId);
    }
  }

  /** From an empty broker, any batch, however it ends: submits are bounded for each
      task, where only a run that throws leaves more than its results warrant, one for
      the one task at work then; and every success has its whole story. */
  method BatchLifetime(options: Options, patience: nat)
    returns (ending: Ending, ghost rounds: seq<Round>, ghost strays: seq<string>)
    requires Clean(options.socket.Now()) && options.remote.Conserved()
    modifies options.socket, options.socket.broker, options.remote
    ensures Told(options.socket.log, ResultsOf(rounds)) && Bounded(options.socket.Now(), ResultsOf(rounds), strays)
    ensures |strays| <= 1 && (strays != [] ==> ending.Aborted?)
  {
    hide Good, Told, Bounded, Warranted;
    CleanIsGood(options.socket.Now());
    ending, rounds, strays := RunBatch.RunBatch(options, patience);
    Unwatch(options.socket.Now());
    GoodIsAccounted(options.socket.Now());
    WarrantedIsBounded(options.socket.Now(), ResultsOf(rounds), strays);
  }

  lemma WarrantedJoin(
    first: seq<Event>, second: seq<Event>, third: seq<Event>, results: seq<TaskResult>, more: seq<TaskResult>,
    strays: seq<string>, others: seq<string>)
    requires Warranted(first, second, results, strays) && Warranted(second, third, more, others)
    ensures Warranted(first, third, results + more, strays + others)
  {
    hide RequestFor, ResultFor, IsTask;
    forall taskId
      ensures Count(results + more, ResultFor(taskId)) ==
              Count(results, ResultFor(taskId)) + Count(more, ResultFor(taskId))
      ensures Count(strays + others, IsTask(taskId)) ==
              Count(strays, IsTask(taskId)) + Count(others, IsTask(taskId))
    {
      CountConcat(results, more, ResultFor(taskId));
      CountConcat(strays, others, IsTask(taskId));
    }
  }

  lemma AssistIsWarranted(earlier: seq<Event>, later: seq<Event>)
    requires Assisted(earlier, later)
    ensures earlier <= later && Warranted(earlier, later, [], [])
  {
    var added := later[|earlier|..];
    assert later == earlier + added;
    forall taskId ensures Count(later, RequestFor(taskId)) == Count(earlier, RequestFor(taskId)) {
      CountConcat(earlier, added, RequestFor(taskId));
      CountNone(added, RequestFor(taskId));
    }
  }

  lemma ToldJoin(log: seq<Event>, results: seq<TaskResult>, more: seq<TaskResult>)
    requires Told(log, results) && Told(log, more)
    ensures Told(log, results + more)
  {
    hide SuccessStory;
  }

  /** What the runner's two commands are given. */
  datatype Job =
    | Batch(options: Options, patience: nat)
    | Assist(options: Options, handoff: Handoff)

  /** From an empty broker, any sequence of batches and assists over the one broker and
      the one task client: the bound of a single batch, over all results and all runs
      that threw, and every success that was ever reported keeps its story. */
  method ServiceLifetime(socket: BrokerSocket, remote: BrowserRunnerRemoteClient, jobs: seq<Job>)
    returns (endings: seq<Ending>, ghost results: seq<TaskResult>, ghost strays: seq<string>)
    requires Clean(socket.Now()) && remote.Conserved()
    requires forall job :: job in jobs ==> job.options.socket == socket && job.options.remote == remote
    modifies socket, socket.broker, remote
    ensures Told(socket.log, results) && Bounded(socket.Now(), results, strays)
    ensures |strays| <= Count(endings, (e: Ending) => e.Aborted?)
    ensures Ordered(socket.log)
  {
    hide Good, Told, Bounded, Warranted, Assisted, RequestsIn;
    CleanIsGood(socket.Now());
    endings, results, strays := [], [], [];
    assert Told(socket.log, results) && Warranted([], socket.log, results, strays) by {
      NothingIsOwed();
    }
    for i := 0 to |jobs|
      invariant Good(socket.Now(), BeforeIntent) && remote.Conserved()
      invariant Told(socket.log, results) && Warranted([], socket.log, results, strays)
      invariant |strays| <= Count(endings, (e: Ending) => e.Aborted?)
    {
      ghost var before := socket.log;
      assert jobs[i] in jobs;
      match jobs[i]
      case Batch(options, patience) =>
        ghost var rounds, lost;
        var ending;
        ending, rounds, lost := RunBatch.RunBatch(options, patience);
        ghost var more := ResultsOf(rounds);
        ToldLater(before, socket.log, results);
        ToldJoin(socket.log, results, more);
        WarrantedJoin([], before, socket.log, results, more, strays, lost);
        CountConcat(endings, [ending], (e: Ending) => e.Aborted?);
        CountOne(ending, (e: Ending) => e.Aborted?);
        endings, results, strays := endings + [ending], results + more, strays + lost;
      case Assist(options, handoff) =>
        if !Resumable(handoff.phase) || Retained(socket.broker.sessions, handoff.sessionId) {
          var _, _, _, _ := ResumePostSubmitTask(options, handoff, BeforeIntent);
          AssistIsWarranted(before, socket.log);
          ToldLater(before, socket.log, results);
          WarrantedJoin([], before, socket.log, results, [], strays, []);
          assert results + [] == results && strays + [] == strays;
        }
    }
    Unwatch(socket.Now());
    GoodIsAccounted(socket.Now());
    WarrantedIsBounded(socket.Now(), results, strays);
  }

  lemma NothingIsOwed()
    ensures Told([], []) && Warranted([], [], [], [])
  {
  }

  // ---- What a success says ----------------------------------------------------------------

  /** A success is never reported for a prompt that the browser did not enter, and in
      that session it is entered once in the whole history. */
  lemma SuccessMeansOneSubmit(net: Net, observation: Observation)
    requires Accounted(net) && SuccessStory(net.log, observation)
    ensures BrowserSubmit(observation.sessionId, observation.task.promptText) in net.log
    ensures Count(net.log, Submits(observation.sessionId)) == 1
    ensures Count(net.inflight, Pending(observation.sessionId)) == 0
  {
    var id := observation.sessionId;
    var i: nat, j: nat, attempt, claim, artifacts :| Story(net.log, observation, i, j, attempt, claim, artifacts);
    assert i <= j <= |net.log|;
    var event := BrowserSubmit(id, claim.task.promptText);
    assert Course(observation, attempt, claim, artifacts)[4] == event;
    OfHolds(net.log[i..j], id);
    assert event in net.log[i..j];
    var k :| 0 <= k < |net.log| && net.log[k] == event;
    hide Accounted, Balanced, Of;
    OneIsCounted(net.log, k, Submits(id));
    BalancedAt(net, id);
  }

  lemma BalancedAt(net: Net, id: string)
    requires Accounted(net)
    ensures Count(net.log, Submits(id)) + Count(net.inflight, Pending(id)) <= 1
  {
  }

  lemma OneIsCounted<T>(items: seq<T>, k: nat, counts: T -> bool)
    requires k < |items| && counts(items[k])
    ensures Count(items, counts) >= 1
  {
    assert items == items[..k] + ([items[k]] + items[k + 1..]);
    CountConcat(items[..k], [items[k]] + items[k + 1..], counts);
  }

  // ---- What an ordered history says -------------------------------------------------

  lemma PositionBefore(log: seq<Event>, j: nat, event: Event) returns (i: nat)
    requires j <= |log| && event in log[..j]
    ensures i < j && log[i] == event
  {
    i :| 0 <= i < j && log[..j][i] == event;
  }

  /** Whenever the browser's submit is entered, the same prompt was requested
      before, after the intent for that session and task had been recorded at the
      server and written to the journal. */
  lemma EverySubmitWasIntended(log: seq<Event>, j: nat) returns (i: nat, k: nat, l: nat, claim: ClaimedTask)
    requires Ordered(log) && j < |log| && log[j].BrowserSubmit?
    ensures i < j && k < i && l < i
    ensures log[i] == SubmitRequested(claim.task, log[j].sessionId)
    ensures log[k] == IntentJournaled(log[j].sessionId)
    ensures log[l] == IntentRecorded(claim, log[j].sessionId)
    ensures claim.task.promptText == log[j].promptText
  {
    var id, promptText := log[j].sessionId, log[j].promptText;
    assert Preceded(log[..j], log[j]);
    var task: RunnerTask :| SubmitRequested(task, id) in log[..j] && task.promptText == promptText;
    i := PositionBefore(log, j, SubmitRequested(task, id));
    assert Preceded(log[..i], log[i]);
    k := PositionBefore(log, i, IntentJournaled(id));
    claim :| IntentRecorded(claim, id) in log[..i] && claim.task == task;
    l := PositionBefore(log, i, IntentRecorded(claim, id));
  }

  /** An attempt that declared a submit intent never asks for a retry and never
      closes its session as retrying, neither before nor after. */
  lemma NoRetryWithIntent(log: seq<Event>, i: nat, j: nat)
    requires Ordered(log) && i < |log| && j < |log|
    requires log[i].IntentSent?
    requires log[j].RetryRequested? || (log[j].CloseRequested? && log[j].outcome == ClosedRetrying)
    ensures log[i].attempt != log[j].attempt
  {
    assert Preceded(log[..i], log[i]) && Preceded(log[..j], log[j]);
    if j < i {
      assert log[..i][j] == log[j];
    } else {
      assert log[..j][i] == log[i];
    }
  }
}
