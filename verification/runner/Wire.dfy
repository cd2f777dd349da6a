/** The socket between the runner and the broker (broker-client.ts,
    broker-socket.ts), where a request may be lost, may be executed without its
    reply arriving, or may be executed much later; and what stays true of the
    broker, the requests under way and the history whatever the socket does. */
module Wire {
  import opened Counting
  import opened Optional
  import opened Contracts
  import opened BrokerServer

  /** `named` are the session ids that were ever issued or asked for, so that a newly
      created session has none of them. `spent` are those for which the runner has
      declared a submit intent or has asked for more than that. */
  datatype Net = Net(sessions: Sessions, inflight: seq<Request>, log: seq<Event>, named: set<string>, spent: set<string>)

  // ---- Counting -----------------------------------------------------------

  function Without(inflight: seq<Request>, index: nat): seq<Request>
    requires index < |inflight|
  {
    inflight[..index] + inflight[index + 1..]
  }

  lemma CountWithout(inflight: seq<Request>, index: nat, counts: Request -> bool)
    requires index < |inflight|
    ensures Count(inflight, counts) == Count(Without(inflight, index), counts) + (if counts(inflight[index]) then 1 else 0)
  {
    var tail := inflight[index..];
    assert inflight == inflight[..index] + tail;
    CountConcat(inflight[..index], tail, counts);
    assert tail[1..] == inflight[index + 1..];
    CountConcat(inflight[..index], inflight[index + 1..], counts);
  }

  ghost function Submits(id: string): Event -> bool {
    (e: Event) => e.BrowserSubmit? && e.sessionId == id
  }

  ghost function Requests(id: string): Event -> bool {
    (e: Event) => e.SubmitRequested? && e.sessionId == id
  }

  ghost function Pending(id: string): Request -> bool {
    (r: Request) => r.Submit? && r.sessionId == id
  }

  /** All submit requests of the history. */
  ghost function RequestsIn(log: seq<Event>): nat {
    Count(log, (e: Event) => e.SubmitRequested?)
  }

  lemma RequestsInConcat(left: seq<Event>, right: seq<Event>)
    ensures RequestsIn(left + right) == RequestsIn(left) + RequestsIn(right)
  {
    CountConcat(left, right, (e: Event) => e.SubmitRequested?);
  }

  // ---- What precedes what, in every history ---------------------------------

  /** What must already have happened when `event` happens. */
  ghost predicate Preceded(past: seq<Event>, event: Event) {
    match event
    case IntentSent(attempt, _, _) => !GaveUp(past, attempt)
    case IntentRecorded(claim, id) => exists attempt :: IntentSent(attempt, claim, id) in past
    case IntentJournaled(id) => exists claim :: IntentRecorded(claim, id) in past
    case SubmitRequested(task, id) =>
      && IntentJournaled(id) in past
      && exists claim :: IntentRecorded(claim, id) in past && claim.task == task
    case BrowserSubmit(id, promptText) => Asked(past, id, promptText)
    case RetryRequested(attempt) => !Intended(past, attempt)
    case CloseRequested(attempt, _, outcome) => outcome == ClosedRetrying ==> !Intended(past, attempt)
    case _ => true
  }

  /** The session was asked to submit this prompt. */
  ghost predicate Asked(past: seq<Event>, id: string, promptText: string) {
    exists task: RunnerTask :: SubmitRequested(task, id) in past && task.promptText == promptText
  }

  /** The attempt told the server that it is about to submit. */
  ghost predicate Intended(past: seq<Event>, attempt: nat) {
    exists i :: 0 <= i < |past| && past[i].IntentSent? && past[i].attempt == attempt
  }

  /** The attempt asked the server for a retry, or closed its session. */
  ghost predicate GaveUp(past: seq<Event>, attempt: nat) {
    exists i :: 0 <= i < |past| && (past[i].RetryRequested? || past[i].CloseRequested?) && past[i].attempt == attempt
  }

  ghost predicate Ordered(log: seq<Event>) {
    forall j :: 0 <= j < |log| ==> Preceded(log[..j], log[j])
  }

  lemma OrderedExtends(log: seq<Event>, event: Event)
    requires Ordered(log) && Preceded(log, event)
    ensures Ordered(log + [event])
  {
    forall j | 0 <= j < |log + [event]| ensures Preceded((log + [event])[..j], (log + [event])[j]) {
      assert (log + [event])[..j] == log[..j];
      assert log[..|log|] == log;
    }
  }

  // ---- What holds whatever happens ------------------------------------------

  /** Each session is asked to submit at most once, and what the browser entered or
      may still enter there was asked for. */
  ghost predicate Balanced(net: Net) {
    && (forall id ::
          Count(net.log, Submits(id)) + Count(net.inflight, Pending(id)) <= Count(net.log, Requests(id)) <= 1)
    && forall r :: r in net.inflight && r.Submit? ==> Asked(net.log, r.sessionId, r.promptText)
  }

  /** What the broker remembers of a session really happened. */
  ghost predicate Remembered(active: ActiveSession, log: seq<Event>) {
    && (active.state == Confirmed ==> BrowserConfirmed(active.sessionId) in log)
    && (active.response.Some? ==> ResponseCollected(active.sessionId, active.response.value) in log)
    && (active.evidence.Some? ==> EvidenceCaptured(active.sessionId, active.evidence.value) in log)
  }

  /** Holds in every reachable state, however many tasks have run. */
  ghost predicate Accounted(net: Net) {
    && BrokerInv(net.sessions)
    && Balanced(net)
    && Ordered(net.log)
    && forall id :: id in net.sessions ==> Remembered(net.sessions[id], net.log)
  }

  /** A broker without sessions, requests under way, or history. */
  ghost predicate Clean(net: Net) {
    net == Net(map[], [], [], {}, {})
  }

  function Level(request: Request): nat {
    match request
    case Submit(_, _) => 1
    case Confirm(_, _) => 2
    case Collect(_) => 3
    case Capture(_) => 4
    case Release(_, _) => 5
    case Resume(_, _, _, _) => 6
    case _ => 0
  }

  function Names(request: Request): Option<string> {
    match request
    case Ping => None
    case Create(_, _) => None
    case Resume(_, _, _, id) => Some(id)
    case _ => Some(request.sessionId)
  }

  predicate Milestone(event: Event) {
    !event.RetryRequested? && !event.CloseRequested?
  }

  /** If the broker has the session, it is at least prepared. */
  predicate Retained(sessions: Sessions, id: string) {
    id in sessions ==> Rank(sessions[id].state) >= Rank(Prepared)
  }

  /** The session, if the broker has it, is at least prepared, and its id will not be
      issued again. */
  ghost predicate Past(net: Net, id: string) {
    id in net.named && Retained(net.sessions, id)
  }

  /** Whatever goes further than preparing a session happens to spent sessions only,
      and a spent session is never again one that is yet to be prepared. */
  ghost predicate Orderly(net: Net) {
    && net.sessions.Keys <= net.named
    && (forall id :: id in net.spent ==> Past(net, id))
    && (forall id :: id in net.sessions && Rank(net.sessions[id].state) >= Rank(SubmitUnknown) ==> id in net.spent)
    && (forall e, id :: e in net.log && Milestone(e) && e.About(id) ==> id in net.spent)
    && forall r :: r in net.inflight && Level(r) >= 1 ==> Names(r).value in net.spent
  }

  // ---- One session that is being followed -------------------------------------

  /** What is known beside the accounts: nothing; that things are orderly; or that and
      one session, from its submit intent on. `start` is where the intent stands in
      the history and `level` the furthest kind of request sent to it since. */
  datatype Watch =
    | Unwatched
    | BeforeIntent
    | AfterIntent(attempt: nat, claim: ClaimedTask, sessionId: string, start: nat, level: nat)

  function Raise(watch: Watch, level: nat): Watch {
    if watch.AfterIntent? then watch.(level := level) else watch
  }

  /** The part of a history that is about one session. */
  ghost function Of(log: seq<Event>, id: string): seq<Event> {
    if log == [] then []
    else Of(log[..|log| - 1], id) + if log[|log| - 1].About(id) then [log[|log| - 1]] else []
  }

  lemma {:induction false} OfConcat(left: seq<Event>, right: seq<Event>, id: string)
    ensures Of(left + right, id) == Of(left, id) + Of(right, id)
  {
    if right == [] {
      assert left + right == left;
    } else {
      assert (left + right)[..|left + right| - 1] == left + right[..|right| - 1];
      OfConcat(left, right[..|right| - 1], id);
    }
  }

  lemma {:induction false} OfHolds(log: seq<Event>, id: string)
    ensures |Of(log, id)| <= |log|
    ensures forall e :: e in Of(log, id) <==> e in log && e.About(id)
  {
    if log != [] {
      OfHolds(log[..|log| - 1], id);
      assert log == log[..|log| - 1] + [log[|log| - 1]];
    }
  }

  /** The history of the followed session since its intent. */
  ghost function Tale(log: seq<Event>, watch: Watch): seq<Event>
    requires watch.AfterIntent?
  {
    if watch.start <= |log| then Of(log[watch.start..], watch.sessionId) else []
  }

  lemma TaleExtends(log: seq<Event>, more: seq<Event>, watch: Watch)
    requires watch.AfterIntent? && watch.start <= |log|
    ensures Tale(log + more, watch) == Tale(log, watch) + Of(more, watch.sessionId)
  {
    assert (log + more)[watch.start..] == log[watch.start..] + more;
    OfConcat(log[watch.start..], more, watch.sessionId);
  }

  lemma OfOne(event: Event, id: string)
    ensures Of([event], id) == if event.About(id) then [event] else []
  {
    assert [event][..0] == [];
  }

  ghost predicate NoMilestones(log: seq<Event>, id: string) {
    forall e :: e in log && e.About(id) ==> !Milestone(e)
  }

  /** The milestone that has to stand at distance `i` from the submit intent. */
  ghost predicate Expected(event: Event, i: nat, watch: Watch)
    requires watch.AfterIntent?
  {
    var id := watch.sessionId;
    if i == 0 then event == IntentSent(watch.attempt, watch.claim, id)
    else if i == 1 then event == IntentRecorded(watch.claim, id)
    else if i == 2 then event == IntentJournaled(id)
    else if i == 3 then event == SubmitRequested(watch.claim.task, id)
    else if i == 4 then event == BrowserSubmit(id, watch.claim.task.promptText)
    else if i == 5 then event == BrowserConfirmed(id)
    else if i == 6 then event == PromptConfirmed(watch.claim, id)
    else if i == 7 then event.ResponseCollected? && event.sessionId == id
    else if i == 8 then event.EvidenceCaptured? && event.sessionId == id
    else if i == 9 then event == EvidenceReleased(id)
    else if i == 10 then event.SinkAccepted? && event.observation.sessionId == id
    else event.CloseRequested? && event.sessionId == id
  }

  ghost predicate Placed(tale: seq<Event>, i: nat, watch: Watch)
    requires watch.AfterIntent? && i < |tale|
  {
    Expected(tale[i], i, watch)
  }

  /** A prefix of the one course of events that leads to a success. */
  ghost predicate OnCourse(tale: seq<Event>, watch: Watch)
    requires watch.AfterIntent?
  {
    forall i :: 0 <= i < |tale| ==> Placed(tale, i, watch)
  }

  function Floor(level: nat): nat {
    if level == 0 then 1 else if level <= 2 then 4 else if level == 3 then 7 else if level == 4 then 8 else 9
  }

  predicate WithinCap(level: nat, progress: nat) {
    && (level == 0 ==> progress <= 3)
    && (level == 1 ==> progress <= 5)
    && (level == 2 ==> progress <= 7)
    && (level == 3 ==> progress <= 8)
    && (level == 4 ==> progress <= 9)
    && level <= 5
  }

  /** The session, once it was submitted, stands where its history says. */
  ghost predicate InStep(active: ActiveSession, tale: seq<Event>, watch: Watch)
    requires watch.AfterIntent?
  {
    var progress := |tale|;
    Rank(active.state) >= Rank(SubmitUnknown) ==>
      && progress >= 5
      && (progress == 5 ==> active.state == SubmitUnknown || active.state == Submitted)
      && (progress == 6 || progress == 7 ==> active.state == Confirmed)
      && (progress == 8 ==> active.state == Collected)
      && (progress >= 9 ==> active.state == Captured)
      && (progress >= 8 ==> ReceivedAt(active.response, tale, watch))
      && (progress == 9 ==> SealedAt(active.evidence, tale, watch))
      && (progress >= 10 ==> active.evidence == None)
  }

  ghost predicate ReceivedAt(response: Option<SurfaceResponse>, tale: seq<Event>, watch: Watch)
    requires watch.AfterIntent? && |tale| >= 8
  {
    response.Some? && tale[7] == ResponseCollected(watch.sessionId, response.value)
  }

  ghost predicate SealedAt(evidence: Option<seq<Artifact>>, tale: seq<Event>, watch: Watch)
    requires watch.AfterIntent? && |tale| >= 9
  {
    evidence.Some? && tale[8] == EvidenceCaptured(watch.sessionId, evidence.value)
  }

  /** A request under way to the followed session is of a kind that was sent. */
  ghost predicate Expectable(request: Request, watch: Watch)
    requires watch.AfterIntent?
  {
    Names(request) == Some(watch.sessionId) ==>
      && Level(request) <= watch.level
      && (request.Submit? ==> request == Submit(watch.sessionId, watch.claim.task.promptText))
      && (request.Confirm? ==> request == Confirm(watch.sessionId, watch.claim.task.promptText))
  }

  ghost predicate Tracked(net: Net, watch: Watch)
    requires watch.AfterIntent?
  {
    var id := watch.sessionId;
    var tale := Tale(net.log, watch);
    && watch.start < |net.log| && NoMilestones(net.log[..watch.start], id)
    && id in net.spent && id in net.named
    && OnCourse(tale, watch)
    && Floor(watch.level) <= |tale| && WithinCap(watch.level, |tale|)
    && (forall r :: r in net.inflight ==> Expectable(r, watch))
    && Count(net.inflight, Pending(id)) <= (if |tale| <= 4 then 1 else 0)
    && (id in net.sessions ==> InStep(net.sessions[id], tale, watch))
  }

  ghost predicate Good(net: Net, watch: Watch) {
    && Accounted(net)
    && (!watch.Unwatched? ==> Orderly(net))
    && (watch.AfterIntent? ==> Tracked(net, watch))
  }

  lemma GoodIsOnCourse(net: Net, watch: Watch)
    requires Good(net, watch) && watch.AfterIntent?
    ensures watch.start < |net.log| && OnCourse(Tale(net.log, watch), watch)
    ensures Floor(watch.level) <= |Tale(net.log, watch)| && WithinCap(watch.level, |Tale(net.log, watch)|)
  {
  }

  // ---- One delivery keeps them ----------------------------------------------

  /** A session that is created gets an id that nobody has used. */
  ghost predicate Fitting(net: Net, request: Request, answers: Answers) {
    request.Create? && answers.thrown.None? ==> answers.newSessionId !in net.named
  }

  ghost function Delivered(net: Net, index: nat, answers: Answers): Net
    requires index < |net.inflight|
  {
    var step := Dispatch(net.sessions, net.inflight[index], answers);
    Net(step.sessions, Without(net.inflight, index), net.log + step.events, net.named + step.sessions.Keys, net.spent)
  }

  lemma DispatchEvents(sessions: Sessions, request: Request, answers: Answers)
    ensures var events := Dispatch(sessions, request, answers).events;
            events == [] || (|events| == 1 && events[0].FromBrowser() && Level(request) >= 1
                             && Names(request).Some? && events[0].About(Names(request).value))
    ensures var events := Dispatch(sessions, request, answers).events;
            events != [] && events[0].BrowserSubmit? ==>
              request == Submit(events[0].sessionId, events[0].promptText)
  {
  }

  lemma StillAsked(log: seq<Event>, more: seq<Event>, id: string, promptText: string)
    requires Asked(log, id, promptText)
    ensures Asked(log + more, id, promptText)
  {
    var task: RunnerTask :| SubmitRequested(task, id) in log && task.promptText == promptText;
    assert SubmitRequested(task, id) in log + more;
  }

  lemma DeliveryIsBalanced(net: Net, index: nat, answers: Answers)
    requires Balanced(net) && index < |net.inflight|
    ensures Balanced(Delivered(net, index, answers))
  {
    var request := net.inflight[index];
    var events := Dispatch(net.sessions, request, answers).events;
    DispatchEvents(net.sessions, request, answers);
    hide Dispatch;
    var rest := Without(net.inflight, index);
    assert forall r :: r in rest ==> r in net.inflight;
    forall r | r in rest && r.Submit? ensures Asked(net.log + events, r.sessionId, r.promptText) {
      StillAsked(net.log, events, r.sessionId, r.promptText);
    }
    forall id
      ensures Count(net.log + events, Submits(id)) + Count(rest, Pending(id))
              <= Count(net.log + events, Requests(id)) <= 1
    {
      BalanceAt(net, index, events, id);
    }
  }

  lemma BalanceAt(net: Net, index: nat, events: seq<Event>, id: string)
    requires Balanced(net) && index < |net.inflight|
    requires events == [] || (|events| == 1 && events[0].FromBrowser())
    requires events != [] && events[0].BrowserSubmit? ==>
               net.inflight[index] == Submit(events[0].sessionId, events[0].promptText)
    ensures Count(net.log + events, Submits(id)) + Count(Without(net.inflight, index), Pending(id))
            <= Count(net.log + events, Requests(id)) <= 1
  {
    CountWithout(net.inflight, index, Pending(id));
    CountConcat(net.log, events, Submits(id));
    CountConcat(net.log, events, Requests(id));
    if events != [] {
      assert events == [events[0]];
      CountOne(events[0], Submits(id));
      CountOne(events[0], Requests(id));
    }
  }

  lemma StillRemembered(active: ActiveSession, log: seq<Event>, more: seq<Event>)
    requires Remembered(active, log)
    ensures Remembered(active, log + more)
  {
  }

  lemma AfterIsRemembered(active: ActiveSession, request: Request, answers: Answers, log: seq<Event>)
    requires !request.Ping? && !request.Create? && !request.Resume?
    requires Remembered(active, log) && active.sessionId == request.sessionId
    ensures Remembered(After(active, request, answers), log + EventsOf(request, answers))
  {
    StillRemembered(active, log, EventsOf(request, answers));
  }

  lemma DeliveryRemembers(net: Net, index: nat, answers: Answers)
    requires BrokerInv(net.sessions) && index < |net.inflight|
    requires forall id :: id in net.sessions ==> Remembered(net.sessions[id], net.log)
    ensures var after := Delivered(net, index, answers);
            forall id :: id in after.sessions ==> Remembered(after.sessions[id], after.log)
  {
    hide After, Guard, ReplyTo, EventsOf, Remembered;
    var request := net.inflight[index];
    var after := Delivered(net, index, answers);
    var events := Dispatch(net.sessions, request, answers).events;
    forall id | id in after.sessions ensures Remembered(after.sessions[id], after.log) {
      if id in net.sessions && after.sessions[id] == net.sessions[id] {
        StillRemembered(net.sessions[id], net.log, events);
      } else if id in net.sessions {
        AfterIsRemembered(net.sessions[id], request, answers, net.log);
      } else {
        NewIsRemembered(after.sessions[id], after.log);
      }
    }
  }

  lemma NewIsRemembered(active: ActiveSession, log: seq<Event>)
    ensures active.response == None && active.evidence == None && active.state != Confirmed ==> Remembered(active, log)
  {
  }

  lemma DeliveryIsAccounted(net: Net, index: nat, answers: Answers)
    requires Accounted(net) && index < |net.inflight|
    ensures Accounted(Delivered(net, index, answers))
  {
    var request := net.inflight[index];
    var events := Dispatch(net.sessions, request, answers).events;
    DispatchKeepsInv(net.sessions, request, answers);
    DispatchEvents(net.sessions, request, answers);
    DeliveryIsBalanced(net, index, answers);
    DeliveryRemembers(net, index, answers);
    hide Dispatch, Remembered;
    if events == [] {
      assert net.log + events == net.log;
    } else {
      assert events == [events[0]] && request in net.inflight;
      OrderedExtends(net.log, events[0]);
    }
  }

  /** A session, in a later set of sessions: not fallen back, or new, or resumed. */
  ghost predicate MovedOn(net: Net, request: Request, later: Sessions, id: string)
    requires id in later
  {
    || (id in net.sessions && Rank(net.sessions[id].state) <= Rank(later[id].state)
        && (Rank(later[id].state) >= Rank(SubmitUnknown) ==>
              Rank(net.sessions[id].state) >= Rank(SubmitUnknown)
              || (Level(request) >= 1 && Names(request) == Some(id))))
    || (id !in net.named && later[id].state == Created)
    || (request.Resume? && Names(request) == Some(id) && later[id].state == Submitted)
  }

  lemma AfterMovesOn(active: ActiveSession, request: Request, answers: Answers)
    requires !request.Ping? && !request.Create? && !request.Resume? && Guard(request, active).None?
    requires active.Consistent()
    ensures var after := After(active, request, answers);
            && Rank(active.state) <= Rank(after.state)
            && (Rank(after.state) >= Rank(SubmitUnknown) ==>
                  Rank(active.state) >= Rank(SubmitUnknown) || Level(request) >= 1)
  {
  }

  lemma SessionsMoveOn(net: Net, request: Request, answers: Answers)
    requires BrokerInv(net.sessions) && Fitting(net, request, answers)
    ensures var later := Dispatch(net.sessions, request, answers).sessions;
            forall id :: id in later ==> MovedOn(net, request, later, id)
  {
    hide ReplyTo, EventsOf, After, Guard, Level;
    if !request.Ping? && !request.Create? && !request.Resume? && request.sessionId in net.sessions {
      var active := net.sessions[request.sessionId];
      if Guard(request, active).None? {
        AfterMovesOn(active, request, answers);
      }
    }
  }

  lemma MovingOnIsOrderly(net: Net, index: nat, later: Sessions)
    requires Orderly(net) && index < |net.inflight|
    requires forall id :: id in later ==> MovedOn(net, net.inflight[index], later, id)
    ensures forall id :: id in later && Rank(later[id].state) >= Rank(SubmitUnknown) ==> id in net.spent
    ensures forall id :: Past(net, id) ==> Past(net.(sessions := later, named := net.named + later.Keys), id)
  {
    assert net.inflight[index] in net.inflight;
  }

  lemma DeliveryIsOrderly(net: Net, index: nat, answers: Answers)
    requires BrokerInv(net.sessions) && Orderly(net) && index < |net.inflight|
    requires Fitting(net, net.inflight[index], answers)
    ensures Orderly(Delivered(net, index, answers))
    ensures forall id :: Past(net, id) ==> Past(Delivered(net, index, answers), id)
  {
    var request := net.inflight[index];
    assert request in net.inflight;
    assert forall r :: r in Without(net.inflight, index) ==> r in net.inflight;
    var step := Dispatch(net.sessions, request, answers);
    DispatchEvents(net.sessions, request, answers);
    SessionsMoveOn(net, request, answers);
    MovingOnIsOrderly(net, index, step.sessions);
    hide Dispatch, MovedOn;
    var after := Delivered(net, index, answers);
    forall id | Past(net, id) ensures Past(after, id) {
      PastStays(net.(sessions := step.sessions, named := net.named + step.sessions.Keys), after, id);
    }
    hide Past;
    forall e, id | e in after.log && Milestone(e) && e.About(id) ensures id in after.spent {
      if e !in net.log {
        assert e == step.events[0];
      }
    }
  }

  // ---- The followed session through one delivery ----------------------------------

  /** What a reply proves about the history of the followed session. */
  ghost predicate Witnessed(request: Request, reply: Reply, tale: seq<Event>, watch: Watch)
    requires watch.AfterIntent?
  {
    Names(request) == Some(watch.sessionId) ==>
      && (request.Confirm? && reply.Ack? ==> |tale| >= 6)
      && (request.Collect? && reply.ResponseReply? ==>
            |tale| >= 8 && ReceivedAt(Some(reply.response), tale, watch))
      && (request.Capture? && reply.EvidenceReply? ==>
            |tale| >= 9 && SealedAt(Some(reply.evidence), tale, watch))
      && (request.Release? && reply.Ack? ==> |tale| >= 10)
  }

  /** A request to another session, or to none, does not touch the followed one. */
  lemma DeliveryElsewhere(net: Net, index: nat, answers: Answers, watch: Watch)
    requires BrokerInv(net.sessions) && watch.AfterIntent? && Tracked(net, watch) && index < |net.inflight|
    requires Fitting(net, net.inflight[index], answers)
    requires Names(net.inflight[index]) != Some(watch.sessionId)
    ensures Tracked(Delivered(net, index, answers), watch)
  {
    var request := net.inflight[index];
    var events := Dispatch(net.sessions, request, answers).events;
    DispatchEvents(net.sessions, request, answers);
    OthersStay(net, request, answers, watch.sessionId);
    hide Dispatch, InStep, OnCourse, Expectable, Of, Floor, WithinCap;
    TaleExtends(net.log, events, watch);
    OfElsewhere(events, Names(request), watch.sessionId);
    assert Tale(net.log + events, watch) == Tale(net.log, watch);
    assert (net.log + events)[..watch.start] == net.log[..watch.start];
    CountWithout(net.inflight, index, Pending(watch.sessionId));
    assert forall r :: r in Without(net.inflight, index) ==> r in net.inflight;
  }

  lemma OthersStay(net: Net, request: Request, answers: Answers, id: string)
    requires BrokerInv(net.sessions) && Fitting(net, request, answers)
    requires Names(request) != Some(id) && id in net.named
    ensures var later := Dispatch(net.sessions, request, answers).sessions;
            id in later ==> id in net.sessions && later[id] == net.sessions[id]
  {
    hide ReplyTo, EventsOf, After, Guard;
  }

  lemma OfElsewhere(events: seq<Event>, name: Option<string>, id: string)
    requires events == [] || (|events| == 1 && name.Some? && events[0].FromBrowser() && events[0].About(name.value))
    requires name != Some(id)
    ensures Of(events, id) == []
  {
    if events != [] {
      assert events == [events[0]];
      OfOne(events[0], id);
    }
  }

  lemma RememberedIsWitnessed(active: ActiveSession, request: Request, tale: seq<Event>, watch: Watch)
    requires !request.Ping? && !request.Create? && !request.Resume?
    requires active.Consistent() && Guard(request, active).Some?
    requires watch.AfterIntent? && OnCourse(tale, watch) && Expectable(request, watch)
    requires InStep(active, tale, watch)
    ensures Witnessed(request, Guard(request, active).value, tale, watch)
  {
  }

  lemma QuietCallIsInStep(
    active: ActiveSession, request: Request, answers: Answers, tale: seq<Event>, watch: Watch)
    requires !request.Ping? && !request.Create? && !request.Resume?
    requires active.Consistent() && Guard(request, active).None? && EventsOf(request, answers) == []
    requires watch.AfterIntent? && OnCourse(tale, watch)
    requires InStep(active, tale, watch)
    ensures InStep(After(active, request, answers), tale, watch)
    ensures Witnessed(request, ReplyTo(active, request, answers), tale, watch)
  {
  }

  /** The part of `Tracked` that a step of the broker has to keep. */
  ghost predicate SessionInStep(sessions: Sessions, tale: seq<Event>, watch: Watch)
    requires watch.AfterIntent?
  {
    watch.sessionId in sessions ==> InStep(sessions[watch.sessionId], tale, watch)
  }

  lemma QuietStepIsTracked(net: Net, request: Request, answers: Answers, watch: Watch)
    requires BrokerInv(net.sessions) && watch.AfterIntent? && Tracked(net, watch) && Expectable(request, watch)
    requires Names(request) == Some(watch.sessionId)
    requires Dispatch(net.sessions, request, answers).events == []
    ensures var step := Dispatch(net.sessions, request, answers);
            var tale := Tale(net.log, watch);
            SessionInStep(step.sessions, tale, watch) && Witnessed(request, step.reply, tale, watch)
  {
    hide Guard, After, ReplyTo, EventsOf;
    var tale := Tale(net.log, watch);
    if request.sessionId in net.sessions {
      var active := net.sessions[request.sessionId];
      if Guard(request, active).Some? {
        RememberedIsWitnessed(active, request, tale, watch);
      } else {
        QuietCallIsInStep(active, request, answers, tale, watch);
      }
    }
  }

  /** `event` is the next one the history waits for from the browser, and the
      session that caused it is left in the state that goes with it. */
  ghost predicate Advances(active: ActiveSession, event: Event, tale: seq<Event>, watch: Watch)
    requires watch.AfterIntent?
  {
    var progress := |tale|;
    && Expected(event, progress, watch)
    && (progress == 4 || progress == 5 || progress == 7 || progress == 8 || progress == 9)
    && (progress == 4 ==> active.state == SubmitUnknown || active.state == Submitted)
    && (progress == 5 ==> active.state == Confirmed)
    && (progress == 7 ==> active.state == Collected)
    && (progress >= 8 ==> active.state == Captured)
    && (progress == 7 ==>
          active.response.Some? && event == ResponseCollected(watch.sessionId, active.response.value))
    && (progress >= 8 ==> ReceivedAt(active.response, tale, watch))
    && (progress == 8 ==>
          active.evidence.Some? && event == EvidenceCaptured(watch.sessionId, active.evidence.value))
    && (progress == 9 ==> active.evidence == None)
  }

  /** The step adds the next event that the history waits for from the browser. */
  ghost predicate StepIsNext(request: Request, step: Step, tale: seq<Event>, watch: Watch)
    requires watch.AfterIntent?
  {
    var progress := |tale|;
    && |step.events| == 1
    && (request.Submit? || progress >= 5)
    && WithinCap(watch.level, progress + 1)
    && watch.sessionId in step.sessions
    && var active := step.sessions[watch.sessionId];
    && Advances(active, step.events[0], tale, watch)
    && (step.reply.ResponseReply? ==> active.response == Some(step.reply.response))
    && (step.reply.EvidenceReply? ==> active.evidence == Some(step.reply.evidence))
    && (request.Confirm? ==> progress == 5)
    && (request.Collect? ==> progress == 7)
    && (request.Capture? ==> progress == 8)
    && (request.Release? ==> progress == 9)
  }

  /** A request that may add an event to the followed history now. */
  ghost predicate Due(net: Net, request: Request, answers: Answers, watch: Watch) {
    && BrokerInv(net.sessions) && watch.AfterIntent? && Tracked(net, watch) && Expectable(request, watch)
    && Names(request) == Some(watch.sessionId)
    && (request.Submit? ==> |Tale(net.log, watch)| == 4)
    && Dispatch(net.sessions, request, answers).events != []
  }

  lemma SubmitOrConfirmIsNext(net: Net, request: Request, answers: Answers, watch: Watch)
    requires Due(net, request, answers, watch) && (request.Submit? || request.Confirm?)
    ensures StepIsNext(request, Dispatch(net.sessions, request, answers), Tale(net.log, watch), watch)
  {
    hide Of;
    assert InStep(net.sessions[request.sessionId], Tale(net.log, watch), watch);
  }

  lemma CollectIsNext(net: Net, request: Request, answers: Answers, watch: Watch)
    requires Due(net, request, answers, watch) && request.Collect?
    ensures StepIsNext(request, Dispatch(net.sessions, request, answers), Tale(net.log, watch), watch)
  {
    hide Of;
    assert InStep(net.sessions[request.sessionId], Tale(net.log, watch), watch);
  }

  lemma CaptureOrReleaseIsNext(net: Net, request: Request, answers: Answers, watch: Watch)
    requires Due(net, request, answers, watch) && (request.Capture? || request.Release?)
    ensures StepIsNext(request, Dispatch(net.sessions, request, answers), Tale(net.log, watch), watch)
  {
    hide Of;
    assert InStep(net.sessions[request.sessionId], Tale(net.log, watch), watch);
  }

  lemma EventsComeFrom(sessions: Sessions, request: Request, answers: Answers)
    requires Dispatch(sessions, request, answers).events != []
    ensures request.Submit? || request.Confirm? || request.Collect? || request.Capture? || request.Release?
  {
  }

  lemma EventStepIsNext(net: Net, request: Request, answers: Answers, watch: Watch)
    requires Due(net, request, answers, watch)
    ensures StepIsNext(request, Dispatch(net.sessions, request, answers), Tale(net.log, watch), watch)
  {
    EventsComeFrom(net.sessions, request, answers);
    hide Dispatch, StepIsNext, Tracked, BrokerInv, Expectable;
    if request.Submit? || request.Confirm? {
      SubmitOrConfirmIsNext(net, request, answers, watch);
    } else if request.Collect? {
      CollectIsNext(net, request, answers, watch);
    } else {
      CaptureOrReleaseIsNext(net, request, answers, watch);
    }
  }

  lemma EventStepIsTracked(net: Net, request: Request, answers: Answers, watch: Watch)
    requires Due(net, request, answers, watch)
    ensures var step := Dispatch(net.sessions, request, answers);
            var tale := Tale(net.log, watch);
            var after := tale + step.events;
            && |after| == |tale| + 1
            && OnCourse(after, watch)
            && WithinCap(watch.level, |after|)
            && (request.Submit? || |tale| >= 5)
            && SessionInStep(step.sessions, after, watch)
            && Witnessed(request, step.reply, after, watch)
  {
    var step := Dispatch(net.sessions, request, answers);
    var tale := Tale(net.log, watch);
    EventStepIsNext(net, request, answers, watch);
    var event := step.events[0];
    assert step.events == [event];
    ExtendCourse(tale, event, watch);
    AfterEvent(tale, event, step.sessions[watch.sessionId], watch);
  }

  lemma AfterEvent(tale: seq<Event>, event: Event, active: ActiveSession, watch: Watch)
    requires watch.AfterIntent? && OnCourse(tale, watch)
    requires Advances(active, event, tale, watch)
    ensures InStep(active, tale + [event], watch)
    ensures |tale| >= 7 ==> ReceivedAt(active.response, tale + [event], watch)
    ensures |tale| == 8 ==> SealedAt(active.evidence, tale + [event], watch)
  {
  }

  lemma ExtendCourse(tale: seq<Event>, event: Event, watch: Watch)
    requires watch.AfterIntent? && OnCourse(tale, watch) && Expected(event, |tale|, watch)
    ensures OnCourse(tale + [event], watch)
  {
    forall i | 0 <= i < |tale + [event]| ensures Placed(tale + [event], i, watch) {
      if i < |tale| {
        assert Placed(tale, i, watch);
      }
    }
  }

  /** A request to the followed session takes it at most one step on. */
  lemma StepHere(net: Net, index: nat, answers: Answers, watch: Watch)
    requires BrokerInv(net.sessions) && watch.AfterIntent? && Tracked(net, watch) && index < |net.inflight|
    requires Names(net.inflight[index]) == Some(watch.sessionId)
    requires net.inflight[index].Submit? ==> |Tale(net.log, watch)| <= 4
    ensures
      var step := Dispatch(net.sessions, net.inflight[index], answers);
      var tale := Tale(net.log, watch);
      var later := tale + step.events;
      && later == Tale(net.log + step.events, watch)
      && OnCourse(later, watch) && WithinCap(watch.level, |later|)
      && (step.events != [] ==> |step.events| == 1 && (net.inflight[index].Submit? || |tale| >= 5))
      && SessionInStep(step.sessions, later, watch)
      && Witnessed(net.inflight[index], step.reply, later, watch)
  {
    hide Of, OnCourse;
    var request := net.inflight[index];
    var step := Dispatch(net.sessions, request, answers);
    var tale := Tale(net.log, watch);
    assert request in net.inflight && Expectable(request, watch);
    DispatchEvents(net.sessions, request, answers);
    hide Dispatch, InStep, Expectable;
    TaleExtends(net.log, step.events, watch);
    if step.events == [] {
      assert net.log + step.events == net.log && tale + step.events == tale;
      QuietStepIsTracked(net, request, answers, watch);
    } else {
      assert step.events == [step.events[0]];
      OfOne(step.events[0], watch.sessionId);
      SubmitsAtFour(net, index, watch);
      EventStepIsTracked(net, request, answers, watch);
    }
  }

  /** A request to the followed session. */
  lemma DeliveryHere(net: Net, index: nat, answers: Answers, watch: Watch)
    requires BrokerInv(net.sessions) && watch.AfterIntent? && Tracked(net, watch) && index < |net.inflight|
    requires Names(net.inflight[index]) == Some(watch.sessionId)
    requires net.inflight[index].Submit? ==> |Tale(net.log, watch)| <= 4
    ensures Tracked(Delivered(net, index, answers), watch)
    ensures Witnessed(net.inflight[index], Dispatch(net.sessions, net.inflight[index], answers).reply,
                      Tale(Delivered(net, index, answers).log, watch), watch)
  {
    hide Dispatch, InStep, OnCourse, Expectable, Of, Witnessed, Tale, WithinCap, BrokerInv;
    var step := Dispatch(net.sessions, net.inflight[index], answers);
    StepHere(net, index, answers, watch);
    assert (net.log + step.events)[..watch.start] == net.log[..watch.start];
    CountWithout(net.inflight, index, Pending(watch.sessionId));
    assert forall r :: r in Without(net.inflight, index) ==> r in net.inflight;
  }

  lemma SubmitsAtFour(net: Net, index: nat, watch: Watch)
    requires watch.AfterIntent? && Tracked(net, watch) && index < |net.inflight|
    requires Names(net.inflight[index]) == Some(watch.sessionId)
    requires net.inflight[index].Submit? ==> |Tale(net.log, watch)| <= 4
    ensures net.inflight[index].Submit? ==> |Tale(net.log, watch)| == 4
  {
    assert net.inflight[index] in net.inflight && Expectable(net.inflight[index], watch);
  }

  lemma PendingIsEarly(net: Net, index: nat, watch: Watch)
    requires watch.AfterIntent? && Tracked(net, watch) && index < |net.inflight|
    requires Names(net.inflight[index]) == Some(watch.sessionId)
    ensures net.inflight[index].Submit? ==> |Tale(net.log, watch)| <= 4
  {
    CountWithout(net.inflight, index, Pending(watch.sessionId));
  }

  lemma DeliveryIsTracked(net: Net, index: nat, answers: Answers, watch: Watch)
    requires BrokerInv(net.sessions) && watch.AfterIntent? && Tracked(net, watch) && index < |net.inflight|
    requires Fitting(net, net.inflight[index], answers)
    ensures Tracked(Delivered(net, index, answers), watch)
    ensures Witnessed(net.inflight[index], Dispatch(net.sessions, net.inflight[index], answers).reply,
                      Tale(Delivered(net, index, answers).log, watch), watch)
  {
    hide Tracked, Dispatch;
    if Names(net.inflight[index]) == Some(watch.sessionId) {
      PendingIsEarly(net, index, watch);
      DeliveryHere(net, index, answers, watch);
    } else {
      DeliveryElsewhere(net, index, answers, watch);
    }
  }

  // ---- What every reply proves -------------------------------------------------------

  /** What a reply to the runner proves, whether or not its session is followed. */
  ghost predicate Shown(request: Request, reply: Reply, net: Net) {
    && (request.Confirm? && reply.Ack? ==> BrowserConfirmed(request.sessionId) in net.log)
    && (request.Collect? && reply.ResponseReply? ==> ResponseCollected(request.sessionId, reply.response) in net.log)
    && (request.Capture? && reply.EvidenceReply? ==> EvidenceCaptured(request.sessionId, reply.evidence) in net.log)
    && (request.Release? && reply.Ack? ==> EvidenceReleased(request.sessionId) in net.log)
  }

  /** An opened session is not spent, and a prepared one stays at least that. */
  ghost predicate ShownReady(request: Request, reply: Reply, net: Net) {
    && (request.Open? && reply.Ack? ==> request.sessionId !in net.spent)
    && (request.Prepare? && reply.Ack? ==> Past(net, request.sessionId))
  }

  lemma DeliveryShows(net: Net, index: nat, answers: Answers)
    requires Accounted(net) && index < |net.inflight|
    ensures Shown(net.inflight[index], Dispatch(net.sessions, net.inflight[index], answers).reply,
                  Delivered(net, index, answers))
  {
    var request := net.inflight[index];
    if !request.Ping? && !request.Create? && !request.Resume? && request.sessionId in net.sessions {
      var active := net.sessions[request.sessionId];
      assert Remembered(active, net.log);
      hide Accounted;
    }
  }

  lemma DeliveryShowsReady(net: Net, index: nat, answers: Answers)
    requires BrokerInv(net.sessions) && Orderly(net) && index < |net.inflight|
    ensures ShownReady(net.inflight[index], Dispatch(net.sessions, net.inflight[index], answers).reply,
                       Delivered(net, index, answers))
  {
  }

  lemma DeliveryIsGood(net: Net, index: nat, answers: Answers, watch: Watch)
    requires Good(net, watch) && index < |net.inflight| && Fitting(net, net.inflight[index], answers)
    ensures Good(Delivered(net, index, answers), watch)
    ensures Onward(net, Delivered(net, index, answers), watch)
    ensures var reply := Dispatch(net.sessions, net.inflight[index], answers).reply;
            Proved(net.inflight[index], reply, Delivered(net, index, answers), watch)
  {
    var request := net.inflight[index];
    DeliveryIsAccounted(net, index, answers);
    DeliveryShows(net, index, answers);
    DispatchEvents(net.sessions, request, answers);
    GrowsByBrowser(net.log, Dispatch(net.sessions, request, answers).events);
    hide Dispatch, Shown, ShownReady, Orderly, Tracked, Past, Grown;
    if !watch.Unwatched? {
      DeliveryIsOrderly(net, index, answers);
      DeliveryShowsReady(net, index, answers);
    }
    if watch.AfterIntent? {
      DeliveryIsTracked(net, index, answers, watch);
    }
  }

  /** All that a reply proves under a watch. */
  ghost predicate Proved(request: Request, reply: Reply, net: Net, watch: Watch) {
    && Shown(request, reply, net)
    && (!watch.Unwatched? ==> ShownReady(request, reply, net))
    && (watch.AfterIntent? ==> Witnessed(request, reply, Tale(net.log, watch), watch))
  }

  // ---- The history between two points ---------------------------------------

  /** The browser may have added to the history; nobody else has. */
  ghost predicate Grown(earlier: seq<Event>, later: seq<Event>) {
    && earlier <= later
    && (forall i :: |earlier| <= i < |later| ==> later[i].FromBrowser())
    && RequestsIn(later) == RequestsIn(earlier)
  }

  lemma GrowsByBrowser(log: seq<Event>, events: seq<Event>)
    requires forall e :: e in events ==> e.FromBrowser()
    ensures Grown(log, log + events)
  {
    RequestsInConcat(log, events);
    CountNone(events, (e: Event) => e.SubmitRequested?);
    forall i | |log| <= i < |log + events| ensures (log + events)[i].FromBrowser() {
      assert (log + events)[i] == events[i - |log|];
    }
  }

  lemma GrownTransitive(first: seq<Event>, second: seq<Event>, third: seq<Event>)
    requires Grown(first, second) && Grown(second, third)
    ensures Grown(first, third)
  {
    assert forall i :: 0 <= i < |second| ==> second[i] == third[i];
  }

  /** From one state to a later one between which the runner added nothing. */
  ghost predicate Onward(earlier: Net, later: Net, watch: Watch) {
    && Grown(earlier.log, later.log) && later.spent == earlier.spent
    && (!watch.Unwatched? ==> forall id :: Past(earlier, id) ==> Past(later, id))
  }

  lemma OnwardTransitive(first: Net, second: Net, third: Net, watch: Watch)
    requires Onward(first, second, watch) && Onward(second, third, watch)
    ensures Onward(first, third, watch)
  {
    GrownTransitive(first.log, second.log, third.log);
  }

  lemma OnwardMeans(earlier: Net, later: Net, watch: Watch)
    requires Onward(earlier, later, watch)
    ensures Grown(earlier.log, later.log) && earlier.log <= later.log && RequestsIn(later.log) == RequestsIn(earlier.log)
    ensures later.spent == earlier.spent
  {
  }

  lemma OnwardReflexive(net: Net, watch: Watch)
    ensures Onward(net, net, watch)
  {
  }

  lemma WitnessedLater(request: Request, reply: Reply, tale: seq<Event>, more: seq<Event>, watch: Watch)
    requires watch.AfterIntent? && Witnessed(request, reply, tale, watch)
    ensures Witnessed(request, reply, tale + more, watch)
  {
  }

  lemma ShownLater(request: Request, reply: Reply, earlier: Net, later: Net)
    requires earlier.log <= later.log && Shown(request, reply, earlier)
    ensures Shown(request, reply, later)
  {
    forall e | e in earlier.log ensures e in later.log {
      var k :| 0 <= k < |earlier.log| && earlier.log[k] == e;
      assert later.log[k] == e;
    }
  }

  /** What was proved stays proved as the browser goes on. */
  lemma ProvedLater(request: Request, reply: Reply, earlier: Net, later: Net, watch: Watch)
    requires Onward(earlier, later, watch) && Proved(request, reply, earlier, watch)
    requires watch.AfterIntent? ==> watch.start <= |earlier.log|
    ensures Proved(request, reply, later, watch)
  {
    ShownLater(request, reply, earlier, later);
    if watch.AfterIntent? {
      var more := later.log[|earlier.log|..];
      assert later.log == earlier.log + more;
      TaleExtends(earlier.log, more, watch);
      WitnessedLater(request, reply, Tale(earlier.log, watch), Of(more, watch.sessionId), watch);
    }
    hide Shown, Witnessed, Tale, Past;
  }

  // ---- Sending and recording ------------------------------------------------

  /** `request` may be sent now. */
  ghost predicate Sendable(net: Net, request: Request, watch: Watch) {
    && !request.Submit?
    && (!watch.Unwatched? ==> Level(request) >= 1 ==> Names(request).value in net.spent)
    && (watch.AfterIntent? ==> Expectable(request, watch))
  }

  lemma SendIsGood(net: Net, request: Request, watch: Watch)
    requires Good(net, watch) && Sendable(net, request, watch)
    ensures Good(net.(inflight := net.inflight + [request]), watch)
  {
    forall id ensures Count(net.inflight + [request], Pending(id)) == Count(net.inflight, Pending(id)) {
      CountConcat(net.inflight, [request], Pending(id));
      CountOne(request, Pending(id));
    }
    hide BrokerInv, Ordered, Remembered, InStep, Past, OnCourse, Of;
  }

  lemma DropIsGood(net: Net, index: nat, watch: Watch)
    requires Good(net, watch) && index < |net.inflight|
    ensures Good(net.(inflight := Without(net.inflight, index)), watch)
  {
    forall id ensures Count(Without(net.inflight, index), Pending(id)) <= Count(net.inflight, Pending(id)) {
      CountWithout(net.inflight, index, Pending(id));
    }
    assert forall r :: r in Without(net.inflight, index) ==> r in net.inflight;
    hide BrokerInv, Ordered, Remembered, InStep, Past, OnCourse, Of;
  }

  /** The runner may add `event` now. */
  ghost predicate Recordable(net: Net, event: Event, watch: Watch) {
    && Preceded(net.log, event)
    && !event.SubmitRequested? && !event.FromBrowser()
    && (!watch.Unwatched? ==> forall id :: Milestone(event) && event.About(id) ==> id in net.spent)
    && (watch.AfterIntent? ==>
          event.About(watch.sessionId) ==>
            Expected(event, |Tale(net.log, watch)|, watch) && WithinCap(watch.level, |Tale(net.log, watch)| + 1))
  }

  lemma RecordIsAccounted(net: Net, event: Event)
    requires Accounted(net) && Preceded(net.log, event) && !event.SubmitRequested? && !event.FromBrowser()
    ensures Accounted(net.(log := net.log + [event]))
    ensures RequestsIn(net.log + [event]) == RequestsIn(net.log)
  {
    RequestsInConcat(net.log, [event]);
    CountOne(event, (e: Event) => e.SubmitRequested?);
    OrderedExtends(net.log, event);
    forall id
      ensures Count(net.log + [event], Submits(id)) == Count(net.log, Submits(id))
      ensures Count(net.log + [event], Requests(id)) == Count(net.log, Requests(id))
    {
      CountConcat(net.log, [event], Submits(id));
      CountConcat(net.log, [event], Requests(id));
      CountOne(event, Submits(id));
      CountOne(event, Requests(id));
    }
    forall r | r in net.inflight && r.Submit? ensures Asked(net.log + [event], r.sessionId, r.promptText) {
      StillAsked(net.log, [event], r.sessionId, r.promptText);
    }
    forall id | id in net.sessions ensures Remembered(net.sessions[id], net.log + [event]) {
      StillRemembered(net.sessions[id], net.log, [event]);
    }
  }

  lemma RecordIsTracked(net: Net, event: Event, watch: Watch)
    requires watch.AfterIntent? && Tracked(net, watch) && !event.FromBrowser()
    requires event.About(watch.sessionId) ==> Expected(event, |Tale(net.log, watch)|, watch)
    requires event.About(watch.sessionId) ==> WithinCap(watch.level, |Tale(net.log, watch)| + 1)
    ensures Tracked(net.(log := net.log + [event]), watch)
    ensures Tale(net.log + [event], watch) ==
            Tale(net.log, watch) + if event.About(watch.sessionId) then [event] else []
  {
    hide InStep, OnCourse, Expectable, Of, NoMilestones, Count;
    var tale := Tale(net.log, watch);
    TaleExtends(net.log, [event], watch);
    OfOne(event, watch.sessionId);
    assert (net.log + [event])[..watch.start] == net.log[..watch.start];
    assert tale + [] == tale;
    if event.About(watch.sessionId) {
      ExtendCourse(tale, event, watch);
      if watch.sessionId in net.sessions {
        OwnEventInStep(net.sessions[watch.sessionId], tale, event, watch);
      }
    }
  }

  /** The runner's own events stand where the session's state does not change. */
  lemma OwnEventInStep(active: ActiveSession, tale: seq<Event>, event: Event, watch: Watch)
    requires watch.AfterIntent? && InStep(active, tale, watch) && Expected(event, |tale|, watch) && !event.FromBrowser()
    ensures InStep(active, tale + [event], watch)
  {
  }

  lemma RecordIsGood(net: Net, event: Event, watch: Watch)
    requires Good(net, watch) && Recordable(net, event, watch)
    ensures Good(net.(log := net.log + [event]), watch)
    ensures RequestsIn(net.log + [event]) == RequestsIn(net.log)
    ensures watch.AfterIntent? ==>
              Tale(net.log + [event], watch) ==
              Tale(net.log, watch) + if event.About(watch.sessionId) then [event] else []
  {
    RecordIsAccounted(net, event);
    hide Accounted, Tracked;
    if watch.AfterIntent? {
      RecordIsTracked(net, event, watch);
    }
  }

  /** The accounts do not depend on which ids were named or spent. */
  lemma AccountsStay(net: Net, other: Net)
    requires other == net.(named := other.named, spent := other.spent)
    ensures Accounted(net) <==> Accounted(other)
  {
  }

  /** Naming and spending a session that is past being prepared. */
  lemma SpendIsGood(net: Net, id: string, watch: Watch)
    requires Good(net, watch) && !watch.AfterIntent? && Past(net, id)
    ensures Good(net.(spent := net.spent + {id}), watch)
  {
    AccountsStay(net, net.(spent := net.spent + {id}));
    hide Accounted;
  }

  lemma NameIsGood(net: Net, id: string, watch: Watch)
    requires Good(net, watch)
    ensures Good(net.(named := net.named + {id}), watch)
  {
    AccountsStay(net, net.(named := net.named + {id}));
    hide Accounted, InStep, OnCourse;
  }

  /** The submit intent: the one step that begins to follow a session. Nothing about
      that session has happened or is under way that goes further than preparing it. */
  lemma DeclareIsGood(net: Net, attempt: nat, claim: ClaimedTask, id: string)
    requires Good(net, BeforeIntent) && id !in net.spent && Past(net, id) && !GaveUp(net.log, attempt)
    ensures var watch := AfterIntent(attempt, claim, id, |net.log|, 0);
            var event := IntentSent(attempt, claim, id);
            && Good(net.(spent := net.spent + {id}, log := net.log + [event]), watch)
            && Tale(net.log + [event], watch) == [event]
    ensures RequestsIn(net.log + [IntentSent(attempt, claim, id)]) == RequestsIn(net.log)
  {
    var watch := AfterIntent(attempt, claim, id, |net.log|, 0);
    var event := IntentSent(attempt, claim, id);
    SpendIsGood(net, id, BeforeIntent);
    var spent := net.(spent := net.spent + {id});
    DeclaredTale(net.log, event, watch);
    DeclareIsTracked(net, event, watch);
    hide Tracked, Orderly, Past, Accounted, Tale;
    assert Preceded(net.log, event);
    assert Recordable(spent, event, BeforeIntent);
    RecordIsGood(spent, event, BeforeIntent);
  }

  lemma DeclaredTale(log: seq<Event>, event: Event, watch: Watch)
    requires watch.AfterIntent? && watch.start == |log| && event.About(watch.sessionId)
    ensures Tale(log + [event], watch) == [event]
  {
    assert (log + [event])[|log|..] == [event];
    OfOne(event, watch.sessionId);
  }

  lemma DeclareIsTracked(net: Net, event: Event, watch: Watch)
    requires watch.AfterIntent? && watch.start == |net.log| && watch.level == 0
    requires event == IntentSent(watch.attempt, watch.claim, watch.sessionId)
    requires Orderly(net) && watch.sessionId !in net.spent && Past(net, watch.sessionId)
    ensures Tracked(net.(spent := net.spent + {watch.sessionId}, log := net.log + [event]), watch)
  {
    DeclaredTale(net.log, event, watch);
    assert (net.log + [event])[..|net.log|] == net.log;
    assert Placed([event], 0, watch);
    forall r | r in net.inflight ensures Expectable(r, watch) && !Pending(watch.sessionId)(r) {
    }
    CountNone(net.inflight, Pending(watch.sessionId));
    hide Tale;
  }

  lemma SubmitRequestIsAccounted(net: Net, task: RunnerTask, id: string)
    requires Accounted(net) && Preceded(net.log, SubmitRequested(task, id))
    requires Count(net.log, Requests(id)) == 0
    ensures Accounted(net.(inflight := net.inflight + [Submit(id, task.promptText)],
                           log := net.log + [SubmitRequested(task, id)]))
    ensures RequestsIn(net.log + [SubmitRequested(task, id)]) == RequestsIn(net.log) + 1
  {
    var event := SubmitRequested(task, id);
    var request := Submit(id, task.promptText);
    RequestsInConcat(net.log, [event]);
    CountOne(event, (e: Event) => e.SubmitRequested?);
    OrderedExtends(net.log, event);
    forall other
      ensures Count(net.log + [event], Submits(other)) + Count(net.inflight + [request], Pending(other))
              <= Count(net.log + [event], Requests(other)) <= 1
    {
      CountConcat(net.log, [event], Submits(other));
      CountConcat(net.log, [event], Requests(other));
      CountConcat(net.inflight, [request], Pending(other));
      CountOne(event, Submits(other));
      CountOne(event, Requests(other));
      CountOne(request, Pending(other));
    }
    assert event in net.log + [event];
    forall r | r in net.inflight + [request] && r.Submit?
      ensures Asked(net.log + [event], r.sessionId, r.promptText)
    {
      if r in net.inflight {
        StillAsked(net.log, [event], r.sessionId, r.promptText);
      }
    }
    forall other | other in net.sessions ensures Remembered(net.sessions[other], net.log + [event]) {
      StillRemembered(net.sessions[other], net.log, [event]);
    }
  }

  /** A followed session was not asked to submit before its turn. */
  lemma NotAskedYet(net: Net, watch: Watch)
    requires watch.AfterIntent? && Tracked(net, watch) && |Tale(net.log, watch)| == 3
    ensures Count(net.log, Requests(watch.sessionId)) == 0
  {
    var id := watch.sessionId;
    var tale := Tale(net.log, watch);
    assert Placed(tale, 0, watch) && Placed(tale, 1, watch) && Placed(tale, 2, watch);
    OfHolds(net.log[watch.start..], id);
    hide Of, InStep;
    forall e | e in net.log ensures !Requests(id)(e) {
      assert Requests(id)(e) ==> e.About(id) && Milestone(e);
      var k :| 0 <= k < |net.log| && net.log[k] == e;
      if k < watch.start {
        assert e in net.log[..watch.start];
      } else if e.About(id) {
        assert e in net.log[watch.start..] && e in tale;
        var i :| 0 <= i < |tale| && tale[i] == e;
        assert Placed(tale, i, watch);
      }
    }
    CountNone(net.log, Requests(id));
  }

  /** Asking the broker to submit: the one step that adds to what may be entered. It
      needs the durable intent and the journal record, and can be taken once for a
      session. */
  lemma SubmitRequestIsGood(net: Net, watch: Watch)
    requires Good(net, watch) && watch.AfterIntent?
    requires Preceded(net.log, SubmitRequested(watch.claim.task, watch.sessionId))
    requires watch.level == 0 && |Tale(net.log, watch)| == 3
    ensures var event := SubmitRequested(watch.claim.task, watch.sessionId);
            && Good(net.(inflight := net.inflight + [Submit(watch.sessionId, watch.claim.task.promptText)],
                         log := net.log + [event]), Raise(watch, 1))
            && RequestsIn(net.log + [event]) == RequestsIn(net.log) + 1
  {
    hide Accounted, Tracked, Orderly, Preceded;
    NotAskedYet(net, watch);
    SubmitRequestIsAccounted(net, watch.claim.task, watch.sessionId);
    SubmitRequestIsTracked(net, watch);
    SubmitRequestIsOrderly(net, watch.claim.task, watch.sessionId);
  }

  lemma SubmitRequestIsOrderly(net: Net, task: RunnerTask, id: string)
    requires Orderly(net) && id in net.spent
    ensures Orderly(net.(inflight := net.inflight + [Submit(id, task.promptText)],
                         log := net.log + [SubmitRequested(task, id)]))
  {
    hide Past;
    var after := net.(inflight := net.inflight + [Submit(id, task.promptText)], log := net.log + [SubmitRequested(task, id)]);
    forall other | other in after.spent ensures Past(after, other) {
      PastStays(net, after, other);
    }
  }

  lemma PastStays(net: Net, other: Net, id: string)
    requires other.sessions == net.sessions && net.named <= other.named && Past(net, id)
    ensures Past(other, id)
  {
  }

  lemma SubmitRequestIsTracked(net: Net, watch: Watch)
    requires watch.AfterIntent? && Tracked(net, watch) && watch.level == 0 && |Tale(net.log, watch)| == 3
    ensures Tracked(net.(inflight := net.inflight + [Submit(watch.sessionId, watch.claim.task.promptText)],
                         log := net.log + [SubmitRequested(watch.claim.task, watch.sessionId)]), Raise(watch, 1))
    ensures watch.sessionId in net.spent
  {
    var event := SubmitRequested(watch.claim.task, watch.sessionId);
    var request := Submit(watch.sessionId, watch.claim.task.promptText);
    var raised := Raise(watch, 1);
    var tale := Tale(net.log, watch);
    TaleExtends(net.log, [event], raised);
    OfOne(event, watch.sessionId);
    ExtendCourse(tale, event, watch);
    RaisedCourse(tale + [event], watch, 1);
    assert (net.log + [event])[..watch.start] == net.log[..watch.start];
    forall r | r in net.inflight ensures Expectable(r, raised) && !Pending(watch.sessionId)(r) {
      assert Expectable(r, watch);
    }
    CountNone(net.inflight, Pending(watch.sessionId));
    CountConcat(net.inflight, [request], Pending(watch.sessionId));
    CountOne(request, Pending(watch.sessionId));
    if watch.sessionId in net.sessions {
      OwnEventInStep(net.sessions[watch.sessionId], tale, event, watch);
      assert InStep(net.sessions[watch.sessionId], tale + [event], raised);
    }
    hide InStep, OnCourse, Of;
  }

  lemma RaisedCourse(tale: seq<Event>, watch: Watch, level: nat)
    requires watch.AfterIntent? && OnCourse(tale, watch)
    ensures OnCourse(tale, Raise(watch, level))
  {
    forall i | 0 <= i < |tale| ensures Placed(tale, i, Raise(watch, level)) {
      assert Placed(tale, i, watch);
    }
  }

  /** A later kind of request may be sent once the history has come far enough. */
  lemma RaiseIsGood(net: Net, watch: Watch, level: nat)
    requires Good(net, watch) && watch.AfterIntent? && watch.level <= level
    requires Floor(level) <= |Tale(net.log, watch)| && WithinCap(level, |Tale(net.log, watch)|)
    ensures Good(net, Raise(watch, level))
  {
    var raised := Raise(watch, level);
    var tale := Tale(net.log, watch);
    hide Accounted, Orderly;
    RaisedCourse(tale, watch, level);
    forall r | r in net.inflight ensures Expectable(r, raised) {
      assert Expectable(r, watch);
    }
    if watch.sessionId in net.sessions {
      assert InStep(net.sessions[watch.sessionId], tale, raised);
    }
  }

  // ---- The socket -------------------------------------------------------------

  class BrokerSocket {
    const broker: BrokerService
    var inflight: seq<Request>
    var named: set<string>
    ghost var log: seq<Event>
    ghost var spent: set<string>
    /** The last request that the runner sent, and what it heard. */
    ghost var asked: Option<Request>
    ghost var heard: Option<Reply>

    constructor (broker: BrokerService)
      requires broker.sessions == map[]
      ensures this.broker == broker && Clean(Now())
    {
      this.broker := broker;
      inflight := [];
      named := {};
      log := [];
      spent := {};
      asked, heard := None, None;
    }

    ghost function Now(): Net
      reads this, broker
    {
      Net(broker.sessions, inflight, log, named, spent)
    }

    /** The broker reads one of the requests under way and answers it. The browser may
        answer the broker anything, but never issues a session id again; an adapter
        that would is taken to fail. */
    method Deliver(index: nat, ghost watch: Watch) returns (reply: Reply)
      requires index < |inflight| && Good(Now(), watch)
      modifies this, broker
      ensures Good(Now(), watch) && Onward(old(Now()), Now(), watch)
      ensures Proved(old(inflight)[index], reply, Now(), watch)
    {
      ghost var before := Now();
      var request := inflight[index];
      var answers: Answers := *;
      if request.Create? && answers.newSessionId in named {
        answers := answers.(thrown := Some(Untyped));
      }
      hide Good, Onward, Proved;
      AccountedIsSound(before, watch);
      reply := broker.Handle(request, answers);
      inflight := Without(inflight, index);
      log := log + Dispatch(before.sessions, request, answers).events;
      named := named + broker.sessions.Keys;
      assert Now() == Delivered(before, index, answers);
      DeliveryIsGood(before, index, answers, watch);
    }

    /** Time passes: any of the requests under way may reach the broker, in any order. */
    method Interleave(ghost watch: Watch)
      requires Good(Now(), watch)
      modifies this, broker
      ensures Good(Now(), watch) && Onward(old(Now()), Now(), watch)
    {
      hide Good, Onward;
      OnwardReflexive(Now(), watch);
      var deliveries: nat := *;
      while deliveries > 0
        invariant Good(Now(), watch) && Onward(old(Now()), Now(), watch)
      {
        if inflight == [] {
          return;
        }
        var index: nat :| index < |inflight|;
        ghost var before := Now();
        var _ := Deliver(index, watch);
        OnwardTransitive(old(Now()), before, Now(), watch);
        deliveries := deliveries - 1;
      }
    }

    /** Waits for the reply to the request just put at the end of `inflight`. The
        request is lost, or left under way, or delivered now with the reply lost,
        or delivered with its reply. */
    method Await(ghost watch: Watch) returns (reply: Option<Reply>)
      requires inflight != [] && Good(Now(), watch)
      modifies this, broker
      ensures Good(Now(), watch) && Onward(old(Now()), Now(), watch)
      ensures reply.Some? ==> Proved(old(inflight)[|old(inflight)| - 1], reply.value, Now(), watch)
    {
      hide Good, Proved, Onward;
      var lost, late, unanswered: bool := *, *, *;
      var last := |inflight| - 1;
      if lost {
        ghost var kept := Now();
        DropIsGood(Now(), last, watch);
        inflight := Without(inflight, last);
        DropIsOnward(kept, Now(), watch);
        ghost var dropped := Now();
        Interleave(watch);
        OnwardTransitive(old(Now()), dropped, Now(), watch);
        return None;
      }
      if late {
        Interleave(watch);
        return None;
      }
      ghost var request := inflight[last];
      var answer := Deliver(last, watch);
      ghost var middle := Now();
      StartsEarly(middle, watch);
      Interleave(watch);
      OnwardTransitive(old(Now()), middle, Now(), watch);
      if unanswered {
        return None;
      }
      ProvedLater(request, answer, middle, Now(), watch);
      return Some(answer);
    }

    /** Sends any request but a submit. None is a transport failure. */
    method Send(request: Request, ghost watch: Watch) returns (reply: Option<Reply>)
      requires Good(Now(), watch) && Sendable(Now(), request, watch)
      modifies this, broker
      ensures Good(Now(), watch) && Onward(old(Now()), Now(), watch)
      ensures reply.Some? ==> Proved(request, reply.value, Now(), watch)
      ensures asked == Some(request) && heard == reply
    {
      hide Good, Proved, Onward;
      Interleave(watch);
      ghost var middle := Now();
      OnwardKeepsSendable(old(Now()), middle, request, watch);
      SendIsGood(Now(), request, watch);
      inflight := inflight + [request];
      ghost var sent := Now();
      DropIsOnward(middle, sent, watch);
      OnwardTransitive(old(Now()), middle, sent, watch);
      reply := Await(watch);
      asked, heard := Some(request), reply;
      OnwardTransitive(old(Now()), sent, Now(), watch);
    }

    /** The runner adds an event of its own to the history. */
    ghost method Record(event: Event, watch: Watch)
      requires Good(Now(), watch) && Recordable(Now(), event, watch)
      modifies this`log
      ensures log == old(log) + [event]
      ensures Good(Now(), watch)
      ensures RequestsIn(log) == RequestsIn(old(log))
      ensures watch.AfterIntent? ==>
                Tale(log, watch) == Tale(old(log), watch) + if event.About(watch.sessionId) then [event] else []
    {
      hide Good, Recordable;
      RecordIsGood(Now(), event, watch);
      log := log + [event];
    }

    /** The runner takes up a session of an earlier run: no session that is created from
        now on has its id. */
    method TakeUp(id: string, ghost watch: Watch)
      requires Good(Now(), watch) && !watch.AfterIntent?
      requires watch.BeforeIntent? ==> Retained(broker.sessions, id)
      modifies this`named, this`spent
      ensures Good(Now(), watch) && log == old(log)
      ensures watch.BeforeIntent? ==> id in spent
    {
      hide Good;
      NameIsGood(Now(), id, watch);
      named := named + {id};
      if watch.BeforeIntent? {
        SpendIsGood(Now(), id, watch);
        spent := spent + {id};
      }
    }

    /** The runner declares that it is about to submit in this session. */
    ghost method Declare(attempt: nat, claim: ClaimedTask, id: string) returns (watch: Watch)
      requires Good(Now(), BeforeIntent) && id !in spent && Past(Now(), id) && !GaveUp(log, attempt)
      modifies this`log, this`spent
      ensures watch == AfterIntent(attempt, claim, id, |old(log)|, 0)
      ensures log == old(log) + [IntentSent(attempt, claim, id)]
      ensures Good(Now(), watch) && |Tale(log, watch)| == 1
      ensures RequestsIn(log) == RequestsIn(old(log))
    {
      hide Good;
      DeclareIsGood(Now(), attempt, claim, id);
      watch := AfterIntent(attempt, claim, id, |log|, 0);
      log := log + [IntentSent(attempt, claim, id)];
      spent := spent + {id};
    }

    /** Sends the submit request of the followed session. */
    method SendSubmit(ghost watch: Watch, id: string, promptText: string) returns (reply: Option<Reply>)
      requires Good(Now(), watch) && watch.AfterIntent?
      requires Preceded(log, SubmitRequested(watch.claim.task, watch.sessionId))
      requires watch.level == 0 && |Tale(log, watch)| == 3
      requires id == watch.sessionId && promptText == watch.claim.task.promptText
      modifies this, broker
      ensures Good(Now(), Raise(watch, 1))
      ensures Grown(old(log) + [SubmitRequested(watch.claim.task, watch.sessionId)], log)
      ensures RequestsIn(log) == RequestsIn(old(log)) + 1
      ensures asked == Some(Submit(id, promptText)) && heard == reply
    {
      hide Good, Proved;
      SubmitRequestIsGood(Now(), watch);
      inflight := inflight + [Submit(id, promptText)];
      log := log + [SubmitRequested(watch.claim.task, watch.sessionId)];
      reply := Await(Raise(watch, 1));
      asked, heard := Some(Submit(id, promptText)), reply;
    }
  }

  lemma AccountedIsSound(net: Net, watch: Watch)
    requires Good(net, watch)
    ensures BrokerInv(net.sessions)
  {
  }

  lemma StartsEarly(net: Net, watch: Watch)
    requires Good(net, watch)
    ensures watch.AfterIntent? ==> watch.start <= |net.log|
  {
  }

  lemma DropIsOnward(earlier: Net, later: Net, watch: Watch)
    requires later == earlier.(inflight := later.inflight)
    ensures Onward(earlier, later, watch)
  {
  }

  lemma OnwardKeepsSendable(earlier: Net, later: Net, request: Request, watch: Watch)
    requires Onward(earlier, later, watch) && Sendable(earlier, request, watch)
    ensures Sendable(later, request, watch)
  {
  }
}
