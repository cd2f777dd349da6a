/** One claimed task of a batch (executeClaimedTask and its helpers in
    run-batch.ts): bounded pre-submit retries, a durable submit intent, and
    same-session recovery once the prompt may have been submitted. */
module ExecuteTask {
  import opened Counting
  import opened Optional
  import opened Contracts
  import opened BrokerServer
  import opened Wire
  import opened BrokerClient
  import opened RemoteClient

  datatype Options = Options(
    socket: BrokerSocket,
    remote: BrowserRunnerRemoteClient,
    batchId: Option<string>,
    maximumTasks: Option<int>,
    preSubmitRetries: nat,
    postSubmitRecoveries: nat,
    emptyClaimGracePolls: int,
    canRetry: bool,
    retainLocalArtifacts: bool)

  // ---- Facts about the history ------------------------------------------------

  lemma TaleGrows(earlier: seq<Event>, later: seq<Event>, watch: Watch)
    requires watch.AfterIntent? && watch.start <= |earlier| && earlier <= later
    ensures Tale(later, watch) == Tale(earlier, watch) + Of(later[|earlier|..], watch.sessionId)
  {
    assert later == earlier + later[|earlier|..];
    TaleExtends(earlier, later[|earlier|..], watch);
  }

  lemma BrowserAdds(earlier: seq<Event>, later: seq<Event>, watch: Watch)
    requires watch.AfterIntent? && watch.start <= |earlier| && Grown(earlier, later)
    ensures Tale(earlier, watch) <= Tale(later, watch)
    ensures forall k :: |Tale(earlier, watch)| <= k < |Tale(later, watch)| ==> Tale(later, watch)[k].FromBrowser()
  {
    TaleGrows(earlier, later, watch);
    OfHolds(later[|earlier|..], watch.sessionId);
    hide Tale, Of;
    var added := Of(later[|earlier|..], watch.sessionId);
    assert forall e :: e in added ==> e in later[|earlier|..];
    assert forall e :: e in later[|earlier|..] ==> e.FromBrowser();
    forall k | |Tale(earlier, watch)| <= k < |Tale(later, watch)| ensures Tale(later, watch)[k].FromBrowser() {
      assert Tale(later, watch)[k] == added[k - |Tale(earlier, watch)|];
    }
  }

  /** Where the next event is the runner's own, the browser cannot get past. */
  lemma BrowserStops(earlier: Net, later: Net, watch: Watch, i: nat)
    requires Good(later, watch) && Onward(earlier, later, watch)
    requires 1 <= i <= 3 || i == 6 || i >= 10
    requires watch.AfterIntent? && watch.start <= |earlier.log| && |Tale(earlier.log, watch)| <= i
    ensures |Tale(earlier.log, watch)| <= |Tale(later.log, watch)| <= i
  {
    BrowserAdds(earlier.log, later.log, watch);
    GoodIsOnCourse(later, watch);
    hide Tale, Of, Good, Onward;
    assert i < |Tale(later.log, watch)| ==> Placed(Tale(later.log, watch), i, watch);
  }

  /** A serial number for an attempt, larger than any used so far. */
  ghost function NextAttempt(log: seq<Event>): nat {
    if log == [] then 0
    else
      var rest := NextAttempt(log[1..]);
      var used := if log[0].IntentSent? || log[0].RetryRequested? || log[0].CloseRequested? then log[0].attempt else 0;
      if used < rest then rest else used + 1
  }

  lemma {:induction false} NextAttemptIsNew(log: seq<Event>)
    ensures forall i :: 0 <= i < |log| && (log[i].IntentSent? || log[i].RetryRequested? || log[i].CloseRequested?)
              ==> log[i].attempt < NextAttempt(log)
  {
    if log != [] {
      NextAttemptIsNew(log[1..]);
      forall i | 0 <= i < |log| && (log[i].IntentSent? || log[i].RetryRequested? || log[i].CloseRequested?)
        ensures log[i].attempt < NextAttempt(log)
      {
        if i > 0 {
          assert log[i] == log[1..][i - 1];
        }
      }
    }
  }

  /** The attempt has neither declared an intent nor asked for a retry. */
  ghost predicate Undecided(log: seq<Event>, attempt: nat) {
    !Intended(log, attempt) && !GaveUp(log, attempt)
  }

  lemma UndecidedLater(earlier: seq<Event>, later: seq<Event>, attempt: nat)
    requires Grown(earlier, later)
    ensures Undecided(earlier, attempt) ==> Undecided(later, attempt)
    ensures !Intended(earlier, attempt) ==> !Intended(later, attempt)
  {
    forall i | 0 <= i < |later| && !later[i].FromBrowser() ensures later[i] in earlier {
      assert i < |earlier| && later[i] == earlier[i];
    }
  }

  /** Whatever was added is the work of the task, or the browser's. */
  ghost predicate Worked(earlier: seq<Event>, later: seq<Event>, taskId: string) {
    earlier <= later && forall i :: |earlier| <= i < |later| ==> later[i].WorkOf(taskId)
  }

  lemma GrownIsWork(earlier: seq<Event>, later: seq<Event>, taskId: string)
    requires Grown(earlier, later)
    ensures Worked(earlier, later, taskId)
  {
  }

  lemma WorkedTransitive(first: seq<Event>, second: seq<Event>, third: seq<Event>, taskId: string)
    requires Worked(first, second, taskId) && Worked(second, third, taskId)
    ensures Worked(first, third, taskId)
  {
    assert forall i :: 0 <= i < |second| ==> second[i] == third[i];
  }

  /** What the runner adds, and then the browser. */
  lemma AddedIsWork(earlier: seq<Event>, event: Event, later: seq<Event>, taskId: string)
    requires Grown(earlier + [event], later) && event.WorkOf(taskId)
    ensures Worked(earlier, later, taskId)
  {
    assert later[|earlier|] == (earlier + [event])[|earlier|];
  }

  /** Whatever was added is the work of the task, the browser's, or the end of an attempt. */
  ghost predicate Ran(earlier: seq<Event>, later: seq<Event>, taskId: string) {
    earlier <= later &&
    forall i :: |earlier| <= i < |later| ==>
      later[i].WorkOf(taskId) || later[i].RetryRequested? || later[i].CloseRequested?
  }

  lemma WorkedIsRan(earlier: seq<Event>, later: seq<Event>, taskId: string)
    requires Worked(earlier, later, taskId)
    ensures Ran(earlier, later, taskId)
  {
  }

  lemma GrownIsRan(earlier: seq<Event>, later: seq<Event>, taskId: string)
    requires Grown(earlier, later)
    ensures Ran(earlier, later, taskId)
  {
  }

  lemma RanTransitive(first: seq<Event>, second: seq<Event>, third: seq<Event>, taskId: string)
    requires Ran(first, second, taskId) && Ran(second, third, taskId)
    ensures Ran(first, third, taskId)
  {
    assert forall i :: 0 <= i < |second| ==> second[i] == third[i];
  }

  lemma RanMeans(earlier: seq<Event>, later: seq<Event>, taskId: string)
    requires Ran(earlier, later, taskId)
    ensures earlier <= later
  {
  }

  /** All retry requests of the history. */
  ghost function RetriesIn(log: seq<Event>): nat {
    Count(log, (e: Event) => e.RetryRequested?)
  }

  lemma WorkAsksNoRetry(earlier: seq<Event>, later: seq<Event>, taskId: string)
    requires Worked(earlier, later, taskId)
    ensures RetriesIn(later) == RetriesIn(earlier)
  {
    var added := later[|earlier|..];
    assert later == earlier + added;
    CountConcat(earlier, added, (e: Event) => e.RetryRequested?);
    assert forall e :: e in added ==> e.WorkOf(taskId);
    CountNone(added, (e: Event) => e.RetryRequested?);
  }

  /** The closes that were added all have this outcome. */
  ghost predicate ClosesAs(earlier: seq<Event>, later: seq<Event>, outcome: CloseOutcome) {
    forall i :: |earlier| <= i < |later| && later[i].CloseRequested? ==> later[i].outcome == outcome
  }

  lemma Unfollow(net: Net, watch: Watch)
    requires Good(net, watch) && !watch.Unwatched?
    ensures Good(net, BeforeIntent)
  {
  }

  // ---- Effects that take time ---------------------------------------------------

  /** Appends to the run's journal. */
  method Journal(options: Options, ghost watch: Watch) returns (result: Outcome<()>)
    requires Good(options.socket.Now(), watch)
    modifies options.socket, options.socket.broker
    ensures Good(options.socket.Now(), watch)
    ensures Onward(old(options.socket.Now()), options.socket.Now(), watch)
    ensures result == Returned(()) || result == Threw(Untyped)
  {
    options.socket.Interleave(watch);
    var written: bool := *;
    result := if written then Returned(()) else Threw(Untyped);
  }

  /** The heartbeat that runs beside the attempt may have failed by now. */
  method CheckHeartbeat() returns (result: Outcome<()>)
    ensures result == Returned(())
            || result == Threw(Typed(RunnerError("lease_heartbeat_failed", Persisting, NeedsHuman)))
  {
    var lost: bool := *;
    result := if lost then Threw(Typed(RunnerError("lease_heartbeat_failed", Persisting, NeedsHuman))) else Returned(());
  }

  // ---- The steps of an attempt ------------------------------------------------

  /** What became of each step that was taken: nothing when it went through. */
  type Steps = seq<Option<Thrown>>

  /** One step after the other, of so many: each one that was taken went through, except
      that the one that throws is the last; and the result is that of the last step. */
  ghost predicate Walked<T>(result: Outcome<T>, steps: Steps, all: nat) {
    && 1 <= |steps| <= all
    && (forall i :: 0 <= i < |steps| - 1 ==> steps[i].None?)
    && match result
       case Returned(_) => |steps| == all && steps[all - 1].None?
       case Threw(thrown) => steps[|steps| - 1] == Some(thrown)
  }

  ghost function StepOf<T>(result: Outcome<T>): (steps: Steps)
    ensures Walked(result, steps, 1)
  {
    [if result.Threw? then Some(result.thrown) else None]
  }

  lemma WalkedOn<T, U>(first: Outcome<T>, earlier: Steps, n: nat, second: Outcome<U>, later: Steps, m: nat)
    requires Walked(first, earlier, n) && first.Returned? && Walked(second, later, m)
    ensures Walked(second, earlier + later, n + m)
    ensures |earlier + later| == n + |later|
  {
    assert forall i :: n <= i < |earlier + later| ==> (earlier + later)[i] == later[i - n];
  }

  lemma WalkedNoFurther<T, U>(first: Outcome<T>, steps: Steps, n: nat, second: Outcome<U>, m: nat)
    requires Walked(first, steps, n) && first.Threw? && second == Threw(first.thrown)
    ensures Walked(second, steps, n + m)
  {
  }

  lemma WalkedMeans<T>(result: Outcome<T>, steps: Steps, n: nat)
    requires Walked(result, steps, n)
    ensures 1 <= |steps| <= n && (result.Returned? ==> |steps| == n)
  {
  }

  /** The steps of an attempt, in order: its start is noted; the session is created,
      opened and prepared; the heartbeat is looked at; the intent is recorded at the server
      and noted; submit; confirm; the confirmation is recorded at the server and noted;
      collect; the heartbeat is looked at; capture; the evidence is saved and noted; the
      observation is handed to the sink; and that is noted. */
  const STEPS: nat := 18

  /** The phase that the attempt is in at each of them. */
  ghost function PhaseAt(step: nat): Phase {
    if step <= 3 then SessionOpen
    else if step <= 5 then PreSubmit
    else if step <= 8 then Submitting
    else if step <= 13 then PostSubmit
    else if step <= 16 then GatheringEvidence
    else Persisting
  }

  // ---- The attempt up to the intent -------------------------------------------

  /** Normal return means a session that nobody has gone further with than preparing
      it, and that is prepared. */
  method OpenAndPrepare(options: Options, task: RunnerTask, attempt: nat)
    returns (result: Outcome<()>, phase: Phase, session: BrokeredSurfaceSession?, ghost steps: Steps)
    requires Good(options.socket.Now(), BeforeIntent)
    modifies options.socket, options.socket.broker
    ensures Good(options.socket.Now(), BeforeIntent)
    ensures Onward(old(options.socket.Now()), options.socket.Now(), BeforeIntent)
    ensures Walked(result, steps, 5) && phase == PhaseAt(|steps|)
    ensures session == null <==> |steps| <= 2
    ensures session != null ==>
              fresh(session) && session.socket == options.socket && session.task == task && !session.submitted
    ensures result.Returned? ==>
              session != null && session.id !in options.socket.spent && Past(options.socket.Now(), session.id)
  {
    hide Good, Onward, Past;
    ghost var start := options.socket.Now();
    phase := SessionOpen;
    session := null;
    result := Journal(options, BeforeIntent);
    steps := StepOf(result);
    ghost var first := options.socket.Now();
    if result.Threw? {
      return;
    }
    var created := CreateSession(options.socket, task, attempt, BeforeIntent);
    ghost var second := options.socket.Now();
    OnwardTransitive(start, first, second, BeforeIntent);
    steps := steps + StepOf(created);
    if created.Threw? {
      return Threw(created.thrown), phase, session, steps;
    }
    session := created.value;
    ghost var readied;
    result, phase, readied := Ready(session, task);
    steps := steps + readied;
    OnwardTransitive(start, second, options.socket.Now(), BeforeIntent);
    if result.Threw? {
      return;
    }
    result := CheckHeartbeat();
    steps := steps + StepOf(result);
  }

  /** Opens, then prepares. */
  method Ready(session: BrokeredSurfaceSession, task: RunnerTask)
    returns (result: Outcome<()>, phase: Phase, ghost steps: Steps)
    requires Good(session.socket.Now(), BeforeIntent)
    modifies session.socket, session.socket.broker
    ensures Good(session.socket.Now(), BeforeIntent)
    ensures Onward(old(session.socket.Now()), session.socket.Now(), BeforeIntent)
    ensures Walked(result, steps, 2) && phase == PhaseAt(2 + |steps|)
    ensures result.Returned? ==> session.id !in session.socket.spent && Past(session.socket.Now(), session.id)
  {
    hide Good, Onward, Past;
    ghost var start := session.socket.Now();
    phase := SessionOpen;
    result := session.Open(task, BeforeIntent);
    steps := StepOf(result);
    if result.Threw? {
      return;
    }
    ghost var middle := session.socket.Now();
    phase := PreSubmit;
    result := session.Prepare(task, BeforeIntent);
    steps := steps + StepOf(result);
    OnwardMeans(middle, session.socket.Now(), BeforeIntent);
    OnwardTransitive(start, middle, session.socket.Now(), BeforeIntent);
  }

  // ---- From the intent to the submit request ----------------------------------

  /** Records the intent at the server, then in the journal. */
  method DeclareIntent(options: Options, claimed: ClaimedTask, ghost serial: nat, sessionId: string)
    returns (result: Outcome<()>, ghost watch: Watch, ghost steps: Steps)
    requires Good(options.socket.Now(), BeforeIntent)
    requires sessionId !in options.socket.spent && Past(options.socket.Now(), sessionId)
    requires Undecided(options.socket.log, serial)
    modifies options.socket, options.socket.broker
    ensures watch == AfterIntent(serial, claimed, sessionId, |old(options.socket.log)|, 0)
    ensures Good(options.socket.Now(), watch)
    ensures |old(options.socket.log)| < |options.socket.log|
            && options.socket.log[|old(options.socket.log)|] == IntentSent(serial, claimed, sessionId)
    ensures RequestsIn(options.socket.log) == RequestsIn(old(options.socket.log))
    ensures Worked(old(options.socket.log), options.socket.log, claimed.task.id)
    ensures Walked(result, steps, 2)
    ensures result.Returned? ==>
              && Preceded(options.socket.log, SubmitRequested(claimed.task, sessionId))
              && |Tale(options.socket.log, watch)| == 3
  {
    hide Good, Onward, Past, Worked, Tale, Undecided, GaveUp, Intended, RequestsIn, Preceded;
    ghost var start := options.socket.log;
    UndecidedMeans(start, serial);
    watch := options.socket.Declare(serial, claimed, sessionId);
    OneEventIsWork(start, IntentSent(serial, claimed, sessionId), claimed.task.id);
    ghost var declared := options.socket.log;
    var recorded := RecordAtServer(options, claimed, serial, sessionId, watch);
    WorkedMeans(declared, options.socket.log, claimed.task.id);
    assert options.socket.log[|start|] == declared[|start|];
    WorkedTransitive(start, declared, options.socket.log, claimed.task.id);
    steps := StepOf(recorded);
    if recorded.Threw? {
      return recorded, watch, steps;
    }
    ghost var middle := options.socket.log;
    result := RecordInJournal(options, claimed, sessionId, watch);
    steps := steps + StepOf(result);
    WorkedMeans(middle, options.socket.log, claimed.task.id);
    assert options.socket.log[|start|] == middle[|start|];
    WorkedTransitive(start, middle, options.socket.log, claimed.task.id);
  }

  lemma UndecidedMeans(log: seq<Event>, attempt: nat)
    requires Undecided(log, attempt)
    ensures !GaveUp(log, attempt)
  {
  }

  lemma OneEventIsWork(log: seq<Event>, event: Event, taskId: string)
    requires event.WorkOf(taskId)
    ensures Worked(log, log + [event], taskId)
  {
  }

  method RecordAtServer(
    options: Options, claimed: ClaimedTask, ghost serial: nat, sessionId: string, ghost watch: Watch)
    returns (result: Outcome<()>)
    requires Good(options.socket.Now(), watch) && watch.AfterIntent?
    requires IntentSent(serial, claimed, sessionId) in options.socket.log
    requires watch.claim == claimed && watch.sessionId == sessionId && watch.level == 0
    requires |Tale(options.socket.log, watch)| == 1
    modifies options.socket, options.socket.broker
    ensures Good(options.socket.Now(), watch)
    ensures RequestsIn(options.socket.log) == RequestsIn(old(options.socket.log))
    ensures Worked(old(options.socket.log), options.socket.log, claimed.task.id)
    ensures result.Returned? ==>
              && IntentRecorded(claimed, sessionId) in options.socket.log
              && |Tale(options.socket.log, watch)| == 2
  {
    hide Good, Onward, Worked, Tale, RequestsIn, OnCourse;
    ghost var before := options.socket.Now();
    GoodIsOnCourse(before, watch);
    options.socket.Interleave(watch);
    ghost var middle := options.socket.Now();
    OnwardMeans(before, middle, watch);
    GrownIsWork(before.log, middle.log, claimed.task.id);
    BrowserStops(before, middle, watch, 1);
    GoodIsOnCourse(middle, watch);
    OnwardHolds(before, middle, watch, IntentSent(serial, claimed, sessionId));
    ghost var said;
    result, said := options.remote.LeaseRequest(claimed);
    if result.Returned? {
      FollowedIsSpent(middle, watch);
      var event := IntentRecorded(claimed, sessionId);
      options.socket.Record(event, watch);
      OneEventIsWork(middle.log, event, claimed.task.id);
      WorkedTransitive(before.log, middle.log, options.socket.log, claimed.task.id);
      assert options.socket.log[|options.socket.log| - 1] == event;
    }
  }

  method RecordInJournal(options: Options, claimed: ClaimedTask, sessionId: string, ghost watch: Watch)
    returns (result: Outcome<()>)
    requires Good(options.socket.Now(), watch) && watch.AfterIntent?
    requires IntentRecorded(claimed, sessionId) in options.socket.log
    requires watch.claim == claimed && watch.sessionId == sessionId && watch.level == 0
    requires |Tale(options.socket.log, watch)| == 2
    modifies options.socket, options.socket.broker
    ensures Good(options.socket.Now(), watch)
    ensures RequestsIn(options.socket.log) == RequestsIn(old(options.socket.log))
    ensures Worked(old(options.socket.log), options.socket.log, claimed.task.id)
    ensures result.Returned? ==>
              && Preceded(options.socket.log, SubmitRequested(claimed.task, sessionId))
              && |Tale(options.socket.log, watch)| == 3
  {
    hide Good, Onward, Worked, Tale, RequestsIn, OnCourse;
    ghost var before := options.socket.Now();
    GoodIsOnCourse(before, watch);
    result := Journal(options, watch);
    ghost var middle := options.socket.Now();
    OnwardMeans(before, middle, watch);
    GrownIsWork(before.log, middle.log, claimed.task.id);
    BrowserStops(before, middle, watch, 2);
    GoodIsOnCourse(middle, watch);
    OnwardHolds(before, middle, watch, IntentRecorded(claimed, sessionId));
    if result.Returned? {
      FollowedIsSpent(middle, watch);
      var event := IntentJournaled(sessionId);
      options.socket.Record(event, watch);
      OneEventIsWork(middle.log, event, claimed.task.id);
      WorkedTransitive(before.log, middle.log, options.socket.log, claimed.task.id);
      assert options.socket.log[|options.socket.log| - 1] == event;
    }
  }

  // ---- Submit, confirm, collect, capture, persist -------------------------------

  predicate Recoverable(thrown: Thrown, phase: Phase) {
    Normalize(thrown, phase).disposition == RecoverSameSession
  }

  /** The failure says that the same session can recover from it. */
  ghost predicate MayBeRecovered(thrown: Thrown) {
    thrown.Typed? && thrown.error.disposition == RecoverSameSession
  }

  /** The tries in the same session: another one exactly after a failure that may be
      recovered, as often as there are recoveries; the last one counts, unless the journal
      could not note that there is to be another. */
  ghost predicate Recovered<T>(tries: seq<Outcome<T>>, result: Outcome<T>, recoveries: nat) {
    && 1 <= |tries| <= 1 + recoveries
    && (forall i :: 0 <= i < |tries| - 1 ==> tries[i].Threw? && MayBeRecovered(tries[i].thrown))
    && var last := tries[|tries| - 1];
       if last.Threw? && MayBeRecovered(last.thrown) && |tries| <= recoveries then result == Threw(Untyped)
       else result == last
  }

  /** Submits once. A failure that may have happened after the prompt was entered
      is noted and left to the confirmation; submit is not called again. */
  method SubmitOnce(options: Options, session: BrokeredSurfaceSession, promptText: string, ghost watch: Watch)
    returns (result: Outcome<()>, ghost after: Watch, ghost sent: Outcome<()>)
    requires session.socket == options.socket
    requires Good(options.socket.Now(), watch) && watch.AfterIntent?
    requires Preceded(options.socket.log, SubmitRequested(watch.claim.task, watch.sessionId))
    requires watch.level == 0 && |Tale(options.socket.log, watch)| == 3
    requires session.id == watch.sessionId && promptText == watch.claim.task.promptText
    modifies session`submitted, options.socket, options.socket.broker
    ensures Good(options.socket.Now(), after)
    ensures RequestsIn(options.socket.log) <= RequestsIn(old(options.socket.log)) + 1
    ensures Worked(old(options.socket.log), options.socket.log, watch.claim.task.id)
    ensures after == watch || after == Raise(watch, 1)
    ensures result.Returned? ==> after == Raise(watch, 1)
    ensures if sent.Threw? && MayBeRecovered(sent.thrown) then result == Returned(()) || result == Threw(Untyped)
            else result == sent
  {
    hide Good, Grown, Onward, Worked, Tale, RequestsIn, Preceded;
    ghost var taskId := watch.claim.task.id;
    ghost var start := options.socket.log;
    result, after := session.Submit(promptText, watch);
    sent := result;
    ghost var middle := options.socket.Now();
    if after == watch {
      NothingIsWork(start, taskId);
    } else {
      AddedIsWork(start, SubmitRequested(watch.claim.task, watch.sessionId), middle.log, taskId);
    }
    if result.Threw? && Recoverable(result.thrown, Submitting) {
      result := Journal(options, after);
      OnwardMeans(middle, options.socket.Now(), after);
      GrownIsWork(middle.log, options.socket.log, taskId);
      WorkedTransitive(start, middle.log, options.socket.log, taskId);
    }
  }

  lemma NothingIsWork(log: seq<Event>, taskId: string)
    ensures Worked(log, log, taskId)
  {
  }

  /** Confirms the submission, in the same session, with a bounded number of
      recoveries after transport failures. */
  method ConfirmWithSameSessionRecovery(
    options: Options, session: BrokeredSurfaceSession, promptText: string, ghost watch: Watch)
    returns (result: Outcome<()>, ghost tries: seq<Outcome<()>>)
    requires session.socket == options.socket
    requires Good(options.socket.Now(), watch) && watch.AfterIntent?
    requires watch.level == 2 && |Tale(options.socket.log, watch)| <= 6
    requires session.id == watch.sessionId && promptText == watch.claim.task.promptText
    modifies options.socket, options.socket.broker
    ensures Good(options.socket.Now(), watch)
    ensures Onward(old(options.socket.Now()), options.socket.Now(), watch)
    ensures |Tale(options.socket.log, watch)| <= 6
    ensures result.Returned? ==> BrowserConfirmed(session.id) in options.socket.log
    ensures result.Returned? ==> |Tale(options.socket.log, watch)| == 6
    ensures Recovered(tries, result, options.postSubmitRecoveries)
  {
    hide Good, Onward, Tale;
    tries := [];
    ghost var before := options.socket.Now();
    OnwardReflexive(before, watch);
    FollowedIsSpent(before, watch);
    var recovery := 0;
    while true
      invariant Good(options.socket.Now(), watch) && Onward(before, options.socket.Now(), watch)
      invariant recovery == |tries| <= options.postSubmitRecoveries
      invariant forall i :: 0 <= i < |tries| ==> tries[i].Threw? && MayBeRecovered(tries[i].thrown)
      decreases options.postSubmitRecoveries - recovery
    {
      ghost var middle := options.socket.Now();
      FollowedIsSpent(middle, watch);
      result := session.ConfirmSubmission(promptText, watch);
      tries := tries + [result];
      ghost var later := options.socket.Now();
      OnwardTransitive(before, middle, later, watch);
      BrowserStops(before, later, watch, 6);
      if result.Returned? || !Recoverable(result.thrown, PostSubmit) || recovery >= options.postSubmitRecoveries {
        return;
      }
      var noted := Journal(options, watch);
      OnwardTransitive(before, later, options.socket.Now(), watch);
      BrowserStops(before, options.socket.Now(), watch, 6);
      if noted.Threw? {
        return noted, tries;
      }
      recovery := recovery + 1;
    }
  }

  lemma FollowedIsSpent(net: Net, watch: Watch)
    requires Good(net, watch) && watch.AfterIntent?
    ensures watch.sessionId in net.spent && watch.start < |net.log|
  {
  }

  /** Collects the response, in the same session, with a bounded number of
      recoveries after transport failures. */
  method CollectWithSameSessionRecovery(options: Options, session: BrokeredSurfaceSession, ghost watch: Watch)
    returns (result: Outcome<SurfaceResponse>, ghost tries: seq<Outcome<SurfaceResponse>>)
    requires session.socket == options.socket
    requires Good(options.socket.Now(), watch) && watch.AfterIntent?
    requires watch.level == 3 && session.id == watch.sessionId
    modifies options.socket, options.socket.broker
    ensures Good(options.socket.Now(), watch)
    ensures Onward(old(options.socket.Now()), options.socket.Now(), watch)
    ensures result.Returned? ==> ResponseCollected(session.id, result.value) in options.socket.log
    ensures result.Returned? ==>
              && |Tale(options.socket.log, watch)| == 8
              && ReceivedAt(Some(result.value), Tale(options.socket.log, watch), watch)
    ensures Recovered(tries, result, options.postSubmitRecoveries)
  {
    hide Good, Onward, Tale, OnCourse, ReceivedAt;
    tries := [];
    ghost var before := options.socket.Now();
    OnwardReflexive(before, watch);
    var recovery := 0;
    while true
      invariant Good(options.socket.Now(), watch) && Onward(before, options.socket.Now(), watch)
      invariant recovery == |tries| <= options.postSubmitRecoveries
      invariant forall i :: 0 <= i < |tries| ==> tries[i].Threw? && MayBeRecovered(tries[i].thrown)
      decreases options.postSubmitRecoveries - recovery
    {
      ghost var middle := options.socket.Now();
      FollowedIsSpent(middle, watch);
      result := session.CollectResponse(watch);
      tries := tries + [result];
      ghost var later := options.socket.Now();
      OnwardTransitive(before, middle, later, watch);
      if result.Returned? {
        GoodIsOnCourse(later, watch);
        return;
      }
      if !Recoverable(result.thrown, PostSubmit) || recovery >= options.postSubmitRecoveries {
        return;
      }
      var noted := Journal(options, watch);
      OnwardTransitive(before, later, options.socket.Now(), watch);
      if noted.Threw? {
        return Threw(noted.thrown), tries;
      }
      recovery := recovery + 1;
    }
  }

  /** From the submit request to the collected response. */
  method SubmitAndCollect(
    options: Options, session: BrokeredSurfaceSession, claimed: ClaimedTask, ghost watch: Watch)
    returns (result: Outcome<SurfaceResponse>, phase: Phase, ghost after: Watch, ghost steps: Steps)
    requires session.socket == options.socket
    requires Good(options.socket.Now(), watch) && watch.AfterIntent?
    requires Preceded(options.socket.log, SubmitRequested(claimed.task, session.id))
    requires watch.level == 0 && |Tale(options.socket.log, watch)| == 3
    requires session.id == watch.sessionId && claimed == watch.claim
    modifies session`submitted, options.socket, options.socket.broker
    ensures after.AfterIntent? && after == Raise(watch, after.level) && Good(options.socket.Now(), after)
    ensures RequestsIn(options.socket.log) <= RequestsIn(old(options.socket.log)) + 1
    ensures Worked(old(options.socket.log), options.socket.log, claimed.task.id)
    ensures Walked(result, steps, 6) && phase == PhaseAt(7 + |steps|)
    ensures result.Returned? ==>
              && after.level == 3 && |Tale(options.socket.log, after)| == 8
              && ReceivedAt(Some(result.value), Tale(options.socket.log, after), after)
  {
    hide Good, Worked, Tale, OnCourse, RequestsIn, Preceded, ReceivedAt;
    ghost var start := options.socket.log;
    phase := Submitting;
    var sending;
    ghost var sent;
    sending, after, sent := SubmitOnce(options, session, claimed.task.promptText, watch);
    steps := StepOf(sending);
    if sending.Threw? {
      return Threw(sending.thrown), phase, after, steps;
    }
    phase := PostSubmit;
    ghost var middle := options.socket.log;
    ghost var collecting;
    result, after, collecting := ConfirmAndCollect(options, session, claimed, after);
    steps := steps + collecting;
    WorkedTransitive(start, middle, options.socket.log, claimed.task.id);
    if result.Returned? {
      var heartbeat := CheckHeartbeat();
      steps := steps + StepOf(heartbeat);
      if heartbeat.Threw? {
        result := Threw(heartbeat.thrown);
      }
    }
  }

  /** Confirm, tell the server, collect. */
  method ConfirmAndCollect(
    options: Options, session: BrokeredSurfaceSession, claimed: ClaimedTask, ghost watch: Watch)
    returns (result: Outcome<SurfaceResponse>, ghost after: Watch, ghost steps: Steps)
    requires session.socket == options.socket
    requires Good(options.socket.Now(), watch) && watch.AfterIntent? && watch.level == 1
    requires session.id == watch.sessionId && claimed == watch.claim
    modifies options.socket, options.socket.broker
    ensures after.AfterIntent? && after == Raise(watch, after.level) && Good(options.socket.Now(), after)
    ensures RequestsIn(options.socket.log) == RequestsIn(old(options.socket.log))
    ensures Worked(old(options.socket.log), options.socket.log, claimed.task.id)
    ensures Walked(result, steps, 4)
    ensures result.Returned? ==>
              && after.level == 3 && |Tale(options.socket.log, after)| == 8
              && ReceivedAt(Some(result.value), Tale(options.socket.log, after), after)
  {
    hide Good, Onward, Worked, Tale, OnCourse, RequestsIn, ReceivedAt;
    ghost var start := options.socket.Now();
    after := LiftWatch(options.socket, watch, 2);
    var confirmed;
    ghost var confirms, collects;
    confirmed, confirms := ConfirmWithSameSessionRecovery(options, session, claimed.task.promptText, after);
    ghost var second := options.socket.Now();
    OnwardMeans(start, second, after);
    GrownIsWork(start.log, second.log, claimed.task.id);
    steps := StepOf(confirmed);
    if confirmed.Threw? {
      return Threw(confirmed.thrown), after, steps;
    }
    var recorded;
    ghost var recording;
    recorded, recording := RecordConfirmation(options, claimed, session.id, after);
    steps := steps + recording;
    ghost var third := options.socket.Now();
    WorkedTransitive(start.log, second.log, third.log, claimed.task.id);
    if recorded.Threw? {
      return Threw(recorded.thrown), after, steps;
    }
    after := LiftWatch(options.socket, after, 3);
    result, collects := CollectWithSameSessionRecovery(options, session, after);
    steps := steps + StepOf(result);
    OnwardMeans(third, options.socket.Now(), after);
    GrownIsWork(third.log, options.socket.log, claimed.task.id);
    WorkedTransitive(start.log, third.log, options.socket.log, claimed.task.id);
  }

  /** A followed task may go on to a later kind of request. */
  ghost method LiftWatch(socket: BrokerSocket, watch: Watch, level: nat) returns (after: Watch)
    requires Good(socket.Now(), watch) && watch.AfterIntent?
    requires 2 <= level <= 4
    requires level == 2 ==> watch.level == 1
    requires level == 3 ==> watch.level == 2 && |Tale(socket.log, watch)| == 7
    requires level == 4 ==> watch.level == 3 && |Tale(socket.log, watch)| == 8
    ensures Good(socket.Now(), after)
    ensures after == Raise(watch, level)
    ensures Tale(socket.log, after) == Tale(socket.log, watch)
    ensures level == 2 ==> |Tale(socket.log, after)| <= 5
  {
    hide Good, OnCourse;
    after := Raise(watch, level);
    GoodIsOnCourse(socket.Now(), watch);
    RaiseIsGood(socket.Now(), watch, level);
  }

  /** Tells the server, then the journal, that the prompt was submitted. */
  method RecordConfirmation(options: Options, claimed: ClaimedTask, sessionId: string, ghost watch: Watch)
    returns (result: Outcome<()>, ghost steps: Steps)
    requires Good(options.socket.Now(), watch) && watch.AfterIntent?
    requires watch.level == 2 && |Tale(options.socket.log, watch)| == 6
    requires watch.claim == claimed && watch.sessionId == sessionId
    modifies options.socket, options.socket.broker
    ensures Good(options.socket.Now(), watch)
    ensures RequestsIn(options.socket.log) == RequestsIn(old(options.socket.log))
    ensures Worked(old(options.socket.log), options.socket.log, claimed.task.id)
    ensures result.Returned? ==> |Tale(options.socket.log, watch)| == 7
    ensures Walked(result, steps, 2)
  {
    hide Good, Onward, Worked, Tale, RequestsIn, OnCourse;
    ghost var before := options.socket.Now();
    FollowedIsSpent(before, watch);
    options.socket.Interleave(watch);
    ghost var middle := options.socket.Now();
    OnwardMeans(before, middle, watch);
    GrownIsWork(before.log, middle.log, claimed.task.id);
    BrowserStops(before, middle, watch, 6);
    TaleGrows(before.log, middle.log, watch);
    ghost var said;
    result, said := options.remote.LeaseRequest(claimed);
    steps := StepOf(result);
    if result.Returned? {
      FollowedIsSpent(middle, watch);
      var event := PromptConfirmed(claimed, sessionId);
      options.socket.Record(event, watch);
      ghost var recorded := options.socket.Now();
      OneEventIsWork(middle.log, event, claimed.task.id);
      WorkedTransitive(before.log, middle.log, recorded.log, claimed.task.id);
      result := Journal(options, watch);
      steps := steps + StepOf(result);
      OnwardMeans(recorded, options.socket.Now(), watch);
      GrownIsWork(recorded.log, options.socket.log, claimed.task.id);
      WorkedTransitive(before.log, recorded.log, options.socket.log, claimed.task.id);
      FollowedIsSpent(recorded, watch);
      TaleGrows(recorded.log, options.socket.log, watch);
      GoodIsOnCourse(options.socket.Now(), watch);
    }
  }

  /** Captures the evidence, saves it and hands the observation to the sink. */
  method CaptureAndPersist(
    options: Options, session: BrokeredSurfaceSession, claimed: ClaimedTask, response: SurfaceResponse,
    ghost watch: Watch)
    returns (result: Outcome<Observation>, phase: Phase, ghost after: Watch, ghost steps: Steps)
    requires session.socket == options.socket
    requires Good(options.socket.Now(), watch) && watch.AfterIntent?
    requires watch.level == 3 && session.id == watch.sessionId && |Tale(options.socket.log, watch)| == 8
    modifies options.socket, options.socket.broker, options.remote`activeClaims
    ensures after.AfterIntent? && after == Raise(watch, after.level) && Good(options.socket.Now(), after)
    ensures RequestsIn(options.socket.log) == RequestsIn(old(options.socket.log))
    ensures Worked(old(options.socket.log), options.socket.log, claimed.task.id)
    ensures Walked(result, steps, 5) && phase == PhaseAt(13 + |steps|)
    ensures result.Returned? ==>
              && result.value.sessionId == session.id && result.value.task == claimed.task
              && result.value.response == response
    ensures result.Returned? ==>
              && after.level == 5 && |Tale(options.socket.log, after)| == 11
              && Tale(options.socket.log, after)[10] == SinkAccepted(result.value)
  {
    hide Good, Onward, Worked, Tale, RequestsIn, OnCourse;
    phase := GatheringEvidence;
    ghost var start := options.socket.log;
    var secured;
    secured, after, steps := SecureEvidence(options, session, watch);
    ghost var middle := options.socket.log;
    GrownIsWork(start, middle, claimed.task.id);
    GrownMeansRequests(start, middle);
    if secured.Threw? {
      return Threw(secured.thrown), phase, after, steps;
    }
    phase := Persisting;
    var observation := Observation(session.id, claimed.task, response, secured.value);
    var accepted;
    ghost var handing;
    accepted, handing := HandToSink(options, observation, after);
    steps := steps + handing;
    WorkedTransitive(start, middle, options.socket.log, claimed.task.id);
    result := if accepted.Threw? then Threw(accepted.thrown) else Returned(observation);
  }

  lemma GrownMeansRequests(earlier: seq<Event>, later: seq<Event>)
    requires Grown(earlier, later)
    ensures earlier <= later && RequestsIn(later) == RequestsIn(earlier)
  {
  }

  /** Captures and saves the evidence, and notes that in the journal. */
  method SecureEvidence(options: Options, session: BrokeredSurfaceSession, ghost watch: Watch)
    returns (result: Outcome<seq<Artifact>>, ghost after: Watch, ghost steps: Steps)
    requires session.socket == options.socket
    requires Good(options.socket.Now(), watch) && watch.AfterIntent?
    requires watch.level == 3 && session.id == watch.sessionId && |Tale(options.socket.log, watch)| == 8
    modifies options.socket, options.socket.broker
    ensures after.AfterIntent? && after == Raise(watch, after.level) && Good(options.socket.Now(), after)
    ensures Grown(old(options.socket.log), options.socket.log)
    ensures Walked(result, steps, 3)
    ensures result.Returned? ==> Secured(options.socket.log, session.id)
    ensures result.Returned? ==> after.level == 5 && |Tale(options.socket.log, after)| == 10
  {
    hide Good, Onward, Grown, Tale, OnCourse, Secured;
    ghost var before := options.socket.Now();
    FollowedIsSpent(before, watch);
    ghost var lifted := LiftWatch(options.socket, watch, 4);
    var captured;
    ghost var heard, read;
    captured, after, heard, read := session.CaptureEvidence(lifted);
    ghost var middle := options.socket.Now();
    OnwardMeans(before, middle, lifted);
    steps := StepOf(captured);
    if captured.Threw? {
      return Threw(captured.thrown), after, steps;
    }
    RaisedOnward(before, middle, after, lifted);
    RaisedTale(before.log, watch, after);
    BrowserStops(before, middle, after, 10);
    var saved: Outcome<seq<Artifact>> := *;
    steps := steps + StepOf(saved);
    if saved.Threw? {
      return saved, after, steps;
    }
    var journaled := Journal(options, after);
    steps := steps + StepOf(journaled);
    result := if journaled.Threw? then Threw(journaled.thrown) else saved;
    ghost var later := options.socket.Now();
    OnwardMeans(middle, later, after);
    GrownTransitive(before.log, middle.log, later.log);
    FollowedIsSpent(middle, after);
    BrowserStops(middle, later, after, 10);
    TaleGrows(middle.log, later.log, after);
    SecuredLater(middle.log, later.log, session.id);
  }

  lemma RaisedTale(log: seq<Event>, watch: Watch, after: Watch)
    requires watch.AfterIntent? && after.AfterIntent? && after.start == watch.start && after.sessionId == watch.sessionId
    ensures Tale(log, after) == Tale(log, watch)
  {
  }

  lemma SecuredLater(earlier: seq<Event>, later: seq<Event>, id: string)
    requires earlier <= later && Secured(earlier, id)
    ensures Secured(later, id)
  {
    forall e | e in earlier ensures e in later {
      var k :| 0 <= k < |earlier| && earlier[k] == e;
      assert later[k] == e;
    }
  }

  /** The observation is handed to the sink, and then noted. */
  method HandToSink(options: Options, observation: Observation, ghost watch: Watch)
    returns (result: Outcome<()>, ghost steps: Steps)
    requires Good(options.socket.Now(), watch) && watch.AfterIntent?
    requires watch.level == 5 && |Tale(options.socket.log, watch)| == 10 && observation.sessionId == watch.sessionId
    modifies options.socket, options.socket.broker, options.remote`activeClaims
    ensures Good(options.socket.Now(), watch)
    ensures RequestsIn(options.socket.log) == RequestsIn(old(options.socket.log))
    ensures Worked(old(options.socket.log), options.socket.log, observation.task.id)
    ensures Walked(result, steps, 2)
    ensures result.Returned? ==>
              && |Tale(options.socket.log, watch)| == 11
              && Tale(options.socket.log, watch)[10] == SinkAccepted(observation)
  {
    hide Good, Onward, Worked, Tale, RequestsIn, OnCourse;
    ghost var start := options.socket.log;
    result := Accept(options, observation, watch);
    steps := StepOf(result);
    if result.Threw? {
      return;
    }
    ghost var accepted := options.socket.Now();
    ghost var cleaned, notes;
    result, cleaned, notes := NotePersisted(options, watch);
    steps := steps + StepOf(result);
    ghost var later := options.socket.Now();
    OnwardMeans(accepted, later, watch);
    GrownIsWork(accepted.log, later.log, observation.task.id);
    WorkedTransitive(start, accepted.log, later.log, observation.task.id);
    FollowedIsSpent(accepted, watch);
    BrowserStops(accepted, later, watch, 11);
    TaleGrows(accepted.log, later.log, watch);
  }

  method Accept(options: Options, observation: Observation, ghost watch: Watch) returns (result: Outcome<()>)
    requires Good(options.socket.Now(), watch) && watch.AfterIntent?
    requires watch.level == 5 && |Tale(options.socket.log, watch)| == 10 && observation.sessionId == watch.sessionId
    modifies options.socket, options.socket.broker, options.remote`activeClaims
    ensures Good(options.socket.Now(), watch)
    ensures RequestsIn(options.socket.log) == RequestsIn(old(options.socket.log))
    ensures Worked(old(options.socket.log), options.socket.log, observation.task.id)
    ensures result.Returned? ==>
              && |Tale(options.socket.log, watch)| == 11
              && Tale(options.socket.log, watch)[10] == SinkAccepted(observation)
  {
    hide Good, Onward, Worked, Tale, RequestsIn, OnCourse;
    ghost var before := options.socket.Now();
    FollowedIsSpent(before, watch);
    options.socket.Interleave(watch);
    ghost var middle := options.socket.Now();
    OnwardMeans(before, middle, watch);
    GrownIsWork(before.log, middle.log, observation.task.id);
    BrowserStops(before, middle, watch, 10);
    TaleGrows(before.log, middle.log, watch);
    ghost var said;
    result, said := options.remote.SubmitObservation(observation);
    if result.Returned? {
      FollowedIsSpent(middle, watch);
      var event := SinkAccepted(observation);
      options.socket.Record(event, watch);
      OneEventIsWork(middle.log, event, observation.task.id);
      WorkedTransitive(before.log, middle.log, options.socket.log, observation.task.id);
    }
  }

  /** Removes the local artifacts, if they are not retained, and writes the journal: one
      note more when they could not be removed, and none after one that failed. */
  method NotePersisted(options: Options, ghost watch: Watch)
    returns (result: Outcome<()>, ghost cleaned: bool, ghost notes: Steps)
    requires Good(options.socket.Now(), watch)
    modifies options.socket, options.socket.broker
    ensures Good(options.socket.Now(), watch)
    ensures Onward(old(options.socket.Now()), options.socket.Now(), watch)
    ensures Walked(result, notes, if options.retainLocalArtifacts || cleaned then 1 else 2)
  {
    hide Good, Onward;
    ghost var before := options.socket.Now();
    OnwardReflexive(before, watch);
    cleaned := false;
    notes := [];
    if !options.retainLocalArtifacts {
      var removed: bool := *;
      cleaned := removed;
      if !removed {
        result := Journal(options, watch);
        notes := StepOf(result);
        if result.Threw? {
          return;
        }
      }
    }
    ghost var middle := options.socket.Now();
    result := Journal(options, watch);
    notes := notes + StepOf(result);
    OnwardTransitive(before, middle, options.socket.Now(), watch);
  }

  // ---- One attempt ----------------------------------------------------------------

  predicate BeforeSubmit(phase: Phase) {
    phase == SessionOpen || phase == PreSubmit
  }

  /** The followed task has succeeded: the history of its session since the intent is
      the whole course of events, ending in the sink's acceptance of `observation`. */
  ghost predicate Accomplished(log: seq<Event>, watch: Watch, observation: Observation) {
    && watch.AfterIntent? && watch.start < |log|
    && NoMilestones(log[..watch.start], watch.sessionId)
    && var tale := Tale(log, watch);
    && OnCourse(tale, watch) && |tale| == 11
    && tale[10] == SinkAccepted(observation)
    && ReceivedAt(Some(observation.response), tale, watch)
    && observation.task == watch.claim.task
    && observation.sessionId == watch.sessionId
  }

  /** An intent was declared since. */
  ghost predicate IntendedSince(earlier: seq<Event>, later: seq<Event>) {
    exists i :: |earlier| <= i < |later| && later[i].IntentSent?
  }

  lemma GrownDeclaresNothing(earlier: seq<Event>, later: seq<Event>)
    requires Grown(earlier, later)
    ensures !IntendedSince(earlier, later)
  {
  }

  lemma DeclaredSince(earlier: seq<Event>, middle: seq<Event>, declared: seq<Event>, later: seq<Event>)
    requires earlier <= middle && declared <= later && |middle| < |declared| && declared[|middle|].IntentSent?
    ensures IntendedSince(earlier, later)
  {
    assert later[|middle|] == declared[|middle|];
  }

  /** The body of the try statement. While the phase is before submit nothing has
      been declared or requested; afterwards at most one submit has been requested. */
  method TryAttempt(options: Options, claimed: ClaimedTask, attempt: nat, ghost serial: nat)
    returns (
      result: Outcome<Observation>, phase: Phase, session: BrokeredSurfaceSession?, ghost after: Watch,
      ghost steps: Steps)
    requires Good(options.socket.Now(), BeforeIntent)
    requires Undecided(options.socket.log, serial)
    modifies options.socket, options.socket.broker, options.remote`activeClaims
    ensures Good(options.socket.Now(), after) && !after.Unwatched?
    ensures session != null ==> fresh(session) && session.socket == options.socket
    ensures RequestsIn(options.socket.log) <= RequestsIn(old(options.socket.log)) + 1
    ensures Worked(old(options.socket.log), options.socket.log, claimed.task.id)
    ensures Walked(result, steps, STEPS) && phase == PhaseAt(|steps|)
    ensures session == null <==> |steps| <= 2
    ensures IntendedSince(old(options.socket.log), options.socket.log) <==> !BeforeSubmit(phase)
    ensures BeforeSubmit(phase) ==>
              && result.Threw? && after == BeforeIntent
              && RequestsIn(options.socket.log) == RequestsIn(old(options.socket.log))
              && Undecided(options.socket.log, serial)
    ensures result.Returned? ==>
              && session != null && Accomplished(options.socket.log, after, result.value)
              && after.claim == claimed && after.sessionId == session.id && after.attempt == serial
  {
    hide Good, Onward, Worked, Tale, RequestsIn, Undecided, Accomplished, IntendedSince, Walked;
    after := BeforeIntent;
    ghost var before := options.socket.Now();
    var prepared;
    prepared, phase, session, steps := OpenAndPrepare(options, claimed.task, attempt);
    WalkedMeans(prepared, steps, 5);
    ghost var middle := options.socket.Now();
    OnwardMeans(before, middle, BeforeIntent);
    UndecidedLater(before.log, middle.log, serial);
    GrownIsWork(before.log, middle.log, claimed.task.id);
    if prepared.Threw? {
      GrownDeclaresNothing(before.log, middle.log);
      result := Threw(prepared.thrown);
      WalkedNoFurther(prepared, steps, 5, result, 13);
      return;
    }
    ghost var further;
    result, phase, after, further := SubmitToPersist(options, session, claimed, serial);
    WalkedOn(prepared, steps, 5, result, further, 13);
    WalkedMeans(result, further, 13);
    steps := steps + further;
    WorkedTransitive(before.log, middle.log, options.socket.log, claimed.task.id);
    DeclaredSince(before.log, middle.log, options.socket.log, options.socket.log);
  }

  /** From the submit intent to the end of the try statement. */
  method SubmitToPersist(
    options: Options, session: BrokeredSurfaceSession, claimed: ClaimedTask, ghost serial: nat)
    returns (result: Outcome<Observation>, phase: Phase, ghost after: Watch, ghost steps: Steps)
    requires session.socket == options.socket
    requires Good(options.socket.Now(), BeforeIntent)
    requires session.id !in options.socket.spent && Past(options.socket.Now(), session.id)
    requires Undecided(options.socket.log, serial)
    modifies session`submitted, options.socket, options.socket.broker, options.remote`activeClaims
    ensures Good(options.socket.Now(), after) && after.AfterIntent?
    ensures RequestsIn(options.socket.log) <= RequestsIn(old(options.socket.log)) + 1
    ensures Worked(old(options.socket.log), options.socket.log, claimed.task.id)
    ensures Walked(result, steps, 13) && phase == PhaseAt(5 + |steps|)
    ensures |old(options.socket.log)| < |options.socket.log|
            && options.socket.log[|old(options.socket.log)|].IntentSent?
    ensures result.Returned? ==>
              && Accomplished(options.socket.log, after, result.value)
              && after.claim == claimed && after.sessionId == session.id && after.attempt == serial
  {
    hide Good, Worked, Tale, RequestsIn, Preceded, ReceivedAt, Undecided, Past, Accomplished, Walked;
    ghost var start := options.socket.log;
    phase := Submitting;
    var declared;
    declared, after, steps := DeclareIntent(options, claimed, serial, session.id);
    WalkedMeans(declared, steps, 2);
    if declared.Threw? {
      result := Threw(declared.thrown);
      WalkedNoFurther(declared, steps, 2, result, 11);
      return;
    }
    ghost var intended := options.socket.log;
    var collected;
    ghost var collecting;
    collected, phase, after, collecting := SubmitAndCollect(options, session, claimed, after);
    WalkedOn(declared, steps, 2, collected, collecting, 6);
    WalkedMeans(collected, collecting, 6);
    steps := steps + collecting;
    ghost var earlier, lifted := options.socket.Now(), after;
    WorkedMeans(intended, earlier.log, claimed.task.id);
    assert earlier.log[|start|] == intended[|start|];
    WorkedTransitive(start, intended, earlier.log, claimed.task.id);
    if collected.Threw? {
      result := Threw(collected.thrown);
      WalkedNoFurther(collected, steps, 8, result, 5);
      return;
    }
    ghost var persisting;
    result, phase, after, persisting := CaptureAndPersist(options, session, claimed, collected.value, after);
    WalkedOn(collected, steps, 8, result, persisting, 5);
    WalkedMeans(result, persisting, 5);
    steps := steps + persisting;
    WorkedTransitive(start, earlier.log, options.socket.log, claimed.task.id);
    WorkedMeans(earlier.log, options.socket.log, claimed.task.id);
    assert options.socket.log[|start|] == earlier.log[|start|];
    if result.Returned? {
      Accomplish(earlier, options.socket.Now(), lifted, after, result.value);
    }
  }

  lemma WorkedMeans(earlier: seq<Event>, later: seq<Event>, taskId: string)
    requires Worked(earlier, later, taskId)
    ensures earlier <= later
  {
  }

  lemma Accomplish(earlier: Net, later: Net, watch: Watch, after: Watch, observation: Observation)
    requires watch.AfterIntent? && after == Raise(watch, 5) && Good(earlier, watch) && Good(later, after)
    requires earlier.log <= later.log && |Tale(earlier.log, watch)| == 8
    requires ReceivedAt(Some(observation.response), Tale(earlier.log, watch), watch)
    requires |Tale(later.log, after)| == 11 && Tale(later.log, after)[10] == SinkAccepted(observation)
    requires observation.task == watch.claim.task && observation.sessionId == watch.sessionId
    ensures Accomplished(later.log, after, observation)
  {
    hide Accounted, Orderly, InStep, OnCourse, Of;
    TaleGrows(earlier.log, later.log, watch);
    RaisedTale(later.log, watch, after);
  }

  // ---- When an attempt fails ------------------------------------------------------

  datatype Verdict = Finish(result: TaskResult) | Again(claimed: ClaimedTask) | Rethrow(thrown: Thrown)

  /** The report is persisted when the server took it and the journal noted it; otherwise
      the failure is noted. */
  ghost predicate Reported(persisted: Outcome<bool>, report: Outcome<bool>, notes: seq<Outcome<()>>) {
    if report == Returned(false) && notes != [] && notes[0].Returned? then persisted == Returned(true) && |notes| == 1
    else
      && |notes| == (if report == Returned(false) then 2 else 1)
      && persisted == match notes[|notes| - 1] case Threw(thrown) => Threw(thrown) case Returned(_) => Returned(false)
  }

  /** Reports that a human is needed, and whether the server accepted the report and the
      journal noted it. `report` is what the server answered, `notes` what became of the
      notes in the journal. */
  method ReportNeedsHuman(options: Options, claimed: ClaimedTask)
    returns (persisted: Outcome<bool>, ghost report: Outcome<bool>, ghost notes: seq<Outcome<()>>)
    requires Good(options.socket.Now(), BeforeIntent)
    modifies options.socket, options.socket.broker, options.remote`activeClaims
    ensures Good(options.socket.Now(), BeforeIntent)
    ensures Onward(old(options.socket.Now()), options.socket.Now(), BeforeIntent)
    ensures Reported(persisted, report, notes)
  {
    hide Good, Onward;
    ghost var before := options.socket.Now();
    OnwardReflexive(before, BeforeIntent);
    var marked;
    marked, report := options.remote.MarkNeedsHuman(claimed);
    notes := [];
    if marked.Returned? {
      var noted := Journal(options, BeforeIntent);
      notes := [noted];
      if noted.Returned? {
        return Returned(true), report, notes;
      }
    }
    ghost var middle := options.socket.Now();
    var failed := Journal(options, BeforeIntent);
    notes := notes + [failed];
    OnwardTransitive(before, middle, options.socket.Now(), BeforeIntent);
    persisted := if failed.Threw? then Threw(failed.thrown) else Returned(false);
  }

  /** Asks the session where a human can take over, and files the handoff. */
  method FileHandoff(options: Options, session: BrokeredSurfaceSession?) returns (filed: Outcome<()>)
    requires session != null ==> session.socket == options.socket
    requires Good(options.socket.Now(), BeforeIntent)
    modifies options.socket, options.socket.broker
    ensures Good(options.socket.Now(), BeforeIntent)
    ensures Onward(old(options.socket.Now()), options.socket.Now(), BeforeIntent)
  {
    hide Good, Onward;
    ghost var before := options.socket.Now();
    OnwardReflexive(before, BeforeIntent);
    if session == null {
      return Returned(());
    }
    var metadata := session.HandoffMetadata(BeforeIntent);
    if metadata.Threw? {
      return Threw(metadata.thrown);
    }
    ghost var middle := options.socket.Now();
    filed := Journal(options, BeforeIntent);
    OnwardTransitive(before, middle, options.socket.Now(), BeforeIntent);
  }

  /** What the server and the journal said while a failure was dealt with: the answer to
      the request for a retry, if one was sent, and whether the report that a human is
      needed was persisted, if it came to one. */
  datatype Answered = Answered(retry: Option<Outcome<Retry>>, persisted: Option<bool>)

  /** The verdict of a task that is left to a human, by whether the report was persisted. */
  ghost predicate LeftTo(verdict: Verdict, taskId: string, error: RunnerError, persisted: Option<bool>) {
    match persisted
    case None => verdict.Rethrow?
    case Some(true) => verdict == Finish(NeedsHumanResult(taskId, error.code, error.phase))
    case Some(false) => verdict == Finish(PersistenceFailed(taskId))
  }

  method FinishWithHuman(
    options: Options, claimed: ClaimedTask, session: BrokeredSurfaceSession?, error: RunnerError)
    returns (verdict: Verdict, ghost persisted: Option<bool>)
    requires session != null ==> session.socket == options.socket
    requires Good(options.socket.Now(), BeforeIntent)
    modifies options.socket, options.socket.broker, options.remote`activeClaims
    ensures Good(options.socket.Now(), BeforeIntent)
    ensures Onward(old(options.socket.Now()), options.socket.Now(), BeforeIntent)
    ensures LeftTo(verdict, claimed.task.id, error, persisted)
  {
    hide Good, Onward;
    persisted := None;
    ghost var before := options.socket.Now();
    var filed := FileHandoff(options, session);
    if filed.Threw? {
      return Rethrow(filed.thrown), persisted;
    }
    ghost var middle := options.socket.Now();
    var reported;
    ghost var report, notes;
    reported, report, notes := ReportNeedsHuman(options, claimed);
    OnwardTransitive(before, middle, options.socket.Now(), BeforeIntent);
    persisted := if reported.Returned? then Some(reported.value) else None;
    match reported
    case Threw(thrown) => verdict := Rethrow(thrown);
    case Returned(true) => verdict := Finish(NeedsHumanResult(claimed.task.id, error.code, error.phase));
    case Returned(false) => verdict := Finish(PersistenceFailed(claimed.task.id));
  }

  const LOST_COORDINATION := RunnerError("retry_coordination_failed", Persisting, NeedsHuman)

  /** What a failed attempt leaves of the history: nobody asked for a submit since, and a
      retry was asked for exactly so often. */
  ghost predicate Settling(earlier: seq<Event>, later: seq<Event>, serial: nat, taskId: string, retries: nat) {
    && Ran(earlier, later, taskId)
    && RequestsIn(later) == RequestsIn(earlier)
    && RetriesIn(later) == RetriesIn(earlier) + retries
    && (!Intended(earlier, serial) ==> !Intended(later, serial))
    && forall i :: |earlier| <= i < |later| ==> !later[i].CloseRequested? && !later[i].IntentSent?
  }

  lemma OnwardSettles(earlier: Net, later: Net, serial: nat, taskId: string)
    requires Onward(earlier, later, BeforeIntent)
    ensures Settling(earlier.log, later.log, serial, taskId, 0)
  {
    hide RetriesIn;
    UndecidedLater(earlier.log, later.log, serial);
    GrownIsRan(earlier.log, later.log, taskId);
    GrownIsWork(earlier.log, later.log, taskId);
    WorkAsksNoRetry(earlier.log, later.log, taskId);
  }

  lemma SettlingTransitive(
    first: seq<Event>, second: seq<Event>, third: seq<Event>, serial: nat, taskId: string, retries: nat, more: nat)
    requires Settling(first, second, serial, taskId, retries) && Settling(second, third, serial, taskId, more)
    ensures Settling(first, third, serial, taskId, retries + more)
  {
    hide Ran, Intended, RequestsIn, RetriesIn;
    RanTransitive(first, second, third, taskId);
    RanMeans(first, second, taskId);
    RanMeans(second, third, taskId);
    assert forall i :: 0 <= i < |second| ==> second[i] == third[i];
  }

  /** What a failure that was dealt with has come to: the verdict and the outcome of the
      close, by the answer to the request for a retry, or by the report when there was no
      such request. */
  ghost predicate VerdictFits(
    verdict: Verdict, outcome: CloseOutcome, taskId: string, error: RunnerError, answered: Answered)
  {
    match answered.retry
    case None => outcome == ClosedNeedsHuman && LeftTo(verdict, taskId, error, answered.persisted)
    case Some(Returned(Reclaimed(next))) =>
      outcome == ClosedRetrying && verdict == Again(next) && next.task.id == taskId
    case Some(Returned(Queued)) => outcome == ClosedRetrying && verdict == Finish(RetryQueued(taskId, error.code))
    case Some(Returned(LeftToHuman)) =>
      && outcome == ClosedNeedsHuman
      && (verdict.Rethrow? || verdict == Finish(NeedsHumanResult(taskId, error.code, error.phase)))
    case Some(Threw(_)) => outcome == ClosedRetrying && LeftTo(verdict, taskId, LOST_COORDINATION, answered.persisted)
  }

  /** The retry branch of the catch block, taken before the submit intent only. */
  method RetryOrFinish(
    options: Options, claimed: ClaimedTask, ghost serial: nat, session: BrokeredSurfaceSession?, error: RunnerError)
    returns (verdict: Verdict, outcome: CloseOutcome, ghost answered: Answered)
    requires session != null ==> session.socket == options.socket
    requires Good(options.socket.Now(), BeforeIntent)
    requires options.remote.Conserved()
    requires !Intended(options.socket.log, serial)
    modifies options.socket, options.socket.broker, options.remote
    ensures Good(options.socket.Now(), BeforeIntent)
    ensures options.remote.Conserved() && options.remote.Owed() == old(options.remote.Owed())
    ensures Settling(old(options.socket.log), options.socket.log, serial, claimed.task.id,
                     if answered.retry.Some? then 1 else 0)
    ensures VerdictFits(verdict, outcome, claimed.task.id, error, answered)
    ensures verdict.Rethrow? || answered.retry.Some?
  {
    hide Good, Onward, Settling;
    answered := Answered(None, None);
    ghost var start := options.socket.log;
    var asked := AskToRetry(options, claimed, serial);
    ghost var middle := options.socket.Now();
    if asked.Threw? {
      return Rethrow(asked.thrown), ClosedNeedsHuman, answered;
    }
    var retry;
    ghost var granted, claim;
    retry, granted, claim := options.remote.RetryPreSubmit(claimed);
    answered := answered.(retry := Some(retry));
    outcome := ClosedRetrying;
    match retry {
      case Threw(_) =>
        ghost var persisted;
        verdict, persisted := FinishWithHuman(options, claimed, null, LOST_COORDINATION);
        answered := answered.(persisted := persisted);
      case Returned(Reclaimed(next)) =>
        return Again(next), outcome, answered;
      case Returned(Queued) =>
        return Finish(RetryQueued(claimed.task.id, error.code)), outcome, answered;
      case Returned(LeftToHuman) =>
        outcome := ClosedNeedsHuman;
        var filed := FileHandoff(options, session);
        verdict := if filed.Threw? then Rethrow(filed.thrown)
                   else Finish(NeedsHumanResult(claimed.task.id, error.code, error.phase));
    }
    OnwardSettles(middle, options.socket.Now(), serial, claimed.task.id);
    SettlingTransitive(start, middle.log, options.socket.log, serial, claimed.task.id, 1, 0);
  }

  /** Notes the retry in the journal and sends the request for it. */
  method AskToRetry(options: Options, claimed: ClaimedTask, ghost serial: nat) returns (result: Outcome<()>)
    requires Good(options.socket.Now(), BeforeIntent)
    requires !Intended(options.socket.log, serial)
    modifies options.socket, options.socket.broker
    ensures Good(options.socket.Now(), BeforeIntent)
    ensures Settling(old(options.socket.log), options.socket.log, serial, claimed.task.id,
                     if result.Returned? then 1 else 0)
  {
    hide Good, Onward, Settling, Intended, GaveUp;
    ghost var start := options.socket.Now();
    result := Journal(options, BeforeIntent);
    ghost var first := options.socket.Now();
    OnwardMeans(start, first, BeforeIntent);
    UndecidedLater(start.log, first.log, serial);
    OnwardSettles(start, first, serial, claimed.task.id);
    if result.Threw? {
      return;
    }
    options.socket.Record(RetryRequested(serial), BeforeIntent);
    ghost var second := options.socket.Now();
    RetrySettles(first.log, serial, claimed.task.id);
    options.socket.Interleave(BeforeIntent);
    OnwardSettles(second, options.socket.Now(), serial, claimed.task.id);
    SettlingTransitive(start.log, first.log, second.log, serial, claimed.task.id, 0, 1);
    SettlingTransitive(start.log, second.log, options.socket.log, serial, claimed.task.id, 1, 0);
  }

  lemma RetrySettles(log: seq<Event>, serial: nat, taskId: string)
    ensures Settling(log, log + [RetryRequested(serial)], serial, taskId, 1)
  {
    var event := RetryRequested(serial);
    RequestsInConcat(log, [event]);
    CountOne(event, (e: Event) => e.SubmitRequested?);
    CountConcat(log, [event], (e: Event) => e.RetryRequested?);
    CountOne(event, (e: Event) => e.RetryRequested?);
    NotIntendedBy(log, serial, event);
    hide RequestsIn, RetriesIn, Intended;
  }

  lemma NotIntendedBy(log: seq<Event>, attempt: nat, event: Event)
    requires !event.IntentSent?
    ensures !Intended(log, attempt) ==> !Intended(log + [event], attempt)
  {
  }

  // ---- The claimed task -------------------------------------------------------------

  /** The history of one task that succeeded: in a stretch of it exactly these events
      were about the observed session, once each and in this order, and nothing of the
      kind was about it before. */
  ghost predicate SuccessStory(log: seq<Event>, observation: Observation) {
    exists i: nat, j: nat, attempt: nat, claim: ClaimedTask, artifacts: seq<Artifact> ::
      Story(log, observation, i, j, attempt, claim, artifacts)
  }

  ghost predicate Story(
    log: seq<Event>, observation: Observation, i: nat, j: nat, attempt: nat, claim: ClaimedTask,
    artifacts: seq<Artifact>)
  {
    var id := observation.sessionId;
    && i <= j <= |log|
    && NoMilestones(log[..i], id)
    && observation.task == claim.task
    && Of(log[i..j], id) == Course(observation, attempt, claim, artifacts)
  }

  ghost function Course(
    observation: Observation, attempt: nat, claim: ClaimedTask, artifacts: seq<Artifact>): seq<Event>
  {
    var id := observation.sessionId;
    [
      IntentSent(attempt, claim, id),
      IntentRecorded(claim, id),
      IntentJournaled(id),
      SubmitRequested(claim.task, id),
      BrowserSubmit(id, claim.task.promptText),
      BrowserConfirmed(id),
      PromptConfirmed(claim, id),
      ResponseCollected(id, observation.response),
      EvidenceCaptured(id, artifacts),
      EvidenceReleased(id),
      SinkAccepted(observation),
      CloseRequested(attempt, id, ClosedSucceeded)]
  }

  lemma CourseIs(tale: seq<Event>, watch: Watch, observation: Observation)
    requires watch.AfterIntent? && OnCourse(tale, watch) && |tale| == 11
    requires tale[10] == SinkAccepted(observation) && ReceivedAt(Some(observation.response), tale, watch)
    requires observation.sessionId == watch.sessionId
    ensures tale[8].EvidenceCaptured?
    ensures tale + [CloseRequested(watch.attempt, watch.sessionId, ClosedSucceeded)] ==
            Course(observation, watch.attempt, watch.claim, tale[8].artifacts)
  {
    assert Placed(tale, 0, watch) && Placed(tale, 1, watch) && Placed(tale, 2, watch) && Placed(tale, 3, watch);
    assert Placed(tale, 4, watch) && Placed(tale, 5, watch) && Placed(tale, 6, watch) && Placed(tale, 7, watch);
    assert Placed(tale, 8, watch) && Placed(tale, 9, watch) && Placed(tale, 10, watch);
  }

  lemma TellStory(log: seq<Event>, watch: Watch, observation: Observation)
    requires Accomplished(log, watch, observation)
    ensures SuccessStory(log + [CloseRequested(watch.attempt, watch.sessionId, ClosedSucceeded)], observation)
  {
    hide OnCourse, ReceivedAt;
    var tale := Tale(log, watch);
    CourseIs(tale, watch, observation);
    var event := CloseRequested(watch.attempt, watch.sessionId, ClosedSucceeded);
    var told := log + [event];
    TaleExtends(log, [event], watch);
    OfOne(event, watch.sessionId);
    assert told[watch.start..|told|] == told[watch.start..];
    assert told[..watch.start] == log[..watch.start];
    assert Story(told, observation, watch.start, |told|, watch.attempt, watch.claim, tale[8].artifacts);
  }

  lemma StoryIsKept(log: seq<Event>, later: seq<Event>, observation: Observation)
    requires SuccessStory(log, observation) && log <= later
    ensures SuccessStory(later, observation)
  {
    var i: nat, j: nat, attempt, claim, artifacts :| Story(log, observation, i, j, attempt, claim, artifacts);
    assert i <= j <= |log|;
    assert later[i..j] == log[i..j] && later[..i] == log[..i];
    assert Story(later, observation, i, j, attempt, claim, artifacts);
  }

  lemma NewAttemptIsUndecided(log: seq<Event>)
    ensures Undecided(log, NextAttempt(log))
  {
    NextAttemptIsNew(log);
  }

  /** The finally block: the session, if there is one, is asked to close. */
  method CloseAttempt(
    options: Options, session: BrokeredSurfaceSession?, ghost serial: nat, outcome: CloseOutcome, ghost taskId: string)
    requires session != null ==> session.socket == options.socket
    requires Good(options.socket.Now(), BeforeIntent)
    requires outcome == ClosedRetrying ==> !Intended(options.socket.log, serial)
    modifies options.socket, options.socket.broker, (if session == null then {} else {session})
    ensures Good(options.socket.Now(), BeforeIntent)
    ensures Closed(old(options.socket.log), options.socket.log, outcome, taskId)
    ensures session != null ==>
              old(options.socket.log) + [CloseRequested(serial, session.id, outcome)] <= options.socket.log
  {
    hide Good, Onward, Closed, Intended, RequestsIn;
    ghost var start := options.socket.log;
    NothingIsClosed(start, outcome, taskId);
    if session != null {
      ghost var event := CloseRequested(serial, session.id, outcome);
      options.socket.Record(event, BeforeIntent);
      ghost var recorded := options.socket.Now();
      var _ := session.Close(outcome, BeforeIntent);
      OnwardMeans(recorded, options.socket.Now(), BeforeIntent);
      CloseIsClosed(start, event, options.socket.log, taskId);
    }
  }

  /** The close, if there was one, and what the browser did. */
  ghost predicate Closed(earlier: seq<Event>, later: seq<Event>, outcome: CloseOutcome, taskId: string) {
    && Ran(earlier, later, taskId) && ClosesAs(earlier, later, outcome)
    && RequestsIn(later) == RequestsIn(earlier) && RetriesIn(later) == RetriesIn(earlier)
    && forall i :: |earlier| <= i < |later| ==> !later[i].IntentSent?
  }

  lemma NothingIsClosed(log: seq<Event>, outcome: CloseOutcome, taskId: string)
    ensures Closed(log, log, outcome, taskId)
  {
  }

  lemma CloseIsClosed(earlier: seq<Event>, event: Event, later: seq<Event>, taskId: string)
    requires event.CloseRequested? && Grown(earlier + [event], later)
    ensures Closed(earlier, later, event.outcome, taskId)
  {
    var added := later[|earlier|..];
    assert later == earlier + added && added[0] == event;
    assert forall i :: 0 < i < |added| ==> added[i].FromBrowser();
    CountConcat(earlier, added, (e: Event) => e.RetryRequested?);
    CountNone(added, (e: Event) => e.RetryRequested?);
    RequestsInConcat(earlier, added);
    CountNone(added, (e: Event) => e.SubmitRequested?);
    hide RequestsIn, RetriesIn;
    assert later[|earlier|] == event;
    assert forall i :: |earlier| < i < |later| ==> later[i] == added[i - |earlier|];
  }

  /** What made an attempt fail, and in which phase. */
  datatype Failure = Failure(thrown: Thrown, phase: Phase)

  /** Whether a failed attempt is to be tried again: the failure says that it is safe, the
      attempt had not come to its submit, and there are an attempt and a server for it. */
  ghost predicate Due(failure: Failure, mayRetry: bool, canRetry: bool) {
    && failure.thrown.Typed? && failure.thrown.error.disposition == SafePreSubmitRetry
    && (failure.phase == SessionOpen || failure.phase == PreSubmit)
    && mayRetry && canRetry
  }

  /** The catch block. */
  method OnFailure(
    options: Options, claimed: ClaimedTask, mayRetry: bool, ghost serial: nat, phase: Phase,
    session: BrokeredSurfaceSession?, thrown: Thrown)
    returns (verdict: Verdict, outcome: CloseOutcome, ghost answered: Answered)
    requires session != null ==> session.socket == options.socket
    requires Good(options.socket.Now(), BeforeIntent) && options.remote.Conserved()
    requires BeforeSubmit(phase) ==> !Intended(options.socket.log, serial)
    modifies options.socket, options.socket.broker, options.remote
    ensures Good(options.socket.Now(), BeforeIntent)
    ensures options.remote.Conserved() && options.remote.Owed() == old(options.remote.Owed())
    ensures Settling(old(options.socket.log), options.socket.log, serial, claimed.task.id,
                     if answered.retry.Some? then 1 else 0)
    ensures outcome == ClosedRetrying ==> !Intended(options.socket.log, serial)
    ensures VerdictFits(verdict, outcome, claimed.task.id, Normalize(thrown, phase), answered)
    ensures answered.retry.Some? ==> Due(Failure(thrown, phase), mayRetry, options.canRetry)
    ensures Due(Failure(thrown, phase), mayRetry, options.canRetry) ==> verdict.Rethrow? || answered.retry.Some?
  {
    hide Good, Onward, Intended, Ran, RequestsIn, RetriesIn;
    var error := Normalize(thrown, phase);
    if error.disposition == SafePreSubmitRetry && BeforeSubmit(phase) && mayRetry && options.canRetry {
      verdict, outcome, answered := RetryOrFinish(options, claimed, serial, session, error);
    } else {
      outcome := ClosedNeedsHuman;
      ghost var before := options.socket.Now();
      ghost var persisted;
      verdict, persisted := FinishWithHuman(options, claimed, session, error);
      answered := Answered(None, persisted);
      OnwardSettles(before, options.socket.Now(), serial, claimed.task.id);
    }
  }

  /** One attempt: the claim it had, its steps, how it failed, if it did, what was answered
      then, the outcome of its close, and its verdict. */
  datatype Attempt = Attempt(
    claimed: ClaimedTask, steps: Steps, failure: Option<Failure>, answered: Answered, outcome: CloseOutcome,
    verdict: Verdict)

  /** An attempt fails at the step that throws, in the phase of that step, and does not
      fail exactly when all its steps went through. */
  ghost predicate Stepped(steps: Steps, failure: Option<Failure>) {
    && 1 <= |steps| <= STEPS && (forall i :: 0 <= i < |steps| - 1 ==> steps[i].None?)
    && match failure
       case None => |steps| == STEPS && steps[STEPS - 1].None?
       case Some(failure) => steps[|steps| - 1] == Some(failure.thrown) && failure.phase == PhaseAt(|steps|)
  }

  lemma WalkedIsStepped<T>(result: Outcome<T>, steps: Steps, phase: Phase)
    requires Walked(result, steps, STEPS) && phase == PhaseAt(|steps|)
    ensures Stepped(steps, if result.Threw? then Some(Failure(result.thrown, phase)) else None)
  {
  }

  ghost predicate AttemptFits(attempt: Attempt, mayRetry: bool, canRetry: bool) {
    var taskId := attempt.claimed.task.id;
    Stepped(attempt.steps, attempt.failure) &&
    match attempt.failure
    case None =>
      && attempt.verdict.Finish? && attempt.verdict.result.Succeeded? && attempt.verdict.result.taskId == taskId
      && attempt.outcome == ClosedSucceeded && attempt.answered == Answered(None, None)
    case Some(failure) =>
      && VerdictFits(
           attempt.verdict, attempt.outcome, taskId, Normalize(failure.thrown, failure.phase), attempt.answered)
      && (attempt.answered.retry.Some? ==> Due(failure, mayRetry, canRetry))
      && (Due(failure, mayRetry, canRetry) ==> attempt.verdict.Rethrow? || attempt.answered.retry.Some?)
  }

  /** What one attempt adds to the history. */
  ghost predicate AttemptAdds(earlier: seq<Event>, later: seq<Event>, attempt: Attempt) {
    && Ran(earlier, later, attempt.claimed.task.id) && ClosesAs(earlier, later, attempt.outcome)
    && RetriesIn(later) == RetriesIn(earlier) + (if attempt.answered.retry.Some? then 1 else 0)
    && (IntendedSince(earlier, later) <==> attempt.failure.None? || !BeforeSubmit(attempt.failure.value.phase))
  }

  lemma SettledIsAdded(
    start: seq<Event>, tried: seq<Event>, settled: seq<Event>, later: seq<Event>, serial: nat, attempt: Attempt)
    requires Worked(start, tried, attempt.claimed.task.id)
    requires
      if attempt.failure.None? then settled == tried && attempt.answered.retry.None?
      else Settling(tried, settled, serial, attempt.claimed.task.id, if attempt.answered.retry.Some? then 1 else 0)
    requires Closed(settled, later, attempt.outcome, attempt.claimed.task.id)
    requires IntendedSince(start, tried) <==> attempt.failure.None? || !BeforeSubmit(attempt.failure.value.phase)
    ensures AttemptAdds(start, later, attempt)
    ensures RequestsIn(later) == RequestsIn(tried)
  {
    var taskId := attempt.claimed.task.id;
    WorkAsksNoRetry(start, tried, taskId);
    WorkedIsRan(start, tried, taskId);
    hide RequestsIn, RetriesIn;
    WorkedIsRan(tried, tried, taskId);
    RanTransitive(start, tried, settled, taskId);
    RanTransitive(start, settled, later, taskId);
    assert forall i :: 0 <= i < |tried| ==> tried[i] == settled[i] == later[i];
    assert forall i :: 0 <= i < |settled| ==> settled[i] == later[i];
  }

  lemma AccomplishedMeans(log: seq<Event>, watch: Watch, observation: Observation)
    requires Accomplished(log, watch, observation)
    ensures watch.AfterIntent? && observation.task == watch.claim.task
  {
  }

  lemma ClosedStory(settled: seq<Event>, later: seq<Event>, after: Watch, observation: Observation)
    requires Accomplished(settled, after, observation)
    requires settled + [CloseRequested(after.attempt, after.sessionId, ClosedSucceeded)] <= later
    ensures SuccessStory(later, observation) && observation.task == after.claim.task
  {
    AccomplishedMeans(settled, after, observation);
    hide Accomplished, SuccessStory;
    TellStory(settled, after, observation);
    StoryIsKept(settled + [CloseRequested(after.attempt, after.sessionId, ClosedSucceeded)], later, observation);
  }

  lemma FailedFits(attempt: Attempt, mayRetry: bool, canRetry: bool)
    requires attempt.failure.Some? && Stepped(attempt.steps, attempt.failure)
    requires var failure := attempt.failure.value;
             && VerdictFits(
                  attempt.verdict, attempt.outcome, attempt.claimed.task.id, Normalize(failure.thrown, failure.phase),
                  attempt.answered)
             && (attempt.answered.retry.Some? ==> Due(failure, mayRetry, canRetry))
             && (Due(failure, mayRetry, canRetry) ==> attempt.verdict.Rethrow? || attempt.answered.retry.Some?)
    ensures AttemptFits(attempt, mayRetry, canRetry)
    ensures attempt.verdict.Again? || (attempt.verdict.Finish? && attempt.verdict.result.RetryQueued?) ==>
              mayRetry && BeforeSubmit(attempt.failure.value.phase)
    ensures attempt.verdict.Again? ==> attempt.verdict.claimed.task.id == attempt.claimed.task.id
    ensures attempt.verdict.Finish? ==>
              !attempt.verdict.result.Succeeded? && attempt.verdict.result.taskId == attempt.claimed.task.id
  {
    hide Stepped;
  }

  /** The try, catch and finally of one attempt. */
  method RunAttempt(options: Options, claimed: ClaimedTask, attempt: nat, mayRetry: bool)
    returns (verdict: Verdict, ghost record: Attempt)
    requires Good(options.socket.Now(), BeforeIntent) && options.remote.Conserved()
    modifies options.socket, options.socket.broker, options.remote
    ensures Good(options.socket.Now(), BeforeIntent)
    ensures options.remote.Conserved() && options.remote.Owed() == old(options.remote.Owed())
    ensures RequestsIn(options.socket.log) <= RequestsIn(old(options.socket.log)) + 1
    ensures record.claimed == claimed && record.verdict == verdict
    ensures AttemptFits(record, mayRetry, options.canRetry)
    ensures AttemptAdds(old(options.socket.log), options.socket.log, record)
    ensures verdict.Again? ==>
              && mayRetry && verdict.claimed.task.id == claimed.task.id
              && RequestsIn(options.socket.log) == RequestsIn(old(options.socket.log))
    ensures verdict.Finish? && verdict.result.Succeeded? ==>
              SuccessStory(options.socket.log, verdict.result.observation)
              && verdict.result.observation.task.id == claimed.task.id
    ensures verdict.Finish? ==> verdict.result.taskId == claimed.task.id
    ensures verdict.Finish? && verdict.result.RetryQueued? ==>
              RequestsIn(options.socket.log) == RequestsIn(old(options.socket.log))
  {
    hide Good, SuccessStory, Accomplished, Intended, GaveUp, Worked, RequestsIn, Settling, Closed, AttemptAdds,
      IntendedSince, Walked, Stepped, PhaseAt, VerdictFits, Due;
    ghost var start := options.socket.log;
    ghost var serial := NextAttempt(start);
    NewAttemptIsUndecided(start);
    var result, phase, session;
    ghost var after, steps;
    result, phase, session, after, steps := TryAttempt(options, claimed, attempt, serial);
    WalkedIsStepped(result, steps, phase);
    Unfollow(options.socket.Now(), after);
    ghost var tried := options.socket.log;
    var outcome := ClosedSucceeded;
    record := Attempt(claimed, steps, None, Answered(None, None), outcome, Rethrow(Untyped));
    match result {
      case Returned(observation) =>
        verdict := Finish(Succeeded(claimed.task.id, observation));
      case Threw(thrown) =>
        ghost var answered;
        verdict, outcome, answered := OnFailure(options, claimed, mayRetry, serial, phase, session, thrown);
        record := record.(failure := Some(Failure(thrown, phase)), answered := answered);
        record := record.(outcome := outcome, verdict := verdict);
        FailedFits(record, mayRetry, options.canRetry);
    }
    record := record.(outcome := outcome, verdict := verdict);
    ghost var settled := options.socket.log;
    CloseAttempt(options, session, serial, outcome, claimed.task.id);
    SettledIsAdded(start, tried, settled, options.socket.log, serial, record);
    if result.Returned? {
      ClosedStory(settled, options.socket.log, after, result.value);
    }
  }

  /** How a task was conducted: its attempts in order, each with the claim that the one
      before it got back, as many as there may be at most, and the last one's verdict. */
  ghost predicate Conducted(attempts: seq<Attempt>, claim: ClaimedTask, maximum: nat, canRetry: bool) {
    && |attempts| <= maximum
    && (attempts != [] ==> attempts[0].claimed == claim)
    && (forall i :: 0 <= i < |attempts| ==> AttemptFits(attempts[i], i + 1 < maximum, canRetry))
    && (forall i :: 0 <= i < |attempts| - 1 ==> attempts[i].verdict == Again(attempts[i + 1].claimed))
  }

  /** How many of the attempts asked for a retry. */
  ghost function Asking(attempts: seq<Attempt>): nat {
    Count(attempts, (a: Attempt) => a.answered.retry.Some?)
  }

  /** The result that a task has come to after its attempts. */
  ghost predicate ResultFits(result: Outcome<TaskResult>, attempts: seq<Attempt>) {
    if attempts == [] then result.Threw?
    else
      match attempts[|attempts| - 1].verdict
      case Finish(value) => result == Returned(value)
      case Rethrow(thrown) => result == Threw(thrown)
      case Again(_) => false
  }

  lemma ConductedOn(attempts: seq<Attempt>, attempt: Attempt, claim: ClaimedTask, maximum: nat, canRetry: bool)
    requires Conducted(attempts, claim, maximum, canRetry) && |attempts| < maximum
    requires attempts == [] ==> attempt.claimed == claim
    requires attempts != [] ==> attempts[|attempts| - 1].verdict == Again(attempt.claimed)
    requires AttemptFits(attempt, |attempts| + 1 < maximum, canRetry)
    ensures Conducted(attempts + [attempt], claim, maximum, canRetry)
    ensures Asking(attempts + [attempt]) == Asking(attempts) + if attempt.answered.retry.Some? then 1 else 0
  {
    hide AttemptFits;
    CountConcat(attempts, [attempt], (a: Attempt) => a.answered.retry.Some?);
    CountOne(attempt, (a: Attempt) => a.answered.retry.Some?);
  }

  lemma AddedIsRan(earlier: seq<Event>, later: seq<Event>, attempt: Attempt)
    requires AttemptAdds(earlier, later, attempt)
    ensures Ran(earlier, later, attempt.claimed.task.id)
    ensures RetriesIn(later) == RetriesIn(earlier) + if attempt.answered.retry.Some? then 1 else 0
  {
  }

  /** Runs one claimed task to a result. However its attempts go, at most one submit
      request is sent, for this task; a success has the whole story; and another attempt is
      made, and the server asked for it, exactly when the last one failed in a way that
      says so. */
  method ExecuteClaimedTask(options: Options, initialClaim: ClaimedTask)
    returns (result: Outcome<TaskResult>, ghost attempts: seq<Attempt>)
    requires Good(options.socket.Now(), BeforeIntent) && options.remote.Conserved()
    modifies options.socket, options.socket.broker, options.remote
    ensures Good(options.socket.Now(), BeforeIntent)
    ensures options.remote.Conserved() && options.remote.Owed() == old(options.remote.Owed())
    ensures RequestsIn(options.socket.log) <= RequestsIn(old(options.socket.log)) + 1
    ensures Ran(old(options.socket.log), options.socket.log, initialClaim.task.id)
    ensures Conducted(attempts, initialClaim, 1 + options.preSubmitRetries, options.canRetry)
    ensures ResultFits(result, attempts)
    ensures RetriesIn(options.socket.log) == RetriesIn(old(options.socket.log)) + Asking(attempts)
    ensures result.Returned? && result.value.Succeeded? ==>
              SuccessStory(options.socket.log, result.value.observation)
              && result.value.observation.task.id == initialClaim.task.id
    ensures result.Returned? ==> result.value.taskId == initialClaim.task.id
    ensures result.Returned? && result.value.RetryQueued? ==>
              RequestsIn(options.socket.log) == RequestsIn(old(options.socket.log))
  {
    hide Good, Onward, SuccessStory, Ran, RequestsIn, RetriesIn, AttemptFits, AttemptAdds, Conducted, Asking;
    attempts := [];
    ghost var before := options.socket.Now();
    var started := Journal(options, BeforeIntent);
    OnwardMeans(before, options.socket.Now(), BeforeIntent);
    GrownIsRan(before.log, options.socket.log, initialClaim.task.id);
    GrownIsWork(before.log, options.socket.log, initialClaim.task.id);
    WorkAsksNoRetry(before.log, options.socket.log, initialClaim.task.id);
    NothingConducted(initialClaim, 1 + options.preSubmitRetries, options.canRetry);
    if started.Threw? {
      return Threw(started.thrown), attempts;
    }
    var claimed := initialClaim;
    var maximumAttempts := 1 + options.preSubmitRetries;
    var attempt := 1;
    while true
      invariant 1 <= attempt <= maximumAttempts && |attempts| == attempt - 1
      invariant Good(options.socket.Now(), BeforeIntent) && options.remote.Conserved()
      invariant options.remote.Owed() == old(options.remote.Owed())
      invariant RequestsIn(options.socket.log) == RequestsIn(before.log) && claimed.task.id == initialClaim.task.id
      invariant Ran(before.log, options.socket.log, initialClaim.task.id)
      invariant Conducted(attempts, initialClaim, maximumAttempts, options.canRetry)
      invariant if attempts == [] then claimed == initialClaim else attempts[|attempts| - 1].verdict == Again(claimed)
      invariant RetriesIn(options.socket.log) == RetriesIn(before.log) + Asking(attempts)
      decreases maximumAttempts - attempt
    {
      ghost var middle := options.socket.log;
      var verdict;
      ghost var record;
      verdict, record := RunAttempt(options, claimed, attempt, attempt < maximumAttempts);
      AddedIsRan(middle, options.socket.log, record);
      RanTransitive(before.log, middle, options.socket.log, initialClaim.task.id);
      ConductedOn(attempts, record, initialClaim, maximumAttempts, options.canRetry);
      attempts := attempts + [record];
      match verdict
      case Finish(value) => return Returned(value), attempts;
      case Rethrow(thrown) => return Threw(thrown), attempts;
      case Again(next) =>
        claimed := next;
        attempt := attempt + 1;
    }
  }

  lemma NothingConducted(claim: ClaimedTask, maximum: nat, canRetry: bool)
    ensures Conducted([], claim, maximum, canRetry) && Asking([]) == 0
  {
  }
}
