/** The batch loop (runBatch in run-batch.ts): claim, execute, and decide what the
    run as a whole amounts to. */
module RunBatch {
  import opened Counting
  import opened Optional
  import opened Contracts
  import opened Wire
  import opened BrokerClient
  import opened RemoteClient
  import opened ExecuteTask

  /** What one round of the loop met. */
  datatype Round =
    | ClaimFailed
    | NothingClaimed(queue: QueueState)
    | Executed(result: TaskResult, requirement: SessionRequirement)

  datatype Progress = Progress(
    results: seq<TaskResult>,
    incomplete: bool,
    drained: bool,
    emptyClaims: nat,
    stopped: bool)

  datatype RunStatus = Complete | NeedsHumanRun | Idle | Incomplete

  datatype RunSummary = RunSummary(
    status: RunStatus,
    total: nat,
    succeeded: nat,
    retryQueued: nat,
    needsHuman: nat,
    results: seq<TaskResult>)

  /** A result that leaves the central state of its task unknown. */
  predicate Unsettled(result: TaskResult) {
    result.PersistenceFailed? || (result.NeedsHumanResult? && result.code == "retry_coordination_failed")
  }

  /** One round of the loop. */
  function Advance(progress: Progress, round: Round, batched: bool, gracePolls: int): Progress {
    match round
    case ClaimFailed => progress.(incomplete := true, stopped := true)
    case NothingClaimed(queue) =>
      if queue == Settled then progress.(stopped := true)
      else if queue == Drained then progress.(drained := true, stopped := true)
      else
        var empty := progress.emptyClaims + 1;
        if empty >= gracePolls then
          progress.(emptyClaims := empty, incomplete := batched || queue != Waiting, stopped := true)
        else progress.(emptyClaims := empty)
    case Executed(result, requirement) =>
      var next := progress.(emptyClaims := 0, results := progress.results + [result]);
      if requirement == DedicatedSamplingProfile && result.NeedsHumanResult? && result.phase == PostSubmit then
        next.(incomplete := true, stopped := true)
      else if Unsettled(result) then next.(incomplete := true)
      else next
  }

  const START := Progress([], false, false, 0, false)

  /** The loop's own guard: it ended, or it has as many results as it may have. */
  predicate Ended(progress: Progress, maximum: Option<int>) {
    progress.stopped || (maximum.Some? && |progress.results| >= maximum.value)
  }

  /** The loop over a whole schedule of rounds; rounds after it ended do not happen. */
  function Replay(rounds: seq<Round>, batched: bool, gracePolls: int, maximum: Option<int>): Progress {
    if rounds == [] then START
    else
      var before := Replay(rounds[..|rounds| - 1], batched, gracePolls, maximum);
      if Ended(before, maximum) then before else Advance(before, rounds[|rounds| - 1], batched, gracePolls)
  }

  predicate Named(batchId: Option<string>) {
    batchId.Some? && batchId.value != ""
  }

  function StatusOf(progress: Progress, named: bool): RunStatus {
    if progress.incomplete then Incomplete
    else if !named && progress.results == [] then Idle
    else if progress.drained then NeedsHumanRun
    else Complete
  }

  function Summarize(progress: Progress, named: bool): RunSummary {
    RunSummary(
      StatusOf(progress, named),
      |progress.results|,
      Count(progress.results, (r: TaskResult) => r.Succeeded?),
      Count(progress.results, (r: TaskResult) => r.RetryQueued?),
      Count(progress.results, (r: TaskResult) => r.NeedsHumanResult?),
      progress.results)
  }

  // ---- What the results say about the browser ------------------------------------

  ghost function RequestFor(taskId: string): Event -> bool {
    (e: Event) => e.SubmitRequested? && e.task.id == taskId
  }

  /** A result of the task that may stand for a submit. */
  ghost function ResultFor(taskId: string): TaskResult -> bool {
    (r: TaskResult) => r.taskId == taskId && !r.RetryQueued?
  }

  /** Every reported success really happened, in full. */
  ghost predicate Told(log: seq<Event>, results: seq<TaskResult>) {
    forall k :: 0 <= k < |results| && results[k].Succeeded? ==>
      SuccessStory(log, results[k].observation) && results[k].observation.task.id == results[k].taskId
  }

  ghost function IsTask(taskId: string): string -> bool {
    (other: string) => other == taskId
  }

  /** For each task no more submits were requested than the task has results that are
      not a queued retry, and runs that threw while it was at work. */
  ghost predicate Warranted(earlier: seq<Event>, later: seq<Event>, results: seq<TaskResult>, strays: seq<string>) {
    forall taskId ::
      Count(later, RequestFor(taskId))
      <= Count(earlier, RequestFor(taskId)) + Count(results, ResultFor(taskId)) + Count(strays, IsTask(taskId))
  }

  /** What one round adds to the history. */
  ghost predicate RoundAdds(earlier: seq<Event>, later: seq<Event>, round: Round) {
    earlier <= later &&
    match round
    case Executed(result, _) =>
      && Ran(earlier, later, result.taskId)
      && RequestsIn(later) <= RequestsIn(earlier) + (if result.RetryQueued? then 0 else 1)
      && Told(later, [result])
    case _ => Grown(earlier, later)
  }

  /** What a round that throws has added: the work of the claimed task, if there was
      one, with one submit request at most. */
  ghost predicate StrayAdds(earlier: seq<Event>, later: seq<Event>, strays: seq<string>) {
    && earlier <= later && |strays| <= 1
    && if strays == [] then Grown(earlier, later)
       else Ran(earlier, later, strays[0]) && RequestsIn(later) <= RequestsIn(earlier) + 1
  }

  lemma RequestsOfWork(earlier: seq<Event>, later: seq<Event>, taskId: string, other: string)
    requires Ran(earlier, later, taskId)
    ensures Count(later, RequestFor(other)) <=
            Count(earlier, RequestFor(other)) + if other == taskId then RequestsIn(later) - RequestsIn(earlier) else 0
  {
    var added := later[|earlier|..];
    assert later == earlier + added;
    CountConcat(earlier, added, RequestFor(other));
    RequestsInConcat(earlier, added);
    assert forall e :: e in added ==> e.WorkOf(taskId) || e.RetryRequested? || e.CloseRequested?;
    if other == taskId {
      CountWithin(added, RequestFor(other), (e: Event) => e.SubmitRequested?);
    } else {
      CountNone(added, RequestFor(other));
    }
  }

  lemma WarrantedByRound(
    start: seq<Event>, earlier: seq<Event>, later: seq<Event>, results: seq<TaskResult>, round: Round)
    requires Warranted(start, earlier, results, []) && RoundAdds(earlier, later, round)
    ensures Warranted(start, later, if round.Executed? then results + [round.result] else results, [])
  {
    hide Told, RequestFor, ResultFor, RequestsIn, IsTask;
    forall taskId
      ensures Count(later, RequestFor(taskId)) <= Count(earlier, RequestFor(taskId)) +
              if round.Executed? then Count([round.result], ResultFor(taskId)) else 0
    {
      if round.Executed? {
        RequestsOfWork(earlier, later, round.result.taskId, taskId);
        OneResult(round.result, taskId);
      } else {
        GrownIsRan(earlier, later, "");
        RequestsOfWork(earlier, later, "", taskId);
      }
    }
    hide Ran, Grown;
    if round.Executed? {
      forall taskId
        ensures Count(results + [round.result], ResultFor(taskId)) ==
                Count(results, ResultFor(taskId)) + Count([round.result], ResultFor(taskId))
      {
        CountConcat(results, [round.result], ResultFor(taskId));
      }
    }
  }

  lemma WarrantedByStray(
    start: seq<Event>, earlier: seq<Event>, later: seq<Event>, results: seq<TaskResult>, strays: seq<string>)
    requires Warranted(start, earlier, results, []) && StrayAdds(earlier, later, strays)
    ensures Warranted(start, later, results, strays)
  {
    hide RequestFor, ResultFor, RequestsIn, IsTask;
    forall taskId
      ensures Count(later, RequestFor(taskId)) <= Count(earlier, RequestFor(taskId)) + Count(strays, IsTask(taskId))
    {
      if strays == [] {
        GrownIsRan(earlier, later, "");
        GrownMeansRequests(earlier, later);
        RequestsOfWork(earlier, later, "", taskId);
      } else {
        RequestsOfWork(earlier, later, strays[0], taskId);
        assert strays == [strays[0]];
        OneStray(strays[0], taskId);
      }
    }
    hide Ran, Grown;
  }

  lemma OneStray(stray: string, taskId: string)
    ensures Count([stray], IsTask(taskId)) == if stray == taskId then 1 else 0
  {
    CountOne(stray, IsTask(taskId));
  }

  lemma OneResult(result: TaskResult, taskId: string)
    ensures Count([result], ResultFor(taskId)) == if result.taskId == taskId && !result.RetryQueued? then 1 else 0
  {
    CountOne(result, ResultFor(taskId));
  }

  lemma ToldLater(earlier: seq<Event>, later: seq<Event>, results: seq<TaskResult>)
    requires Told(earlier, results) && earlier <= later
    ensures Told(later, results)
  {
    hide SuccessStory;
    forall k | 0 <= k < |results| && results[k].Succeeded? ensures SuccessStory(later, results[k].observation) {
      StoryIsKept(earlier, later, results[k].observation);
    }
  }

  lemma ToldByRound(earlier: seq<Event>, later: seq<Event>, results: seq<TaskResult>, round: Round)
    requires Told(earlier, results) && RoundAdds(earlier, later, round)
    ensures Told(later, if round.Executed? then results + [round.result] else results)
  {
    hide SuccessStory, Ran, Grown, RequestsIn;
    assert round.Executed? ==> [round.result][0] == round.result;
    ToldLater(earlier, later, results);
  }

  // ---- What a summary says ------------------------------------------------------

  /** A summary counts the positions of its own results by their kinds. */
  ghost predicate CountsItsResults(summary: RunSummary) {
    && summary.total == |summary.results|
    && summary.succeeded == |Positions(summary.results, (r: TaskResult) => r.Succeeded?)|
    && summary.retryQueued == |Positions(summary.results, (r: TaskResult) => r.RetryQueued?)|
    && summary.needsHuman == |Positions(summary.results, (r: TaskResult) => r.NeedsHumanResult?)|
    && summary.succeeded + summary.retryQueued + summary.needsHuman
       + |Positions(summary.results, (r: TaskResult) => r.PersistenceFailed?)| == summary.total
  }

  lemma {:induction false} KindsAreAll(results: seq<TaskResult>)
    ensures |results| ==
            Count(results, (r: TaskResult) => r.Succeeded?) + Count(results, (r: TaskResult) => r.RetryQueued?)
            + Count(results, (r: TaskResult) => r.NeedsHumanResult?)
            + Count(results, (r: TaskResult) => r.PersistenceFailed?)
  {
    if results != [] {
      KindsAreAll(results[1..]);
    }
  }

  /** The three counts of a summary are those of its results, and with its persistence
      failures they make up its total. */
  lemma KindsMakeUpTheTotal(progress: Progress, named: bool)
    ensures Summarize(progress, named).results == progress.results
    ensures CountsItsResults(Summarize(progress, named))
  {
    var results := progress.results;
    KindsAreAll(results);
    CountIsSize(results, (r: TaskResult) => r.Succeeded?);
    CountIsSize(results, (r: TaskResult) => r.RetryQueued?);
    CountIsSize(results, (r: TaskResult) => r.NeedsHumanResult?);
    CountIsSize(results, (r: TaskResult) => r.PersistenceFailed?);
    hide Count, Positions;
  }

  /** A result counts as unsettled exactly when the report to a human was not persisted,
      or the request for a retry was not answered, or the failure itself says so. */
  lemma UnsettledIsUnanswered(
    verdict: Verdict, outcome: CloseOutcome, taskId: string, error: RunnerError, answered: Answered)
    requires VerdictFits(verdict, outcome, taskId, error, answered) && verdict.Finish?
    ensures
      Unsettled(verdict.result) <==>
      || (answered.persisted == Some(false) && (answered.retry.None? || answered.retry.value.Threw?))
      || (answered.retry.Some? && answered.retry.value.Threw?)
      || (error.code == "retry_coordination_failed" && verdict.result.NeedsHumanResult?)
  {
  }

  // ---- What the rounds say -------------------------------------------------------

  /** All of these rounds took place: the loop had not ended before any of them. */
  ghost predicate Taken(rounds: seq<Round>, batched: bool, gracePolls: int, maximum: Option<int>) {
    forall k :: 0 <= k < |rounds| ==> !Ended(Replay(rounds[..k], batched, gracePolls, maximum), maximum)
  }

  /** Nothing was claimed, and the queue is neither settled nor drained. */
  predicate Empty(round: Round) {
    round.NothingClaimed? && round.queue != Settled && round.queue != Drained
  }

  /** The last so many rounds all found the queue empty. */
  ghost predicate WaitedOut(rounds: seq<Round>, gracePolls: int) {
    1 <= gracePolls <= |rounds| && forall i :: |rounds| - gracePolls <= i < |rounds| ==> Empty(rounds[i])
  }

  /** A submitted task of the dedicated profile is left to a human. */
  predicate HandsOver(round: Round) {
    round.Executed? && round.requirement == DedicatedSamplingProfile && round.result.NeedsHumanResult?
    && round.result.phase == PostSubmit
  }

  function ResultsOf(rounds: seq<Round>): seq<TaskResult> {
    if rounds == [] then []
    else
      ResultsOf(rounds[..|rounds| - 1])
      + if rounds[|rounds| - 1].Executed? then [rounds[|rounds| - 1].result] else []
  }

  ghost predicate Stops(rounds: seq<Round>, gracePolls: int) {
    rounds != [] &&
    var last := rounds[|rounds| - 1];
    || last.ClaimFailed? || last == NothingClaimed(Settled) || last == NothingClaimed(Drained)
    || WaitedOut(rounds, gracePolls) || HandsOver(last)
  }

  ghost predicate LeavesWork(rounds: seq<Round>, batched: bool, gracePolls: int) {
    rounds != [] &&
    var last := rounds[|rounds| - 1];
    || last.ClaimFailed? || HandsOver(last)
    || (WaitedOut(rounds, gracePolls) && (batched || last != NothingClaimed(Waiting)))
    || (!WaitedOut(rounds, gracePolls) && exists i :: 0 <= i < |ResultsOf(rounds)| && Unsettled(ResultsOf(rounds)[i]))
  }

  /** How many rounds at the end found the queue empty. */
  function Trailing(rounds: seq<Round>): nat {
    if rounds == [] || !Empty(rounds[|rounds| - 1]) then 0 else 1 + Trailing(rounds[..|rounds| - 1])
  }

  lemma {:induction false} TrailingWaits(rounds: seq<Round>, gracePolls: int)
    requires 1 <= gracePolls
    ensures Trailing(rounds) <= |rounds|
    ensures WaitedOut(rounds, gracePolls) <==> Trailing(rounds) >= gracePolls
    decreases |rounds|
  {
    if rounds != [] && Empty(rounds[|rounds| - 1]) {
      var earlier := rounds[..|rounds| - 1];
      if gracePolls > 1 {
        TrailingWaits(earlier, gracePolls - 1);
        assert WaitedOut(earlier, gracePolls - 1) ==> WaitedOut(rounds, gracePolls) by {
          if WaitedOut(earlier, gracePolls - 1) {
            forall i | |rounds| - gracePolls <= i < |rounds| ensures Empty(rounds[i]) {
              assert i < |earlier| ==> earlier[i] == rounds[i];
            }
          }
        }
        assert WaitedOut(rounds, gracePolls) ==> WaitedOut(earlier, gracePolls - 1);
      } else {
        TrailingWaits(earlier, 1);
      }
    }
  }

  /** What the rounds so far come to. */
  ghost predicate Said(progress: Progress, rounds: seq<Round>, batched: bool, gracePolls: int) {
    && progress.results == ResultsOf(rounds)
    && (progress.stopped <==> Stops(rounds, gracePolls))
    && (progress.drained <==> rounds != [] && rounds[|rounds| - 1] == NothingClaimed(Drained))
    && (progress.incomplete <==> LeavesWork(rounds, batched, gracePolls))
  }

  /** Whether a run stopped, whether it is drained, whether it counts as incomplete and
      what its results are, said by the rounds that took place. */
  lemma {:induction false} RoundsSay(rounds: seq<Round>, batched: bool, gracePolls: int, maximum: Option<int>)
    requires 1 <= gracePolls && Taken(rounds, batched, gracePolls, maximum)
    ensures
      var progress := Replay(rounds, batched, gracePolls, maximum);
      && Said(progress, rounds, batched, gracePolls)
      && (!progress.stopped ==> progress.emptyClaims == Trailing(rounds))
    decreases |rounds|
  {
    TrailingWaits(rounds, gracePolls);
    if rounds != [] {
      hide WaitedOut;
      var earlier := rounds[..|rounds| - 1];
      assert forall k :: 0 <= k < |earlier| ==> earlier[..k] == rounds[..k];
      RoundsSay(earlier, batched, gracePolls, maximum);
      TrailingWaits(earlier, gracePolls);
      var before := Replay(earlier, batched, gracePolls, maximum);
      hide Replay, Taken;
      UnsettledGrows(ResultsOf(earlier), rounds[|rounds| - 1]);
      OneMoreSaid(before, earlier, rounds[|rounds| - 1], batched, gracePolls);
      assert rounds == earlier + [rounds[|rounds| - 1]];
    }
  }

  lemma UnsettledGrows(results: seq<TaskResult>, round: Round)
    ensures round.Executed? ==>
              ((exists i :: 0 <= i < |results + [round.result]| && Unsettled((results + [round.result])[i])) <==>
               Unsettled(round.result) || exists i :: 0 <= i < |results| && Unsettled(results[i]))
  {
    if round.Executed? {
      var all := results + [round.result];
      assert all[|results|] == round.result;
      assert forall i :: 0 <= i < |results| ==> all[i] == results[i];
    }
  }

  lemma OneMoreSaid(before: Progress, earlier: seq<Round>, round: Round, batched: bool, gracePolls: int)
    requires 1 <= gracePolls && !before.stopped && before.emptyClaims == Trailing(earlier)
    requires Said(before, earlier, batched, gracePolls)
    requires WaitedOut(earlier, gracePolls) <==> Trailing(earlier) >= gracePolls
    requires WaitedOut(earlier + [round], gracePolls) <==> Trailing(earlier + [round]) >= gracePolls
    ensures
      var after := Advance(before, round, batched, gracePolls);
      && Said(after, earlier + [round], batched, gracePolls)
      && (!after.stopped ==> after.emptyClaims == Trailing(earlier + [round]))
  {
    hide WaitedOut;
    var rounds := earlier + [round];
    assert rounds[..|rounds| - 1] == earlier && rounds[|rounds| - 1] == round;
    UnsettledGrows(ResultsOf(earlier), round);
  }

  /** What a summary's status says about the rounds of the run. */
  ghost predicate StatusSays(
    status: RunStatus, rounds: seq<Round>, batched: bool, named: bool, gracePolls: int)
  {
    && (status == Incomplete <==> LeavesWork(rounds, batched, gracePolls))
    && (status == Idle <==> !LeavesWork(rounds, batched, gracePolls) && !named && ResultsOf(rounds) == [])
    && (status == NeedsHumanRun <==>
          && !LeavesWork(rounds, batched, gracePolls) && (named || ResultsOf(rounds) != [])
          && rounds != [] && rounds[|rounds| - 1] == NothingClaimed(Drained))
  }

  lemma StatusIsExact(rounds: seq<Round>, batched: bool, named: bool, gracePolls: int, maximum: Option<int>)
    requires 1 <= gracePolls && Taken(rounds, batched, gracePolls, maximum)
    ensures
      var progress := Replay(rounds, batched, gracePolls, maximum);
      && Summarize(progress, named).results == ResultsOf(rounds)
      && StatusSays(Summarize(progress, named).status, rounds, batched, named, gracePolls)
      && (Ended(progress, maximum) <==>
            Stops(rounds, gracePolls) || (maximum.Some? && |ResultsOf(rounds)| >= maximum.value))
  {
    hide LeavesWork, Stops, Replay, Count;
    RoundsSay(rounds, batched, gracePolls, maximum);
  }

  // ---- The loop ---------------------------------------------------------------

  /** These are the calls for a claim that were made since, and what they gave. */
  ghost predicate CalledSo(
    earlier: seq<ClaimCall>, later: seq<ClaimCall>, tries: seq<Outcome<Option<ClaimedTask>>>)
  {
    && |later| == |earlier| + |tries| && later[..|earlier|] == earlier
    && forall i :: 0 <= i < |tries| ==> tries[i] == ClaimOf(later[|earlier| + i])
  }

  lemma NothingCalled(calls: seq<ClaimCall>)
    ensures CalledSo(calls, calls, [])
  {
  }

  lemma CalledAgain(
    earlier: seq<ClaimCall>, before: seq<ClaimCall>, later: seq<ClaimCall>,
    leases: map<string, ClaimedTask>, left: map<string, ClaimedTask>,
    tries: seq<Outcome<Option<ClaimedTask>>>, result: Outcome<Option<ClaimedTask>>)
    requires CalledSo(earlier, before, tries)
    requires Called(before, later, leases, left, result)
    ensures CalledSo(earlier, later, tries + [result])
  {
    hide ClaimOf;
    assert forall i :: 0 <= i < |before| ==> later[i] == before[i];
  }

  /** One try. */
  method TryToClaim(options: Options, ghost earlier: seq<ClaimCall>, ghost before: seq<Outcome<Option<ClaimedTask>>>)
    returns (result: Outcome<Option<ClaimedTask>>, ghost tries: seq<Outcome<Option<ClaimedTask>>>)
    requires options.remote.Conserved() && CalledSo(earlier, options.remote.calls, before)
    modifies options.remote
    ensures options.remote.Conserved() && tries == before + [result]
    ensures options.remote.Owed() ==
            old(options.remote.Owed()) + (if result.Returned? && result.value.Some? then 1 else 0)
    ensures CalledSo(earlier, options.remote.calls, tries)
  {
    hide CalledSo, Called, FirstInBatch, InBatch, QueueAfter;
    ghost var calls, leases := options.remote.calls, options.remote.activeClaims;
    result := options.remote.ClaimNext(options.batchId);
    tries := before + [result];
    CalledAgain(earlier, calls, options.remote.calls, leases, options.remote.activeClaims, before, result);
  }

  /** Claims with up to three tries: another one exactly after a failure. */
  method ClaimWithRetries(options: Options)
    returns (result: Outcome<Option<ClaimedTask>>, ghost tries: seq<Outcome<Option<ClaimedTask>>>)
    requires options.remote.Conserved()
    modifies options.remote
    ensures options.remote.Conserved()
    ensures options.remote.Owed() ==
            old(options.remote.Owed()) + (if result.Returned? && result.value.Some? then 1 else 0)
    ensures 1 <= |tries| <= 3 && result == tries[|tries| - 1]
    ensures forall i :: 0 <= i < |tries| - 1 ==> tries[i].Threw?
    ensures result.Threw? ==> |tries| == 3
    ensures CalledSo(old(options.remote.calls), options.remote.calls, tries)
  {
    hide CalledSo;
    ghost var earlier := options.remote.calls;
    NothingCalled(earlier);
    result, tries := TryToClaim(options, earlier, []);
    var tried := 1;
    while tried < 3 && result.Threw?
      invariant options.remote.Conserved()
      invariant options.remote.Owed() ==
                old(options.remote.Owed()) + (if result.Returned? && result.value.Some? then 1 else 0)
      invariant 1 <= |tries| == tried <= 3 && result == tries[|tries| - 1]
      invariant forall i :: 0 <= i < |tries| - 1 ==> tries[i].Threw?
      invariant CalledSo(earlier, options.remote.calls, tries)
    {
      result, tries := TryToClaim(options, earlier, tries);
      tried := tried + 1;
    }
  }

  /** What a round is, by what the claims came to. */
  ghost predicate RoundOf(round: Round, claim: Outcome<Option<ClaimedTask>>, queue: QueueState) {
    match claim
    case Threw(_) => round == ClaimFailed
    case Returned(None) => round == NothingClaimed(queue)
    case Returned(Some(claimed)) =>
      && round.Executed? && round.requirement == claimed.task.sessionRequirement
      && round.result.taskId == claimed.task.id
  }

  /** One round: claim, and execute what was claimed. */
  method TakeRound(options: Options)
    returns (round: Outcome<Round>, ghost claim: Outcome<Option<ClaimedTask>>, ghost strays: seq<string>)
    requires Good(options.socket.Now(), BeforeIntent) && options.remote.Conserved()
    modifies options.socket, options.socket.broker, options.remote
    ensures Good(options.socket.Now(), BeforeIntent) && options.remote.Conserved()
    ensures round.Returned? ==>
              && RoundOf(round.value, claim, options.remote.queueState)
              && RoundAdds(old(options.socket.log), options.socket.log, round.value)
              && options.remote.Owed() == old(options.remote.Owed()) + (if round.value.Executed? then 1 else 0)
    ensures round.Threw? ==>
              && StrayAdds(old(options.socket.log), options.socket.log, strays)
              && strays == (if claim.Returned? && claim.value.Some? then [claim.value.value.task.id] else [])
              && options.remote.Owed() == old(options.remote.Owed()) + |strays|
  {
    hide Good, Onward, SuccessStory, Ran, Grown, RequestsIn;
    strays := [];
    ghost var before := options.socket.Now();
    OnwardReflexive(before, BeforeIntent);
    OnwardMeans(before, before, BeforeIntent);
    var claimed, _ := ClaimWithRetries(options);
    claim := claimed;
    match claimed {
      case Threw(_) =>
        var noted := Journal(options, BeforeIntent);
        OnwardMeans(before, options.socket.Now(), BeforeIntent);
        round := if noted.Threw? then Threw(noted.thrown) else Returned(ClaimFailed);
      case Returned(None) =>
        round := Returned(NothingClaimed(options.remote.queueState));
      case Returned(Some(task)) =>
        var result;
        ghost var attempts;
        result, attempts := ExecuteClaimedTask(options, task);
        strays := [task.task.id];
        RanMeans(before.log, options.socket.log, task.task.id);
        match result
        case Threw(thrown) => round := Threw(thrown);
        case Returned(value) =>
          ResultIsTold(options.socket.log, value);
          round := Returned(Executed(value, task.task.sessionRequirement));
    }
  }

  lemma ResultIsTold(log: seq<Event>, result: TaskResult)
    requires result.Succeeded? ==> SuccessStory(log, result.observation) && result.observation.task.id == result.taskId
    ensures Told(log, [result])
  {
  }

  datatype Ending = Summarized(summary: RunSummary) | Aborted(thrown: Thrown) | StillRunning

  /** What holds between two rounds of a run. */
  ghost predicate Running(start: seq<Event>, log: seq<Event>, rounds: seq<Round>, progress: Progress, options: Options) {
    && progress == Replay(rounds, options.batchId.Some?, options.emptyClaimGracePolls, options.maximumTasks)
    && Taken(rounds, options.batchId.Some?, options.emptyClaimGracePolls, options.maximumTasks)
    && progress.results == ResultsOf(rounds)
    && Told(log, progress.results) && Warranted(start, log, progress.results, [])
  }

  lemma RunningOn(
    start: seq<Event>, log: seq<Event>, later: seq<Event>, rounds: seq<Round>, progress: Progress, round: Round,
    options: Options)
    requires Running(start, log, rounds, progress, options) && RoundAdds(log, later, round)
    requires !Ended(progress, options.maximumTasks)
    ensures var next := Advance(progress, round, options.batchId.Some?, options.emptyClaimGracePolls);
            Running(start, later, rounds + [round], next, options)
            && |next.results| == |progress.results| + if round.Executed? then 1 else 0
  {
    hide Told, Warranted, RoundAdds;
    TakenOn(rounds, round, options.batchId.Some?, options.emptyClaimGracePolls, options.maximumTasks);
    ToldByRound(log, later, progress.results, round);
    WarrantedByRound(start, log, later, progress.results, round);
    ReplayExtends(rounds, round, options.batchId.Some?, options.emptyClaimGracePolls, options.maximumTasks);
  }

  /** The history grows by the browser's events: what was told and warranted stays. */
  lemma RunningStill(
    start: seq<Event>, log: seq<Event>, later: seq<Event>, rounds: seq<Round>, progress: Progress, options: Options)
    requires Running(start, log, rounds, progress, options) && Grown(log, later)
    ensures Running(start, later, rounds, progress, options)
  {
    hide Told, Warranted;
    GrownMeansRequests(log, later);
    assert RoundAdds(log, later, ClaimFailed);
    ToldByRound(log, later, progress.results, ClaimFailed);
    WarrantedByRound(start, log, later, progress.results, ClaimFailed);
  }

  lemma RunningStarts(start: seq<Event>, options: Options)
    ensures Running(start, start, [], START, options)
  {
  }

  /** The rounds say that the run is over: something stopped it, or it has as many
      results as it may have. */
  ghost predicate Enough(rounds: seq<Round>, options: Options) {
    Stops(rounds, options.emptyClaimGracePolls)
    || (options.maximumTasks.Some? && |ResultsOf(rounds)| >= options.maximumTasks.value)
  }

  /** The run was not over before any of its rounds. */
  ghost predicate GoesOn(rounds: seq<Round>, options: Options) {
    forall k :: 0 <= k < |rounds| ==> !Enough(rounds[..k], options)
  }

  lemma TakenGoesOn(rounds: seq<Round>, options: Options)
    requires 1 <= options.emptyClaimGracePolls
    requires Taken(rounds, options.batchId.Some?, options.emptyClaimGracePolls, options.maximumTasks)
    ensures GoesOn(rounds, options)
  {
    hide Enough, Replay, Ended;
    forall k | 0 <= k < |rounds| ensures !Enough(rounds[..k], options) {
      var earlier := rounds[..k];
      assert forall m :: 0 <= m < k ==> earlier[..m] == rounds[..m];
      SumsUp(
        earlier, Replay(earlier, options.batchId.Some?, options.emptyClaimGracePolls, options.maximumTasks), options);
    }
  }

  /** A summary is that of the rounds: their results, counted by kind, and a status that
      says how they ended. */
  ghost predicate Summed(summary: RunSummary, rounds: seq<Round>, options: Options) {
    && summary.results == ResultsOf(rounds) && CountsItsResults(summary)
    && StatusSays(
         summary.status, rounds, options.batchId.Some?, options.batchId !in {None, Some("")},
         options.emptyClaimGracePolls)
  }

  lemma SumsUp(rounds: seq<Round>, progress: Progress, options: Options)
    requires 1 <= options.emptyClaimGracePolls
    requires progress == Replay(rounds, options.batchId.Some?, options.emptyClaimGracePolls, options.maximumTasks)
    requires Taken(rounds, options.batchId.Some?, options.emptyClaimGracePolls, options.maximumTasks)
    ensures progress.results == ResultsOf(rounds)
    ensures Summed(Summarize(progress, Named(options.batchId)), rounds, options)
    ensures Ended(progress, options.maximumTasks) <==> Enough(rounds, options)
  {
    hide Replay, Taken, Stops, CountsItsResults, StatusSays, Count;
    StatusIsExact(
      rounds, options.batchId.Some?, Named(options.batchId), options.emptyClaimGracePolls, options.maximumTasks);
    KindsMakeUpTheTotal(progress, Named(options.batchId));
  }

  /** What is left of a run in which a round threw. */
  lemma RunningThrown(
    start: seq<Event>, log: seq<Event>, later: seq<Event>, rounds: seq<Round>, progress: Progress, options: Options,
    strays: seq<string>)
    requires Running(start, log, rounds, progress, options) && StrayAdds(log, later, strays)
    ensures Taken(rounds, options.batchId.Some?, options.emptyClaimGracePolls, options.maximumTasks)
    ensures progress.results == ResultsOf(rounds)
    ensures Told(later, progress.results) && Warranted(start, later, progress.results, strays)
  {
    hide Told, Warranted;
    ToldLater(log, later, progress.results);
    WarrantedByStray(start, log, later, progress.results, strays);
  }

  /** Runs the batch. Without a task limit the loop need not end; `patience` is how
      many rounds it is then watched. However it ends, the run is the replay of the
      rounds that took place; every success among its results has its whole story in
      the history; for each task no more submits were requested than it has results,
      and one more for the task at work when a round threw; and each claim became a
      result, was at work then, went back into a running task, or is still held back. */
  method RunBatch(options: Options, patience: nat)
    returns (ending: Ending, ghost rounds: seq<Round>, ghost strays: seq<string>)
    requires Good(options.socket.Now(), BeforeIntent) && options.remote.Conserved()
    modifies options.socket, options.socket.broker, options.remote
    ensures Good(options.socket.Now(), BeforeIntent) && options.remote.Conserved()
    ensures var results := ResultsOf(rounds);
            && Told(options.socket.log, results)
            && Warranted(old(options.socket.log), options.socket.log, results, strays)
            && |options.remote.received| ==
                 old(options.remote.Owed()) + |results| + |strays| + options.remote.reclaimed
                 + |options.remote.pendingClaims|
    ensures GoesOn(rounds, options)
    ensures ending.Summarized? ==> Enough(rounds, options) && Summed(ending.summary, rounds, options)
    ensures |strays| <= 1 && (strays != [] ==> ending.Aborted?)
    ensures old(options.socket.log) <= options.socket.log
    ensures !ending.Aborted? ==> 1 <= options.emptyClaimGracePolls <= 20
    ensures ending.StillRunning? ==>
              !Enough(rounds, options) && options.maximumTasks.None? && |rounds| >= patience
  {
    hide Good, Count, Running, RoundAdds, StrayAdds, Onward, Summarize, Told, Warranted, Taken, Summed, Enough, GoesOn,
      Replay, ResultsOf;
    ghost var start := options.socket.Now();
    rounds, strays := [], [];
    assert GoesOn(rounds, options) by {
      NothingWentOn(options);
    }
    var progress := START;
    RunningStarts(start.log, options);
    RunningMeans(start.log, start.log, rounds, progress, options);
    ConservationCounts(options.remote.received, options.remote.handedOut, options.remote.pendingClaims);
    var grace, maximum := options.emptyClaimGracePolls, options.maximumTasks;
    if grace < 1 || grace > 20 {
      return Aborted(Untyped), rounds, strays;
    }
    var started := Journal(options, BeforeIntent);
    OnwardMeans(start, options.socket.Now(), BeforeIntent);
    RunningStill(start.log, start.log, options.socket.log, rounds, progress, options);
    RunningMeans(start.log, options.socket.log, rounds, progress, options);
    if started.Threw? {
      return Aborted(started.thrown), rounds, strays;
    }
    var left := patience;
    while !Ended(progress, maximum) && (maximum.Some? || left > 0)
      invariant Good(options.socket.Now(), BeforeIntent) && options.remote.Conserved()
      invariant Running(start.log, options.socket.log, rounds, progress, options)
      invariant start.log <= options.socket.log && strays == []
      invariant !progress.stopped ==> progress.emptyClaims < grace
      invariant options.remote.Owed() == old(options.remote.Owed()) + |progress.results|
      invariant maximum.None? ==> left + |rounds| == patience
      decreases !progress.stopped, if maximum.Some? then maximum.value - |progress.results| else left,
                grace - progress.emptyClaims
    {
      ghost var before := options.socket.log;
      var round;
      ghost var lost, claim;
      round, claim, lost := TakeRound(options);
      match round
      case Threw(thrown) =>
        StrayMeans(before, options.socket.log, lost);
        RunningThrown(start.log, before, options.socket.log, rounds, progress, options, lost);
        TakenGoesOn(rounds, options);
        ConservationCounts(options.remote.received, options.remote.handedOut, options.remote.pendingClaims);
        return Aborted(thrown), rounds, lost;
      case Returned(value) =>
        RoundGrows(before, options.socket.log, value);
        RunningOn(start.log, before, options.socket.log, rounds, progress, value, options);
        rounds := rounds + [value];
        progress := Advance(progress, value, options.batchId.Some?, grace);
        left := if maximum.None? then left - 1 else left;
    }
    ConservationCounts(options.remote.received, options.remote.handedOut, options.remote.pendingClaims);
    RunningMeans(start.log, options.socket.log, rounds, progress, options);
    TakenGoesOn(rounds, options);
    SumsUp(rounds, progress, options);
    if !Ended(progress, maximum) {
      return StillRunning, rounds, strays;
    }
    ghost var finished := options.socket.Now();
    var completed := Journal(options, BeforeIntent);
    OnwardMeans(finished, options.socket.Now(), BeforeIntent);
    RunningStill(start.log, finished.log, options.socket.log, rounds, progress, options);
    RunningMeans(start.log, options.socket.log, rounds, progress, options);
    ending := if completed.Threw? then Aborted(completed.thrown)
              else Summarized(Summarize(progress, Named(options.batchId)));
  }

  lemma NothingWentOn(options: Options)
    ensures GoesOn([], options)
  {
  }

  lemma RoundGrows(earlier: seq<Event>, later: seq<Event>, round: Round)
    requires RoundAdds(earlier, later, round)
    ensures earlier <= later
  {
  }

  lemma StrayMeans(earlier: seq<Event>, later: seq<Event>, strays: seq<string>)
    requires StrayAdds(earlier, later, strays)
    ensures earlier <= later && |strays| <= 1
  {
  }

  lemma TakenOn(rounds: seq<Round>, round: Round, batched: bool, gracePolls: int, maximum: Option<int>)
    requires Taken(rounds, batched, gracePolls, maximum)
    requires !Ended(Replay(rounds, batched, gracePolls, maximum), maximum)
    ensures Taken(rounds + [round], batched, gracePolls, maximum)
  {
    hide Replay;
    assert rounds[..|rounds|] == rounds;
    assert forall k :: 0 <= k <= |rounds| ==> (rounds + [round])[..k] == rounds[..k];
  }

  lemma RunningMeans(start: seq<Event>, log: seq<Event>, rounds: seq<Round>, progress: Progress, options: Options)
    requires Running(start, log, rounds, progress, options)
    ensures progress == Replay(rounds, options.batchId.Some?, options.emptyClaimGracePolls, options.maximumTasks)
    ensures Taken(rounds, options.batchId.Some?, options.emptyClaimGracePolls, options.maximumTasks)
    ensures progress.results == ResultsOf(rounds)
    ensures Told(log, progress.results) && Warranted(start, log, progress.results, [])
  {
  }

  lemma ReplayExtends(rounds: seq<Round>, round: Round, batched: bool, gracePolls: int, maximum: Option<int>)
    requires !Ended(Replay(rounds, batched, gracePolls, maximum), maximum)
    ensures Replay(rounds + [round], batched, gracePolls, maximum) ==
            Advance(Replay(rounds, batched, gracePolls, maximum), round, batched, gracePolls)
  {
    assert (rounds + [round])[..|rounds|] == rounds;
  }

  // ---- What is forgotten --------------------------------------------------------

  ghost predicate HasUnsettled(progress: Progress) {
    exists i :: 0 <= i < |progress.results| && Unsettled(progress.results[i])
  }

  /** The round at which the loop stopped, if it did. */
  function StoppingRound(rounds: seq<Round>, batched: bool, gracePolls: int, maximum: Option<int>): Option<Round> {
    if rounds == [] then None
    else
      var earlier := rounds[..|rounds| - 1];
      if Ended(Replay(earlier, batched, gracePolls, maximum), maximum) then
        StoppingRound(earlier, batched, gracePolls, maximum)
      else if Replay(rounds, batched, gracePolls, maximum).stopped then Some(rounds[|rounds| - 1])
      else None
  }

  /** After an unsettled result the run counts as incomplete exactly when it was
      limited to a batch or did not stop by waiting out an empty queue: that exit
      sets the flag anew and forgets what was recorded before. */
  lemma {:induction false} UnsettledForcesIncompleteExactly(
    rounds: seq<Round>, batched: bool, gracePolls: int, maximum: Option<int>)
    requires HasUnsettled(Replay(rounds, batched, gracePolls, maximum))
    ensures Replay(rounds, batched, gracePolls, maximum).incomplete <==>
            batched || StoppingRound(rounds, batched, gracePolls, maximum) != Some(NothingClaimed(Waiting))
  {
    var earlier := rounds[..|rounds| - 1];
    var before := Replay(earlier, batched, gracePolls, maximum);
    NothingAtTheStart();
    hide Advance, HasUnsettled;
    if Ended(before, maximum) || HasUnsettled(before) {
      UnsettledForcesIncompleteExactly(earlier, batched, gracePolls, maximum);
    }
    if !before.stopped {
      NotStoppedYet(earlier, batched, gracePolls, maximum);
    }
    if !Ended(before, maximum) {
      AdvanceRemembers(before, rounds[|rounds| - 1], batched, gracePolls);
    }
  }

  lemma NothingAtTheStart()
    ensures !HasUnsettled(START)
  {
  }

  /** One round forgets an unsettled result only by waiting out an empty queue. */
  lemma AdvanceRemembers(before: Progress, round: Round, batched: bool, gracePolls: int)
    requires !before.stopped && (HasUnsettled(before) ==> before.incomplete)
    requires HasUnsettled(Advance(before, round, batched, gracePolls))
    ensures
      var after := Advance(before, round, batched, gracePolls);
      after.incomplete <==> batched || !after.stopped || round != NothingClaimed(Waiting)
  {
    var after := Advance(before, round, batched, gracePolls);
    var i :| 0 <= i < |after.results| && Unsettled(after.results[i]);
    if i < |before.results| {
      assert HasUnsettled(before);
    }
  }

  lemma {:induction false} NotStoppedYet(rounds: seq<Round>, batched: bool, gracePolls: int, maximum: Option<int>)
    requires !Replay(rounds, batched, gracePolls, maximum).stopped
    ensures StoppingRound(rounds, batched, gracePolls, maximum) == None
    decreases |rounds|
  {
    if rounds != [] {
      var earlier := rounds[..|rounds| - 1];
      if Ended(Replay(earlier, batched, gracePolls, maximum), maximum) {
        NotStoppedYet(earlier, batched, gracePolls, maximum);
      }
    }
  }

  ghost predicate AlwaysForces(batched: bool, gracePolls: int, maximum: Option<int>) {
    forall rounds ::
      HasUnsettled(Replay(rounds, batched, gracePolls, maximum)) ==>
        Replay(rounds, batched, gracePolls, maximum).incomplete
  }

  /** A run that may have one result at most ends with it. */
  lemma {:induction false} SingleTaskForces(rounds: seq<Round>, batched: bool, gracePolls: int, maximum: int)
    requires maximum <= 1
    ensures HasUnsettled(Replay(rounds, batched, gracePolls, Some(maximum))) ==>
              Replay(rounds, batched, gracePolls, Some(maximum)).incomplete
    decreases |rounds|
  {
    if rounds != [] {
      SingleTaskForces(rounds[..|rounds| - 1], batched, gracePolls, maximum);
    }
  }

  /** Whether an unsettled result always makes the run incomplete depends on the
      options alone: it does if and only if the run is limited to a batch, or to a
      single task. */
  lemma OnlyBatchRunsRemember(batched: bool, gracePolls: int, maximum: Option<int>)
    requires 1 <= gracePolls
    ensures AlwaysForces(batched, gracePolls, maximum) <==> batched || (maximum.Some? && maximum.value <= 1)
  {
    if batched {
      forall rounds | HasUnsettled(Replay(rounds, batched, gracePolls, maximum))
        ensures Replay(rounds, batched, gracePolls, maximum).incomplete
      {
        UnsettledForcesIncompleteExactly(rounds, batched, gracePolls, maximum);
      }
    } else if maximum.Some? && maximum.value <= 1 {
      forall rounds | HasUnsettled(Replay(rounds, batched, gracePolls, maximum))
        ensures Replay(rounds, batched, gracePolls, maximum).incomplete
      {
        SingleTaskForces(rounds, batched, gracePolls, maximum.value);
      }
    } else {
      var rounds := LostFailure("task", gracePolls, maximum);
      assert HasUnsettled(Replay(rounds, false, gracePolls, maximum));
    }
  }

  /** The schedule that shows it, in a run that may take a second task: one task whose
      needs-human state could not be saved, then a queue that keeps saying it is
      waiting. The run reports itself complete. */
  lemma LostFailure(taskId: string, gracePolls: int, maximum: Option<int>) returns (rounds: seq<Round>)
    requires 1 <= gracePolls && (maximum.Some? ==> maximum.value >= 2)
    ensures var progress := Replay(rounds, false, gracePolls, maximum);
            && progress.results == [PersistenceFailed(taskId)]
            && HasUnsettled(progress)
            && !progress.incomplete
            && StatusOf(progress, false) == Complete
  {
    rounds := [Executed(PersistenceFailed(taskId), AnonymousClean)];
    assert rounds[..0] == [];
    var empty := 0;
    while empty < gracePolls
      invariant 0 <= empty <= gracePolls
      invariant var progress := Replay(rounds, false, gracePolls, maximum);
                && progress.results == [PersistenceFailed(taskId)]
                && progress.emptyClaims == empty && !progress.drained
                && progress.stopped == (empty == gracePolls)
                && (empty == gracePolls ==> !progress.incomplete)
    {
      ReplayExtends(rounds, NothingClaimed(Waiting), false, gracePolls, maximum);
      rounds := rounds + [NothingClaimed(Waiting)];
      empty := empty + 1;
    }
    assert Unsettled(Replay(rounds, false, gracePolls, maximum).results[0]);
  }
}
