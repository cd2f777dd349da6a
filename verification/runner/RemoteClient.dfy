/** The runner's client of the task server (remote-client.ts): leases, and the
    claims it holds back because they arrived while another task was retried. */
module RemoteClient {
  import opened Optional
  import opened Contracts

  datatype QueueState = Settled | Drained | Waiting | UnknownQueue

  /** The server's answer to a claim request. */
  datatype ClaimAnswer =
    | Unreachable(error: RunnerError)
    | NoClaim(queue: QueueState)
    | Granted(queue: QueueState, claim: ClaimedTask)
    | Malformed(queue: QueueState)

  /** One call for a claim: it was held back, or the server was asked. */
  datatype ClaimCall = FromHeld(claim: ClaimedTask) | Asked(answer: ClaimAnswer)

  /** What a caller gets from it. */
  ghost function ClaimOf(call: ClaimCall): Outcome<Option<ClaimedTask>> {
    match call
    case FromHeld(claim) => Returned(Some(claim))
    case Asked(Unreachable(error)) => Threw(Typed(error))
    case Asked(NoClaim(_)) => Returned(None)
    case Asked(Malformed(_)) => Threw(Untyped)
    case Asked(Granted(_, claim)) => Returned(Some(claim))
  }

  /** The state of the queue as the server told it last. */
  ghost function QueueAfter(calls: seq<ClaimCall>): QueueState {
    if calls == [] then UnknownQueue
    else
      match calls[|calls| - 1]
      case FromHeld(_) => QueueAfter(calls[..|calls| - 1])
      case Asked(Unreachable(_)) => QueueAfter(calls[..|calls| - 1])
      case Asked(answer) => answer.queue
  }

  lemma OneMoreClaimCall(calls: seq<ClaimCall>, call: ClaimCall)
    ensures (calls + [call])[..|calls|] == calls && (calls + [call])[|calls|] == call
    ensures QueueAfter(calls + [call]) ==
            if call.Asked? && !call.answer.Unreachable? then call.answer.queue else QueueAfter(calls)
  {
    assert (calls + [call])[..|calls|] == calls;
  }

  lemma ReceiptConserves(
    received: seq<ClaimedTask>, handedOut: seq<ClaimedTask>, pending: seq<ClaimedTask>, claim: ClaimedTask)
    requires multiset(received) == multiset(handedOut) + multiset(pending)
    ensures multiset(received + [claim]) == multiset(handedOut + [claim]) + multiset(pending)
  {
  }

  /** The leases after a call: one that the server grants is active from then on. */
  ghost function LeasesAfter(leases: map<string, ClaimedTask>, call: ClaimCall): map<string, ClaimedTask> {
    if call.Asked? && call.answer.Granted? then leases[call.answer.claim.task.id := call.answer.claim] else leases
  }

  /** One more call, what it gave, and the leases that it left. */
  ghost predicate Called(
    earlier: seq<ClaimCall>, later: seq<ClaimCall>, leases: map<string, ClaimedTask>, left: map<string, ClaimedTask>,
    result: Outcome<Option<ClaimedTask>>)
  {
    && |later| == |earlier| + 1 && later[..|earlier|] == earlier
    && result == ClaimOf(later[|earlier|]) && left == LeasesAfter(leases, later[|earlier|])
  }

  lemma OneCall(earlier: seq<ClaimCall>, call: ClaimCall, leases: map<string, ClaimedTask>)
    ensures Called(earlier, earlier + [call], leases, LeasesAfter(leases, call), ClaimOf(call))
  {
  }

  datatype Retry = Reclaimed(claim: ClaimedTask) | Queued | LeftToHuman

  predicate InBatch(claim: ClaimedTask, batchId: Option<string>) {
    batchId.None? || batchId.value == "" || claim.task.batchId == batchId.value
  }

  /** The first held-back claim of the batch, or the length when there is none. */
  function FirstInBatch(claims: seq<ClaimedTask>, batchId: Option<string>): (index: nat)
    ensures index <= |claims|
    ensures index < |claims| ==> InBatch(claims[index], batchId)
    ensures forall i :: 0 <= i < index ==> !InBatch(claims[i], batchId)
  {
    if claims == [] || InBatch(claims[0], batchId) then 0 else 1 + FirstInBatch(claims[1..], batchId)
  }

  /** Without a batch every claim is of it; otherwise those are whose task names it. */
  lemma InBatchIs(claim: ClaimedTask, batchId: Option<string>)
    ensures !InBatch(claim, batchId) <==> batchId !in {None, Some(""), Some(claim.task.batchId)}
  {
  }

  lemma RemovalConserves(claims: seq<ClaimedTask>, index: nat)
    requires index < |claims|
    ensures multiset(claims) == multiset(claims[..index] + claims[index + 1..]) + multiset{claims[index]}
  {
    assert claims == claims[..index] + [claims[index]] + claims[index + 1..];
  }

  lemma ConservationCounts(received: seq<ClaimedTask>, handedOut: seq<ClaimedTask>, pending: seq<ClaimedTask>)
    requires multiset(received) == multiset(handedOut) + multiset(pending)
    ensures |received| == |handedOut| + |pending|
  {
    assert |multiset(received)| == |received| && |multiset(handedOut)| == |handedOut| && |multiset(pending)| == |pending|;
  }

  lemma HoldingBackConserves(
    received: seq<ClaimedTask>, before: seq<ClaimedTask>, next: ClaimedTask, pending: seq<ClaimedTask>)
    requires multiset(received) == multiset(before + [next]) + multiset(pending)
    ensures multiset(received) == multiset(before) + multiset(pending + [next])
  {
  }

  /** What a retry comes to when the server grants it or not, and answers the next claim
      so. */
  ghost function RetryFor(
    taskId: string, granted: Outcome<bool>, claim: Outcome<Option<ClaimedTask>>): Outcome<Retry>
  {
    match granted
    case Threw(thrown) => Threw(thrown)
    case Returned(false) => Returned(LeftToHuman)
    case Returned(true) =>
      match claim
      case Threw(thrown) => Threw(thrown)
      case Returned(None) => Returned(Queued)
      case Returned(Some(next)) => if next.task.id == taskId then Returned(Reclaimed(next)) else Returned(Queued)
  }

  lemma RetryCases(taskId: string, claim: Outcome<Option<ClaimedTask>>)
    ensures claim.Threw? ==> RetryFor(taskId, Returned(true), claim) == Threw(claim.thrown)
    ensures claim == Returned(None) ==> RetryFor(taskId, Returned(true), claim) == Returned(Queued)
    ensures claim.Returned? && claim.value.Some? ==>
              RetryFor(taskId, Returned(true), claim) ==
              Returned(if claim.value.value.task.id == taskId then Reclaimed(claim.value.value) else Queued)
  {
  }

  ghost function Reclaims(result: Outcome<Retry>): seq<ClaimedTask> {
    if result.Returned? && result.value.Reclaimed? then [result.value.claim] else []
  }

  class BrowserRunnerRemoteClient {
    const defaultBatchId: Option<string>
    var activeClaims: map<string, ClaimedTask>
    var pendingClaims: seq<ClaimedTask>
    var queueState: QueueState
    /** Every claim parsed from a server answer, and every claim given to a caller. */
    ghost var received: seq<ClaimedTask>
    ghost var handedOut: seq<ClaimedTask>
    /** How many of the claims handed out went back into a running task. */
    ghost var reclaimed: nat
    /** Every call for a claim. */
    ghost var calls: seq<ClaimCall>

    constructor (defaultBatchId: Option<string>)
      ensures Conserved() && received == [] && reclaimed == 0 && activeClaims == map[]
      ensures this.defaultBatchId == defaultBatchId
    {
      this.defaultBatchId := defaultBatchId;
      activeClaims := map[];
      pendingClaims := [];
      queueState := UnknownQueue;
      received := [];
      handedOut := [];
      reclaimed := 0;
      calls := [];
    }

    /** No claim is lost or given out twice, and the queue is as the server told last. */
    ghost predicate Conserved()
      reads this
    {
      && multiset(received) == multiset(handedOut) + multiset(pendingClaims)
      && queueState == QueueAfter(calls)
    }

    /** Claims that a caller has to turn into a result. */
    ghost function Owed(): int
      reads this
    {
      |handedOut| - reclaimed
    }

    /** A held-back claim of the batch comes first; the server is asked only when
        there is none. */
    method ClaimNext(batchId: Option<string>) returns (result: Outcome<Option<ClaimedTask>>)
      requires Conserved()
      modifies this
      ensures Conserved() && reclaimed == old(reclaimed)
      ensures handedOut == old(handedOut) +
                (if result.Returned? && result.value.Some? then [result.value.value] else [])
      ensures var wanted := if batchId.Some? then batchId else defaultBatchId;
              var first := FirstInBatch(old(pendingClaims), wanted);
              if first < |old(pendingClaims)| then
                && result == Returned(Some(old(pendingClaims)[first]))
                && pendingClaims == old(pendingClaims)[..first] + old(pendingClaims)[first + 1..]
                && received == old(received)
              else pendingClaims == old(pendingClaims)
      ensures Called(old(calls), calls, old(activeClaims), activeClaims, result)
    {
      var wanted := if batchId.Some? then batchId else defaultBatchId;
      var first := FirstInBatch(pendingClaims, wanted);
      hide FirstInBatch, InBatch, QueueAfter, Called;
      if first < |pendingClaims| {
        var claim := pendingClaims[first];
        RemovalConserves(pendingClaims, first);
        pendingClaims := pendingClaims[..first] + pendingClaims[first + 1..];
        handedOut := handedOut + [claim];
        OneMoreClaimCall(calls, FromHeld(claim));
        OneCall(calls, FromHeld(claim), activeClaims);
        calls := calls + [FromHeld(claim)];
        return Returned(Some(claim));
      }
      result := RequestClaim();
    }

    /** Asks the server for a claim. */
    method RequestClaim() returns (result: Outcome<Option<ClaimedTask>>)
      requires Conserved()
      modifies this
      ensures Conserved() && reclaimed == old(reclaimed) && pendingClaims == old(pendingClaims)
      ensures handedOut == old(handedOut) +
                (if result.Returned? && result.value.Some? then [result.value.value] else [])
      ensures Called(old(calls), calls, old(activeClaims), activeClaims, result)
    {
      hide QueueAfter, LeasesAfter, Called;
      var answer: ClaimAnswer := *;
      OneCall(calls, Asked(answer), activeClaims);
      Hear(answer);
      match answer {
        case Unreachable(error) => result := Threw(Typed(error));
        case NoClaim(_) => result := Returned(None);
        case Malformed(_) => result := Threw(Untyped);
        case Granted(_, claim) =>
          ReceiptConserves(received, handedOut, pendingClaims, claim);
          received := received + [claim];
          handedOut := handedOut + [claim];
          result := Returned(Some(claim));
      }
    }

    /** Notes the state of the queue, and the lease that was granted. */
    method Hear(answer: ClaimAnswer)
      requires queueState == QueueAfter(calls)
      modifies this`queueState, this`activeClaims, this`calls
      ensures calls == old(calls) + [Asked(answer)]
      ensures queueState == QueueAfter(calls) && activeClaims == LeasesAfter(old(activeClaims), Asked(answer))
    {
      OneMoreClaimCall(calls, Asked(answer));
      hide QueueAfter;
      calls := calls + [Asked(answer)];
      if !answer.Unreachable? {
        queueState := answer.queue;
      }
      if answer.Granted? {
        activeClaims := activeClaims[answer.claim.task.id := answer.claim];
      }
    }

    /** Reports a pre-submit failure and, when the server grants a retry, claims
        again. A claim for another task is kept for later. `granted` and `claim` are
        what the server answered. */
    method RetryPreSubmit(claimed: ClaimedTask)
      returns (result: Outcome<Retry>, ghost granted: Outcome<bool>, ghost claim: Outcome<Option<ClaimedTask>>)
      requires Conserved()
      modifies this
      ensures Conserved() && Owed() == old(Owed())
      ensures result.Returned? && result.value.Reclaimed? ==>
                && result.value.claim.task.id == claimed.task.id
                && handedOut == old(handedOut) + [result.value.claim]
      ensures !(result.Returned? && result.value.Reclaimed?) ==> handedOut == old(handedOut)
      ensures result == RetryFor(claimed.task.id, granted, claim)
      ensures granted == Returned(true) ==> HeldBack(claimed.task.id, claim)
      ensures match granted
              case Threw(_) => calls == old(calls) && activeClaims == old(activeClaims)
              case Returned(false) => calls == old(calls) && activeClaims == old(activeClaims) - {claimed.task.id}
              case Returned(true) =>
                Called(old(calls), calls, old(activeClaims) - {claimed.task.id}, activeClaims, claim)
    {
      claim := Threw(Untyped);
      var scheduled := ReportFailure(claimed);
      granted := scheduled;
      if scheduled.Threw? {
        return Threw(scheduled.thrown), granted, claim;
      }
      activeClaims := activeClaims - {claimed.task.id};
      if !scheduled.value {
        return Returned(LeftToHuman), granted, claim;
      }
      result, claim := Reclaim(claimed);
    }

    /** The second half of a retry: claims the batch's next task. */
    method Reclaim(claimed: ClaimedTask) returns (result: Outcome<Retry>, ghost claim: Outcome<Option<ClaimedTask>>)
      requires Conserved()
      modifies this
      ensures Conserved() && Owed() == old(Owed())
      ensures result == RetryFor(claimed.task.id, Returned(true), claim)
      ensures handedOut == old(handedOut) + Reclaims(result)
      ensures HeldBack(claimed.task.id, claim)
      ensures Called(old(calls), calls, old(activeClaims), activeClaims, claim)
    {
      hide FirstInBatch, InBatch, Conserved, Called;
      ghost var before := handedOut;
      var next := ClaimNext(Some(claimed.task.batchId));
      claim := next;
      assert before + [] == before;
      hide RetryFor;
      RetryCases(claimed.task.id, next);
      if next.Threw? {
        result := Threw(next.thrown);
      } else if next.value.None? {
        result := Returned(Queued);
      } else if next.value.value.task.id != claimed.task.id {
        HoldBack(next.value.value, before);
        result := Returned(Queued);
      } else {
        assert |handedOut| == |before| + 1;
        CountAsReclaimed();
        result := Returned(Reclaimed(next.value.value));
      }
    }

    /** A claim for another task is the last one held back. */
    ghost predicate HeldBack(taskId: string, claim: Outcome<Option<ClaimedTask>>)
      reads this
    {
      claim.Returned? && claim.value.Some? && claim.value.value.task.id != taskId ==>
        pendingClaims != [] && pendingClaims[|pendingClaims| - 1] == claim.value.value
    }

    /** Keeps the claim that was just handed out for a later caller. */
    method HoldBack(next: ClaimedTask, ghost before: seq<ClaimedTask>)
      requires Conserved() && handedOut == before + [next]
      modifies this`pendingClaims, this`handedOut
      ensures Conserved() && handedOut == before && reclaimed == old(reclaimed)
      ensures pendingClaims == old(pendingClaims) + [next]
    {
      HoldingBackConserves(received, before, next, pendingClaims);
      pendingClaims := pendingClaims + [next];
      handedOut := before;
    }

    ghost method CountAsReclaimed()
      requires Conserved()
      modifies this`reclaimed
      ensures Conserved() && reclaimed == old(reclaimed) + 1
    {
      reclaimed := reclaimed + 1;
    }

    /** A request made under the claim's lease; a claim without one cannot make it. `said` is
        what the server answered. */
    method LeaseRequest(claimed: ClaimedTask) returns (result: Outcome<()>, ghost said: Outcome<()>)
      ensures result == if claimed.lease.Some? then said else Threw(Untyped)
    {
      var answer: Outcome<()> := *;
      said := answer;
      result := if claimed.lease.None? then Threw(Untyped) else answer;
    }

    method ReportFailure(claimed: ClaimedTask) returns (result: Outcome<bool>)
      ensures result.Returned? ==> claimed.lease.Some?
      ensures claimed.lease.None? ==> result == Threw(Untyped)
    {
      var asked;
      ghost var said;
      asked, said := LeaseRequest(claimed);
      if asked.Threw? {
        return Threw(asked.thrown);
      }
      var scheduled: bool := *;
      result := Returned(scheduled);
    }

    /** Reports a failure that is not to be retried; a server that schedules a retry all
        the same is an error. `report` is what the server answered. */
    method MarkNeedsHuman(claimed: ClaimedTask) returns (result: Outcome<()>, ghost report: Outcome<bool>)
      modifies this`activeClaims
      ensures result ==
              (match report
               case Threw(thrown) => Threw(thrown)
               case Returned(true) =>
                 Threw(Typed(RunnerError("server_requeued_nonretryable_failure", Persisting, NeedsHuman)))
               case Returned(false) => Returned(()))
      ensures activeClaims == if report.Returned? then old(activeClaims) - {claimed.task.id} else old(activeClaims)
    {
      var scheduled := ReportFailure(claimed);
      report := scheduled;
      if scheduled.Threw? {
        return Threw(scheduled.thrown), report;
      }
      activeClaims := activeClaims - {claimed.task.id};
      if scheduled.value {
        return Threw(Typed(RunnerError("server_requeued_nonretryable_failure", Persisting, NeedsHuman))), report;
      }
      result := Returned(());
    }

    /** Completes a task; only a task with an active lease can be completed, and that ends
        it. `said` is what the server answered. */
    method SubmitObservation(observation: Observation) returns (result: Outcome<()>, ghost said: Outcome<()>)
      modifies this`activeClaims
      ensures var id := observation.task.id;
              && result ==
                   (if id in old(activeClaims) && old(activeClaims)[id].lease.Some? then said else Threw(Untyped))
              && activeClaims == if result.Returned? then old(activeClaims) - {id} else old(activeClaims)
    {
      if observation.task.id !in activeClaims || activeClaims[observation.task.id].lease.None? {
        return Threw(Untyped), Threw(Untyped);
      }
      var answer: Outcome<()> := *;
      said := answer;
      if answer.Returned? {
        activeClaims := activeClaims - {observation.task.id};
      }
      result := answer;
    }

    /** Asks for the lease of a task that was submitted earlier. `said` is what the server
        answered. */
    method Resume(taskId: string) returns (result: Outcome<ClaimedTask>, ghost said: Outcome<ClaimedTask>)
      requires Conserved()
      modifies this
      ensures Conserved()
      ensures result.Returned? ==>
                && result.value.task.id == taskId
                && result.value.postSubmitAssist && result.value.runnerSessionId.Some?
      ensures result ==
              if said.Returned? && !(said.value.task.id == taskId && said.value.postSubmitAssist
                                     && said.value.runnerSessionId !in {None, Some("")})
              then Threw(Untyped) else said
      ensures activeClaims == if result.Returned? then old(activeClaims)[taskId := result.value] else old(activeClaims)
      ensures handedOut == old(handedOut) + (if result.Returned? then [result.value] else [])
    {
      var answer: Outcome<ClaimedTask> := *;
      said := answer;
      match answer {
        case Threw(thrown) => result := Threw(thrown);
        case Returned(claim) =>
          if claim.task.id != taskId || !claim.postSubmitAssist || claim.runnerSessionId.None?
            || claim.runnerSessionId.value == "" {
            return Threw(Untyped), said;
          }
          activeClaims := activeClaims[taskId := claim];
          received := received + [claim];
          handedOut := handedOut + [claim];
          result := Returned(claim);
      }
    }
  }
}
