/** The shared flags of the extension's background script (background.ts). Every
    handler runs up to its next await without interruption; between those points any
    other handler may run. An event is one such stretch. */
module Background {

  /** A tab and its address, as automatic qualifications are told apart. */
  type Key = nat

  datatype Event =
    | RunNow
    | RunSettles
    | RunIsCleared
    | QualifySurface
    | QualificationSettles
    | QualificationIsCleared
    | ScheduleAutomatic(key: Key, supported: bool)
    | AutomaticTurn
    | AutomaticEnds
    | RecoverNeedsHuman
    | RecoveryEnds

  /** The flags, the chain of automatic qualifications that have not ended, whether the
      first of them has passed its guard, and what is really going on in the browser. */
  datatype State = State(
    running: bool,
    manualRecoveryRunning: bool,
    qualificationRunning: bool,
    automaticActive: int,
    pending: set<Key>,
    tail: seq<Key>,
    pastGuard: bool,
    runs: nat,
    recoveries: nat,
    qualifications: nat)

  const INITIAL := State(false, false, false, 0, {}, [], false, 0, 0, 0)

  /** One stretch of a handler. An event that cannot happen in a state changes nothing. */
  function After(s: State, event: Event): State {
    match event
    case RunNow =>
      if s.manualRecoveryRunning || s.qualificationRunning || s.automaticActive > 0 || s.running then s
      else s.(running := true, runs := s.runs + 1)
    case RunSettles => if s.runs > 0 then s.(runs := s.runs - 1) else s
    case RunIsCleared => if s.runs == 0 then s.(running := false) else s
    case QualifySurface =>
      if s.running || s.manualRecoveryRunning || s.automaticActive > 0 || s.qualificationRunning then s
      else s.(qualificationRunning := true, qualifications := s.qualifications + 1)
    case QualificationSettles => if s.qualifications > 0 then s.(qualifications := s.qualifications - 1) else s
    case QualificationIsCleared => if s.qualifications == 0 then s.(qualificationRunning := false) else s
    case ScheduleAutomatic(key, supported) =>
      if !supported || key in s.pending then s
      else s.(pending := s.pending + {key}, automaticActive := s.automaticActive + 1, tail := s.tail + [key])
    case AutomaticTurn =>
      if s.tail == [] || s.pastGuard then s
      else if s.running || s.manualRecoveryRunning || s.qualificationRunning then Ended(s)
      else s.(pastGuard := true)
    case AutomaticEnds => if s.tail != [] && s.pastGuard then Ended(s) else s
    case RecoverNeedsHuman =>
      if s.running || s.manualRecoveryRunning || s.qualificationRunning || s.automaticActive > 0 then s
      else s.(manualRecoveryRunning := true, recoveries := s.recoveries + 1)
    case RecoveryEnds => if s.recoveries > 0 then s.(manualRecoveryRunning := false, recoveries := s.recoveries - 1) else s
  }

  /** The first automatic qualification ends, having passed its guard or not. */
  function Ended(s: State): State
    requires s.tail != []
  {
    s.(automaticActive := s.automaticActive - 1, pending := s.pending - {s.tail[0]}, tail := s.tail[1..],
       pastGuard := false)
  }

  function AfterAll(s: State, events: seq<Event>): State {
    if events == [] then s else After(AfterAll(s, events[..|events| - 1]), events[|events| - 1])
  }

  // ---- What the flags keep -------------------------------------------------------

  /** How many of the four kinds of work are in progress. */
  function InProgress(s: State): nat {
    s.runs + s.recoveries + s.qualifications + if s.pastGuard then 1 else 0
  }

  ghost predicate Distinct(keys: seq<Key>) {
    forall i, j :: 0 <= i < j < |keys| ==> keys[i] != keys[j]
  }

  ghost predicate Inv(s: State) {
    && s.runs <= (if s.running then 1 else 0)
    && s.recoveries == (if s.manualRecoveryRunning then 1 else 0)
    && s.qualifications <= (if s.qualificationRunning then 1 else 0)
    && Distinct(s.tail) && s.automaticActive == |s.tail|
    && (forall key :: key in s.pending <==> key in s.tail)
    && (s.pastGuard ==> s.tail != [])
    && (s.running ==> !s.manualRecoveryRunning && !s.qualificationRunning && !s.pastGuard)
    && (s.manualRecoveryRunning ==> !s.qualificationRunning && !s.pastGuard)
    && (s.qualificationRunning ==> !s.pastGuard)
  }

  lemma AfterKeepsInv(s: State, event: Event)
    requires Inv(s)
    ensures Inv(After(s, event))
  {
    if s.tail != [] {
      assert s.tail == [s.tail[0]] + s.tail[1..];
    }
  }

  lemma {:induction false} EveryInterleavingKeepsInv(events: seq<Event>)
    ensures Inv(AfterAll(INITIAL, events))
  {
    if events != [] {
      EveryInterleavingKeepsInv(events[..|events| - 1]);
      AfterKeepsInv(AfterAll(INITIAL, events[..|events| - 1]), events[|events| - 1]);
    }
  }

  lemma {:induction false} DistinctCount(keys: seq<Key>, elements: set<Key>)
    requires Distinct(keys) && forall key :: key in elements <==> key in keys
    ensures |elements| == |keys|
  {
    if keys == [] {
      assert elements == {};
    } else {
      var last := keys[|keys| - 1];
      assert keys == keys[..|keys| - 1] + [last];
      DistinctCount(keys[..|keys| - 1], elements - {last});
    }
  }

  lemma InvIsOneAtATime(s: State)
    requires Inv(s)
    ensures InProgress(s) <= 1
  {
  }

  /** Under every interleaving at most one scheduled run, manual recovery, manual
      qualification or automatic qualification past its guard is in progress, and the
      counter of automatic qualifications is the number of pending keys. */
  lemma AtMostOneAtATime(events: seq<Event>)
    ensures InProgress(AfterAll(INITIAL, events)) <= 1
    ensures AfterAll(INITIAL, events).automaticActive == |AfterAll(INITIAL, events).pending|
  {
    EveryInterleavingKeepsInv(events);
    var s := AfterAll(INITIAL, events);
    DistinctCount(s.tail, s.pending);
  }

  /** What the status message reports as running. */
  predicate ReportedRunning(s: State) {
    s.running || s.manualRecoveryRunning || s.qualificationRunning || s.automaticActive > 0
  }

  /** Work in progress is always reported, and when none is reported any of the three
      manual entries starts its work. */
  lemma ReportIsSafe(events: seq<Event>)
    ensures
      var s := AfterAll(INITIAL, events);
      && (InProgress(s) > 0 ==> ReportedRunning(s))
      && (!ReportedRunning(s) <==> InProgress(After(s, RunNow)) > InProgress(s))
      && (!ReportedRunning(s) <==> InProgress(After(s, QualifySurface)) > InProgress(s))
      && (!ReportedRunning(s) <==> InProgress(After(s, RecoverNeedsHuman)) > InProgress(s))
  {
    EveryInterleavingKeepsInv(events);
  }

  /** The turns and ends that let every waiting automatic qualification through. */
  function Drain(count: nat): seq<Event> {
    if count == 0 then [] else Drain(count - 1) + [AutomaticTurn, AutomaticEnds]
  }

  /** The chain never jams: from every reachable state, in which nothing else ends,
      each waiting qualification gets its turn and the pending set empties. */
  lemma {:induction false} ChainDrains(s: State, count: nat)
    requires Inv(s) && count <= |s.tail|
    ensures
      var later := AfterAll(s, Drain(count));
      && Inv(later) && later.tail == s.tail[count..]
      && later.running == s.running && later.manualRecoveryRunning == s.manualRecoveryRunning
      && later.qualificationRunning == s.qualificationRunning
    decreases count
  {
    if count > 0 {
      ChainDrains(s, count - 1);
      var events := Drain(count);
      var before := AfterAll(s, Drain(count - 1));
      assert events[..|events| - 1][..|events| - 2] == Drain(count - 1);
      assert events[..|events| - 1] == Drain(count - 1) + [AutomaticTurn];
      var turned := After(before, AutomaticTurn);
      AfterKeepsInv(before, AutomaticTurn);
      AfterKeepsInv(turned, AutomaticEnds);
    }
  }

  // ---- The script itself -----------------------------------------------------------

  /** The module-level variables of the script, and the promises of its operations that
      have not settled (`runs`, `recoveries`, `qualifications`). */
  class BackgroundScript {
    var running: bool
    var manualRecoveryRunning: bool
    var qualificationRunning: bool
    var automaticQualificationActive: int
    var pendingAutomaticQualifications: set<Key>
    var automaticQualificationTail: seq<Key>
    var pastGuard: bool
    var runs: nat
    var recoveries: nat
    var qualifications: nat

    function Flags(): State
      reads this
    {
      State(
        running, manualRecoveryRunning, qualificationRunning, automaticQualificationActive,
        pendingAutomaticQualifications, automaticQualificationTail, pastGuard, runs, recoveries, qualifications)
    }

    constructor ()
      ensures Flags() == INITIAL
    {
      running, manualRecoveryRunning, qualificationRunning := false, false, false;
      automaticQualificationActive, pendingAutomaticQualifications, automaticQualificationTail := 0, {}, [];
      pastGuard, runs, recoveries, qualifications := false, 0, 0, 0;
    }

    method RunNow()
      modifies this
      ensures Flags() == After(old(Flags()), Event.RunNow)
    {
      if manualRecoveryRunning || qualificationRunning || automaticQualificationActive > 0 {
        return;
      }
      if running {
        return;
      }
      running, runs := true, runs + 1;
    }

    method QualifySurface()
      modifies this
      ensures Flags() == After(old(Flags()), Event.QualifySurface)
    {
      if running || manualRecoveryRunning || automaticQualificationActive > 0 {
        return;
      }
      if qualificationRunning {
        return;
      }
      qualificationRunning, qualifications := true, qualifications + 1;
    }

    method ScheduleAutomaticQualification(key: Key, supported: bool)
      modifies this
      ensures Flags() == After(old(Flags()), ScheduleAutomatic(key, supported))
    {
      if !supported {
        return;
      }
      if key in pendingAutomaticQualifications {
        return;
      }
      pendingAutomaticQualifications := pendingAutomaticQualifications + {key};
      automaticQualificationActive := automaticQualificationActive + 1;
      automaticQualificationTail := automaticQualificationTail + [key];
    }

    /** The next operation of the chain up to its first await, or to its end. */
    method AutomaticTurn()
      modifies this
      ensures Flags() == After(old(Flags()), Event.AutomaticTurn)
    {
      if automaticQualificationTail != [] && !pastGuard {
        if running || manualRecoveryRunning || qualificationRunning {
          EndAutomatic();
        } else {
          pastGuard := true;
        }
      }
    }

    method EndAutomatic()
      requires automaticQualificationTail != []
      modifies this
      ensures Flags() == Ended(old(Flags()))
    {
      var key := automaticQualificationTail[0];
      automaticQualificationActive := automaticQualificationActive - 1;
      pendingAutomaticQualifications := pendingAutomaticQualifications - {key};
      automaticQualificationTail := automaticQualificationTail[1..];
      pastGuard := false;
    }

    method RecoverNeedsHuman()
      modifies this
      ensures Flags() == After(old(Flags()), Event.RecoverNeedsHuman)
    {
      if running || manualRecoveryRunning || qualificationRunning || automaticQualificationActive > 0 {
        return;
      }
      manualRecoveryRunning, recoveries := true, recoveries + 1;
    }

    /** The run's promise settles; its flag is cleared in a later turn. */
    method RunSettles()
      modifies this
      ensures Flags() == After(old(Flags()), Event.RunSettles)
    {
      if runs > 0 {
        runs := runs - 1;
      }
    }

    method RunIsCleared()
      modifies this
      ensures Flags() == After(old(Flags()), Event.RunIsCleared)
    {
      if runs == 0 {
        running := false;
      }
    }

    method QualificationSettles()
      modifies this
      ensures Flags() == After(old(Flags()), Event.QualificationSettles)
    {
      if qualifications > 0 {
        qualifications := qualifications - 1;
      }
    }

    method QualificationIsCleared()
      modifies this
      ensures Flags() == After(old(Flags()), Event.QualificationIsCleared)
    {
      if qualifications == 0 {
        qualificationRunning := false;
      }
    }

    method AutomaticEnds()
      modifies this
      ensures Flags() == After(old(Flags()), Event.AutomaticEnds)
    {
      if automaticQualificationTail != [] && pastGuard {
        EndAutomatic();
      }
    }

    method RecoveryEnds()
      modifies this
      ensures Flags() == After(old(Flags()), Event.RecoveryEnds)
    {
      if recoveries > 0 {
        manualRecoveryRunning, recoveries := false, recoveries - 1;
      }
    }

    method Handle(event: Event)
      modifies this
      ensures Flags() == After(old(Flags()), event)
    {
      match event
      case RunNow => RunNow();
      case RunSettles => RunSettles();
      case RunIsCleared => RunIsCleared();
      case QualifySurface => QualifySurface();
      case QualificationSettles => QualificationSettles();
      case QualificationIsCleared => QualificationIsCleared();
      case ScheduleAutomatic(key, supported) => ScheduleAutomaticQualification(key, supported);
      case AutomaticTurn => AutomaticTurn();
      case AutomaticEnds => AutomaticEnds();
      case RecoverNeedsHuman => RecoverNeedsHuman();
      case RecoveryEnds => RecoveryEnds();
    }

    /** The handlers in any order, one stretch after the other. Work of two kinds is
        never in progress at once. */
    method Interleave(events: seq<Event>)
      requires Inv(Flags())
      modifies this
      ensures Flags() == AfterAll(old(Flags()), events)
      ensures Inv(Flags()) && InProgress(Flags()) <= 1
    {
      hide After, Inv;
      InvIsOneAtATime(Flags());
      for i := 0 to |events|
        invariant Flags() == AfterAll(old(Flags()), events[..i])
        invariant Inv(Flags()) && InProgress(Flags()) <= 1
      {
        assert events[..i + 1][..i] == events[..i];
        AfterKeepsInv(Flags(), events[i]);
        Handle(events[i]);
        InvIsOneAtATime(Flags());
      }
      assert events[..|events|] == events;
    }
  }
}
