/** Planning and running a reviewed backfill of response snapshots
    (backfill-response-snapshots-policy.ts). */
module Backfill {

  import opened Optional

  /** A run id, as its place in the collation order of such ids. */
  type RunId = nat

  datatype Brand = StepFun | Ppio | Unlisted(id: nat)

  datatype Status = Pending | Ready | Failed | Expired

  /** An observation run as the database has it. `content` is what is only copied and
      hashed; an answer counts when it is more than white space. */
  datatype Run = Run(
    runId: RunId, brand: Brand, promptId: nat, scopeId: Option<nat>, promptBrand: Brand, promptScopeId: Option<nat>,
    model: nat, succeeded: bool, answered: bool, observedAt: Option<int>, content: nat)

  datatype Citation = Citation(runId: RunId, promptId: nat, brand: Brand, model: nat, index: int, content: nat)

  datatype Snapshot = Snapshot(
    runId: RunId, brand: Brand, promptId: nat, scopeId: Option<nat>, status: Status, failureCode: Option<nat>)

  datatype CohortRow = CohortRow(runId: RunId, wellFormed: bool, status: Option<Status>, failureCode: Option<nat>)

  datatype Request = Request(
    brand: Brand, from: int, to: int, channels: set<nat>, runIds: seq<RunId>, expectedRunCount: nat,
    expectedFingerprint: nat, failureCode: Option<nat>)

  datatype Planned = Planned(run: Run, citations: seq<Citation>)

  datatype ActionKind = Rebuild | AlreadyReady | StillPending

  datatype Action = Action(run: Planned, kind: ActionKind)

  // ---- Sorting ------------------------------------------------------------------

  function InsertedBy<T>(item: T, items: seq<T>, rank: T -> int): seq<T> {
    if items == [] || rank(item) <= rank(items[0]) then [item] + items
    else [items[0]] + InsertedBy(item, items[1..], rank)
  }

  /** A stable sort. */
  function SortedBy<T>(items: seq<T>, rank: T -> int): seq<T> {
    if items == [] then [] else InsertedBy(items[0], SortedBy(items[1..], rank), rank)
  }

  ghost predicate AtLeast<T(!new)>(least: int, items: multiset<T>, rank: T -> int) {
    forall item :: item in items ==> least <= rank(item)
  }

  /** No later item ranks below an earlier one. */
  ghost predicate Ascending<T(!new)>(items: seq<T>, rank: T -> int) {
    items == [] || (AtLeast(rank(items[0]), multiset(items[1..]), rank) && Ascending(items[1..], rank))
  }

  lemma {:induction false} InsertedHolds<T>(item: T, items: seq<T>, rank: T -> int)
    ensures multiset(InsertedBy(item, items, rank)) == multiset(items) + multiset{item}
  {
    if items == [] || rank(item) <= rank(items[0]) {
      assert InsertedBy(item, items, rank) == [item] + items;
    } else {
      InsertedHolds(item, items[1..], rank);
      assert items == [items[0]] + items[1..];
    }
  }

  lemma {:induction false} InsertedAscends<T(!new)>(item: T, items: seq<T>, rank: T -> int)
    requires Ascending(items, rank)
    ensures Ascending(InsertedBy(item, items, rank), rank)
  {
    if items == [] || rank(item) <= rank(items[0]) {
      assert ([item] + items)[1..] == items;
      assert items != [] ==> items == [items[0]] + items[1..];
    } else {
      var rest := InsertedBy(item, items[1..], rank);
      InsertedAscends(item, items[1..], rank);
      InsertedHolds(item, items[1..], rank);
      assert InsertedBy(item, items, rank)[1..] == rest;
    }
  }

  lemma NothingAscends<T(!new)>(rank: T -> int)
    ensures Ascending([], rank)
  {
  }

  lemma {:induction false} SortedKeeps<T(!new)>(items: seq<T>, rank: T -> int)
    ensures Ascending(SortedBy(items, rank), rank)
    ensures multiset(SortedBy(items, rank)) == multiset(items)
  {
    NothingAscends(rank);
    hide Ascending, InsertedBy;
    if items != [] {
      SortedKeeps(items[1..], rank);
      InsertedAscends(items[0], SortedBy(items[1..], rank), rank);
      InsertedHolds(items[0], SortedBy(items[1..], rank), rank);
      assert items == [items[0]] + items[1..];
    }
  }

  /** Items of one rank are one item. */
  ghost predicate Ranked<T(!new)>(items: multiset<T>, rank: T -> int) {
    forall a, b :: a in items && b in items && rank(a) == rank(b) ==> a == b
  }

  lemma FirstIsLeast<T(!new)>(items: seq<T>, rank: T -> int)
    requires items != [] && Ascending(items, rank)
    ensures multiset(items) == multiset{items[0]} + multiset(items[1..])
    ensures AtLeast(rank(items[0]), multiset(items), rank)
  {
    assert items == [items[0]] + items[1..];
  }

  lemma FirstsAgree<T(!new)>(left: seq<T>, right: seq<T>, rank: T -> int)
    requires left != [] && right != [] && Ascending(left, rank) && Ascending(right, rank)
    requires multiset(left) == multiset(right) && Ranked(multiset(left), rank)
    ensures left[0] == right[0]
    ensures multiset(left[1..]) == multiset(right[1..]) && Ranked(multiset(left[1..]), rank)
  {
    FirstIsLeast(left, rank);
    FirstIsLeast(right, rank);
    assert left[0] in multiset(right) && right[0] in multiset(left);
    assert left[0] == right[0];
    hide AtLeast, Ascending;
    assert forall item :: item in multiset(left[1..]) ==> item in multiset(left);
    assert multiset(left[1..]) == multiset(left) - multiset{left[0]};
    assert multiset(right[1..]) == multiset(right) - multiset{right[0]};
  }

  lemma {:induction false} AscendingIsUnique<T(!new)>(left: seq<T>, right: seq<T>, rank: T -> int)
    requires Ascending(left, rank) && Ascending(right, rank)
    requires multiset(left) == multiset(right) && Ranked(multiset(left), rank)
    ensures left == right
  {
    assert |left| == |multiset(left)| && |right| == |multiset(right)|;
    if left != [] {
      hide Ranked, AtLeast;
      FirstsAgree(left, right, rank);
      AscendingIsUnique(left[1..], right[1..], rank);
      assert left == [left[0]] + left[1..] && right == [right[0]] + right[1..];
    }
  }

  lemma SortForgetsOrder<T(!new)>(items: seq<T>, others: seq<T>, rank: T -> int)
    requires multiset(items) == multiset(others) && Ranked(multiset(items), rank)
    ensures SortedBy(items, rank) == SortedBy(others, rank)
  {
    SortedKeeps(items, rank);
    SortedKeeps(others, rank);
    AscendingIsUnique(SortedBy(items, rank), SortedBy(others, rank), rank);
  }

  lemma {:induction false} TwoInserts<T>(one: T, two: T, items: seq<T>, rank: T -> int)
    requires one != two && rank(one) == rank(two)
    ensures InsertedBy(one, InsertedBy(two, items, rank), rank) != InsertedBy(two, InsertedBy(one, items, rank), rank)
  {
    if items == [] || rank(one) <= rank(items[0]) {
      assert InsertedBy(one, [two] + items, rank)[0] == one;
      assert InsertedBy(two, [one] + items, rank)[0] == two;
    } else {
      var first, rest := items[0], items[1..];
      TwoInserts(one, two, rest, rank);
      assert InsertedBy(one, [first] + InsertedBy(two, rest, rank), rank)[1..]
          == InsertedBy(one, InsertedBy(two, rest, rank), rank);
      assert InsertedBy(two, [first] + InsertedBy(one, rest, rank), rank)[1..]
          == InsertedBy(two, InsertedBy(one, rest, rank), rank);
    }
  }

  /** Two different items of one rank keep the order they came in. */
  lemma SortShowsOrder<T>(one: T, two: T, items: seq<T>, rank: T -> int)
    requires one != two && rank(one) == rank(two)
    ensures SortedBy([one, two] + items, rank) != SortedBy([two, one] + items, rank)
  {
    TwoInserts(one, two, SortedBy(items, rank), rank);
    assert ([one, two] + items)[1..] == [two] + items && ([two] + items)[1..] == items;
    assert ([two, one] + items)[1..] == [one] + items && ([one] + items)[1..] == items;
  }

  /** The items without those two. */
  function OtherThan<T>(items: seq<T>, i: nat, j: nat): (rest: seq<T>)
    requires i < j < |items|
    ensures multiset([items[i], items[j]] + rest) == multiset(items)
    ensures multiset([items[j], items[i]] + rest) == multiset(items)
  {
    assert items == items[..i] + [items[i]] + items[i + 1..j] + [items[j]] + items[j + 1..];
    items[..i] + items[i + 1..j] + items[j + 1..]
  }

  // ---- Citations by run ------------------------------------------------------------

  function IndexOf(citation: Citation): int {
    citation.index
  }

  function RunIdOf(run: Run): int {
    run.runId
  }

  function CitationsOf(citations: seq<Citation>, runId: RunId): seq<Citation> {
    if citations == [] then []
    else
      var front, last := citations[..|citations| - 1], citations[|citations| - 1];
      CitationsOf(front, runId) + if last.runId == runId then [last] else []
  }

  /** The citations of a run in the order of their indexes. */
  function GroupOf(citations: seq<Citation>, runId: RunId): seq<Citation> {
    SortedBy(CitationsOf(citations, runId), IndexOf)
  }

  function At(grouped: map<RunId, seq<Citation>>, runId: RunId): seq<Citation> {
    if runId in grouped then grouped[runId] else []
  }

  method GroupCitations(citations: seq<Citation>) returns (grouped: map<RunId, seq<Citation>>)
    ensures forall runId :: At(grouped, runId) == GroupOf(citations, runId)
  {
    grouped := map[];
    assert citations[..0] == [] && citations[..|citations|] == citations;
    for i := 0 to |citations|
      invariant forall runId :: At(grouped, runId) == CitationsOf(citations[..i], runId)
    {
      var citation := citations[i];
      assert citations[..i + 1][..i] == citations[..i];
      grouped := grouped[citation.runId := At(grouped, citation.runId) + [citation]];
    }
    grouped := SortValues(grouped);
  }

  /** Each list is sorted in its place. */
  method SortValues(lists: map<RunId, seq<Citation>>) returns (grouped: map<RunId, seq<Citation>>)
    ensures forall runId :: At(grouped, runId) == SortedBy(At(lists, runId), IndexOf)
  {
    grouped := lists;
    var remaining := grouped.Keys;
    while remaining != {}
      invariant grouped.Keys == lists.Keys && remaining <= lists.Keys
      invariant forall runId :: runId in lists ==>
        grouped[runId] == if runId in remaining then lists[runId] else SortedBy(lists[runId], IndexOf)
      decreases |remaining|
    {
      var runId :| runId in remaining;
      grouped := grouped[runId := SortedBy(grouped[runId], IndexOf)];
      remaining := remaining - {runId};
    }
  }

  lemma {:induction false} CitationsOfCounts(citations: seq<Citation>, runId: RunId, citation: Citation)
    ensures multiset(CitationsOf(citations, runId))[citation] ==
            if citation.runId == runId then multiset(citations)[citation] else 0
  {
    if citations != [] {
      CitationsOfCounts(citations[..|citations| - 1], runId, citation);
      assert citations == citations[..|citations| - 1] + [citations[|citations| - 1]];
    }
  }

  /** Grouping loses, invents and moves no citation: each stands in the group of its
      own run as often as it was given, and every group is sorted. */
  lemma GroupsConserve(citations: seq<Citation>, runId: RunId, citation: Citation)
    ensures
      var group := GroupOf(citations, runId);
      && Ascending(group, IndexOf)
      && multiset(group)[citation] == if citation.runId == runId then multiset(citations)[citation] else 0
  {
    SortedKeeps(CitationsOf(citations, runId), IndexOf);
    CitationsOfCounts(citations, runId, citation);
  }

  // ---- The fingerprint ----------------------------------------------------------------

  /** What is hashed: the runs in the order of their ids, each with its citations. */
  function Identity(runs: seq<Run>, citations: seq<Citation>): seq<Planned> {
    WithCitations(SortedBy(runs, RunIdOf), citations)
  }

  function PlanOf(run: Run, citations: seq<Citation>): Planned {
    Planned(run, GroupOf(citations, run.runId))
  }

  function WithCitations(runs: seq<Run>, citations: seq<Citation>): (planned: seq<Planned>)
    ensures |planned| == |runs|
    ensures forall i :: 0 <= i < |runs| ==> planned[i] == PlanOf(runs[i], citations)
  {
    if runs == [] then [] else [PlanOf(runs[0], citations)] + WithCitations(runs[1..], citations)
  }

  /** Runs with one id are one run. */
  ghost predicate OneRunEach(runs: seq<Run>) {
    forall i, j :: 0 <= i < j < |runs| && runs[i].runId == runs[j].runId ==> runs[i] == runs[j]
  }

  ghost predicate Listed(runs: seq<Run>, runId: RunId) {
    exists i :: 0 <= i < |runs| && runs[i].runId == runId
  }

  /** Citations of a listed run with one index are one citation. */
  ghost predicate OneCitationEach(runs: seq<Run>, citations: seq<Citation>) {
    forall i, j :: 0 <= i < j < |citations| && Listed(runs, citations[i].runId) && SamePlace(citations[i], citations[j])
      ==> citations[i] == citations[j]
  }

  predicate SamePlace(one: Citation, two: Citation) {
    one.runId == two.runId && one.index == two.index
  }

  /** Whatever order the database gives runs and citations in, the same is hashed. */
  ghost predicate ForgetsOrder(runs: seq<Run>, citations: seq<Citation>) {
    forall otherRuns, others :: multiset(otherRuns) == multiset(runs) && multiset(others) == multiset(citations) ==>
      Identity(otherRuns, others) == Identity(runs, citations)
  }

  lemma RunsAreRanked(runs: seq<Run>)
    requires OneRunEach(runs)
    ensures Ranked(multiset(runs), RunIdOf)
  {
    forall a, b | a in multiset(runs) && b in multiset(runs) && RunIdOf(a) == RunIdOf(b) ensures a == b {
      var i :| 0 <= i < |runs| && runs[i] == a;
      var j :| 0 <= j < |runs| && runs[j] == b;
    }
  }

  lemma GroupIsRanked(runs: seq<Run>, citations: seq<Citation>, runId: RunId)
    requires OneCitationEach(runs, citations) && Listed(runs, runId)
    ensures Ranked(multiset(CitationsOf(citations, runId)), IndexOf)
  {
    var group := multiset(CitationsOf(citations, runId));
    forall a, b | a in group && b in group && IndexOf(a) == IndexOf(b) ensures a == b {
      CitationsOfCounts(citations, runId, a);
      CitationsOfCounts(citations, runId, b);
      assert a in multiset(citations) && b in multiset(citations);
      var i :| 0 <= i < |citations| && citations[i] == a;
      var j :| 0 <= j < |citations| && citations[j] == b;
      assert SamePlace(citations[i], citations[j]) && SamePlace(citations[j], citations[i]);
    }
  }

  lemma SortedIsListed(runs: seq<Run>, i: nat)
    requires i < |SortedBy(runs, RunIdOf)|
    ensures Listed(runs, SortedBy(runs, RunIdOf)[i].runId)
  {
    var sorted := SortedBy(runs, RunIdOf);
    SortedKeeps(runs, RunIdOf);
    assert sorted[i] in multiset(sorted) && sorted[i] in multiset(runs);
    var k :| 0 <= k < |runs| && runs[k] == sorted[i];
  }

  /** The order does not show when no two runs share an id and no two citations of a
      listed run share an index, equal ones aside. */
  lemma FingerprintForgetsOrder(
    runs: seq<Run>, otherRuns: seq<Run>, citations: seq<Citation>, others: seq<Citation>)
    requires multiset(otherRuns) == multiset(runs) && OneRunEach(runs)
    requires multiset(others) == multiset(citations) && OneCitationEach(runs, citations)
    ensures Identity(otherRuns, others) == Identity(runs, citations)
  {
    var sorted := SortedBy(runs, RunIdOf);
    RunsAreRanked(runs);
    SortForgetsOrder(runs, otherRuns, RunIdOf);
    forall i | 0 <= i < |sorted| ensures PlanOf(sorted[i], others) == PlanOf(sorted[i], citations) {
      var runId := sorted[i].runId;
      SortedIsListed(runs, i);
      GroupIsRanked(runs, citations, runId);
      SameGroups(citations, others, runId);
      SortForgetsOrder(CitationsOf(citations, runId), CitationsOf(others, runId), IndexOf);
    }
    assert Identity(otherRuns, others) == Identity(runs, citations);
  }

  lemma SameGroups(citations: seq<Citation>, others: seq<Citation>, runId: RunId)
    requires multiset(citations) == multiset(others)
    ensures multiset(CitationsOf(citations, runId)) == multiset(CitationsOf(others, runId))
  {
    forall citation
      ensures multiset(CitationsOf(citations, runId))[citation] == multiset(CitationsOf(others, runId))[citation]
    {
      CitationsOfCounts(citations, runId, citation);
      CitationsOfCounts(others, runId, citation);
    }
  }

  lemma {:induction false} CitationsOfJoin(front: seq<Citation>, back: seq<Citation>, runId: RunId)
    ensures CitationsOf(front + back, runId) == CitationsOf(front, runId) + CitationsOf(back, runId)
  {
    if back == [] {
      assert front + back == front;
    } else {
      var shorter := back[..|back| - 1];
      CitationsOfJoin(front, shorter, runId);
      assert (front + back)[..|front + back| - 1] == front + shorter;
    }
  }

  lemma PairStandsFirst(one: Citation, two: Citation, rest: seq<Citation>)
    requires one.runId == two.runId
    ensures CitationsOf([one, two] + rest, one.runId) == [one, two] + CitationsOf(rest, one.runId)
  {
    CitationsOfJoin([one, two], rest, one.runId);
    assert [one, two][..1] == [one] && [one][..0] == [];
    assert CitationsOf([one], one.runId) == [one];
    assert CitationsOf([one, two], one.runId) == [one, two];
  }

  /** Two different citations of a listed run with one index show their order. */
  lemma RepeatedIndexShows(runs: seq<Run>, one: Citation, two: Citation, rest: seq<Citation>)
    requires Listed(runs, one.runId) && SamePlace(one, two) && one != two
    ensures Identity(runs, [one, two] + rest) != Identity(runs, [two, one] + rest)
  {
    var sorted := SortedBy(runs, RunIdOf);
    var k :| 0 <= k < |runs| && runs[k].runId == one.runId;
    SortedKeeps(runs, RunIdOf);
    assert runs[k] in multiset(runs) && runs[k] in multiset(sorted);
    var i :| 0 <= i < |sorted| && sorted[i] == runs[k];
    PairStandsFirst(one, two, rest);
    PairStandsFirst(two, one, rest);
    SortShowsOrder(one, two, CitationsOf(rest, one.runId), IndexOf);
    assert Identity(runs, [one, two] + rest)[i] != Identity(runs, [two, one] + rest)[i];
  }

  /** Two different runs with one id show theirs. */
  lemma RepeatedRunShows(one: Run, two: Run, rest: seq<Run>, citations: seq<Citation>)
    requires one.runId == two.runId && one != two
    ensures Identity([one, two] + rest, citations) != Identity([two, one] + rest, citations)
  {
    SortShowsOrder(one, two, rest, RunIdOf);
    var left, right := SortedBy([one, two] + rest, RunIdOf), SortedBy([two, one] + rest, RunIdOf);
    if |left| == |right| {
      var i :| 0 <= i < |left| && left[i] != right[i];
      assert Identity([one, two] + rest, citations)[i] != Identity([two, one] + rest, citations)[i];
    }
  }

  lemma RunOrderShows(runs: seq<Run>, citations: seq<Citation>)
    requires !OneRunEach(runs)
    ensures !ForgetsOrder(runs, citations)
  {
    hide Identity;
    var i: nat, j: nat :| i < j < |runs| && runs[i].runId == runs[j].runId && runs[i] != runs[j];
    var rest := OtherThan(runs, i, j);
    RepeatedRunShows(runs[i], runs[j], rest, citations);
    OtherOrders(runs, citations, [runs[i], runs[j]] + rest, [runs[j], runs[i]] + rest, citations, citations);
  }

  lemma CitationOrderShows(runs: seq<Run>, citations: seq<Citation>)
    requires !OneCitationEach(runs, citations)
    ensures !ForgetsOrder(runs, citations)
  {
    hide Identity, Listed;
    var i: nat, j: nat :| i < j < |citations| && Listed(runs, citations[i].runId)
                       && SamePlace(citations[i], citations[j]) && citations[i] != citations[j];
    var one, two, rest := citations[i], citations[j], OtherThan(citations, i, j);
    RepeatedIndexShows(runs, one, two, rest);
    OtherOrders(runs, citations, runs, runs, [one, two] + rest, [two, one] + rest);
  }

  lemma OtherOrders(
    runs: seq<Run>, citations: seq<Citation>, left: seq<Run>, right: seq<Run>, some: seq<Citation>, others: seq<Citation>)
    requires multiset(left) == multiset(runs) && multiset(right) == multiset(runs)
    requires multiset(some) == multiset(citations) && multiset(others) == multiset(citations)
    ensures ForgetsOrder(runs, citations) ==> Identity(left, some) == Identity(right, others)
  {
    hide Identity;
  }

  /** The order in which the database gives runs and citations is forgotten if and only
      if runs with one id are one run and citations of a listed run with one index are
      one citation. */
  lemma FingerprintIsExact(runs: seq<Run>, citations: seq<Citation>)
    ensures ForgetsOrder(runs, citations) <==> OneRunEach(runs) && OneCitationEach(runs, citations)
  {
    hide Identity, OneRunEach, OneCitationEach;
    if !OneRunEach(runs) {
      RunOrderShows(runs, citations);
    } else if !OneCitationEach(runs, citations) {
      CitationOrderShows(runs, citations);
    } else {
      forall otherRuns, others | multiset(otherRuns) == multiset(runs) && multiset(others) == multiset(citations)
        ensures Identity(otherRuns, others) == Identity(runs, citations)
      {
        FingerprintForgetsOrder(runs, otherRuns, citations, others);
      }
    }
  }

  // ---- Sets of ids -----------------------------------------------------------------------

  ghost predicate Distinct(ids: seq<RunId>) {
    forall i, j :: 0 <= i < j < |ids| ==> ids[i] != ids[j]
  }

  function Ids(ids: seq<RunId>): set<RunId> {
    set id | id in ids
  }

  lemma {:induction false} DistinctBySize(ids: seq<RunId>)
    ensures |Ids(ids)| <= |ids|
    ensures |Ids(ids)| == |ids| <==> Distinct(ids)
  {
    if ids == [] {
      assert Ids(ids) == {};
    } else {
      var front, last := ids[..|ids| - 1], ids[|ids| - 1];
      DistinctBySize(front);
      assert ids == front + [last];
      assert Ids(ids) == Ids(front) + {last};
      assert last in front <==> exists i :: 0 <= i < |front| && ids[i] == last;
    }
  }

  lemma {:induction false} SubsetOfSameSize(small: set<RunId>, large: set<RunId>)
    requires small <= large
    ensures |small| <= |large| && (|small| == |large| <==> small == large)
  {
    assert large == small + (large - small);
  }

  function RunIds(runs: seq<Run>): (ids: seq<RunId>)
    ensures |ids| == |runs| && forall i :: 0 <= i < |runs| ==> ids[i] == runs[i].runId
  {
    seq(|runs|, i requires 0 <= i < |runs| => runs[i].runId)
  }

  function RowIds(rows: seq<CohortRow>): (ids: seq<RunId>)
    ensures |ids| == |rows| && forall i :: 0 <= i < |rows| ==> ids[i] == rows[i].runId
  {
    seq(|rows|, i requires 0 <= i < |rows| => rows[i].runId)
  }

  // ---- The filtered cohort ------------------------------------------------------------------

  predicate Approved(request: Request, row: CohortRow) {
    row.status == Some(Ready) || SourceFailure(request, row)
  }

  predicate SourceFailure(request: Request, row: CohortRow) {
    row.status == Some(Failed) && row.failureCode == request.failureCode
  }

  ghost predicate WellFormedCohort(cohort: seq<CohortRow>) {
    (forall i :: 0 <= i < |cohort| ==> cohort[i].wellFormed) && Distinct(RowIds(cohort))
  }

  /** The reviewed runs are the whole cohort for one brand; for the other they are
      current snapshots of the approved kind, and every failure of that kind was reviewed. */
  ghost predicate CohortFits(request: Request, cohort: seq<CohortRow>) {
    && WellFormedCohort(cohort)
    && if request.brand == StepFun then Ids(RowIds(cohort)) == Ids(request.runIds)
       else
         && (forall id :: id in request.runIds ==>
               exists i :: 0 <= i < |cohort| && cohort[i].runId == id && Approved(request, cohort[i]))
         && (forall i :: 0 <= i < |cohort| && SourceFailure(request, cohort[i]) ==> cohort[i].runId in request.runIds)
  }

  /** The rows by their run ids. */
  ghost predicate RowsById(cohort: seq<CohortRow>, byId: map<RunId, CohortRow>) {
    && byId.Keys == Ids(RowIds(cohort))
    && forall i :: 0 <= i < |cohort| ==> cohort[i].runId in byId && byId[cohort[i].runId] == cohort[i]
  }

  method IndexCohort(cohort: seq<CohortRow>) returns (byId: Option<map<RunId, CohortRow>>)
    ensures byId.Some? <==> WellFormedCohort(cohort)
    ensures byId.Some? ==> RowsById(cohort, byId.value)
  {
    var rows: map<RunId, CohortRow> := map[];
    ghost var ids := RowIds(cohort);
    for i := 0 to |cohort|
      invariant forall k :: 0 <= k < i ==> cohort[k].wellFormed
      invariant Distinct(ids[..i]) && rows.Keys == Ids(ids[..i])
      invariant forall k :: 0 <= k < i ==> cohort[k].runId in rows && rows[cohort[k].runId] == cohort[k]
    {
      var row := cohort[i];
      assert ids[i] == row.runId;
      if !row.wellFormed || row.runId in rows {
        return None;
      }
      assert ids[..i + 1] == ids[..i] + [row.runId];
      rows := rows[row.runId := row];
    }
    assert ids[..|cohort|] == ids;
    byId := Some(rows);
  }

  method AllApproved(request: Request, byId: map<RunId, CohortRow>) returns (ok: bool)
    ensures ok <==> forall id :: id in request.runIds ==> id in byId && Approved(request, byId[id])
  {
    ok := true;
    var remaining := Ids(request.runIds);
    while remaining != {} && ok
      invariant remaining <= Ids(request.runIds)
      invariant ok <==> forall id :: id in Ids(request.runIds) - remaining ==> id in byId && Approved(request, byId[id])
      decreases |remaining|
    {
      var id :| id in remaining;
      ok := id in byId && Approved(request, byId[id]);
      remaining := remaining - {id};
    }
  }

  method AssertFilteredCohort(request: Request, cohort: seq<CohortRow>) returns (ok: bool)
    ensures ok == CohortFits(request, cohort)
  {
    var byId := IndexCohort(cohort);
    if byId.None? {
      return false;
    }
    if request.brand == StepFun {
      var reviewedIds, filteredIds := Ids(request.runIds), byId.value.Keys;
      if filteredIds <= reviewedIds {
        SubsetOfSameSize(filteredIds, reviewedIds);
      }
      return |filteredIds| == |reviewedIds| && filteredIds <= reviewedIds;
    }
    ok := AllApproved(request, byId.value);
    RowsAreCohort(request, cohort, byId.value);
    hide Approved, SourceFailure, RowsById;
    ok := ok && forall i :: 0 <= i < |cohort| && SourceFailure(request, cohort[i]) ==> cohort[i].runId in request.runIds;
  }

  lemma RowsAreCohort(request: Request, cohort: seq<CohortRow>, byId: map<RunId, CohortRow>)
    requires RowsById(cohort, byId)
    ensures forall id :: id in byId && Approved(request, byId[id]) <==>
              exists i :: 0 <= i < |cohort| && cohort[i].runId == id && Approved(request, cohort[i])
  {
    hide Approved;
    forall id | id in byId ensures exists i :: 0 <= i < |cohort| && cohort[i].runId == id && cohort[i] == byId[id] {
      assert id in RowIds(cohort);
      var i :| 0 <= i < |cohort| && RowIds(cohort)[i] == id;
      assert cohort[i].runId == id;
    }
  }

  // ---- The plan --------------------------------------------------------------------------------

  predicate RunFits(request: Request, run: Run) {
    && run.brand == request.brand && run.promptBrand == run.brand && run.promptScopeId == run.scopeId
    && run.model in request.channels && run.succeeded && run.answered
    && run.observedAt.Some? && request.from <= run.observedAt.value < request.to
  }

  predicate CitationFits(run: Run, citation: Citation) {
    citation.promptId == run.promptId && citation.brand == run.brand && citation.model == run.model && citation.index >= 0
  }

  ghost predicate GroupFits(run: Run, group: seq<Citation>) {
    && (forall i :: 0 <= i < |group| ==> CitationFits(run, group[i]))
    && forall i, j :: 0 <= i < j < |group| ==> group[i].index != group[j].index
  }

  ghost predicate Fits(request: Request, run: Run, citations: seq<Citation>) {
    RunFits(request, run) && GroupFits(run, GroupOf(citations, run.runId))
  }

  method CheckCitations(run: Run, group: seq<Citation>) returns (ok: bool)
    ensures ok == GroupFits(run, group)
  {
    var indexes: set<int> := {};
    for i := 0 to |group|
      invariant GroupFits(run, group[..i])
      invariant forall index :: index in indexes <==> exists k :: 0 <= k < i && group[k].index == index
    {
      if !CitationFits(run, group[i]) || group[i].index in indexes {
        return false;
      }
      indexes := indexes + {group[i].index};
    }
    assert group[..|group|] == group;
    ok := true;
  }

  /** What a request must meet for its plan to be made. */
  ghost predicate Plannable(
    request: Request, runs: seq<Run>, citations: seq<Citation>, cohort: seq<CohortRow>, hash: seq<Planned> -> nat)
  {
    && |runs| == request.expectedRunCount
    && Distinct(RunIds(runs)) && Ids(RunIds(runs)) == Ids(request.runIds)
    && CohortFits(request, cohort)
    && (forall i :: 0 <= i < |runs| ==> Fits(request, runs[i], citations))
    && hash(Identity(runs, citations)) == request.expectedFingerprint
  }

  method BuildPlan(
    request: Request, runs: seq<Run>, citations: seq<Citation>, cohort: seq<CohortRow>, hash: seq<Planned> -> nat)
    returns (plan: Option<seq<Planned>>)
    ensures plan.Some? <==> Plannable(request, runs, citations, cohort, hash)
    ensures plan.Some? ==> plan.value == WithCitations(runs, citations)
  {
    hide CohortFits, Fits, Identity;
    if |runs| != request.expectedRunCount {
      return None;
    }
    var expectedIds, actualIds := Ids(request.runIds), Ids(RunIds(runs));
    DistinctBySize(RunIds(runs));
    if actualIds <= expectedIds {
      SubsetOfSameSize(actualIds, expectedIds);
    }
    if |actualIds| != |runs| || |actualIds| != |expectedIds| || !(actualIds <= expectedIds) {
      return None;
    }
    var fits := AssertFilteredCohort(request, cohort);
    if !fits {
      return None;
    }
    var planned := PlanRuns(request, runs, citations);
    if planned.None? || hash(Identity(runs, citations)) != request.expectedFingerprint {
      return None;
    }
    plan := planned;
  }

  method PlanRuns(request: Request, runs: seq<Run>, citations: seq<Citation>) returns (planned: Option<seq<Planned>>)
    ensures planned.Some? <==> forall i :: 0 <= i < |runs| ==> Fits(request, runs[i], citations)
    ensures planned.Some? ==> planned.value == WithCitations(runs, citations)
  {
    hide Fits, PlanOf, WithCitations, GroupOf, At;
    var citationsByRun := GroupCitations(citations);
    var done: seq<Planned> := [];
    for i := 0 to |runs|
      invariant |done| == i && forall k :: 0 <= k < i ==> done[k] == PlanOf(runs[k], citations)
      invariant forall k :: 0 <= k < i ==> Fits(request, runs[k], citations)
    {
      var plan := PlanRun(request, runs[i], citationsByRun, citations);
      if plan.None? {
        return None;
      }
      done := done + [plan.value];
    }
    planned := Some(done);
  }

  /** One run with its citations, when both meet the request. */
  method PlanRun(
    request: Request, run: Run, citationsByRun: map<RunId, seq<Citation>>, ghost citations: seq<Citation>)
    returns (plan: Option<Planned>)
    requires At(citationsByRun, run.runId) == GroupOf(citations, run.runId)
    ensures plan.Some? <==> Fits(request, run, citations)
    ensures plan.Some? ==> plan.value == PlanOf(run, citations)
  {
    hide RunFits, GroupFits, GroupOf, At;
    if !RunFits(request, run) {
      return None;
    }
    var group := At(citationsByRun, run.runId);
    var fits := CheckCitations(run, group);
    if !fits {
      return None;
    }
    plan := Some(Planned(run, group));
  }

  lemma {:induction false} SameIdsAreAPermutation(ids: seq<RunId>, others: seq<RunId>)
    requires Distinct(ids) && Distinct(others) && Ids(ids) == Ids(others)
    ensures multiset(ids) == multiset(others)
  {
    forall id ensures multiset(ids)[id] == multiset(others)[id] {
      CountInDistinct(ids, id);
      CountInDistinct(others, id);
      assert id in ids <==> id in Ids(ids);
      assert id in others <==> id in Ids(others);
    }
  }

  lemma {:induction false} CountInDistinct(ids: seq<RunId>, id: RunId)
    requires Distinct(ids)
    ensures multiset(ids)[id] == if id in ids then 1 else 0
  {
    if ids != [] {
      CountInDistinct(ids[1..], id);
      assert ids == [ids[0]] + ids[1..];
      assert forall k :: 0 <= k < |ids[1..]| ==> ids[1..][k] == ids[k + 1];
    }
  }

  lemma {:induction false} HeldTwice(citations: seq<Citation>, citation: Citation)
    requires multiset(citations)[citation] > 1
    ensures exists i, j :: 0 <= i < j < |citations| && citations[i] == citation && citations[j] == citation
  {
    var front, last := citations[..|citations| - 1], citations[|citations| - 1];
    assert citations == front + [last];
    if last == citation {
      assert citation in front;
      var i :| 0 <= i < |front| && front[i] == citation;
      assert citations[i] == citation;
    } else {
      HeldTwice(front, citation);
      var i, j :| 0 <= i < j < |front| && front[i] == citation && front[j] == citation;
      assert citations[i] == citation && citations[j] == citation;
    }
  }

  /** No other citation of the list has the place of one. */
  lemma PlacesDiffer(group: seq<Citation>)
    ensures
      (forall i, j :: 0 <= i < j < |group| ==> group[i].index != group[j].index)
      <==> forall c, d :: c in multiset(group) && d in multiset(group) && c.index == d.index ==>
             c == d && multiset(group)[c] == 1
  {
    if forall i, j :: 0 <= i < j < |group| ==> group[i].index != group[j].index {
      forall c, d | c in multiset(group) && d in multiset(group) && c.index == d.index
        ensures c == d && multiset(group)[c] == 1
      {
        var i :| 0 <= i < |group| && group[i] == c;
        var j :| 0 <= j < |group| && group[j] == d;
        if multiset(group)[c] > 1 {
          HeldTwice(group, c);
        }
      }
    } else {
      var i, j :| 0 <= i < j < |group| && group[i].index == group[j].index;
      if group[i] == group[j] {
        assert multiset([group[i], group[j]] + OtherThan(group, i, j))[group[i]] > 1;
      }
      assert group[i] in multiset(group) && group[j] in multiset(group);
    }
  }

  lemma GroupHasItsOwn(citations: seq<Citation>, runId: RunId)
    ensures forall c :: multiset(GroupOf(citations, runId))[c] ==
                        if c.runId == runId then multiset(citations)[c] else 0
  {
    hide GroupOf;
    forall c ensures multiset(GroupOf(citations, runId))[c] ==
                     if c.runId == runId then multiset(citations)[c] else 0
    {
      GroupsConserve(citations, runId, c);
    }
  }

  lemma RunFitsIsExact(request: Request, run: Run)
    ensures
      RunFits(request, run) <==>
      && request.brand == run.brand == run.promptBrand && run.scopeId == run.promptScopeId
      && run.model in request.channels && run.succeeded && run.answered
      && exists at: int :: run.observedAt == Some(at) && !(at < request.from) && !(at >= request.to)
  {
  }

  /** Every citation of the run is of its prompt, brand and model, with a place. */
  ghost predicate Matched(citations: multiset<Citation>, run: Run) {
    forall c :: c in citations && c.runId == run.runId ==>
      (c.promptId, c.brand, c.model) == (run.promptId, run.brand, run.model) && !(c.index < 0)
  }

  /** No two citations of the run have one place. */
  ghost predicate Placed(citations: multiset<Citation>, runId: RunId) {
    forall c, d :: c in citations && d in citations && c.runId == runId == d.runId && c.index == d.index ==>
      c == d && citations[c] == 1
  }

  lemma GroupMatches(run: Run, group: seq<Citation>)
    requires forall c :: c in multiset(group) ==> c.runId == run.runId
    ensures (forall i :: 0 <= i < |group| ==> CitationFits(run, group[i])) <==> Matched(multiset(group), run)
  {
    if forall i :: 0 <= i < |group| ==> CitationFits(run, group[i]) {
      forall c | c in multiset(group) ensures CitationFits(run, c) {
        var i :| 0 <= i < |group| && group[i] == c;
      }
    }
  }

  /** What a planned run has to be, on the lists as they were read: an answered success
      of the reviewed brand in its window and channels, all of whose citations are of its
      own prompt, brand and model, no two of them at one place. */
  lemma FitsIsExact(request: Request, run: Run, citations: seq<Citation>)
    ensures
      Fits(request, run, citations) <==>
      && request.brand == run.brand == run.promptBrand && run.scopeId == run.promptScopeId
      && run.model in request.channels && run.succeeded && run.answered
      && (exists at: int :: run.observedAt == Some(at) && !(at < request.from) && !(at >= request.to))
      && Matched(multiset(citations), run) && Placed(multiset(citations), run.runId)
  {
    RunFitsIsExact(request, run);
    hide RunFits;
    var group := GroupOf(citations, run.runId);
    GroupHasItsOwn(citations, run.runId);
    hide GroupOf;
    assert forall c :: c in multiset(group) <==> c in multiset(citations) && c.runId == run.runId;
    GroupMatches(run, group);
    hide CitationFits;
    PlacesDiffer(group);
  }

  /** A plan resolves exactly the reviewed runs, each once, with all of its citations
      and nobody else's. */
  lemma PlanIsTheReviewedRuns(
    request: Request, runs: seq<Run>, citations: seq<Citation>, cohort: seq<CohortRow>, hash: seq<Planned> -> nat,
    i: nat, citation: Citation)
    requires Plannable(request, runs, citations, cohort, hash) && Distinct(request.runIds) && i < |runs|
    ensures multiset(RunIds(runs)) == multiset(request.runIds)
    ensures
      var planned := WithCitations(runs, citations)[i];
      && planned.run == runs[i]
      && multiset(planned.citations)[citation] ==
           if citation.runId == runs[i].runId then multiset(citations)[citation] else 0
  {
    SameIdsAreAPermutation(RunIds(runs), request.runIds);
    GroupsConserve(citations, runs[i].runId, citation);
  }

  // ---- What to do with each run ----------------------------------------------------------

  /** The last planned run with that id, as a map built from the list keeps it. */
  function RunOf(runs: seq<Planned>, runId: RunId): Option<Run> {
    if runs == [] then None
    else
      var last := runs[|runs| - 1].run;
      if last.runId == runId then Some(last) else RunOf(runs[..|runs| - 1], runId)
  }

  function SnapshotOf(snapshots: seq<Snapshot>, runId: RunId): Option<Snapshot> {
    if snapshots == [] then None
    else
      var last := snapshots[|snapshots| - 1];
      if last.runId == runId then Some(last) else SnapshotOf(snapshots[..|snapshots| - 1], runId)
  }

  predicate Describes(snapshot: Snapshot, run: Option<Run>) {
    && run.Some? && snapshot.brand == run.value.brand && snapshot.promptId == run.value.promptId
    && snapshot.scopeId == run.value.scopeId
  }

  /** The snapshots are of planned runs, at most one each. */
  ghost predicate Consistent(runs: seq<Planned>, snapshots: seq<Snapshot>) {
    && (forall i :: 0 <= i < |snapshots| ==> Describes(snapshots[i], RunOf(runs, snapshots[i].runId)))
    && forall i, j :: 0 <= i < j < |snapshots| ==> snapshots[i].runId != snapshots[j].runId
  }

  /** The action for one run; nothing where its snapshot is outside the reviewed cohort. */
  function KindFor(request: Request, snapshot: Option<Snapshot>): Option<ActionKind> {
    if request.brand == Ppio then
      if snapshot.None? then None
      else if snapshot.value.status == Ready then Some(AlreadyReady)
      else if snapshot.value.status != Failed || snapshot.value.failureCode != request.failureCode then None
      else Some(Rebuild)
    else if snapshot.Some? && snapshot.value.status == Ready then Some(AlreadyReady)
    else if snapshot.Some? && snapshot.value.status == Pending then Some(StillPending)
    else Some(Rebuild)
  }

  ghost predicate Classifiable(request: Request, runs: seq<Planned>, snapshots: seq<Snapshot>) {
    && Consistent(runs, snapshots)
    && forall i :: 0 <= i < |runs| ==> KindFor(request, SnapshotOf(snapshots, runs[i].run.runId)).Some?
  }

  ghost predicate ClassifiedAs(request: Request, runs: seq<Planned>, snapshots: seq<Snapshot>, actions: seq<Action>) {
    && |actions| == |runs|
    && forall i :: 0 <= i < |runs| ==>
         && actions[i].run == runs[i]
         && Some(actions[i].kind) == KindFor(request, SnapshotOf(snapshots, runs[i].run.runId))
  }

  method Classify(request: Request, runs: seq<Planned>, snapshots: seq<Snapshot>) returns (actions: Option<seq<Action>>)
    ensures actions.Some? <==> Classifiable(request, runs, snapshots)
    ensures actions.Some? ==> ClassifiedAs(request, runs, snapshots, actions.value)
  {
    hide KindFor, SnapshotOf, Consistent;
    var snapshotByRunId := IndexSnapshots(runs, snapshots);
    if snapshotByRunId.None? {
      return None;
    }
    var done: seq<Action> := [];
    for i := 0 to |runs|
      invariant |done| == i
      invariant forall k :: 0 <= k < i ==>
        && done[k].run == runs[k]
        && Some(done[k].kind) == KindFor(request, SnapshotOf(snapshots, runs[k].run.runId))
    {
      var runId := runs[i].run.runId;
      var snapshot := if runId in snapshotByRunId.value then Some(snapshotByRunId.value[runId]) else None;
      var kind := KindFor(request, snapshot);
      if kind.None? {
        return None;
      }
      done := done + [Action(runs[i], kind.value)];
    }
    actions := Some(done);
  }

  method IndexSnapshots(runs: seq<Planned>, snapshots: seq<Snapshot>) returns (byRun: Option<map<RunId, Snapshot>>)
    ensures byRun.Some? <==> Consistent(runs, snapshots)
    ensures byRun.Some? ==> forall runId ::
              SnapshotOf(snapshots, runId) == if runId in byRun.value then Some(byRun.value[runId]) else None
  {
    hide RunOf, Describes;
    var runById := IndexRuns(runs);
    var rows: map<RunId, Snapshot> := map[];
    assert snapshots[..0] == [] && snapshots[..|snapshots|] == snapshots;
    for i := 0 to |snapshots|
      invariant Consistent(runs, snapshots[..i])
      invariant forall runId :: SnapshotOf(snapshots[..i], runId) == if runId in rows then Some(rows[runId]) else None
      invariant forall runId :: runId in rows <==> exists k :: 0 <= k < i && snapshots[k].runId == runId
    {
      var snapshot := snapshots[i];
      assert snapshots[..i + 1][..i] == snapshots[..i];
      var run := if snapshot.runId in runById then Some(runById[snapshot.runId]) else None;
      if !Describes(snapshot, run) || snapshot.runId in rows {
        return None;
      }
      rows := rows[snapshot.runId := snapshot];
    }
    byRun := Some(rows);
  }

  method IndexRuns(runs: seq<Planned>) returns (byId: map<RunId, Run>)
    ensures forall runId :: RunOf(runs, runId) == if runId in byId then Some(byId[runId]) else None
  {
    byId := map[];
    assert runs[..0] == [] && runs[..|runs|] == runs;
    for i := 0 to |runs|
      invariant forall runId :: RunOf(runs[..i], runId) == if runId in byId then Some(byId[runId]) else None
    {
      assert runs[..i + 1][..i] == runs[..i];
      byId := byId[runs[i].run.runId := runs[i].run];
    }
  }

  // ---- What is rebuilt, by the list of snapshots ------------------------------------------

  /** The list has a snapshot of that run in that status. */
  ghost predicate Snapped(snapshots: seq<Snapshot>, runId: RunId, status: Status) {
    exists i :: 0 <= i < |snapshots| && snapshots[i].runId == runId && snapshots[i].status == status
  }

  /** The list has a snapshot of that run that failed as the request says. */
  ghost predicate SnappedFailing(snapshots: seq<Snapshot>, runId: RunId, code: Option<nat>) {
    exists i :: 0 <= i < |snapshots| && snapshots[i].runId == runId && snapshots[i].status == Failed
      && snapshots[i].failureCode == code
  }

  lemma {:induction false} SnapshotOfIsThe(snapshots: seq<Snapshot>, i: nat)
    requires i < |snapshots|
    requires forall j, k :: 0 <= j < k < |snapshots| ==> snapshots[j].runId != snapshots[k].runId
    ensures SnapshotOf(snapshots, snapshots[i].runId) == Some(snapshots[i])
  {
    if i < |snapshots| - 1 {
      SnapshotOfIsThe(snapshots[..|snapshots| - 1], i);
    }
  }

  lemma SnappedIsTheStatus(runs: seq<Planned>, snapshots: seq<Snapshot>, runId: RunId, code: Option<nat>)
    requires Consistent(runs, snapshots)
    ensures
      var snapshot := SnapshotOf(snapshots, runId);
      && (forall status :: Snapped(snapshots, runId, status) <==> snapshot.Some? && snapshot.value.status == status)
      && (SnappedFailing(snapshots, runId, code) <==>
            snapshot.Some? && snapshot.value.status == Failed && snapshot.value.failureCode == code)
  {
    hide Describes;
    SnapshotOfIn(snapshots, runId);
    if SnapshotOf(snapshots, runId).Some? {
      var i :| 0 <= i < |snapshots| && snapshots[i] == SnapshotOf(snapshots, runId).value;
    }
    forall i | 0 <= i < |snapshots| && snapshots[i].runId == runId
      ensures SnapshotOf(snapshots, runId) == Some(snapshots[i])
    {
      SnapshotOfIsThe(snapshots, i);
    }
  }

  /** For the one brand every run is rebuilt but those with a ready or a pending snapshot;
      for the other every run has to have a snapshot that is ready or failed as the
      request says, and exactly the failed ones are rebuilt. */
  lemma ActionsAreExact(
    request: Request, runs: seq<Planned>, snapshots: seq<Snapshot>, actions: seq<Action>, i: nat)
    requires Classifiable(request, runs, snapshots) && ClassifiedAs(request, runs, snapshots, actions) && i < |runs|
    ensures actions[i].run == runs[i]
    ensures
      var runId, kind := runs[i].run.runId, actions[i].kind;
      && (kind == AlreadyReady <==> Snapped(snapshots, runId, Ready))
      && (kind == StillPending <==> request.brand != Ppio && Snapped(snapshots, runId, Pending))
      && (kind == Rebuild <==>
            if request.brand == Ppio then SnappedFailing(snapshots, runId, request.failureCode)
            else !Snapped(snapshots, runId, Ready) && !Snapped(snapshots, runId, Pending))
  {
    hide Consistent, Snapped, SnappedFailing;
    SnappedIsTheStatus(runs, snapshots, runs[i].run.runId, request.failureCode);
  }

  lemma ClassifiableIsExact(request: Request, runs: seq<Planned>, snapshots: seq<Snapshot>)
    ensures Classifiable(request, runs, snapshots) <==>
            && Consistent(runs, snapshots)
            && (request.brand == Ppio ==>
                  forall i :: 0 <= i < |runs| ==>
                    || Snapped(snapshots, runs[i].run.runId, Ready)
                    || SnappedFailing(snapshots, runs[i].run.runId, request.failureCode))
  {
    hide Consistent, Snapped, SnappedFailing;
    if Consistent(runs, snapshots) {
      forall i | 0 <= i < |runs|
        ensures KindFor(request, SnapshotOf(snapshots, runs[i].run.runId)).Some? <==>
                (request.brand == Ppio ==>
                   Snapped(snapshots, runs[i].run.runId, Ready)
                   || SnappedFailing(snapshots, runs[i].run.runId, request.failureCode))
      {
        SnappedIsTheStatus(runs, snapshots, runs[i].run.runId, request.failureCode);
      }
    }
  }

  /** The snapshot is of a planned run, of its brand, prompt and scope. */
  ghost predicate DescribedIn(runs: seq<Planned>, snapshot: Snapshot) {
    exists k :: 0 <= k < |runs| && runs[k].run.runId == snapshot.runId
      && (runs[k].run.brand, runs[k].run.promptId, runs[k].run.scopeId)
      == (snapshot.brand, snapshot.promptId, snapshot.scopeId)
  }

  lemma DescribedIsDescribed(runs: seq<Planned>, snapshot: Snapshot)
    requires Distinct(PlannedIds(runs))
    ensures Describes(snapshot, RunOf(runs, snapshot.runId)) <==> DescribedIn(runs, snapshot)
  {
    RunOfIsThe(runs, snapshot.runId);
    hide RunOf, Distinct;
  }

  /** The snapshots are each of a planned run, of its brand, prompt and scope, and no run
      has two. */
  lemma ConsistentIsExact(runs: seq<Planned>, snapshots: seq<Snapshot>)
    requires Distinct(PlannedIds(runs))
    ensures
      Consistent(runs, snapshots) <==>
      && (forall i :: 0 <= i < |snapshots| ==> DescribedIn(runs, snapshots[i]))
      && forall i, j :: 0 <= i < j < |snapshots| ==> snapshots[i].runId != snapshots[j].runId
  {
    forall i | 0 <= i < |snapshots|
      ensures Describes(snapshots[i], RunOf(runs, snapshots[i].runId)) <==> DescribedIn(runs, snapshots[i])
    {
      DescribedIsDescribed(runs, snapshots[i]);
    }
    hide Describes, DescribedIn, RunOf, Distinct;
  }

  lemma {:induction false} RunOfIsThe(runs: seq<Planned>, runId: RunId)
    requires Distinct(PlannedIds(runs))
    ensures forall k :: 0 <= k < |runs| && runs[k].run.runId == runId ==> RunOf(runs, runId) == Some(runs[k].run)
    ensures RunOf(runs, runId).Some? ==> exists k :: 0 <= k < |runs| && runs[k].run == RunOf(runs, runId).value
    ensures RunOf(runs, runId).Some? ==> RunOf(runs, runId).value.runId == runId
  {
    if runs != [] {
      var front := runs[..|runs| - 1];
      assert forall i :: 0 <= i < |front| ==> PlannedIds(front)[i] == PlannedIds(runs)[i];
      RunOfIsThe(front, runId);
      assert PlannedIds(runs)[|runs| - 1] == runs[|runs| - 1].run.runId;
    }
  }

  /** For the brand whose failures are rebuilt, the review and the classification agree:
      a row is approved exactly when a snapshot in its state has an action, and it is a
      failure that has to be reviewed exactly when that action is to rebuild. */
  lemma ReviewedIsClassified(request: Request, row: CohortRow, snapshot: Snapshot)
    requires request.brand == Ppio
    requires row.status == Some(snapshot.status) && row.failureCode == snapshot.failureCode
    ensures Approved(request, row) <==> KindFor(request, Some(snapshot)).Some?
    ensures SourceFailure(request, row) <==> KindFor(request, Some(snapshot)) == Some(Rebuild)
    ensures row.status == Some(Ready) <==> KindFor(request, Some(snapshot)) == Some(AlreadyReady)
  {
  }

  // ---- The dry run ---------------------------------------------------------------------------

  /** The runs to rebuild, in order. */
  function Rebuilds(actions: seq<Action>): seq<Planned> {
    if actions == [] then []
    else
      var last := actions[|actions| - 1];
      Rebuilds(actions[..|actions| - 1]) + if last.kind == Rebuild then [last.run] else []
  }

  function Without(runs: seq<Planned>, existing: set<RunId>): (count: nat)
    ensures count <= |runs|
  {
    if runs == [] then 0
    else
      Without(runs[..|runs| - 1], existing) + if runs[|runs| - 1].run.runId in existing then 0 else 1
  }

  function Among(runs: seq<Planned>, existing: set<RunId>): nat {
    if runs == [] then 0
    else
      Among(runs[..|runs| - 1], existing) + if runs[|runs| - 1].run.runId in existing then 1 else 0
  }

  lemma {:induction false} AmongOrWithout(runs: seq<Planned>, existing: set<RunId>)
    ensures Among(runs, existing) + Without(runs, existing) == |runs|
  {
    if runs != [] {
      AmongOrWithout(runs[..|runs| - 1], existing);
    }
  }

  datatype Summary = Summary(existing: nat, wouldCreate: nat, wouldRebuild: nat)

  function SnapshotIds(snapshots: seq<Snapshot>): (ids: seq<RunId>)
    ensures |ids| == |snapshots| && forall i :: 0 <= i < |snapshots| ==> ids[i] == snapshots[i].runId
  {
    seq(|snapshots|, i requires 0 <= i < |snapshots| => snapshots[i].runId)
  }

  function Summarize(actions: seq<Action>, snapshots: seq<Snapshot>): Summary {
    var existingRunIds := Ids(SnapshotIds(snapshots));
    var rebuilds := Rebuilds(actions);
    Summary(|snapshots|, Without(rebuilds, existingRunIds), Among(rebuilds, existingRunIds))
  }

  lemma {:induction false} SnapshotOfIn(snapshots: seq<Snapshot>, runId: RunId)
    ensures SnapshotOf(snapshots, runId).Some? <==> runId in Ids(SnapshotIds(snapshots))
    ensures SnapshotOf(snapshots, runId).Some? ==>
              SnapshotOf(snapshots, runId).value in snapshots && SnapshotOf(snapshots, runId).value.runId == runId
  {
    if snapshots != [] {
      var front, last := snapshots[..|snapshots| - 1], snapshots[|snapshots| - 1];
      SnapshotOfIn(front, runId);
      assert SnapshotIds(snapshots) == SnapshotIds(front) + [last.runId];
    }
  }

  lemma WithoutOneMore(runs: seq<Planned>, run: Planned, existing: set<RunId>)
    ensures Without(runs + [run], existing) == Without(runs, existing) + if run.run.runId in existing then 0 else 1
  {
    assert (runs + [run])[..|runs|] == runs;
  }

  lemma LastIsClassified(request: Request, runs: seq<Planned>, snapshots: seq<Snapshot>, actions: seq<Action>)
    requires ClassifiedAs(request, runs, snapshots, actions) && runs != []
    ensures ClassifiedAs(request, runs[..|runs| - 1], snapshots, actions[..|actions| - 1])
    ensures
      var last, action := runs[|runs| - 1], actions[|actions| - 1];
      && action.run == last
      && (last.run.runId !in Ids(SnapshotIds(snapshots)) ==> action.kind == Rebuild)
  {
    hide SnapshotOf, Ids, SnapshotIds;
    SnapshotOfIn(snapshots, runs[|runs| - 1].run.runId);
  }

  /** Every run without a snapshot is to be rebuilt, so the rebuilt runs without one
      are all the runs without one. */
  lemma {:induction false} CreatedAreMissing(request: Request, runs: seq<Planned>, snapshots: seq<Snapshot>, actions: seq<Action>)
    requires ClassifiedAs(request, runs, snapshots, actions)
    ensures Without(Rebuilds(actions), Ids(SnapshotIds(snapshots))) == Without(runs, Ids(SnapshotIds(snapshots)))
  {
    var existing := Ids(SnapshotIds(snapshots));
    assert |actions| == |runs|;
    if runs != [] {
      hide ClassifiedAs, Ids, SnapshotIds;
      var frontActions, action := actions[..|actions| - 1], actions[|actions| - 1];
      LastIsClassified(request, runs, snapshots, actions);
      CreatedAreMissing(request, runs[..|runs| - 1], snapshots, frontActions);
      WithoutOneMore(Rebuilds(frontActions), action.run, existing);
      assert Rebuilds(frontActions) + [] == Rebuilds(frontActions);
    }
  }

  function PlannedIds(runs: seq<Planned>): (ids: seq<RunId>)
    ensures |ids| == |runs| && forall i :: 0 <= i < |runs| ==> ids[i] == runs[i].run.runId
  {
    seq(|runs|, i requires 0 <= i < |runs| => runs[i].run.runId)
  }

  lemma OneMoreId(ids: set<RunId>, id: RunId, existing: set<RunId>)
    requires id !in ids
    ensures |ids + {id} - existing| == |ids - existing| + if id in existing then 0 else 1
  {
    assert ids + {id} - existing == if id in existing then ids - existing else (ids - existing) + {id};
  }

  lemma IdsOfMore(ids: seq<RunId>, id: RunId)
    requires Distinct(ids + [id])
    ensures Ids(ids + [id]) == Ids(ids) + {id} && id !in Ids(ids) && Distinct(ids)
  {
    assert (ids + [id])[|ids|] == id;
    forall i | 0 <= i < |ids| ensures ids[i] != id {
      assert (ids + [id])[i] == ids[i];
    }
    forall i, j | 0 <= i < j < |ids| ensures ids[i] != ids[j] {
      assert (ids + [id])[i] == ids[i] && (ids + [id])[j] == ids[j];
    }
  }

  lemma {:induction false} MissingCount(runs: seq<Planned>, existing: set<RunId>)
    requires Distinct(PlannedIds(runs))
    ensures Without(runs, existing) == |Ids(PlannedIds(runs)) - existing|
  {
    if runs == [] {
      assert Ids(PlannedIds(runs)) - existing == {};
    } else {
      var front, last := runs[..|runs| - 1], runs[|runs| - 1].run.runId;
      assert PlannedIds(runs) == PlannedIds(front) + [last];
      hide PlannedIds, Ids, Distinct;
      IdsOfMore(PlannedIds(front), last);
      MissingCount(front, existing);
      OneMoreId(Ids(PlannedIds(front)), last, existing);
    }
  }

  lemma {:induction false} RunOfIn(runs: seq<Planned>, runId: RunId)
    ensures RunOf(runs, runId).Some? ==> runId in PlannedIds(runs)
  {
    if runs != [] {
      var front, last := runs[..|runs| - 1], runs[|runs| - 1].run.runId;
      RunOfIn(front, runId);
      assert PlannedIds(runs) == PlannedIds(front) + [last];
    }
  }

  lemma SnapshotsArePlanned(runs: seq<Planned>, snapshots: seq<Snapshot>)
    requires Consistent(runs, snapshots)
    ensures Distinct(SnapshotIds(snapshots)) && Ids(SnapshotIds(snapshots)) <= Ids(PlannedIds(runs))
  {
    hide Describes;
    forall id | id in SnapshotIds(snapshots) ensures id in PlannedIds(runs) {
      var i :| 0 <= i < |snapshots| && SnapshotIds(snapshots)[i] == id;
      assert RunOf(runs, snapshots[i].runId).Some? by {
        OnlyRunsAreDescribed(snapshots[i], RunOf(runs, snapshots[i].runId));
      }
      RunOfIn(runs, snapshots[i].runId);
    }
  }

  lemma OnlyRunsAreDescribed(snapshot: Snapshot, run: Option<Run>)
    ensures Describes(snapshot, run) ==> run.Some?
  {
  }

  /** The dry run accounts for every run: those with a snapshot and those to create
      make up the plan, and what would be created or rebuilt is what will be rebuilt. */
  lemma DryRunAddsUp(request: Request, runs: seq<Planned>, snapshots: seq<Snapshot>, actions: seq<Action>)
    requires Distinct(PlannedIds(runs))
    requires Classifiable(request, runs, snapshots) && ClassifiedAs(request, runs, snapshots, actions)
    ensures
      var summary := Summarize(actions, snapshots);
      && summary.existing + summary.wouldCreate == |runs|
      && summary.wouldCreate + summary.wouldRebuild == |Rebuilds(actions)|
  {
    hide Consistent, ClassifiedAs, KindFor, Distinct, Rebuilds, Without, Among, Ids, SnapshotIds, PlannedIds;
    var ids, existing := Ids(PlannedIds(runs)), Ids(SnapshotIds(snapshots));
    AmongOrWithout(Rebuilds(actions), existing);
    CreatedAreMissing(request, runs, snapshots, actions);
    MissingCount(runs, existing);
    SnapshotsArePlanned(runs, snapshots);
    DistinctBySize(PlannedIds(runs));
    DistinctBySize(SnapshotIds(snapshots));
    assert ids == existing + (ids - existing);
  }

  // ---- Running it --------------------------------------------------------------------------------

  datatype RebuildStatus = MadeReady | WasReady | RetryLater | RebuildFailed

  datatype RebuildResult = RebuildResult(status: RebuildStatus, queued: bool)

  datatype Receipt = Receipt(created: nat, alreadyReady: nat, pending: nat, failed: nat)

  const CHUNK_SIZE: nat := 100

  /** The receipt over some actions when the rebuild calls answer as `answers` says,
      the first call first. */
  function Tally(actions: seq<Action>, answers: nat -> RebuildResult): Receipt {
    if actions == [] then Receipt(0, 0, 0, 0)
    else
      var front, last := actions[..|actions| - 1], actions[|actions| - 1];
      var receipt := Tally(front, answers);
      match last.kind
      case AlreadyReady => receipt.(alreadyReady := receipt.alreadyReady + 1)
      case StillPending => receipt.(pending := receipt.pending + 1)
      case Rebuild => Counted(receipt, answers(|Rebuilds(front)|))
  }

  function Counted(receipt: Receipt, result: RebuildResult): Receipt {
    if result.status == MadeReady || result.status == WasReady then receipt.(created := receipt.created + 1)
    else if result.queued then receipt.(pending := receipt.pending + 1)
    else receipt.(failed := receipt.failed + 1)
  }

  function Min(a: int, b: int): int {
    if a < b then a else b
  }

  /** The actions in chunks. `calls` lists the rebuild calls made; a call that rejects,
      the one numbered `rejects`, ends the run without a receipt. */
  method Execute(actions: seq<Action>, answers: nat -> RebuildResult, rejects: Option<nat>)
    returns (receipt: Option<Receipt>, calls: seq<Planned>)
    ensures receipt.Some? <==> rejects.None? || rejects.value >= |Rebuilds(actions)|
    ensures receipt.Some? ==> calls == Rebuilds(actions) && receipt.value == Tally(actions, answers)
    ensures receipt.None? ==> |calls| == rejects.value + 1 && calls <= Rebuilds(actions)
  {
    var counts := Receipt(0, 0, 0, 0);
    calls := [];
    var offset := 0;
    assert actions[..0] == [] && actions[..|actions|] == actions;
    while offset < |actions|
      invariant 0 <= offset && calls == Rebuilds(actions[..Min(offset, |actions|)])
      invariant counts == Tally(actions[..Min(offset, |actions|)], answers)
      invariant rejects.None? || rejects.value >= |calls|
      decreases |actions| - offset
    {
      var end := Min(offset + CHUNK_SIZE, |actions|);
      for i := offset to end
        invariant calls == Rebuilds(actions[..i]) && counts == Tally(actions[..i], answers)
        invariant rejects.None? || rejects.value >= |calls|
      {
        var action := actions[i];
        assert actions[..i + 1][..i] == actions[..i];
        if action.kind == AlreadyReady {
          counts := counts.(alreadyReady := counts.alreadyReady + 1);
        } else if action.kind == StillPending {
          counts := counts.(pending := counts.pending + 1);
        } else {
          var call := |calls|;
          calls := calls + [action.run];
          if rejects == Some(call) {
            RebuildsGrow(actions, i + 1);
            return None, calls;
          }
          counts := Counted(counts, answers(call));
        }
      }
      offset := offset + CHUNK_SIZE;
    }
    receipt := Some(counts);
  }

  lemma {:induction false} RebuildsGrow(actions: seq<Action>, k: nat)
    requires k <= |actions|
    ensures Rebuilds(actions[..k]) <= Rebuilds(actions)
    decreases |actions|
  {
    if k == |actions| {
      assert actions[..k] == actions;
    } else {
      RebuildsGrow(actions[..|actions| - 1], k);
      assert actions[..|actions| - 1][..k] == actions[..k];
    }
  }

  function CountOf(actions: seq<Action>, kind: ActionKind): nat {
    if actions == [] then 0
    else CountOf(actions[..|actions| - 1], kind) + if actions[|actions| - 1].kind == kind then 1 else 0
  }

  /** The receipt sums to the actions, and its parts come from where they should. */
  lemma {:induction false} ReceiptAddsUp(actions: seq<Action>, answers: nat -> RebuildResult)
    ensures
      var receipt := Tally(actions, answers);
      && receipt.created + receipt.alreadyReady + receipt.pending + receipt.failed == |actions|
      && receipt.alreadyReady == CountOf(actions, AlreadyReady)
      && |Rebuilds(actions)| == CountOf(actions, Rebuild)
      && receipt.created + receipt.failed + receipt.pending == |Rebuilds(actions)| + CountOf(actions, StillPending)
      && receipt.pending >= CountOf(actions, StillPending)
  {
    if actions != [] {
      ReceiptAddsUp(actions[..|actions| - 1], answers);
    }
  }

  /** The rebuild calls that were answered so. */
  ghost function Answered(actions: seq<Action>, answers: nat -> RebuildResult, ends: RebuildResult -> bool): set<nat> {
    set call | 0 <= call < |Rebuilds(actions)| && ends(answers(call))
  }

  ghost predicate EndsReady(result: RebuildResult) {
    result.status == MadeReady || result.status == WasReady
  }

  lemma OneMoreCall(calls: nat, answers: nat -> RebuildResult, ends: RebuildResult -> bool)
    ensures
      var before := set call | 0 <= call < calls && ends(answers(call));
      var after := set call | 0 <= call < calls + 1 && ends(answers(call));
      |after| == |before| + if ends(answers(calls)) then 1 else 0
  {
    var before := set call | 0 <= call < calls && ends(answers(call));
    var after := set call | 0 <= call < calls + 1 && ends(answers(call));
    assert after == if ends(answers(calls)) then before + {calls} else before;
  }

  /** `created` counts the calls that ended ready, `failed` those that did not and are not
      queued, and `pending` those that are queued with the runs left pending. */
  lemma {:induction false} ReceiptCounts(actions: seq<Action>, answers: nat -> RebuildResult)
    ensures
      var receipt := Tally(actions, answers);
      && receipt.created == |Answered(actions, answers, EndsReady)|
      && receipt.failed == |Answered(actions, answers, (r: RebuildResult) => !EndsReady(r) && !r.queued)|
      && receipt.pending ==
           |Answered(actions, answers, (r: RebuildResult) => !EndsReady(r) && r.queued)| + CountOf(actions, StillPending)
  {
    if actions != [] {
      var front := actions[..|actions| - 1];
      ReceiptCounts(front, answers);
      OneMoreCall(|Rebuilds(front)|, answers, EndsReady);
      OneMoreCall(|Rebuilds(front)|, answers, (r: RebuildResult) => !EndsReady(r) && !r.queued);
      OneMoreCall(|Rebuilds(front)|, answers, (r: RebuildResult) => !EndsReady(r) && r.queued);
    }
  }

  // ---- Doing it again ------------------------------------------------------------------------------

  /** What the database holds once every rebuild of these actions has ended ready. */
  ghost predicate AllRebuilt(
    runs: seq<Planned>, before: seq<Snapshot>, actions: seq<Action>, after: seq<Snapshot>)
    requires |actions| == |runs|
  {
    && Consistent(runs, after)
    && forall i :: 0 <= i < |runs| ==>
         var runId := runs[i].run.runId;
         if actions[i].kind == Rebuild
         then SnapshotOf(after, runId).Some? && SnapshotOf(after, runId).value.status == Ready
         else SnapshotOf(after, runId) == SnapshotOf(before, runId)
  }

  /** Classifying again then finds nothing left to rebuild. */
  lemma NothingLeftToRebuild(
    request: Request, runs: seq<Planned>, before: seq<Snapshot>, actions: seq<Action>, after: seq<Snapshot>,
    again: seq<Action>)
    requires Classifiable(request, runs, before) && ClassifiedAs(request, runs, before, actions)
    requires AllRebuilt(runs, before, actions, after)
    ensures Classifiable(request, runs, after)
    ensures ClassifiedAs(request, runs, after, again) ==> Rebuilds(again) == []
  {
    hide SnapshotOf, Consistent;
    forall i | 0 <= i < |runs|
      ensures var kind := KindFor(request, SnapshotOf(after, runs[i].run.runId)); kind.Some? && kind.value != Rebuild
    {
      assert Some(actions[i].kind) == KindFor(request, SnapshotOf(before, runs[i].run.runId));
    }
    if ClassifiedAs(request, runs, after, again) {
      forall i | 0 <= i < |again| ensures again[i].kind != Rebuild {
      }
      NoRebuilds(again);
    }
  }

  lemma {:induction false} NoRebuilds(actions: seq<Action>)
    requires forall i :: 0 <= i < |actions| ==> actions[i].kind != Rebuild
    ensures Rebuilds(actions) == []
  {
    if actions != [] {
      NoRebuilds(actions[..|actions| - 1]);
    }
  }
}
