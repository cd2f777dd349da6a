/** A request on its way: the object that the client builds, its text, the bytes of its
    frame, and what the broker makes of the stream (BrokeredSurfaceSessionFactory in
    broker-client.ts, encodeBrokerFrame and readBrokerFrame in broker-protocol.ts). */
module RequestText {

  import opened BrokerRequests
  import opened Optional
  import Frames
  import Json
  import Utf8

  // ---- Field names ---------------------------------------------------------------

  function FieldName(field: Field): Units {
    match field
    case Version => Ascii("version")
    case RequestId => Ascii("requestId")
    case Operation => Ascii("operation")
    case SessionId => Ascii("sessionId")
    case PromptText => Ascii("promptText")
    case TaskField => Ascii("task")
    case AttemptField => Ascii("attempt")
    case ProfileDirectory => Ascii("profileDirectory")
    case LastPageUrl => Ascii("lastPageUrl")
    case ExpectedSessionId => Ascii("expectedSessionId")
    case OutcomeField => Ascii("outcome")
    case ArtifactIds => Ascii("artifactIds")
    case Unknown(name) => name
    case _ => TaskFieldName(field)
  }

  function TaskFieldName(field: Field): Units {
    match field
    case Id => Ascii("id")
    case BatchId => Ascii("batchId")
    case BrandId => Ascii("brandId")
    case SurfaceTargetKey => Ascii("surfaceTargetKey")
    case CaptureRouteKey => Ascii("captureRouteKey")
    case SampleIndex => Ascii("sampleIndex")
    case SessionRequirement => Ascii("sessionRequirement")
    case SearchRequirement => Ascii("searchRequirement")
    case EvaluationRole => Ascii("evaluationRole")
    case AutomationAttemptCount => Ascii("automationAttemptCount")
    case LeaseGeneration => Ascii("leaseGeneration")
    case MinimumEvidenceArtifacts => Ascii("minimumEvidenceArtifacts")
    case _ => []
  }

  ghost predicate Names(name: Units, field: Field) {
    !field.Unknown? && FieldName(field) == name
  }

  /** The known field of that name, if there is one. */
  ghost function FieldNamed(name: Units): Field {
    if exists field :: Names(name, field) then
      var field :| Names(name, field);
      field
    else Unknown(name)
  }

  /** What tells the names apart: their length and their first two letters. */
  function Marks(field: Field): (nat, int, int) {
    match field
    case Version => (7, 'v' as int, 'e' as int)
    case RequestId => (9, 'r' as int, 'e' as int)
    case Operation => (9, 'o' as int, 'p' as int)
    case SessionId => (9, 's' as int, 'e' as int)
    case PromptText => (10, 'p' as int, 'r' as int)
    case TaskField => (4, 't' as int, 'a' as int)
    case AttemptField => (7, 'a' as int, 't' as int)
    case ProfileDirectory => (16, 'p' as int, 'r' as int)
    case LastPageUrl => (11, 'l' as int, 'a' as int)
    case ExpectedSessionId => (17, 'e' as int, 'x' as int)
    case OutcomeField => (7, 'o' as int, 'u' as int)
    case ArtifactIds => (11, 'a' as int, 'r' as int)
    case Id => (2, 'i' as int, 'd' as int)
    case BatchId => (7, 'b' as int, 'a' as int)
    case BrandId => (7, 'b' as int, 'r' as int)
    case SurfaceTargetKey => (16, 's' as int, 'u' as int)
    case CaptureRouteKey => (15, 'c' as int, 'a' as int)
    case SampleIndex => (11, 's' as int, 'a' as int)
    case SessionRequirement => (18, 's' as int, 'e' as int)
    case SearchRequirement => (17, 's' as int, 'e' as int)
    case EvaluationRole => (14, 'e' as int, 'v' as int)
    case AutomationAttemptCount => (22, 'a' as int, 'u' as int)
    case LeaseGeneration => (15, 'l' as int, 'e' as int)
    case MinimumEvidenceArtifacts => (24, 'm' as int, 'i' as int)
    case Unknown(_) => (0, 0, 0)
  }

  ghost predicate Marked(field: Field, name: Units) {
    |name| >= 2 && Marks(field) == (|name|, name[0] as int, name[1] as int)
  }

  lemma TaskNameIsMarked(field: Field)
    requires field in TASK_FIELDS + {MinimumEvidenceArtifacts} && field != PromptText
    ensures Marked(field, TaskFieldName(field))
  {
  }

  lemma NameIsMarked(field: Field)
    requires !field.Unknown?
    ensures Marked(field, FieldName(field))
  {
    hide TaskFieldName;
    if field in TASK_FIELDS + {MinimumEvidenceArtifacts} && field != PromptText {
      TaskNameIsMarked(field);
    }
  }

  lemma MarksDiffer(field: Field, other: Field)
    requires !field.Unknown? && !other.Unknown? && Marks(field) == Marks(other)
    ensures field == other
  {
  }

  /** Every field that the protocol knows is found by its own name. */
  lemma NamesAreOwn(field: Field)
    requires !field.Unknown?
    ensures FieldNamed(FieldName(field)) == field
  {
    hide FieldName, Marks;
    var name := FieldName(field);
    assert Names(name, field);
    var other := FieldNamed(name);
    NameIsMarked(field);
    NameIsMarked(other);
    MarksDiffer(field, other);
  }

  // ---- From a JSON text to a value -------------------------------------------------

  /** Of members with one key the last one counts, as in JSON.parse. */
  ghost function FromJson(json: Json.Json): Value
    decreases json
  {
    match json
    case Null => Null
    case Bool(b) => Bool(b)
    case Integer(n) => Number(n)
    case Text(units) => Text(units)
    case Array(items) => Array(FromItems(items))
    case Object(members) => Object(FromMembers(members))
  }

  ghost function FromItems(items: seq<Json.Json>): seq<Value>
    decreases items
  {
    if items == [] then [] else [FromJson(items[0])] + FromItems(items[1..])
  }

  ghost function FromMembers(members: seq<Json.Member>): Record
    decreases members
  {
    if members == [] then map[]
    else map[FieldNamed(members[0].key) := FromJson(members[0].value)] + FromMembers(members[1..])
  }

  // ---- The object that the client builds ----------------------------------------------

  /** A field with its value, as an object literal lists it. */
  function Entry(field: Field, json: Json.Json): Json.Member {
    Json.Member(FieldName(field), json)
  }

  ghost predicate Countable(task: Task) {
    && Safe(task.sampleIndex) && Safe(task.automationAttemptCount) && Safe(task.leaseGeneration)
    && (task.minimumEvidenceArtifacts.Some? ==> Safe(task.minimumEvidenceArtifacts.value))
  }

  function TaskMembers(task: Task): seq<Json.Member>
    requires Countable(task)
  {
    TextMembers(task) + RouteMembers(task) + RequirementMembers(task) + MinimumMember(task.minimumEvidenceArtifacts)
    + CountMembers(task)
  }

  function TextMembers(task: Task): seq<Json.Member> {
    [Entry(Id, Json.Text(task.id)), Entry(BatchId, Json.Text(task.batchId)), Entry(BrandId, Json.Text(task.brandId)),
     Entry(PromptText, Json.Text(task.promptText))]
  }

  function RouteMembers(task: Task): seq<Json.Member>
    requires Countable(task)
  {
    [Entry(SurfaceTargetKey, Json.Text(task.surfaceTargetKey)),
     Entry(CaptureRouteKey, Json.Text(task.captureRouteKey)), Entry(SampleIndex, Json.Integer(task.sampleIndex)),
     Entry(SessionRequirement, Json.Text(task.sessionRequirement))]
  }

  function RequirementMembers(task: Task): seq<Json.Member> {
    [Entry(SearchRequirement, Json.Text(task.searchRequirement)),
     Entry(EvaluationRole, Json.Text(task.evaluationRole))]
  }

  function CountMembers(task: Task): seq<Json.Member>
    requires Countable(task)
  {
    [Entry(AutomationAttemptCount, Json.Integer(task.automationAttemptCount)),
     Entry(LeaseGeneration, Json.Integer(task.leaseGeneration))]
  }

  function MinimumMember(minimum: Option<int>): seq<Json.Member>
    requires minimum.Some? ==> Safe(minimum.value)
  {
    if minimum.None? then [] else [Entry(MinimumEvidenceArtifacts, Json.Integer(minimum.value))]
  }

  function TaskJson(task: Task): Json.Json
    requires Countable(task)
  {
    Json.Object(TaskMembers(task))
  }

  ghost predicate BodyCountable(body: Body) {
    match body
    case Create(task, attempt) => Countable(task) && Safe(attempt)
    case Resume(task, _, _, _) => Countable(task)
    case _ => true
  }

  function TextItems(texts: seq<Units>): seq<Json.Json> {
    if texts == [] then [] else [Json.Text(texts[0])] + TextItems(texts[1..])
  }

  function BodyMembers(body: Body): seq<Json.Member>
    requires BodyCountable(body)
  {
    match body
    case Ping => []
    case Create(task, attempt) => [Entry(TaskField, TaskJson(task)), Entry(AttemptField, Json.Integer(attempt))]
    case Resume(task, profileDirectory, lastPageUrl, expectedSessionId) =>
      [Entry(TaskField, TaskJson(task)), Entry(ProfileDirectory, Json.Text(profileDirectory)),
       Entry(LastPageUrl, Json.Text(lastPageUrl)), Entry(ExpectedSessionId, Json.Text(expectedSessionId))]
    case Submit(sessionId, promptText) =>
      [Entry(SessionId, Json.Text(sessionId)), Entry(PromptText, Json.Text(promptText))]
    case Confirm(sessionId, promptText) =>
      [Entry(SessionId, Json.Text(sessionId)), Entry(PromptText, Json.Text(promptText))]
    case Close(sessionId, outcome) =>
      [Entry(SessionId, Json.Text(sessionId)), Entry(OutcomeField, Json.Text(outcome))]
    case ReleaseEvidence(sessionId, artifactIds) =>
      [Entry(SessionId, Json.Text(sessionId)), Entry(ArtifactIds, Json.Array(TextItems(artifactIds)))]
    case _ => [Entry(SessionId, Json.Text(body.sessionId))]
  }

  /** The operation and its fields, then the version and the request id. */
  function RequestJson(request: Request): Json.Json
    requires BodyCountable(request.body)
  {
    Json.Object(
      [Entry(Operation, Json.Text(VerbName(VerbFor(request.body))))] + BodyMembers(request.body)
      + [Entry(Version, Json.Integer(1)), Entry(RequestId, Json.Text(request.requestId))])
  }

  // ---- It is the request's own object --------------------------------------------------

  lemma {:induction false} MembersJoin(front: seq<Json.Member>, back: seq<Json.Member>)
    ensures FromMembers(front + back) == FromMembers(front) + FromMembers(back)
  {
    hide FieldNamed, FromJson;
    if front == [] {
      assert front + back == back;
    } else {
      MembersJoin(front[1..], back);
      assert (front + back)[1..] == front[1..] + back;
    }
  }

  lemma EntryIsRead(field: Field, json: Json.Json, rest: seq<Json.Member>)
    requires !field.Unknown?
    ensures FromMembers([Entry(field, json)] + rest) == map[field := FromJson(json)] + FromMembers(rest)
  {
    hide FieldName, FieldNamed, FromJson;
    NamesAreOwn(field);
    assert ([Entry(field, json)] + rest)[1..] == rest;
  }

  lemma OneEntry(field: Field, json: Json.Json)
    requires !field.Unknown?
    ensures FromMembers([Entry(field, json)]) == map[field := FromJson(json)]
  {
    hide FieldNamed, FromJson, Entry;
    EntryIsRead(field, json, []);
    assert [Entry(field, json)] + [] == [Entry(field, json)];
  }

  lemma TwoEntries(field: Field, json: Json.Json, other: Field, second: Json.Json)
    requires !field.Unknown? && !other.Unknown?
    ensures FromMembers([Entry(field, json), Entry(other, second)])
         == map[field := FromJson(json), other := FromJson(second)]
  {
    hide FromMembers, FromJson, Entry;
    OneEntry(other, second);
    EntryIsRead(field, json, [Entry(other, second)]);
    assert [Entry(field, json)] + [Entry(other, second)] == [Entry(field, json), Entry(other, second)];
  }

  lemma FourEntries(
    f1: Field, j1: Json.Json, f2: Field, j2: Json.Json, f3: Field, j3: Json.Json, f4: Field, j4: Json.Json)
    requires !f1.Unknown? && !f2.Unknown? && !f3.Unknown? && !f4.Unknown?
    ensures FromMembers([Entry(f1, j1), Entry(f2, j2), Entry(f3, j3), Entry(f4, j4)])
         == map[f1 := FromJson(j1), f2 := FromJson(j2), f3 := FromJson(j3), f4 := FromJson(j4)]
  {
    hide FromMembers, FromJson, Entry;
    var front, back := [Entry(f1, j1), Entry(f2, j2)], [Entry(f3, j3), Entry(f4, j4)];
    TwoEntries(f1, j1, f2, j2);
    TwoEntries(f3, j3, f4, j4);
    MembersJoin(front, back);
    assert front + back == [Entry(f1, j1), Entry(f2, j2), Entry(f3, j3), Entry(f4, j4)];
  }

  /** The members have these fields and agree with the task on them. */
  ghost predicate Agree(members: seq<Json.Member>, task: Task, fields: set<Field>) {
    var record := FromMembers(members);
    record.Keys == fields && forall field :: field in record ==> record[field] == TaskFieldValue(task, field)
  }

  lemma AgreeJoin(front: seq<Json.Member>, back: seq<Json.Member>, task: Task, some: set<Field>, others: set<Field>)
    requires Agree(front, task, some) && Agree(back, task, others)
    ensures Agree(front + back, task, some + others)
  {
    hide FromMembers, TaskFieldValue;
    MembersJoin(front, back);
  }

  lemma TextsAgree(task: Task)
    ensures Agree(TextMembers(task), task, {Id, BatchId, BrandId, PromptText})
  {
    hide FromMembers, Entry;
    FourEntries(
      Id, Json.Text(task.id), BatchId, Json.Text(task.batchId), BrandId, Json.Text(task.brandId),
      PromptText, Json.Text(task.promptText));
  }

  lemma RouteAgrees(task: Task)
    requires Countable(task)
    ensures Agree(RouteMembers(task), task, {SurfaceTargetKey, CaptureRouteKey, SampleIndex, SessionRequirement})
  {
    hide FromMembers, Entry;
    FourEntries(
      SurfaceTargetKey, Json.Text(task.surfaceTargetKey), CaptureRouteKey, Json.Text(task.captureRouteKey),
      SampleIndex, Json.Integer(task.sampleIndex), SessionRequirement, Json.Text(task.sessionRequirement));
  }

  lemma RequirementsAgree(task: Task)
    ensures Agree(RequirementMembers(task), task, {SearchRequirement, EvaluationRole})
  {
    hide FromMembers, Entry;
    TwoEntries(
      SearchRequirement, Json.Text(task.searchRequirement), EvaluationRole, Json.Text(task.evaluationRole));
  }

  function MinimumFields(task: Task): set<Field> {
    if task.minimumEvidenceArtifacts.Some? then {MinimumEvidenceArtifacts} else {}
  }

  lemma MinimumAgrees(task: Task)
    requires Countable(task)
    ensures Agree(MinimumMember(task.minimumEvidenceArtifacts), task, MinimumFields(task))
  {
    hide Entry;
    if task.minimumEvidenceArtifacts.Some? {
      OneEntry(MinimumEvidenceArtifacts, Json.Integer(task.minimumEvidenceArtifacts.value));
    }
  }

  lemma CountsAgree(task: Task)
    requires Countable(task)
    ensures Agree(CountMembers(task), task, {AutomationAttemptCount, LeaseGeneration})
  {
    hide FromMembers, Entry;
    TwoEntries(
      AutomationAttemptCount, Json.Integer(task.automationAttemptCount),
      LeaseGeneration, Json.Integer(task.leaseGeneration));
  }

  lemma MembersAgree(task: Task)
    requires Countable(task)
    ensures Agree(TaskMembers(task), task, TaskFields(task))
  {
    hide Agree, TextMembers, RouteMembers, RequirementMembers, MinimumMember, CountMembers;
    var texts, route, requirements := TextMembers(task), RouteMembers(task), RequirementMembers(task);
    var minimum := MinimumMember(task.minimumEvidenceArtifacts);
    var f1: set<Field>, f2: set<Field> :=
      {Id, BatchId, BrandId, PromptText}, {SurfaceTargetKey, CaptureRouteKey, SampleIndex, SessionRequirement};
    var f3: set<Field>, f4 := {SearchRequirement, EvaluationRole}, MinimumFields(task);
    TextsAgree(task);
    RouteAgrees(task);
    RequirementsAgree(task);
    MinimumAgrees(task);
    CountsAgree(task);
    AgreeJoin(texts, route, task, f1, f2);
    AgreeJoin(texts + route, requirements, task, f1 + f2, f3);
    AgreeJoin(texts + route + requirements, minimum, task, f1 + f2 + f3, f4);
    AgreeJoin(
      texts + route + requirements + minimum, CountMembers(task), task, f1 + f2 + f3 + f4,
      {AutomationAttemptCount, LeaseGeneration});
    assert f1 + f2 + f3 + f4 + {AutomationAttemptCount, LeaseGeneration} == TaskFields(task);
  }

  /** The object that the client writes for a task is the task's own. */
  lemma TaskIsWritten(task: Task)
    requires Countable(task)
    ensures FromJson(TaskJson(task)) == TaskValue(task)
  {
    hide FromMembers, TaskMembers, TaskFields, TaskFieldValue;
    MembersAgree(task);
    assert FromMembers(TaskMembers(task)) == TaskValue(task).record;
  }

  lemma {:induction false} ItemsAreWritten(texts: seq<Units>)
    ensures FromItems(TextItems(texts)) == Texts(texts)
  {
    if texts != [] {
      ItemsAreWritten(texts[1..]);
      assert Texts(texts) == [Text(texts[0])] + Texts(texts[1..]);
    }
  }

  lemma CreateIsWritten(task: Task, attempt: int)
    requires Countable(task) && Safe(attempt)
    ensures FromMembers(BodyMembers(Create(task, attempt))) == BodyRecord(Create(task, attempt))
  {
    hide Entry, TaskJson, TaskValue, Countable, FromMembers;
    TaskIsWritten(task);
    TwoEntries(TaskField, TaskJson(task), AttemptField, Json.Integer(attempt));
  }

  lemma ResumeIsWritten(task: Task, profileDirectory: Units, lastPageUrl: Units, expectedSessionId: Units)
    requires Countable(task)
    ensures var body := Resume(task, profileDirectory, lastPageUrl, expectedSessionId);
            FromMembers(BodyMembers(body)) == BodyRecord(body)
  {
    hide Entry, TaskJson, TaskValue, Countable, FromMembers;
    TaskIsWritten(task);
    FourEntries(
      TaskField, TaskJson(task), ProfileDirectory, Json.Text(profileDirectory),
      LastPageUrl, Json.Text(lastPageUrl), ExpectedSessionId, Json.Text(expectedSessionId));
  }

  lemma BodyIsWritten(body: Body)
    requires BodyCountable(body)
    ensures FromMembers(BodyMembers(body)) == BodyRecord(body)
  {
    hide Entry, TaskJson, TaskValue, Texts, TextItems, FromItems, Countable;
    match body
    case Ping =>
    case Create(task, attempt) => CreateIsWritten(task, attempt);
    case Resume(task, profileDirectory, lastPageUrl, expectedSessionId) =>
      ResumeIsWritten(task, profileDirectory, lastPageUrl, expectedSessionId);
    case Submit(sessionId, promptText) =>
      TwoEntries(SessionId, Json.Text(sessionId), PromptText, Json.Text(promptText));
    case Confirm(sessionId, promptText) =>
      TwoEntries(SessionId, Json.Text(sessionId), PromptText, Json.Text(promptText));
    case Close(sessionId, outcome) =>
      TwoEntries(SessionId, Json.Text(sessionId), OutcomeField, Json.Text(outcome));
    case ReleaseEvidence(sessionId, artifactIds) =>
      ItemsAreWritten(artifactIds);
      TwoEntries(SessionId, Json.Text(sessionId), ArtifactIds, Json.Array(TextItems(artifactIds)));
    case _ =>
      OneEntry(SessionId, Json.Text(body.sessionId));
  }

  /** The object that the client writes for a request, read with its field names, is the
      request's own. */
  lemma RequestIsWritten(request: Request)
    requires BodyCountable(request.body)
    ensures FromJson(RequestJson(request)) == RequestValue(request)
  {
    hide FromMembers, Entry, BodyMembers, BodyRecord, VerbName;
    var operation := VerbName(VerbFor(request.body));
    var front := [Entry(Operation, Json.Text(operation))];
    var back := [Entry(Version, Json.Integer(1)), Entry(RequestId, Json.Text(request.requestId))];
    MembersJoin(front, BodyMembers(request.body));
    MembersJoin(front + BodyMembers(request.body), back);
    OneEntry(Operation, Json.Text(operation));
    TwoEntries(Version, Json.Integer(1), RequestId, Json.Text(request.requestId));
    BodyIsWritten(request.body);
    NotInBase(request.body);
    assert FromMembers(front + BodyMembers(request.body) + back)
        == BodyRecord(request.body) + BaseRecord(request.requestId, operation);
  }

  // ---- Across the socket -----------------------------------------------------------------

  const MAXIMUM_BYTES := 1_048_576

  /** What encodeBrokerFrame puts behind the header. */
  function Written(request: Request): Utf8.Bytes
    requires BodyCountable(request.body)
  {
    Utf8.Encode(Json.Print(RequestJson(request)))
  }

  /** What readBrokerFrame makes of a body. */
  ghost function Understood(body: Utf8.Bytes): Option<Value> {
    match Json.Parse(Utf8.Decode(body))
    case None => None
    case Some(json) => Some(FromJson(json))
  }

  /** Text, bytes and names undo each other for every request. */
  lemma WrittenIsUnderstood(request: Request)
    requires BodyCountable(request.body)
    ensures Understood(Written(request)) == Some(RequestValue(request))
  {
    hide RequestJson;
    var json := RequestJson(request);
    Json.PrintIsWellFormed(json);
    Utf8.RoundTripIsExact(Json.Print(json));
    Json.PrintRoundTrip(json);
    RequestIsWritten(request);
  }

  /** A well-formed request within the size limit arrives as itself, however the stream
      is cut, and a stream that breaks off before its end yields nothing. */
  lemma RequestCrossesTheSocket(request: Request, chunks: seq<Utf8.Bytes>, length: nat)
    requires RequestFits(request)
    requires Frames.Encode(Written(request), MAXIMUM_BYTES).Framed?
    requires
      var frame := Frames.Encode(Written(request), MAXIMUM_BYTES).value;
      length <= |frame| && Frames.Joined(chunks) == frame[..length]
    ensures
      var frame := Frames.Encode(Written(request), MAXIMUM_BYTES).value;
      var received := Frames.Meaning(chunks, MAXIMUM_BYTES, Understood);
      if length == |frame| then received.Framed? && ParseRequest(received.value) == Ok(request)
      else received == Frames.Refused(Frames.Truncated)
  {
    hide Written, Understood;
    var body := Written(request);
    var frame := Frames.Encode(body, MAXIMUM_BYTES).value;
    if length == |frame| {
      assert frame[..length] == frame;
      Frames.EveryChunkingReads(chunks, MAXIMUM_BYTES, Understood, body);
      WrittenIsUnderstood(request);
      RequestIsExact(RequestValue(request), request);
    } else {
      Frames.EveryPartIsTruncated(chunks, MAXIMUM_BYTES, Understood, body, length);
    }
  }
}
