/** Requests to the broker as JSON values (parseBrokerRequest and parseRunnerTask in
    broker-protocol.ts). */
module BrokerRequests {

  import opened Optional
  import Json

  type Units = Json.Units

  /** The field names that the protocol knows; every other name is `Unknown`. */
  datatype Field =
    | Version | RequestId | Operation | SessionId | PromptText | TaskField | AttemptField
    | ProfileDirectory | LastPageUrl | ExpectedSessionId | OutcomeField | ArtifactIds
    | Id | BatchId | BrandId | SurfaceTargetKey | CaptureRouteKey | SampleIndex
    | SessionRequirement | SearchRequirement | EvaluationRole
    | AutomationAttemptCount | LeaseGeneration | MinimumEvidenceArtifacts
    | Unknown(name: Units)

  type Record = map<Field, Value>

  /** A JSON value; numbers that are not integers only ever get refused. */
  datatype Value =
    | Null
    | Bool(b: bool)
    | Number(n: int)
    | Fraction(r: real)
    | Text(units: Units)
    | Array(items: seq<Value>)
    | Object(record: Record)

  datatype Error =
    | NotAnObject | UnknownField | MissingField | UnsupportedVersion | UnsupportedOperation
    | Invalid(field: Field)

  datatype Result<+T> = Ok(value: T) | Err(error: Error) {
    predicate IsFailure() {
      Err?
    }

    function PropagateFailure<U>(): Result<U>
      requires Err?
    {
      Err(error)
    }

    function Extract(): T
      requires Ok?
    {
      value
    }
  }

  // ---- Requests ------------------------------------------------------------------

  datatype Task = Task(
    id: Units, batchId: Units, brandId: Units, promptText: Units,
    surfaceTargetKey: Units, captureRouteKey: Units, sampleIndex: int,
    sessionRequirement: Units, searchRequirement: Units, evaluationRole: Units,
    minimumEvidenceArtifacts: Option<int>, automationAttemptCount: int, leaseGeneration: int)

  datatype Body =
    | Ping
    | Create(task: Task, attempt: int)
    | Resume(task: Task, profileDirectory: Units, lastPageUrl: Units, expectedSessionId: Units)
    | Open(sessionId: Units)
    | Prepare(sessionId: Units)
    | Collect(sessionId: Units)
    | Capture(sessionId: Units)
    | Handoff(sessionId: Units)
    | Submit(sessionId: Units, promptText: Units)
    | Confirm(sessionId: Units, promptText: Units)
    | Close(sessionId: Units, outcome: Units)
    | ReleaseEvidence(sessionId: Units, artifactIds: seq<Units>)

  datatype Request = Request(requestId: Units, body: Body)

  /** The operations by name. */
  datatype Verb =
    | ToPing | ToCreate | ToResume | ToOpen | ToPrepare | ToCollect | ToCapture | ToHandoff
    | ToSubmit | ToConfirm | ToClose | ToRelease

  function Ascii(text: string): (units: Units)
    requires forall i :: 0 <= i < |text| ==> text[i] < '\U{80}'
    ensures |units| == |text| && forall i :: 0 <= i < |text| ==> units[i] == text[i] as int
  {
    seq(|text|, i requires 0 <= i < |text| => text[i] as int)
  }

  const SURFACES: seq<Units> := [Ascii("doubao.consumer_web")]
  const ROUTES: seq<Units> := [Ascii("browser_runner.doubao")]
  const SESSIONS: seq<Units> :=
    [Ascii("anonymous_clean"), Ascii("new_account_clean"), Ascii("dedicated_sampling_profile")]
  const SEARCHES: seq<Units> := [Ascii("forbidden"), Ascii("platform_default")]
  const ROLES: seq<Units> := [Ascii("scored"), Ascii("observation")]
  const OUTCOMES: seq<Units> := [Ascii("succeeded"), Ascii("retrying"), Ascii("needs_human")]

  // ---- Parsing -------------------------------------------------------------------

  predicate TextFits(text: Units, maximum: nat) {
    1 <= |text| <= maximum && 0 !in text
  }

  lemma TextFitsIsExact(text: Units, maximum: nat)
    ensures !TextFits(text, maximum) <==>
            text == [] || |text| > maximum || exists i :: 0 <= i < |text| && text[i] == 0
  {
  }

  function ObjectValue(value: Value): Result<Record> {
    if value.Object? then Ok(value.record) else Err(NotAnObject)
  }

  /** First no key may be unknown, then none may be missing. */
  function ExactKeys(record: Record, needed: set<Field>, optional: set<Field>): (result: Result<()>)
    ensures result.Ok? <==> needed <= record.Keys <= needed + optional
  {
    if !(record.Keys <= needed + optional) then Err(UnknownField)
    else if !(needed <= record.Keys) then Err(MissingField)
    else Ok(())
  }

  /** The two loops: over the keys of the record, and over the keys it needs. */
  method AssertExactKeys(record: Record, needed: seq<Field>, optional: seq<Field>) returns (result: Result<()>)
    ensures result == ExactKeys(record, set key | key in needed, set key | key in optional)
  {
    var permitted := set key | key in needed + optional;
    ghost var all := (set key | key in needed) + (set key | key in optional);
    assert permitted == all;
    var remaining := record.Keys;
    while remaining != {}
      invariant remaining <= record.Keys
      invariant forall key :: key in record.Keys - remaining ==> key in permitted
      decreases |remaining|
    {
      var key :| key in remaining;
      if key !in permitted {
        return Err(UnknownField);
      }
      remaining := remaining - {key};
    }
    for i := 0 to |needed|
      invariant forall k :: 0 <= k < i ==> needed[k] in record
    {
      if needed[i] !in record {
        return Err(MissingField);
      }
    }
    result := Ok(());
  }

  function TextOf(value: Value, field: Field, maximum: nat): Result<Units> {
    if value.Text? && TextFits(value.units, maximum) then Ok(value.units) else Err(Invalid(field))
  }

  predicate Has(record: Record, field: Field, value: Value) {
    field in record && record[field] == value
  }

  function TextValue(record: Record, field: Field, maximum: nat): (result: Result<Units>)
    ensures forall text :: result == Ok(text) <==>
              Has(record, field, Text(text)) && TextFits(text, maximum)
  {
    if field in record then TextOf(record[field], field, maximum) else Err(Invalid(field))
  }

  function IntegerValue(record: Record, field: Field, minimum: int, maximum: int): (result: Result<int>)
    ensures forall n :: result == Ok(n) <==>
              Has(record, field, Number(n)) && minimum <= n <= maximum && Safe(n)
  {
    if field in record && record[field].Number? && Safe(record[field].n) && minimum <= record[field].n <= maximum
    then Ok(record[field].n)
    else Err(Invalid(field))
  }

  predicate Safe(n: int) {
    -Json.MAX_SAFE <= n <= Json.MAX_SAFE
  }

  function EnumValue(record: Record, field: Field, values: seq<Units>): (result: Result<Units>)
    ensures forall text :: result == Ok(text) <==> Has(record, field, Text(text)) && text in values
  {
    if field in record && record[field].Text? && record[field].units in values
    then Ok(record[field].units)
    else Err(Invalid(field))
  }

  const TASK_FIELDS: set<Field> := {
    Id, BatchId, BrandId, PromptText, SurfaceTargetKey, CaptureRouteKey, SampleIndex,
    SessionRequirement, SearchRequirement, EvaluationRole, AutomationAttemptCount, LeaseGeneration}

  function MinimumValue(record: Record): Result<Option<int>> {
    if MinimumEvidenceArtifacts !in record then Ok(None)
    else
      var n :- IntegerValue(record, MinimumEvidenceArtifacts, 1, 20);
      Ok(Some(n))
  }

  function ParseTask(value: Value): Result<Task> {
    var record :- ObjectValue(value);
    var _ :- ExactKeys(record, TASK_FIELDS, {MinimumEvidenceArtifacts});
    var id :- TextValue(record, Id, 300);
    var batchId :- TextValue(record, BatchId, 300);
    var brandId :- TextValue(record, BrandId, 300);
    var promptText :- TextValue(record, PromptText, 500_000);
    var surfaceTargetKey :- EnumValue(record, SurfaceTargetKey, SURFACES);
    var captureRouteKey :- EnumValue(record, CaptureRouteKey, ROUTES);
    var sampleIndex :- IntegerValue(record, SampleIndex, 1, 1_000_000);
    var sessionRequirement :- EnumValue(record, SessionRequirement, SESSIONS);
    var searchRequirement :- EnumValue(record, SearchRequirement, SEARCHES);
    var evaluationRole :- EnumValue(record, EvaluationRole, ROLES);
    var minimumEvidenceArtifacts :- MinimumValue(record);
    var automationAttemptCount :- IntegerValue(record, AutomationAttemptCount, 0, 100);
    var leaseGeneration :- IntegerValue(record, LeaseGeneration, 1, 1_000_000);
    Ok(Task(
      id, batchId, brandId, promptText, surfaceTargetKey, captureRouteKey, sampleIndex, sessionRequirement,
      searchRequirement, evaluationRole, minimumEvidenceArtifacts, automationAttemptCount, leaseGeneration))
  }

  const BASE: set<Field> := {Version, RequestId, Operation}
  const ALL_FIELDS: set<Field> := {
    TaskField, AttemptField, SessionId, PromptText, ProfileDirectory, LastPageUrl, ExpectedSessionId,
    OutcomeField, ArtifactIds}

  function ParseRequest(value: Value): Result<Request> {
    var record :- ObjectValue(value);
    var _ :- ExactKeys(record, BASE, ALL_FIELDS);
    if record[Version] != Number(1) then Err(UnsupportedVersion)
    else
      var requestId :- TextValue(record, RequestId, 100);
      var operation :- TextValue(record, Operation, 40);
      var body :- ParseBody(record, operation);
      Ok(Request(requestId, body))
  }

  function VerbName(verb: Verb): Units {
    match verb
    case ToPing => Ascii("ping")
    case ToCreate => Ascii("create")
    case ToResume => Ascii("resume")
    case ToOpen => Ascii("open")
    case ToPrepare => Ascii("prepare")
    case ToCollect => Ascii("collect")
    case ToCapture => Ascii("capture")
    case ToHandoff => Ascii("handoff")
    case ToSubmit => Ascii("submit")
    case ToConfirm => Ascii("confirm")
    case ToClose => Ascii("close")
    case ToRelease => Ascii("release_evidence")
  }

  const VERBS: seq<Verb> := [
    ToPing, ToCreate, ToResume, ToOpen, ToPrepare, ToCollect, ToCapture, ToHandoff, ToSubmit, ToConfirm, ToClose,
    ToRelease]

  /** The first verb of the list with that name. */
  function VerbOf(name: Units, verbs: seq<Verb>): Result<Verb> {
    if verbs == [] then Err(UnsupportedOperation)
    else if name == VerbName(verbs[0]) then Ok(verbs[0])
    else VerbOf(name, verbs[1..])
  }

  /** The operations of the protocol, in the order of the verbs. */
  const OPERATIONS: seq<string> := [
    "ping", "create", "resume", "open", "prepare", "collect", "capture", "handoff", "submit", "confirm", "close",
    "release_evidence"]

  lemma VerbsAreTheOperations()
    ensures |VERBS| == |OPERATIONS| && forall i :: 0 <= i < |VERBS| ==> VerbName(VERBS[i]) == Ascii(OPERATIONS[i])
  {
  }

  lemma {:induction false} NameOfNoVerb(name: Units, verbs: seq<Verb>)
    requires forall i :: 0 <= i < |verbs| ==> VerbName(verbs[i]) != name
    ensures VerbOf(name, verbs) == Err(UnsupportedOperation)
  {
    hide VerbName;
    if verbs != [] {
      NameOfNoVerb(name, verbs[1..]);
    }
  }

  /** A safe integer is as safe with the other sign; the largest is that of IEEE 754. */
  lemma SafeIsSymmetric(n: int)
    ensures Safe(n) <==> Safe(-n)
    ensures Safe(0x1F_FFFF_FFFF_FFFF) && !Safe(0x20_0000_0000_0000)
  {
  }

  function ParseBody(record: Record, operation: Units): Result<Body>
    requires BASE <= record.Keys
  {
    var verb :- VerbOf(operation, VERBS);
    match verb
    case ToPing => ParsePing(record)
    case ToCreate => ParseCreate(record)
    case ToResume => ParseResume(record)
    case ToSubmit => ParsePrompted(record, verb)
    case ToConfirm => ParsePrompted(record, verb)
    case ToClose => ParseClose(record)
    case ToRelease => ParseRelease(record)
    case _ => ParseOnSession(record, verb)
  }

  /** A request for no operation of the protocol is unsupported when its name is a text of
      one to forty code units, and invalid otherwise. */
  lemma OtherOperations(record: Record, operation: Units)
    requires BASE <= record.Keys <= BASE + ALL_FIELDS && record[Version] == Number(1)
    requires TextValue(record, RequestId, 100).Ok? && Has(record, Operation, Text(operation))
    requires forall i :: 0 <= i < |OPERATIONS| ==> Ascii(OPERATIONS[i]) != operation
    ensures ParseRequest(Object(record)) ==
            Err(if TextFits(operation, 40) then UnsupportedOperation else Invalid(Operation))
  {
    VerbsAreTheOperations();
    hide VerbName, Ascii;
    NameOfNoVerb(operation, VERBS);
  }

  function ParsePing(record: Record): Result<Body> {
    var _ :- ExactKeys(record, BASE, {});
    Ok(Ping)
  }

  function ParseCreate(record: Record): Result<Body>
    requires BASE <= record.Keys
  {
    var _ :- ExactKeys(record, BASE + {TaskField, AttemptField}, {});
    var task :- ParseTask(record[TaskField]);
    var attempt :- IntegerValue(record, AttemptField, 1, 2);
    Ok(Create(task, attempt))
  }

  function ParseResume(record: Record): Result<Body>
    requires BASE <= record.Keys
  {
    var _ :- ExactKeys(record, BASE + {TaskField, ProfileDirectory, LastPageUrl, ExpectedSessionId}, {});
    var task :- ParseTask(record[TaskField]);
    var profileDirectory :- TextValue(record, ProfileDirectory, 4_096);
    var lastPageUrl :- TextValue(record, LastPageUrl, 10_000);
    var expectedSessionId :- TextValue(record, ExpectedSessionId, 300);
    Ok(Resume(task, profileDirectory, lastPageUrl, expectedSessionId))
  }

  function ParseOnSession(record: Record, verb: Verb): Result<Body>
    requires BASE <= record.Keys
  {
    var _ :- ExactKeys(record, BASE + {SessionId}, {});
    var sessionId :- TextValue(record, SessionId, 300);
    Ok(
      match verb
      case ToOpen => Open(sessionId)
      case ToPrepare => Prepare(sessionId)
      case ToCollect => Collect(sessionId)
      case ToCapture => Capture(sessionId)
      case _ => Handoff(sessionId))
  }

  function ParsePrompted(record: Record, verb: Verb): Result<Body>
    requires BASE <= record.Keys
  {
    var _ :- ExactKeys(record, BASE + {SessionId, PromptText}, {});
    var sessionId :- TextValue(record, SessionId, 300);
    var promptText :- TextValue(record, PromptText, 500_000);
    Ok(if verb == ToSubmit then Submit(sessionId, promptText) else Confirm(sessionId, promptText))
  }

  function ParseClose(record: Record): Result<Body>
    requires BASE <= record.Keys
  {
    var _ :- ExactKeys(record, BASE + {SessionId, OutcomeField}, {});
    var outcome :- EnumValue(record, OutcomeField, OUTCOMES);
    var sessionId :- TextValue(record, SessionId, 300);
    Ok(Close(sessionId, outcome))
  }

  function ParseRelease(record: Record): Result<Body>
    requires BASE <= record.Keys
  {
    var _ :- ExactKeys(record, BASE + {SessionId, ArtifactIds}, {});
    var list := record[ArtifactIds];
    if !list.Array? || |list.items| < 1 || |list.items| > 2 then Err(Invalid(ArtifactIds))
    else
      var sessionId :- TextValue(record, SessionId, 300);
      var artifactIds :- ParseTexts(list.items);
      Ok(ReleaseEvidence(sessionId, artifactIds))
  }

  function ParseTexts(items: seq<Value>): Result<seq<Units>> {
    if items == [] then Ok([])
    else
      var first :- TextOf(items[0], ArtifactIds, 100);
      var others :- ParseTexts(items[1..]);
      Ok([first] + others)
  }

  // ---- What a request looks like on the wire ----------------------------------------

  ghost predicate TaskFits(task: Task) {
    && TextFits(task.id, 300) && TextFits(task.batchId, 300) && TextFits(task.brandId, 300)
    && TextFits(task.promptText, 500_000)
    && task.surfaceTargetKey in SURFACES && task.captureRouteKey in ROUTES
    && 1 <= task.sampleIndex <= 1_000_000
    && task.sessionRequirement in SESSIONS && task.searchRequirement in SEARCHES && task.evaluationRole in ROLES
    && (task.minimumEvidenceArtifacts.Some? ==> 1 <= task.minimumEvidenceArtifacts.value <= 20)
    && 0 <= task.automationAttemptCount <= 100
    && 1 <= task.leaseGeneration <= 1_000_000
  }

  function TaskFields(task: Task): set<Field> {
    TASK_FIELDS + if task.minimumEvidenceArtifacts.Some? then {MinimumEvidenceArtifacts} else {}
  }

  function TaskFieldValue(task: Task, field: Field): Value {
    match field
    case Id => Text(task.id)
    case BatchId => Text(task.batchId)
    case BrandId => Text(task.brandId)
    case PromptText => Text(task.promptText)
    case SurfaceTargetKey => Text(task.surfaceTargetKey)
    case CaptureRouteKey => Text(task.captureRouteKey)
    case SampleIndex => Number(task.sampleIndex)
    case SessionRequirement => Text(task.sessionRequirement)
    case SearchRequirement => Text(task.searchRequirement)
    case EvaluationRole => Text(task.evaluationRole)
    case AutomationAttemptCount => Number(task.automationAttemptCount)
    case LeaseGeneration => Number(task.leaseGeneration)
    case MinimumEvidenceArtifacts =>
      if task.minimumEvidenceArtifacts.Some? then Number(task.minimumEvidenceArtifacts.value) else Null
    case _ => Null
  }

  /** The object that stands for a task: every field, and the optional one only when it is set. */
  function TaskValue(task: Task): Value {
    Object(map field | field in TaskFields(task) :: TaskFieldValue(task, field))
  }

  ghost predicate BodyFits(body: Body) {
    match body
    case Ping => true
    case Create(task, attempt) => TaskFits(task) && 1 <= attempt <= 2
    case Resume(task, profileDirectory, lastPageUrl, expectedSessionId) =>
      && TaskFits(task) && TextFits(profileDirectory, 4_096) && TextFits(lastPageUrl, 10_000)
      && TextFits(expectedSessionId, 300)
    case Submit(sessionId, promptText) => TextFits(sessionId, 300) && TextFits(promptText, 500_000)
    case Confirm(sessionId, promptText) => TextFits(sessionId, 300) && TextFits(promptText, 500_000)
    case Close(sessionId, outcome) => TextFits(sessionId, 300) && outcome in OUTCOMES
    case ReleaseEvidence(sessionId, artifactIds) =>
      && TextFits(sessionId, 300) && 1 <= |artifactIds| <= 2
      && forall i :: 0 <= i < |artifactIds| ==> TextFits(artifactIds[i], 100)
    case _ => TextFits(body.sessionId, 300)
  }

  ghost predicate RequestFits(request: Request) {
    TextFits(request.requestId, 100) && BodyFits(request.body)
  }

  function VerbFor(body: Body): Verb {
    match body
    case Ping => ToPing
    case Create(_, _) => ToCreate
    case Resume(_, _, _, _) => ToResume
    case Open(_) => ToOpen
    case Prepare(_) => ToPrepare
    case Collect(_) => ToCollect
    case Capture(_) => ToCapture
    case Handoff(_) => ToHandoff
    case Submit(_, _) => ToSubmit
    case Confirm(_, _) => ToConfirm
    case Close(_, _) => ToClose
    case ReleaseEvidence(_, _) => ToRelease
  }

  function Texts(items: seq<Units>): (values: seq<Value>)
    ensures |values| == |items|
  {
    seq(|items|, i requires 0 <= i < |items| => Text(items[i]))
  }

  /** The fields beside the version, the request id and the operation. */
  function BodyRecord(body: Body): Record {
    match body
    case Ping => map[]
    case Create(task, attempt) => map[TaskField := TaskValue(task), AttemptField := Number(attempt)]
    case Resume(task, profileDirectory, lastPageUrl, expectedSessionId) =>
      map[
        TaskField := TaskValue(task), ProfileDirectory := Text(profileDirectory), LastPageUrl := Text(lastPageUrl),
        ExpectedSessionId := Text(expectedSessionId)]
    case Submit(sessionId, promptText) => map[SessionId := Text(sessionId), PromptText := Text(promptText)]
    case Confirm(sessionId, promptText) => map[SessionId := Text(sessionId), PromptText := Text(promptText)]
    case Close(sessionId, outcome) => map[SessionId := Text(sessionId), OutcomeField := Text(outcome)]
    case ReleaseEvidence(sessionId, artifactIds) =>
      map[SessionId := Text(sessionId), ArtifactIds := Array(Texts(artifactIds))]
    case _ => map[SessionId := Text(body.sessionId)]
  }

  function BaseRecord(requestId: Units, operation: Units): Record {
    map[Version := Number(1), RequestId := Text(requestId), Operation := Text(operation)]
  }

  function RequestValue(request: Request): Value {
    Object(BodyRecord(request.body) + BaseRecord(request.requestId, VerbName(VerbFor(request.body))))
  }

  // ---- The parser accepts exactly those values -----------------------------------------

  /** What the parser has found once it has read a whole task. */
  ghost predicate TaskFound(record: Record, task: Task) {
    && TASK_FIELDS <= record.Keys <= TASK_FIELDS + {MinimumEvidenceArtifacts}
    && (MinimumEvidenceArtifacts in record <==> task.minimumEvidenceArtifacts.Some?)
    && (task.minimumEvidenceArtifacts.Some? ==>
          Has(record, MinimumEvidenceArtifacts, Number(task.minimumEvidenceArtifacts.value)))
    && Has(record, Id, Text(task.id)) && Has(record, BatchId, Text(task.batchId))
    && Has(record, BrandId, Text(task.brandId)) && Has(record, PromptText, Text(task.promptText))
    && Has(record, SurfaceTargetKey, Text(task.surfaceTargetKey))
    && Has(record, CaptureRouteKey, Text(task.captureRouteKey))
    && Has(record, SampleIndex, Number(task.sampleIndex))
    && Has(record, SessionRequirement, Text(task.sessionRequirement))
    && Has(record, SearchRequirement, Text(task.searchRequirement))
    && Has(record, EvaluationRole, Text(task.evaluationRole))
    && Has(record, AutomationAttemptCount, Number(task.automationAttemptCount))
    && Has(record, LeaseGeneration, Number(task.leaseGeneration))
  }

  lemma TaskIsFound(record: Record, task: Task)
    ensures ParseTask(Object(record)) == Ok(task) <==> TaskFits(task) && TaskFound(record, task)
  {
    hide TextFits, Has, TextValue, EnumValue, IntegerValue, SURFACES, ROUTES, SESSIONS, SEARCHES, ROLES, TASK_FIELDS;
  }

  lemma FoundAt(record: Record, task: Task, field: Field)
    requires TaskFound(record, task) && field in record
    ensures record[field] == TaskFieldValue(task, field)
  {
  }

  /** A field of a task's object, by its name and what the task has for it. */
  predicate Lists(task: Task, field: Field, value: Value) {
    field in TASK_FIELDS && TaskFieldValue(task, field) == value
  }

  lemma TaskFieldsAre(task: Task)
    ensures Lists(task, Id, Text(task.id)) && Lists(task, BatchId, Text(task.batchId))
    ensures Lists(task, BrandId, Text(task.brandId)) && Lists(task, PromptText, Text(task.promptText))
    ensures Lists(task, SurfaceTargetKey, Text(task.surfaceTargetKey))
    ensures Lists(task, CaptureRouteKey, Text(task.captureRouteKey))
    ensures Lists(task, SampleIndex, Number(task.sampleIndex))
    ensures Lists(task, SessionRequirement, Text(task.sessionRequirement))
    ensures Lists(task, SearchRequirement, Text(task.searchRequirement))
    ensures Lists(task, EvaluationRole, Text(task.evaluationRole))
    ensures Lists(task, AutomationAttemptCount, Number(task.automationAttemptCount))
    ensures Lists(task, LeaseGeneration, Number(task.leaseGeneration))
    ensures MinimumEvidenceArtifacts !in TASK_FIELDS
  {
  }

  lemma FieldsAreFound(record: Record, task: Task)
    requires record.Keys == TaskFields(task)
    requires forall field :: field in record ==> record[field] == TaskFieldValue(task, field)
    ensures TaskFound(record, task)
  {
    TaskFieldsAre(task);
    assert forall field, value :: Lists(task, field, value) ==> Has(record, field, value);
    assert task.minimumEvidenceArtifacts.Some? ==>
        Has(record, MinimumEvidenceArtifacts, Number(task.minimumEvidenceArtifacts.value));
    hide TASK_FIELDS, TaskFieldValue, Lists, Has;
  }

  lemma FoundIsWhole(record: Record, task: Task)
    ensures TaskFound(record, task) <==> Object(record) == TaskValue(task)
  {
    hide TaskFound, TaskFieldValue, TaskFields;
    var whole := TaskValue(task).record;
    assert whole.Keys == TaskFields(task);
    FieldsAreFound(whole, task);
    if TaskFound(record, task) {
      FoundKeys(record, task);
      forall field | field in record ensures record[field] == TaskFieldValue(task, field) {
        FoundAt(record, task, field);
      }
      assert record == whole;
    }
  }

  lemma FoundKeys(record: Record, task: Task)
    requires TaskFound(record, task)
    ensures record.Keys == TaskFields(task)
  {
    hide Has, TASK_FIELDS;
  }

  /** A value parses as a task exactly when it is that task's own object and the task
      is well formed: no field is dropped, renamed or added. */
  lemma TaskIsExact(value: Value, task: Task)
    ensures ParseTask(value) == Ok(task) <==> TaskFits(task) && value == TaskValue(task)
  {
    hide TaskFound, TaskFits;
    if value.Object? {
      hide ParseTask;
      TaskIsFound(value.record, task);
      FoundIsWhole(value.record, task);
    }
  }

  lemma {:induction false} TextsAreExact(items: seq<Value>, texts: seq<Units>)
    ensures ParseTexts(items) == Ok(texts) <==>
            (forall i :: 0 <= i < |texts| ==> TextFits(texts[i], 100)) && items == Texts(texts)
  {
    hide TextFits;
    if items == [] {
      assert Texts([]) == [];
    } else if texts != [] {
      TextsAreExact(items[1..], texts[1..]);
      assert Texts(texts) == [Text(texts[0])] + Texts(texts[1..]);
      assert items == [items[0]] + items[1..] && texts == [texts[0]] + texts[1..];
    }
  }

  lemma {:induction false} NamesDiffer(verb: Verb, verbs: seq<Verb>)
    requires forall i, j :: 0 <= i < j < |verbs| ==> verbs[i] != verbs[j]
    requires verb in verbs
    ensures VerbOf(VerbName(verb), verbs) == Ok(verb)
  {
    if verb != verbs[0] {
      NameIsOwn(verb, verbs[0]);
      NamesDiffer(verb, verbs[1..]);
    }
  }

  lemma VerbIsListed(verb: Verb)
    ensures VerbOf(VerbName(verb), VERBS) == Ok(verb)
  {
    NamesDiffer(verb, VERBS);
  }

  lemma NameIsOwn(verb: Verb, other: Verb)
    ensures VerbName(verb) == VerbName(other) ==> verb == other
  {
    var name, otherName := VerbName(verb), VerbName(other);
    assert name == otherName ==> |name| == |otherName| && name[0] == otherName[0] && name[2] == otherName[2];
  }

  lemma NameFits(verb: Verb)
    ensures TextFits(VerbName(verb), 40)
  {
  }

  /** The record is the base fields and these. */
  ghost predicate Whole(record: Record, extra: Record) {
    record.Keys == BASE + extra.Keys && forall field :: field in extra ==> record[field] == extra[field]
  }

  lemma WholeIsMerged(record: Record, requestId: Units, operation: Units, extra: Record)
    requires BASE <= record.Keys && extra.Keys !! BASE && record[Version] == Number(1)
    requires record[RequestId] == Text(requestId) && record[Operation] == Text(operation)
    ensures Whole(record, extra) <==> record == extra + BaseRecord(requestId, operation)
  {
    if Whole(record, extra) {
      assert record == extra + BaseRecord(requestId, operation);
    }
  }

  /** The body is the whole of what the record has to say for that verb. */
  ghost predicate Exact(record: Record, verb: Verb, body: Body) {
    VerbFor(body) == verb && BodyFits(body) && Whole(record, BodyRecord(body))
  }

  lemma PingIsExact(record: Record, body: Body)
    ensures ParsePing(record) == Ok(body) <==> Exact(record, ToPing, body)
  {
  }

  lemma CreateIsExact(record: Record, body: Body)
    requires BASE <= record.Keys
    ensures ParseCreate(record) == Ok(body) <==> Exact(record, ToCreate, body)
  {
    hide ParseTask, TaskFits, TaskValue, BASE;
    if TaskField in record && body.Create? {
      TaskIsExact(record[TaskField], body.task);
    }
  }

  lemma ResumeIsExact(record: Record, body: Body)
    requires BASE <= record.Keys
    ensures ParseResume(record) == Ok(body) <==> Exact(record, ToResume, body)
  {
    hide ParseTask, TaskFits, TaskValue, TextFits, TextValue, BASE;
    if TaskField in record && body.Resume? {
      TaskIsExact(record[TaskField], body.task);
    }
  }

  lemma OnSessionIsExact(record: Record, verb: Verb, body: Body)
    requires BASE <= record.Keys && verb in [ToOpen, ToPrepare, ToCollect, ToCapture, ToHandoff]
    ensures ParseOnSession(record, verb) == Ok(body) <==> Exact(record, verb, body)
  {
    hide TextFits, TextValue, BASE;
  }

  lemma PromptedIsExact(record: Record, verb: Verb, body: Body)
    requires BASE <= record.Keys && (verb == ToSubmit || verb == ToConfirm)
    ensures ParsePrompted(record, verb) == Ok(body) <==> Exact(record, verb, body)
  {
    hide TextFits, TextValue, BASE;
  }

  lemma CloseIsExact(record: Record, body: Body)
    requires BASE <= record.Keys
    ensures ParseClose(record) == Ok(body) <==> Exact(record, ToClose, body)
  {
    hide TextFits, TextValue, BASE, OUTCOMES;
  }

  lemma ReleaseIsExact(record: Record, body: Body)
    requires BASE <= record.Keys
    ensures ParseRelease(record) == Ok(body) <==> Exact(record, ToRelease, body)
  {
    hide TextFits, TextValue, BASE, ParseTexts, Texts;
    if ArtifactIds in record && record[ArtifactIds].Array? && body.ReleaseEvidence? {
      TextsAreExact(record[ArtifactIds].items, body.artifactIds);
    }
  }

  lemma BodyIsExact(record: Record, verb: Verb, body: Body)
    requires BASE <= record.Keys
    ensures ParseBody(record, VerbName(verb)) == Ok(body) <==> Exact(record, verb, body)
  {
    hide Exact, VerbName, ParseCreate, ParseResume, ParseOnSession, ParsePrompted, ParseClose, ParseRelease, BASE,
      VERBS, VerbOf, ParsePing;
    VerbIsListed(verb);
    match verb
    case ToPing => PingIsExact(record, body);
    case ToCreate => CreateIsExact(record, body);
    case ToResume => ResumeIsExact(record, body);
    case ToSubmit => PromptedIsExact(record, verb, body);
    case ToConfirm => PromptedIsExact(record, verb, body);
    case ToClose => CloseIsExact(record, body);
    case ToRelease => ReleaseIsExact(record, body);
    case _ => OnSessionIsExact(record, verb, body);
  }

  lemma {:induction false} VerbIsNamed(name: Units, verbs: seq<Verb>)
    ensures VerbOf(name, verbs).Ok? ==> name == VerbName(VerbOf(name, verbs).value)
  {
    if verbs != [] && name != VerbName(verbs[0]) {
      VerbIsNamed(name, verbs[1..]);
    }
  }

  lemma ParsedIsExact(record: Record, request: Request)
    requires ParseRequest(Object(record)) == Ok(request)
    ensures RequestFits(request) && Object(record) == RequestValue(request)
  {
    hide TextFits, ParseBody, BodyFits, Whole, VerbName, VerbOf, BodyRecord;
    var operation := record[Operation].units;
    VerbIsNamed(operation, VERBS);
    assert VerbOf(operation, VERBS).Ok? by {
      BodyNamesItsVerb(record, operation);
    }
    var verb := VerbOf(operation, VERBS).value;
    BodyIsExact(record, verb, request.body);
    NotInBase(request.body);
    WholeIsMerged(record, request.requestId, operation, BodyRecord(request.body));
  }

  lemma BodyNamesItsVerb(record: Record, operation: Units)
    requires BASE <= record.Keys
    ensures ParseBody(record, operation).Ok? ==> VerbOf(operation, VERBS).Ok?
  {
    hide VerbOf, ParseCreate, ParseResume, ParseOnSession, ParsePrompted, ParseClose, ParseRelease, ParsePing;
  }

  lemma NotInBase(body: Body)
    ensures BodyRecord(body).Keys !! BASE
  {
    hide TaskValue, Texts;
  }

  lemma ExactIsParsed(request: Request)
    requires RequestFits(request)
    ensures ParseRequest(RequestValue(request)) == Ok(request)
  {
    var verb, extra := VerbFor(request.body), BodyRecord(request.body);
    var record := RequestValue(request).record;
    NotInBase(request.body);
    NameFits(verb);
    hide TextFits, ParseBody, BodyFits, Whole, VerbName, BodyRecord;
    assert record[Version] == Number(1) && record[RequestId] == Text(request.requestId);
    assert record[Operation] == Text(VerbName(verb));
    WholeIsMerged(record, request.requestId, VerbName(verb), extra);
    BodyIsExact(record, verb, request.body);
    KeysAreKnown(record, request.body);
  }

  lemma KeysAreKnown(record: Record, body: Body)
    requires Whole(record, BodyRecord(body))
    ensures BASE <= record.Keys <= BASE + ALL_FIELDS
  {
    hide TaskValue, Texts;
  }

  /** A value parses as a request exactly when it is that request's own object and the
      request is well formed: the parser drops nothing, adds nothing and mixes nothing up. */
  lemma RequestIsExact(value: Value, request: Request)
    ensures ParseRequest(value) == Ok(request) <==> RequestFits(request) && value == RequestValue(request)
  {
    if ParseRequest(value) == Ok(request) {
      ParsedIsExact(value.record, request);
    }
    if RequestFits(request) {
      ExactIsParsed(request);
    }
  }
}
