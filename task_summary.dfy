/**
  The summary table of one task: the ordered label/value rows the task panel shows
  for a task execution record. Four heading rows come first; the other built-in
  rows appear only under their conditions; the rows an embedding application
  configures are appended last, in configuration order, unless their renderer
  yields `undefined`.
 */
module TaskSummary {
  import opened Js

  /** The fields of the task's definition the table reads (`workflowTask`). */
  datatype WorkflowTask = WorkflowTask(
    definitionType: Option<string>,        // `type`
    name: Option<string>,
    aliasForRef: Option<string>,
    taskReferenceName: Option<string>,
    subWorkflowParamName: Option<string>)  // `subWorkflowParam.name`

  /** The task types and the status the table tests for, and the pages its links open. */
  const InProgress: string := "IN_PROGRESS"
  const Decision: string := "DECISION"
  const SubWorkflow: string := "SUB_WORKFLOW"
  const NotExecuted: string := "Not executed"
  const WorkflowDefPage: string := "/workflowDef/"
  const ExecutionPage: string := "/execution/"

  /** What `workflowTask?.x` reads when the record has no definition: nothing. */
  const NoDefinition := WorkflowTask(None, None, None, None, None)

  /** A key that may be missing, or present with `null`, with `undefined` or with a string. */
  datatype Keyed = NoKey | NullValue | UndefinedValue | Held(s: string)

  /** A task execution record, as far as the table reads it. */
  datatype TaskRecord = TaskRecord(
    workflowTask: Option<WorkflowTask>,
    taskType: Option<string>,
    status: Option<string>,
    taskDefName: Option<string>,
    referenceTaskName: Option<string>,
    domain: Option<string>,
    taskId: Option<string>,
    retryCount: Option<int>,               // Some iff it is a finite number
    lowercaseRetrycount: bool,             // a non-nil field spelled `retrycount` exists
    scheduledTime: int,                    // epoch milliseconds; 0 when unset
    startTime: int,
    endTime: int,
    reasonForIncompletion: Option<string>,
    workerId: Option<string>,
    caseOutput: Option<seq<string>>,       // `outputData.caseOutput`
    inputSubWorkflowName: Option<string>,  // `inputData.subWorkflowName`
    subWorkflowId: Keyed,
    externalInputPayloadStoragePath: Option<string>,
    externalOutputPayloadStoragePath: Option<string>)

  /** A cell value: JavaScript's `undefined`, `null` and `false`, text, a number, or a link. */
  datatype Value = Undefined | Null | False | Text(s: string) | Number(n: int) | Link(path: string, caption: string)

  /** The labels of the built-in rows, and the labels of configured rows. */
  datatype Label =
    | TaskType | Status | TaskName | TaskReference | Domain | TaskExecutionId | RetryCount
    | ScheduledTime | StartTime | EndTime | Duration | CurrentElapsedTime
    | ReasonForIncompletion | Worker | EvaluatedCase | SubworkflowDefinition | SubworkflowId
    | ExternalizedInput | ExternalizedOutput
    | Custom(text: string)

  /** How the table formats a value (`type`), `NoType` when the row has none. */
  datatype Format = NoType | DateMs | DurationMs | WorkerIdRef | ExternalTaskInput | ExternalTaskOutput

  datatype Entry = Entry(key: Label, value: Value, format: Format)

  /** A row configured by the embedding application. */
  datatype CustomRow = CustomRow(caption: string, renderer: TaskRecord -> Value)

  /** The text of a label as the table shows it. */
  function LabelText(l: Label): string {
    match l
    case TaskType => "Task Type"
    case Status => "Status"
    case TaskName => "Task Name"
    case TaskReference => "Task Reference"
    case Domain => "Domain"
    case TaskExecutionId => "Task Execution ID"
    case RetryCount => "Retry Count"
    case ScheduledTime => "Scheduled Time"
    case StartTime => "Start Time"
    case EndTime => "End Time"
    case Duration => "Duration"
    case CurrentElapsedTime => "Current Elapsed Time"
    case ReasonForIncompletion => "Reason for Incompletion"
    case Worker => "Worker"
    case EvaluatedCase => "Evaluated Case"
    case SubworkflowDefinition => "Subworkflow Definition"
    case SubworkflowId => "Subworkflow ID"
    case ExternalizedInput => "Externalized Input"
    case ExternalizedOutput => "Externalized Output"
    case Custom(text) => text
  }

  /** The `type` string of a format. */
  function FormatText(f: Format): Option<string> {
    match f
    case NoType => None
    case DateMs => Some("date-ms")
    case DurationMs => Some("duration")
    case WorkerIdRef => Some("workerId")
    case ExternalTaskInput => Some("externalTaskInput")
    case ExternalTaskOutput => Some("externalTaskOutput")
  }

  /**
    The built-in labels are pairwise different texts, so counting rows by `Label`
    counts them by the text the table shows.
   */
  lemma BuiltinLabelTextsDistinct(a: Label, b: Label)
    requires !a.Custom? && !b.Custom? && a != b
    ensures LabelText(a) != LabelText(b)
  {
  }

  /** Different formats are different `type` strings, and only `NoType` has none. */
  lemma FormatTextsDistinct(a: Format, b: Format)
    requires a != b
    ensures FormatText(a) != FormatText(b)
  {
  }

  // ---------------------------------------------------------------------------
  // Reading the record with JavaScript's operators.

  function Definition(t: TaskRecord): WorkflowTask {
    match t.workflowTask
    case Some(w) => w
    case None => NoDefinition
  }

  function Str(o: Option<string>): Value {
    match o
    case None => Undefined
    case Some(s) => Text(s)
  }

  function Num(o: Option<int>): Value {
    match o
    case None => Undefined
    case Some(n) => Number(n)
  }

  /** `x > 0 && v`: the value when the time is positive, `false` otherwise. */
  function IfPositive(x: int, v: Value): Value {
    if x > 0 then v else False
  }

  /** What React shows for an optional string child: nothing when it is absent. */
  function Shown(o: Option<string>): string {
    match o
    case None => ""
    case Some(s) => s
  }

  /** `workflowTask?.type || taskType`: the definition's type unless it is blank, then the record's. */
  function TaskTypeOf(t: TaskRecord): (r: Option<string>)
    ensures Truthy(Definition(t).definitionType) ==> r == Definition(t).definitionType
    ensures !Truthy(Definition(t).definitionType) ==> r == t.taskType
  {
    Or(Definition(t).definitionType, t.taskType)
  }

  /**
    `inputData?.subWorkflowName || workflowTask?.subWorkflowParam?.name`: the name the
    task was started with unless it is blank, then the one in its definition.
   */
  function SubWorkflowName(t: TaskRecord): (r: Option<string>)
    ensures Truthy(t.inputSubWorkflowName) ==> r == t.inputSubWorkflowName
    ensures !Truthy(t.inputSubWorkflowName) ==> r == Definition(t).subWorkflowParamName
  {
    Or(t.inputSubWorkflowName, Definition(t).subWorkflowParamName)
  }

  function SubWorkflowIdLink(k: Keyed): Value {
    match k
    case NoKey => Link(ExecutionPage + "undefined", "")
    case NullValue => Link(ExecutionPage + "null", "")
    case UndefinedValue => Link(ExecutionPage + "undefined", "")
    case Held(s) => Link(ExecutionPage + s, s)
  }

  // ---------------------------------------------------------------------------
  // The reference definition of the table, group by group in source order.

  function Heading(t: TaskRecord): seq<Entry> {
    [Entry(TaskType, Str(TaskTypeOf(t)), NoType)]
    + [Entry(Status, Str(Or(t.status, Some(NotExecuted))), NoType)]
    + [Entry(TaskName, Str(Or(Definition(t).name, t.taskDefName)), NoType)]
    + [Entry(TaskReference, Str(Or(Or(t.referenceTaskName, Definition(t).aliasForRef), Definition(t).taskReferenceName)), NoType)]
  }

  /** The row `e` when `c` holds, nothing otherwise: one conditional `push`. */
  function Opt(c: bool, e: Entry): seq<Entry> {
    if c then [e] else []
  }

  /** The domain, the attempt id and a finite retry count. */
  function IdentityRows(t: TaskRecord): seq<Entry> {
    Opt(Truthy(t.domain), Entry(Domain, Str(t.domain), NoType))
    + Opt(Truthy(t.taskId), Entry(TaskExecutionId, Str(t.taskId), NoType))
    + Opt(t.retryCount.Some?, Entry(RetryCount, Num(t.retryCount), NoType))
  }

  /** The times that are set, the duration and the elapsed time. */
  function TimingRows(t: TaskRecord, now: int): seq<Entry> {
    Opt(t.scheduledTime != 0, Entry(ScheduledTime, IfPositive(t.scheduledTime, Number(t.scheduledTime)), DateMs))
    + Opt(t.startTime != 0, Entry(StartTime, IfPositive(t.startTime, Number(t.startTime)), DateMs))
    + Opt(t.endTime != 0, Entry(EndTime, Number(t.endTime), DateMs))
    + Opt(t.startTime != 0 && t.endTime != 0,
          Entry(Duration, IfPositive(t.startTime, Number(t.endTime - t.startTime)), DurationMs))
    + Opt(t.startTime != 0 && t.status == Some(InProgress),
          Entry(CurrentElapsedTime, IfPositive(t.startTime, Number(now - t.startTime)), DurationMs))
  }

  /** The second retry count, the reason for incompletion and the worker. */
  function OutcomeRows(t: TaskRecord): seq<Entry> {
    Opt(t.lowercaseRetrycount, Entry(RetryCount, Num(t.retryCount), NoType))
    + Opt(Truthy(t.reasonForIncompletion), Entry(ReasonForIncompletion, Str(t.reasonForIncompletion), NoType))
    + Opt(Truthy(t.workerId), Entry(Worker, Str(t.workerId), WorkerIdRef))
  }

  /** The first case a decision evaluated, `false` when there is none. */
  function CaseValue(t: TaskRecord): Value {
    if t.caseOutput.Some? && |t.caseOutput.value| > 0 then Text(t.caseOutput.value[0]) else False
  }

  /** The rows of decision and sub-workflow tasks. */
  function TypeSpecificRows(t: TaskRecord): seq<Entry> {
    Opt(TaskTypeOf(t) == Some(Decision), Entry(EvaluatedCase, CaseValue(t), NoType))
    + Opt(TaskTypeOf(t) == Some(SubWorkflow),
          Entry(SubworkflowDefinition, Link(WorkflowDefPage + Template(SubWorkflowName(t)), Shown(SubWorkflowName(t)) + " "), NoType))
    + Opt(TaskTypeOf(t) == Some(SubWorkflow) && t.subWorkflowId != NoKey,
          Entry(SubworkflowId, SubWorkflowIdLink(t.subWorkflowId), NoType))
  }

  /** The locations of externalized payloads. */
  function PayloadRows(t: TaskRecord): seq<Entry> {
    Opt(Truthy(t.externalInputPayloadStoragePath),
        Entry(ExternalizedInput, Str(t.externalInputPayloadStoragePath), ExternalTaskInput))
    + Opt(Truthy(t.externalOutputPayloadStoragePath),
          Entry(ExternalizedOutput, Str(t.externalOutputPayloadStoragePath), ExternalTaskOutput))
  }

  /** All built-in rows, in the order the table shows them. */
  function Builtin(t: TaskRecord, now: int): seq<Entry> {
    Heading(t) + IdentityRows(t) + TimingRows(t, now) + OutcomeRows(t) + TypeSpecificRows(t) + PayloadRows(t)
  }

  /** The configured rows, each rendered against the record; `undefined` renders drop out. */
  function CustomEntries(t: TaskRecord, rows: seq<CustomRow>): seq<Entry>
    decreases |rows|
  {
    if rows == [] then []
    else
      var last := rows[|rows| - 1];
      CustomEntries(t, rows[..|rows| - 1])
      + (if last.renderer(t) != Undefined then [Entry(Custom(last.caption), last.renderer(t), NoType)] else [])
  }

  /** The whole table. */
  function SummaryRows(t: TaskRecord, now: int, rows: seq<CustomRow>): seq<Entry> {
    Builtin(t, now) + CustomEntries(t, rows)
  }

  // ---------------------------------------------------------------------------
  // The table as the component builds it: successive pushes, then a loop.

  /** Pushes the domain, the attempt id and a finite retry count. */
  method PushIdentity(t: TaskRecord, rows: seq<Entry>) returns (data: seq<Entry>)
    ensures data == rows + IdentityRows(t)
  {
    data := rows;
    if Truthy(t.domain) {
      data := data + [Entry(Domain, Str(t.domain), NoType)];
    }
    if Truthy(t.taskId) {
      data := data + [Entry(TaskExecutionId, Str(t.taskId), NoType)];
    }
    if t.retryCount.Some? {
      data := data + [Entry(RetryCount, Num(t.retryCount), NoType)];
    }
  }

  /** Pushes the times that are set, then the duration and the elapsed time. */
  method PushTiming(t: TaskRecord, now: int, rows: seq<Entry>) returns (data: seq<Entry>)
    ensures data == rows + TimingRows(t, now)
  {
    data := rows;
    if t.scheduledTime != 0 {
      data := data + [Entry(ScheduledTime, IfPositive(t.scheduledTime, Number(t.scheduledTime)), DateMs)];
    }
    if t.startTime != 0 {
      data := data + [Entry(StartTime, IfPositive(t.startTime, Number(t.startTime)), DateMs)];
    }
    if t.endTime != 0 {
      data := data + [Entry(EndTime, Number(t.endTime), DateMs)];
    }
    if t.startTime != 0 && t.endTime != 0 {
      data := data + [Entry(Duration, IfPositive(t.startTime, Number(t.endTime - t.startTime)), DurationMs)];
    }
    if t.startTime != 0 && t.status == Some(InProgress) {
      data := data + [Entry(CurrentElapsedTime, IfPositive(t.startTime, Number(now - t.startTime)), DurationMs)];
    }
  }

  /** Pushes the second retry count, the reason for incompletion and the worker. */
  method PushOutcome(t: TaskRecord, rows: seq<Entry>) returns (data: seq<Entry>)
    ensures data == rows + OutcomeRows(t)
  {
    data := rows;
    if t.lowercaseRetrycount {
      data := data + [Entry(RetryCount, Num(t.retryCount), NoType)];
    }
    if Truthy(t.reasonForIncompletion) {
      data := data + [Entry(ReasonForIncompletion, Str(t.reasonForIncompletion), NoType)];
    }
    if Truthy(t.workerId) {
      data := data + [Entry(Worker, Str(t.workerId), WorkerIdRef)];
    }
  }

  /** Pushes the rows of a DECISION or a SUB_WORKFLOW task of type `taskType`. */
  method PushTypeSpecific(t: TaskRecord, taskType: Option<string>, rows: seq<Entry>) returns (data: seq<Entry>)
    requires taskType == TaskTypeOf(t)
    ensures data == rows + TypeSpecificRows(t)
  {
    data := rows;
    if taskType == Some(Decision) {
      var hasCase := t.caseOutput.Some? && |t.caseOutput.value| > 0;
      data := data + [Entry(EvaluatedCase, if hasCase then Text(t.caseOutput.value[0]) else False, NoType)];
    }
    if taskType == Some(SubWorkflow) {
      var subWorkflowName := Or(t.inputSubWorkflowName, Definition(t).subWorkflowParamName);
      data := data + [Entry(SubworkflowDefinition, Link(WorkflowDefPage + Template(subWorkflowName), Shown(subWorkflowName) + " "), NoType)];
      if t.subWorkflowId != NoKey {
        data := data + [Entry(SubworkflowId, SubWorkflowIdLink(t.subWorkflowId), NoType)];
      }
    }
  }

  /** Pushes the locations of externalized input and output payloads. */
  method PushPayloads(t: TaskRecord, rows: seq<Entry>) returns (data: seq<Entry>)
    ensures data == rows + PayloadRows(t)
  {
    data := rows;
    if Truthy(t.externalInputPayloadStoragePath) {
      data := data + [Entry(ExternalizedInput, Str(t.externalInputPayloadStoragePath), ExternalTaskInput)];
    }
    if Truthy(t.externalOutputPayloadStoragePath) {
      data := data + [Entry(ExternalizedOutput, Str(t.externalOutputPayloadStoragePath), ExternalTaskOutput)];
    }
  }

  /**
    Builds the table of `taskResult` at time `now` with the configured rows
    `customRows`, and yields exactly the reference table.
   */
  method Summary(taskResult: TaskRecord, now: int, customRows: seq<CustomRow>) returns (data: seq<Entry>)
    ensures data == SummaryRows(taskResult, now, customRows)
  {
    var t := taskResult;
    var taskType := Or(Definition(t).definitionType, t.taskType);

    data := [
      Entry(TaskType, Str(taskType), NoType),
      Entry(Status, Str(Or(t.status, Some(NotExecuted))), NoType),
      Entry(TaskName, Str(Or(Definition(t).name, t.taskDefName)), NoType),
      Entry(TaskReference, Str(Or(Or(t.referenceTaskName, Definition(t).aliasForRef), Definition(t).taskReferenceName)), NoType)
    ];
    assert data == Heading(t);
    data := PushIdentity(t, data);
    data := PushTiming(t, now, data);
    data := PushOutcome(t, data);
    data := PushTypeSpecific(t, taskType, data);
    data := PushPayloads(t, data);
    assert data == Builtin(t, now);
    data := PushCustom(t, customRows, data);
  }

  /** Appends the rendering of every configured row whose renderer does not yield `undefined`. */
  method PushCustom(t: TaskRecord, customRows: seq<CustomRow>, rows: seq<Entry>) returns (data: seq<Entry>)
    ensures data == rows + CustomEntries(t, customRows)
  {
    data := rows;
    for i := 0 to |customRows|
      invariant data == rows + CustomEntries(t, customRows[..i])
    {
      var row := customRows[i];
      var rendered := row.renderer(t);
      if rendered != Undefined {
        data := data + [Entry(Custom(row.caption), rendered, NoType)];
      }
      assert customRows[..i + 1][..i] == customRows[..i];
    }
    assert customRows[..|customRows|] == customRows;
  }

  // ---------------------------------------------------------------------------
  // What the table promises.

  /** How many rows of `s` carry label `l`. */
  function Occurrences(s: seq<Entry>, l: Label): nat {
    if s == [] then 0
    else Occurrences(s[..|s| - 1], l) + (if s[|s| - 1].key == l then 1 else 0)
  }

  lemma {:induction false} OccurrencesAppend(a: seq<Entry>, b: seq<Entry>, l: Label)
    ensures Occurrences(a + b, l) == Occurrences(a, l) + Occurrences(b, l)
    decreases |b|
  {
    if b == [] {
      assert a + b == a;
    } else {
      assert (a + b)[..|a + b| - 1] == a + b[..|b| - 1];
      OccurrencesAppend(a, b[..|b| - 1], l);
    }
  }

  /** A conditional row counts once for its own label when it is there. */
  lemma OptOccurrences(c: bool, e: Entry, l: Label)
    ensures Occurrences(Opt(c, e), l) == Hit(c, e.key, l)
  {
    if c {
      assert [e][..0] == [];
    }
  }

  /** Counting splits over the three or five pieces of a group. */
  lemma OccurrencesOf3(a: seq<Entry>, b: seq<Entry>, c: seq<Entry>, l: Label)
    ensures Occurrences(a + b + c, l) == Occurrences(a, l) + Occurrences(b, l) + Occurrences(c, l)
  {
    OccurrencesAppend(a, b, l);
    OccurrencesAppend(a + b, c, l);
  }

  /** Counting a group of three or five conditional rows, whatever the rows are. */
  lemma {:induction false} CountOf3(c0: bool, e0: Entry, c1: bool, e1: Entry, c2: bool, e2: Entry, l: Label)
    ensures Occurrences(Opt(c0, e0) + Opt(c1, e1) + Opt(c2, e2), l) == Hit(c0, e0.key, l) + Hit(c1, e1.key, l) + Hit(c2, e2.key, l)
  {
    OccurrencesOf3(Opt(c0, e0), Opt(c1, e1), Opt(c2, e2), l);
    OptOccurrences(c0, e0, l);
    OptOccurrences(c1, e1, l);
    OptOccurrences(c2, e2, l);
  }

  lemma {:induction false} CountOf5(c0: bool, e0: Entry, c1: bool, e1: Entry, c2: bool, e2: Entry,
                                    c3: bool, e3: Entry, c4: bool, e4: Entry, l: Label)
    ensures Occurrences(Opt(c0, e0) + Opt(c1, e1) + Opt(c2, e2) + Opt(c3, e3) + Opt(c4, e4), l)
         == Hit(c0, e0.key, l) + Hit(c1, e1.key, l) + Hit(c2, e2.key, l) + Hit(c3, e3.key, l) + Hit(c4, e4.key, l)
  {
    var a := Opt(c0, e0) + Opt(c1, e1) + Opt(c2, e2);
    CountOf3(c0, e0, c1, e1, c2, e2, l);
    OccurrencesOf3(a, Opt(c3, e3), Opt(c4, e4), l);
    OptOccurrences(c3, e3, l);
    OptOccurrences(c4, e4, l);
  }

  lemma HeadingOccurrences(t: TaskRecord, l: Label)
    ensures Occurrences(Heading(t), l) == if l in {TaskType, Status, TaskName, TaskReference} then 1 else 0
    ensures forall e :: e in Heading(t) ==> e.key in {TaskType, Status, TaskName, TaskReference}
  {
    var e0 := Entry(TaskType, Str(TaskTypeOf(t)), NoType);
    var e1 := Entry(Status, Str(Or(t.status, Some(NotExecuted))), NoType);
    var e2 := Entry(TaskName, Str(Or(Definition(t).name, t.taskDefName)), NoType);
    var e3 := Entry(TaskReference, Str(Or(Or(t.referenceTaskName, Definition(t).aliasForRef), Definition(t).taskReferenceName)), NoType);
    OccurrencesOf3([e0], [e1], [e2], l);
    OccurrencesAppend([e0] + [e1] + [e2], [e3], l);
    OptOccurrences(true, e0, l);
    OptOccurrences(true, e1, l);
    OptOccurrences(true, e2, l);
    OptOccurrences(true, e3, l);
  }

  /** 1 when the row is pushed and carries label `l`, 0 otherwise. */
  function Hit(c: bool, k: Label, l: Label): nat {
    if c && k == l then 1 else 0
  }

  lemma IdentityOccurrences(t: TaskRecord, l: Label)
    ensures Occurrences(IdentityRows(t), l) ==
      Hit(Truthy(t.domain), Domain, l) + Hit(Truthy(t.taskId), TaskExecutionId, l) + Hit(t.retryCount.Some?, RetryCount, l)
  {
    var e0 := Entry(Domain, Str(t.domain), NoType);
    var e1 := Entry(TaskExecutionId, Str(t.taskId), NoType);
    var e2 := Entry(RetryCount, Num(t.retryCount), NoType);
    CountOf3(Truthy(t.domain), e0, Truthy(t.taskId), e1, t.retryCount.Some?, e2, l);
  }

  lemma TimingOccurrences(t: TaskRecord, now: int, l: Label)
    ensures Occurrences(TimingRows(t, now), l) ==
      Hit(t.scheduledTime != 0, ScheduledTime, l) + Hit(t.startTime != 0, StartTime, l) + Hit(t.endTime != 0, EndTime, l)
      + Hit(t.startTime != 0 && t.endTime != 0, Duration, l)
      + Hit(t.startTime != 0 && t.status == Some(InProgress), CurrentElapsedTime, l)
  {
    var e0 := Entry(ScheduledTime, IfPositive(t.scheduledTime, Number(t.scheduledTime)), DateMs);
    var e1 := Entry(StartTime, IfPositive(t.startTime, Number(t.startTime)), DateMs);
    var e2 := Entry(EndTime, Number(t.endTime), DateMs);
    var e3 := Entry(Duration, IfPositive(t.startTime, Number(t.endTime - t.startTime)), DurationMs);
    var e4 := Entry(CurrentElapsedTime, IfPositive(t.startTime, Number(now - t.startTime)), DurationMs);
    CountOf5(t.scheduledTime != 0, e0, t.startTime != 0, e1, t.endTime != 0, e2,
             t.startTime != 0 && t.endTime != 0, e3, t.startTime != 0 && t.status == Some(InProgress), e4, l);
  }

  lemma OutcomeOccurrences(t: TaskRecord, l: Label)
    ensures Occurrences(OutcomeRows(t), l) ==
      Hit(t.lowercaseRetrycount, RetryCount, l) + Hit(Truthy(t.reasonForIncompletion), ReasonForIncompletion, l)
      + Hit(Truthy(t.workerId), Worker, l)
  {
    var e0 := Entry(RetryCount, Num(t.retryCount), NoType);
    var e1 := Entry(ReasonForIncompletion, Str(t.reasonForIncompletion), NoType);
    var e2 := Entry(Worker, Str(t.workerId), WorkerIdRef);
    CountOf3(t.lowercaseRetrycount, e0, Truthy(t.reasonForIncompletion), e1, Truthy(t.workerId), e2, l);
  }

  lemma TypeSpecificOccurrences(t: TaskRecord, l: Label)
    ensures Occurrences(TypeSpecificRows(t), l) ==
      Hit(TaskTypeOf(t) == Some(Decision), EvaluatedCase, l)
      + Hit(TaskTypeOf(t) == Some(SubWorkflow), SubworkflowDefinition, l)
      + Hit(TaskTypeOf(t) == Some(SubWorkflow) && t.subWorkflowId != NoKey, SubworkflowId, l)
  {
    var sub := TaskTypeOf(t) == Some(SubWorkflow);
    var e0 := Entry(EvaluatedCase, CaseValue(t), NoType);
    var e1 := Entry(SubworkflowDefinition, Link(WorkflowDefPage + Template(SubWorkflowName(t)), Shown(SubWorkflowName(t)) + " "), NoType);
    var e2 := Entry(SubworkflowId, SubWorkflowIdLink(t.subWorkflowId), NoType);
    CountOf3(TaskTypeOf(t) == Some(Decision), e0, sub, e1, sub && t.subWorkflowId != NoKey, e2, l);
  }

  lemma PayloadOccurrences(t: TaskRecord, l: Label)
    ensures Occurrences(PayloadRows(t), l) ==
      Hit(Truthy(t.externalInputPayloadStoragePath), ExternalizedInput, l)
      + Hit(Truthy(t.externalOutputPayloadStoragePath), ExternalizedOutput, l)
  {
    var e0 := Entry(ExternalizedInput, Str(t.externalInputPayloadStoragePath), ExternalTaskInput);
    var e1 := Entry(ExternalizedOutput, Str(t.externalOutputPayloadStoragePath), ExternalTaskOutput);
    OccurrencesAppend(Opt(Truthy(t.externalInputPayloadStoragePath), e0), Opt(Truthy(t.externalOutputPayloadStoragePath), e1), l);
    OptOccurrences(Truthy(t.externalInputPayloadStoragePath), e0, l);
    OptOccurrences(Truthy(t.externalOutputPayloadStoragePath), e1, l);
  }

  /** The count of a label in the built-in rows, group by group. */
  lemma BuiltinOccurrences(t: TaskRecord, now: int, l: Label)
    ensures Occurrences(Builtin(t, now), l) ==
      Occurrences(Heading(t), l) + Occurrences(IdentityRows(t), l) + Occurrences(TimingRows(t, now), l)
      + Occurrences(OutcomeRows(t), l) + Occurrences(TypeSpecificRows(t), l) + Occurrences(PayloadRows(t), l)
  {
    var h, i, m, o, y, p := Heading(t), IdentityRows(t), TimingRows(t, now), OutcomeRows(t), TypeSpecificRows(t), PayloadRows(t);
    OccurrencesOf3(h, i, m, l);
    OccurrencesOf3(h + i + m, o, y, l);
    OccurrencesAppend(h + i + m + o + y, p, l);
  }

  /** How often each label occurs among the built-in rows. */
  lemma LabelCounts(t: TaskRecord, now: int, l: Label)
    ensures Occurrences(Builtin(t, now), l) ==
      (if l in {TaskType, Status, TaskName, TaskReference} then 1 else 0)
      + Hit(Truthy(t.domain), Domain, l) + Hit(Truthy(t.taskId), TaskExecutionId, l)
      + Hit(t.retryCount.Some?, RetryCount, l)
      + Hit(t.scheduledTime != 0, ScheduledTime, l) + Hit(t.startTime != 0, StartTime, l) + Hit(t.endTime != 0, EndTime, l)
      + Hit(t.startTime != 0 && t.endTime != 0, Duration, l)
      + Hit(t.startTime != 0 && t.status == Some(InProgress), CurrentElapsedTime, l)
      + Hit(t.lowercaseRetrycount, RetryCount, l) + Hit(Truthy(t.reasonForIncompletion), ReasonForIncompletion, l)
      + Hit(Truthy(t.workerId), Worker, l)
      + Hit(TaskTypeOf(t) == Some(Decision), EvaluatedCase, l)
      + Hit(TaskTypeOf(t) == Some(SubWorkflow), SubworkflowDefinition, l)
      + Hit(TaskTypeOf(t) == Some(SubWorkflow) && t.subWorkflowId != NoKey, SubworkflowId, l)
      + Hit(Truthy(t.externalInputPayloadStoragePath), ExternalizedInput, l)
      + Hit(Truthy(t.externalOutputPayloadStoragePath), ExternalizedOutput, l)
  {
    BuiltinOccurrences(t, now, l);
    HeadingOccurrences(t, l);
    IdentityOccurrences(t, l);
    TimingOccurrences(t, now, l);
    OutcomeOccurrences(t, l);
    TypeSpecificOccurrences(t, l);
    PayloadOccurrences(t, l);
  }

  /** The one row the table can show under a built-in label (a configured label has none). */
  function RowFor(t: TaskRecord, now: int, l: Label): Entry {
    match l
    case TaskType => Entry(TaskType, Str(TaskTypeOf(t)), NoType)
    case Status => Entry(Status, Str(Or(t.status, Some(NotExecuted))), NoType)
    case TaskName => Entry(TaskName, Str(Or(Definition(t).name, t.taskDefName)), NoType)
    case TaskReference => Entry(TaskReference, Str(Or(Or(t.referenceTaskName, Definition(t).aliasForRef), Definition(t).taskReferenceName)), NoType)
    case Domain => Entry(Domain, Str(t.domain), NoType)
    case TaskExecutionId => Entry(TaskExecutionId, Str(t.taskId), NoType)
    case RetryCount => Entry(RetryCount, Num(t.retryCount), NoType)
    case ScheduledTime => Entry(ScheduledTime, IfPositive(t.scheduledTime, Number(t.scheduledTime)), DateMs)
    case StartTime => Entry(StartTime, IfPositive(t.startTime, Number(t.startTime)), DateMs)
    case EndTime => Entry(EndTime, Number(t.endTime), DateMs)
    case Duration => Entry(Duration, IfPositive(t.startTime, Number(t.endTime - t.startTime)), DurationMs)
    case CurrentElapsedTime => Entry(CurrentElapsedTime, IfPositive(t.startTime, Number(now - t.startTime)), DurationMs)
    case ReasonForIncompletion => Entry(ReasonForIncompletion, Str(t.reasonForIncompletion), NoType)
    case Worker => Entry(Worker, Str(t.workerId), WorkerIdRef)
    case EvaluatedCase => Entry(EvaluatedCase, CaseValue(t), NoType)
    case SubworkflowDefinition =>
      Entry(SubworkflowDefinition, Link(WorkflowDefPage + Template(SubWorkflowName(t)), Shown(SubWorkflowName(t)) + " "), NoType)
    case SubworkflowId => Entry(SubworkflowId, SubWorkflowIdLink(t.subWorkflowId), NoType)
    case ExternalizedInput => Entry(ExternalizedInput, Str(t.externalInputPayloadStoragePath), ExternalTaskInput)
    case ExternalizedOutput => Entry(ExternalizedOutput, Str(t.externalOutputPayloadStoragePath), ExternalTaskOutput)
    case Custom(_) => Entry(l, Undefined, NoType)
  }

  /**
    A built-in row is determined by its label: whatever the conditions, a row
    labelled `l` is `RowFor(t, now, l)`. With `LabelCounts` this pins down every
    built-in row but their order.
   */
  lemma HeadingCanonical(t: TaskRecord, now: int)
    ensures forall e :: e in Heading(t) ==> e == RowFor(t, now, e.key)
  {
  }

  lemma IdentityCanonical(t: TaskRecord, now: int)
    ensures forall e :: e in IdentityRows(t) ==> e == RowFor(t, now, e.key)
  {
  }

  lemma TimingCanonical(t: TaskRecord, now: int)
    ensures forall e :: e in TimingRows(t, now) ==> e == RowFor(t, now, e.key)
  {
    var o0 := Opt(t.scheduledTime != 0, RowFor(t, now, ScheduledTime));
    var o1 := Opt(t.startTime != 0, RowFor(t, now, StartTime));
    var o2 := Opt(t.endTime != 0, RowFor(t, now, EndTime));
    var o3 := Opt(t.startTime != 0 && t.endTime != 0, RowFor(t, now, Duration));
    var o4 := Opt(t.startTime != 0 && t.status == Some(InProgress), RowFor(t, now, CurrentElapsedTime));
    assert TimingRows(t, now) == o0 + o1 + o2 + o3 + o4;
    OptCanonical(t, now, t.scheduledTime != 0, ScheduledTime);
    OptCanonical(t, now, t.startTime != 0, StartTime);
    OptCanonical(t, now, t.endTime != 0, EndTime);
    OptCanonical(t, now, t.startTime != 0 && t.endTime != 0, Duration);
    OptCanonical(t, now, t.startTime != 0 && t.status == Some(InProgress), CurrentElapsedTime);
  }

  lemma OptCanonical(t: TaskRecord, now: int, c: bool, l: Label)
    requires !l.Custom?
    ensures forall e :: e in Opt(c, RowFor(t, now, l)) ==> e == RowFor(t, now, e.key)
  {
  }

  lemma OutcomeCanonical(t: TaskRecord, now: int)
    ensures forall e :: e in OutcomeRows(t) ==> e == RowFor(t, now, e.key)
  {
  }

  lemma TypeSpecificCanonical(t: TaskRecord, now: int)
    ensures forall e :: e in TypeSpecificRows(t) ==> e == RowFor(t, now, e.key)
  {
  }

  lemma PayloadCanonical(t: TaskRecord, now: int)
    ensures forall e :: e in PayloadRows(t) ==> e == RowFor(t, now, e.key)
  {
  }

  lemma BuiltinRowsCanonical(t: TaskRecord, now: int, e: Entry)
    requires e in Builtin(t, now)
    ensures e == RowFor(t, now, e.key)
  {
    HeadingCanonical(t, now);
    IdentityCanonical(t, now);
    TimingCanonical(t, now);
    OutcomeCanonical(t, now);
    TypeSpecificCanonical(t, now);
    PayloadCanonical(t, now);
  }

  /** The table opens with Task Type, Status, Task Name and Task Reference, in that order. */
  lemma HeadingRows(t: TaskRecord, now: int)
    ensures |Builtin(t, now)| >= 4
    ensures Builtin(t, now)[0].key == TaskType && Builtin(t, now)[1].key == Status
    ensures Builtin(t, now)[2].key == TaskName && Builtin(t, now)[3].key == TaskReference
  {
    var h := Heading(t);
    BuiltinStartsWithHeading(t, now);
    assert Builtin(t, now)[..4][0] == h[0] && Builtin(t, now)[..4][1] == h[1];
    assert Builtin(t, now)[..4][2] == h[2] && Builtin(t, now)[..4][3] == h[3];
  }

  /**
    The type falls back from the definition's type to the record's; the status is
    never blank; the name falls back from the definition's name to `taskDefName`;
    the reference prefers the record's, then the alias, then the definition's
    reference name.
   */
  lemma HeadingValues(t: TaskRecord, now: int)
    ensures |Builtin(t, now)| >= 4
    ensures Builtin(t, now)[0].value ==
      if Truthy(Definition(t).definitionType) then Text(Definition(t).definitionType.value) else Str(t.taskType)
    ensures Builtin(t, now)[1].value ==
      Text(if Truthy(t.status) then t.status.value else NotExecuted)
    ensures Builtin(t, now)[2].value ==
      if Truthy(Definition(t).name) then Text(Definition(t).name.value) else Str(t.taskDefName)
    ensures Builtin(t, now)[3].value ==
      if Truthy(t.referenceTaskName) then Text(t.referenceTaskName.value)
      else if Truthy(Definition(t).aliasForRef) then Text(Definition(t).aliasForRef.value)
      else Str(Definition(t).taskReferenceName)
  {
    var h := Heading(t);
    BuiltinStartsWithHeading(t, now);
    assert Builtin(t, now)[..4][0] == h[0] && Builtin(t, now)[..4][1] == h[1];
    assert Builtin(t, now)[..4][2] == h[2] && Builtin(t, now)[..4][3] == h[3];
  }

  lemma BuiltinStartsWithHeading(t: TaskRecord, now: int)
    ensures |Builtin(t, now)| >= 4 && Builtin(t, now)[..4] == Heading(t)
  {
    var h := Heading(t);
    var r := IdentityRows(t) + TimingRows(t, now) + OutcomeRows(t) + TypeSpecificRows(t) + PayloadRows(t);
    ConcatAssociates(h, IdentityRows(t), TimingRows(t, now), OutcomeRows(t), TypeSpecificRows(t), PayloadRows(t));
    assert (h + r)[..|h|] == h;
  }

  lemma ConcatAssociates(a: seq<Entry>, b: seq<Entry>, c: seq<Entry>, d: seq<Entry>, e: seq<Entry>, f: seq<Entry>)
    ensures a + b + c + d + e + f == a + (b + c + d + e + f)
  {
  }

  /** A Duration row exists exactly when both the start and the end time are set (non-zero). */
  lemma DurationRow(t: TaskRecord, now: int)
    ensures Occurrences(Builtin(t, now), Duration) == if t.startTime != 0 && t.endTime != 0 then 1 else 0
  {
    LabelCounts(t, now, Duration);
  }

  /** The Duration row is the end minus the start when the start is positive, `false` otherwise. */
  lemma DurationValue(t: TaskRecord, now: int, e: Entry)
    requires e in Builtin(t, now) && e.key == Duration
    ensures e.format == DurationMs && e.value == if t.startTime > 0 then Number(t.endTime - t.startTime) else False
  {
    BuiltinRowsCanonical(t, now, e);
  }

  /**
    A Current Elapsed Time row exists exactly when the start time is set and the
    task is IN_PROGRESS.
   */
  lemma ElapsedRow(t: TaskRecord, now: int)
    ensures Occurrences(Builtin(t, now), CurrentElapsedTime) ==
      if t.startTime != 0 && t.status == Some(InProgress) then 1 else 0
  {
    LabelCounts(t, now, CurrentElapsedTime);
  }

  /** The Current Elapsed Time row measures from a positive start to `now`. */
  lemma ElapsedValue(t: TaskRecord, now: int, e: Entry)
    requires e in Builtin(t, now) && e.key == CurrentElapsedTime
    ensures e.format == DurationMs && e.value == if t.startTime > 0 then Number(now - t.startTime) else False
  {
    BuiltinRowsCanonical(t, now, e);
  }

  /**
    One Retry Count row for a finite `retryCount`, and a second one only when a
    field spelled `retrycount` is also set.
   */
  lemma RetryCountRows(t: TaskRecord, now: int)
    ensures Occurrences(Builtin(t, now), RetryCount) ==
      (if t.retryCount.Some? then 1 else 0) + (if t.lowercaseRetrycount then 1 else 0)
  {
    LabelCounts(t, now, RetryCount);
  }

  /** Both Retry Count rows show `retryCount`, never `retrycount`. */
  lemma RetryCountValue(t: TaskRecord, now: int, e: Entry)
    requires e in Builtin(t, now) && e.key == RetryCount
    ensures e.value == Num(t.retryCount)
  {
    BuiltinRowsCanonical(t, now, e);
  }

  /** Only a DECISION task has an Evaluated Case row. */
  lemma EvaluatedCaseRow(t: TaskRecord, now: int)
    ensures Occurrences(Builtin(t, now), EvaluatedCase) == if TaskTypeOf(t) == Some(Decision) then 1 else 0
  {
    LabelCounts(t, now, EvaluatedCase);
  }

  /** The Evaluated Case row is the first case output when there is one, `false` otherwise. */
  lemma EvaluatedCaseValue(t: TaskRecord, now: int, e: Entry)
    requires e in Builtin(t, now) && e.key == EvaluatedCase
    ensures e.value == if t.caseOutput.Some? && |t.caseOutput.value| > 0 then Text(t.caseOutput.value[0]) else False
  {
    BuiltinRowsCanonical(t, now, e);
  }

  /** A SUB_WORKFLOW task always has a Subworkflow Definition row; other tasks have none. */
  lemma SubworkflowDefinitionRow(t: TaskRecord, now: int)
    ensures Occurrences(Builtin(t, now), SubworkflowDefinition) == if TaskTypeOf(t) == Some(SubWorkflow) then 1 else 0
  {
    LabelCounts(t, now, SubworkflowDefinition);
  }

  /** The Subworkflow Definition row links to the definition page of the sub-workflow's name. */
  lemma SubworkflowDefinitionValue(t: TaskRecord, now: int, e: Entry)
    requires e in Builtin(t, now) && e.key == SubworkflowDefinition
    ensures e.value.Link? && e.value.path == WorkflowDefPage + Template(SubWorkflowName(t))
      && e.value.caption == Shown(SubWorkflowName(t)) + " "
  {
    BuiltinRowsCanonical(t, now, e);
  }

  /** A Subworkflow ID row exists exactly for a SUB_WORKFLOW task whose record has a `subWorkflowId` key. */
  lemma SubworkflowIdRow(t: TaskRecord, now: int)
    ensures Occurrences(Builtin(t, now), SubworkflowId) ==
      if TaskTypeOf(t) == Some(SubWorkflow) && t.subWorkflowId != NoKey then 1 else 0
  {
    LabelCounts(t, now, SubworkflowId);
  }

  /**
    The Subworkflow ID row links to an execution page; for a string id it is that
    execution's page, captioned with the id.
   */
  lemma SubworkflowIdValue(t: TaskRecord, now: int, e: Entry)
    requires e in Builtin(t, now) && e.key == SubworkflowId
    ensures e.value.Link? && (t.subWorkflowId.Held? ==> e.value == Link(ExecutionPage + t.subWorkflowId.s, t.subWorkflowId.s))
    ensures t.subWorkflowId == NullValue ==> e.value == Link(ExecutionPage + "null", "")
    ensures t.subWorkflowId == UndefinedValue ==> e.value == Link(ExecutionPage + "undefined", "")
  {
    BuiltinRowsCanonical(t, now, e);
    assert e.value == SubWorkflowIdLink(t.subWorkflowId);
  }

  /** Rendering the configured rows in two batches is the same as in one: order is kept. */
  lemma {:induction false} CustomEntriesAppend(t: TaskRecord, r1: seq<CustomRow>, r2: seq<CustomRow>)
    ensures CustomEntries(t, r1 + r2) == CustomEntries(t, r1) + CustomEntries(t, r2)
    decreases |r2|
  {
    if r2 == [] {
      assert r1 + r2 == r1;
    } else {
      var init := r2[..|r2| - 1];
      assert (r1 + r2)[..|r1 + r2| - 1] == r1 + init;
      CustomEntriesAppend(t, r1, init);
    }
  }

  /**
    A configured row is rendered exactly when its renderer does not yield
    `undefined`, and it shows the rendered value under its own label.
   */
  lemma {:induction false} CustomEntriesShown(t: TaskRecord, rows: seq<CustomRow>)
    ensures forall r :: r in rows && r.renderer(t) != Undefined ==>
      Entry(Custom(r.caption), r.renderer(t), NoType) in CustomEntries(t, rows)
    ensures forall e :: e in CustomEntries(t, rows) ==>
      e.value != Undefined && exists r :: r in rows && e == Entry(Custom(r.caption), r.renderer(t), NoType)
    decreases |rows|
  {
    if rows != [] {
      var init := rows[..|rows| - 1];
      CustomEntriesShown(t, init);
      assert forall r :: r in rows ==> r in init || r == rows[|rows| - 1];
      assert forall r :: r in init ==> r in rows;
    }
  }

  /** The configured rows come after every built-in row, which they leave as they are. */
  lemma CustomRowsLast(t: TaskRecord, now: int, rows: seq<CustomRow>)
    ensures SummaryRows(t, now, rows)[..|Builtin(t, now)|] == Builtin(t, now)
    ensures SummaryRows(t, now, rows)[|Builtin(t, now)|..] == CustomEntries(t, rows)
  {
  }
}
