/**
  The data layer of the execution page: the REST paths and cache keys the fetch
  hooks are given, the `enabled` predicates that hold a query back until its ids
  are known, the rule that merges the execution query and the task-list query
  into one value, and the guard that builds a graph only from complete data.
  Fetching, caching and the graph builder itself are collaborators.
 */
module Execution {
  import opened Js

  /** The common root of every execution endpoint. */
  const Root := "/v2/execution/"

  /** The query-string prefix that selects one attempt of a task. */
  const TaskIdQuery := "?taskId="

  /** A cache key element: JavaScript lets an `undefined` id into the key. */
  type KeyPart = Option<string>

  /** What a hook hands to the fetch layer. */
  datatype Fetch = Fetch(key: seq<KeyPart>, path: string, enabled: bool)

  // ---------------------------------------------------------------------------
  // Workflow-level fetches: the execution itself, its variables, output, input.

  datatype WorkflowPart = WholeExecution | Variables | WorkflowOutput | WorkflowInput

  function WorkflowPartName(p: WorkflowPart): string {
    match p
    case WholeExecution => ""
    case Variables => "variables"
    case WorkflowOutput => "output"
    case WorkflowInput => "input"
  }

  /** `useWorkflow`, `useWorkflowVariables`, `useWorkflowOutput`, `useWorkflowInput`. */
  function UseWorkflowResource(workflowId: string, part: WorkflowPart): (f: Fetch)
    ensures f.enabled <==> workflowId != ""
    ensures |f.key| >= 2 && f.key[..2] == [Some("workflow"), Some(workflowId)]
    ensures part == WholeExecution ==> f.key == [Some("workflow"), Some(workflowId)] && f.path == Root + workflowId
    ensures part != WholeExecution ==>
      f.key == [Some("workflow"), Some(workflowId), Some(WorkflowPartName(part))] &&
      f.path == Root + workflowId + "/" + WorkflowPartName(part)
  {
    if part == WholeExecution then
      Fetch([Some("workflow"), Some(workflowId)], Root + workflowId, workflowId != "")
    else
      Fetch([Some("workflow"), Some(workflowId), Some(WorkflowPartName(part))],
            Root + workflowId + "/" + WorkflowPartName(part), workflowId != "")
  }

  /** Two workflow-level fetches share a cache entry only when they are the same fetch. */
  lemma WorkflowKeysDistinct(w1: string, p1: WorkflowPart, w2: string, p2: WorkflowPart)
    requires (w1, p1) != (w2, p2)
    ensures UseWorkflowResource(w1, p1).key != UseWorkflowResource(w2, p2).key
  {
    var k1, k2 := UseWorkflowResource(w1, p1).key, UseWorkflowResource(w2, p2).key;
    if w1 != w2 {
      assert k1[1] != k2[1];
    } else if |k1| == |k2| {
      assert p1 != WholeExecution && p2 != WholeExecution;
      assert k1[2] != k2[2];
    }
  }

  // ---------------------------------------------------------------------------
  // Task-level fetches: one task, its output, its input.

  datatype TaskPart = WholeTask | TaskOutput | TaskInput

  function TaskPartSuffix(p: TaskPart): string {
    match p
    case WholeTask => ""
    case TaskOutput => "/output"
    case TaskInput => "/input"
  }

  /** The address of a task resource without the attempt selector. */
  function TaskResource(workflowId: Option<string>, taskReferenceName: Option<string>, part: TaskPart): string {
    Root + Template(workflowId) + "/task/" + Template(taskReferenceName) + TaskPartSuffix(part)
  }

  /** An id that cannot be mistaken for the start of the query string. */
  predicate NoQueryMark(id: Option<string>) {
    '?' !in Template(id)
  }

  /** The index of the first `?` in `s`, or `|s|` when there is none. */
  function QueryStart(s: string): (i: nat)
    ensures i <= |s|
    ensures '?' !in s[..i]
    ensures i < |s| ==> s[i] == '?'
  {
    if s == [] then 0
    else if s[0] == '?' then 0
    else
      assert s[..1 + QueryStart(s[1..])] == [s[0]] + s[1..][..QueryStart(s[1..])];
      1 + QueryStart(s[1..])
  }

  /**
    Reads a task path back into its resource part and the attempt it selects:
    the resource ends at the first `?`, and the attempt is whatever follows
    `?taskId=` there.
   */
  function SplitTaskPath(path: string): (r: (string, Option<string>))
    ensures r.0 == path[..QueryStart(path)] && '?' !in r.0
    ensures r.1.Some? ==> path == r.0 + TaskIdQuery + r.1.value
    ensures r.1.None? ==> !(|r.0| < |path| && TaskIdQuery <= path[|r.0|..])
  {
    var i := QueryStart(path);
    if i < |path| && TaskIdQuery <= path[i..] then
      assert path == path[..i] + path[i..] && path[i..] == TaskIdQuery + path[i + |TaskIdQuery|..];
      (path[..i], Some(path[i + |TaskIdQuery|..]))
    else
      (path[..i], None)
  }

  lemma {:induction false} QueryStartAfter(a: string, b: string)
    requires '?' !in a
    requires b == [] || b[0] == '?'
    ensures QueryStart(a + b) == |a|
  {
    if a == [] {
      assert a + b == b;
    } else {
      assert a[0] in a;
      assert (a + b)[1..] == a[1..] + b;
      assert forall c :: c in a[1..] ==> c in a;
      QueryStartAfter(a[1..], b);
    }
  }

  /** The resource part of a task path has no `?` when neither id has one. */
  lemma TaskResourceHasNoQueryMark(workflowId: Option<string>, taskReferenceName: Option<string>, part: TaskPart)
    requires NoQueryMark(workflowId) && NoQueryMark(taskReferenceName)
    ensures '?' !in TaskResource(workflowId, taskReferenceName, part)
  {
    var w, r, x := Template(workflowId), Template(taskReferenceName), TaskPartSuffix(part);
    assert '?' !in Root && '?' !in "/task/" && '?' !in x;
    assert TaskResource(workflowId, taskReferenceName, part) == Root + w + "/task/" + r + x;
  }

  /** The attempt selector: `?taskId=…` for a truthy task id, nothing otherwise. */
  function AttemptSelector(taskId: Option<string>): string {
    if Truthy(taskId) then TaskIdQuery + taskId.value else ""
  }

  /** Reading back a `?`-free resource followed by an optional attempt selector. */
  lemma {:induction false} SplitAfterResource(resource: string, taskId: Option<string>)
    requires '?' !in resource
    ensures SplitTaskPath(resource + AttemptSelector(taskId)) == (resource, if Truthy(taskId) then taskId else None)
  {
    var rest := AttemptSelector(taskId);
    var path := resource + rest;
    QueryStartAfter(resource, rest);
    assert path[..|resource|] == resource;
    if Truthy(taskId) {
      assert path[|resource|..] == rest;
      assert rest[..|TaskIdQuery|] == TaskIdQuery;
      assert path[|resource| + |TaskIdQuery|..] == taskId.value;
    } else {
      assert path == resource;
    }
  }

  /**
    The path of `useWorkflowTask` (suffix `""`), `useWorkflowTaskOutput` (`"/output"`)
    and `useWorkflowTaskInput` (`"/input"`): the resource, then `?taskId=…` exactly
    when the task id is truthy. The attempt selector always comes last, so reading
    the path back yields the resource and the attempt unchanged.
   */
  method TaskPath(workflowId: Option<string>, taskReferenceName: Option<string>, taskId: Option<string>, part: TaskPart)
    returns (path: string)
    ensures path == TaskResource(workflowId, taskReferenceName, part) + AttemptSelector(taskId)
    ensures NoQueryMark(workflowId) && NoQueryMark(taskReferenceName) ==>
      SplitTaskPath(path) == (TaskResource(workflowId, taskReferenceName, part), if Truthy(taskId) then taskId else None)
  {
    path := Root + Template(workflowId) + "/task/" + Template(taskReferenceName) + TaskPartSuffix(part);
    ghost var resource := path;
    if Truthy(taskId) {
      path := path + TaskIdQuery + taskId.value;
    }
    assert path == resource + AttemptSelector(taskId);
    if NoQueryMark(workflowId) && NoQueryMark(taskReferenceName) {
      TaskResourceHasNoQueryMark(workflowId, taskReferenceName, part);
      SplitAfterResource(resource, taskId);
    }
  }

  /** The cache key of `useWorkflowTask`: it names the task by reference only. */
  function TaskKey(workflowId: Option<string>, taskReferenceName: Option<string>): (k: seq<KeyPart>)
    ensures |k| == 4 && k[1] == workflowId && k[3] == taskReferenceName
    ensures k[0] == Some("workflow") && k[2] == Some("task")
  {
    [Some("workflow"), workflowId, Some("task"), taskReferenceName]
  }

  /**
    The cache key of `useWorkflowTaskOutput` and `useWorkflowTaskInput`: the task is
    named by its attempt id when that is truthy and by its reference otherwise.
   */
  function PayloadKey(workflowId: Option<string>, taskReferenceName: Option<string>, taskId: Option<string>, part: TaskPart): (k: seq<KeyPart>)
    requires part != WholeTask
    ensures |k| == 5 && k[..3] == [Some("workflow"), workflowId, Some("task")]
    ensures k[3] == (if Truthy(taskId) then taskId else taskReferenceName)
    ensures k[4] == Some(if part == TaskOutput then "output" else "input")
  {
    [Some("workflow"), workflowId, Some("task"), Or(taskId, taskReferenceName),
     Some(if part == TaskOutput then "output" else "input")]
  }

  /** Task fetches wait until both the workflow id and the task reference are known. */
  predicate TaskFetchEnabled(workflowId: Option<string>, taskReferenceName: Option<string>) {
    Truthy(workflowId) && Truthy(taskReferenceName)
  }

  /** `useWorkflowTask` (src/data/execution.ts:109-121). */
  method UseWorkflowTask(workflowId: Option<string>, taskReferenceName: Option<string>, taskId: Option<string>)
    returns (f: Fetch)
    ensures f.key == TaskKey(workflowId, taskReferenceName)
    ensures f.enabled <==> Truthy(workflowId) && Truthy(taskReferenceName)
    ensures f.path == TaskResource(workflowId, taskReferenceName, WholeTask) + AttemptSelector(taskId)
    ensures f.enabled ==> Root + workflowId.value + "/task/" + taskReferenceName.value <= f.path
    ensures NoQueryMark(workflowId) && NoQueryMark(taskReferenceName) ==>
      SplitTaskPath(f.path) == (TaskResource(workflowId, taskReferenceName, WholeTask), if Truthy(taskId) then taskId else None)
  {
    var path := TaskPath(workflowId, taskReferenceName, taskId, WholeTask);
    f := Fetch(TaskKey(workflowId, taskReferenceName), path, TaskFetchEnabled(workflowId, taskReferenceName));
  }

  /** `useWorkflowTaskOutput` (part `TaskOutput`) and `useWorkflowTaskInput` (part `TaskInput`). */
  method UseWorkflowTaskPayload(workflowId: Option<string>, taskReferenceName: Option<string>, taskId: Option<string>, part: TaskPart)
    returns (f: Fetch)
    requires part != WholeTask
    ensures f.key == PayloadKey(workflowId, taskReferenceName, taskId, part)
    ensures f.enabled <==> Truthy(workflowId) && Truthy(taskReferenceName)
    ensures f.path == TaskResource(workflowId, taskReferenceName, part) + AttemptSelector(taskId)
    ensures f.enabled ==> Root + workflowId.value + "/task/" + taskReferenceName.value + TaskPartSuffix(part) <= f.path
    ensures NoQueryMark(workflowId) && NoQueryMark(taskReferenceName) ==>
      SplitTaskPath(f.path) == (TaskResource(workflowId, taskReferenceName, part), if Truthy(taskId) then taskId else None)
  {
    var path := TaskPath(workflowId, taskReferenceName, taskId, part);
    f := Fetch(PayloadKey(workflowId, taskReferenceName, taskId, part), path, TaskFetchEnabled(workflowId, taskReferenceName));
  }

  /** The output and the input of a task never share a cache entry. */
  lemma PayloadKeysSeparateParts(workflowId: Option<string>, taskReferenceName: Option<string>, taskId: Option<string>)
    ensures PayloadKey(workflowId, taskReferenceName, taskId, TaskOutput) != PayloadKey(workflowId, taskReferenceName, taskId, TaskInput)
  {
    assert PayloadKey(workflowId, taskReferenceName, taskId, TaskOutput)[4] != PayloadKey(workflowId, taskReferenceName, taskId, TaskInput)[4];
  }

  /**
    Two attempts of one task, selected by different truthy ids, get different
    payload cache entries; without an id the key falls back to the reference.
   */
  lemma PayloadKeysSeparateAttempts(workflowId: Option<string>, taskReferenceName: Option<string>, id1: Option<string>, id2: Option<string>, part: TaskPart)
    requires part != WholeTask
    ensures Truthy(id1) && Truthy(id2) && id1 != id2 ==>
      PayloadKey(workflowId, taskReferenceName, id1, part) != PayloadKey(workflowId, taskReferenceName, id2, part)
    ensures !Truthy(id1) && !Truthy(id2) ==>
      PayloadKey(workflowId, taskReferenceName, id1, part) == PayloadKey(workflowId, taskReferenceName, id2, part)
  {
    if Truthy(id1) && Truthy(id2) && id1 != id2 {
      assert PayloadKey(workflowId, taskReferenceName, id1, part)[3] != PayloadKey(workflowId, taskReferenceName, id2, part)[3];
    }
  }

  /**
    Two attempts of one task get different task paths, and reading each path back
    yields its own attempt.
   */
  lemma TaskPathsSeparateAttempts(workflowId: Option<string>, taskReferenceName: Option<string>, id1: Option<string>, id2: Option<string>)
    requires NoQueryMark(workflowId) && NoQueryMark(taskReferenceName)
    requires Truthy(id1) && Truthy(id2) && id1 != id2
    ensures SplitTaskPath(TaskResource(workflowId, taskReferenceName, WholeTask) + TaskIdQuery + id1.value)
         != SplitTaskPath(TaskResource(workflowId, taskReferenceName, WholeTask) + TaskIdQuery + id2.value)
  {
    var res := TaskResource(workflowId, taskReferenceName, WholeTask);
    TaskResourceHasNoQueryMark(workflowId, taskReferenceName, WholeTask);
    SplitAfterResource(res, id1);
    SplitAfterResource(res, id2);
  }

  // ---------------------------------------------------------------------------
  // The combined execution-and-tasks value.

  /** The part of a query result the merge rule reads. */
  datatype Query<T> = Query(data: Option<T>, isLoading: bool, isFetching: bool)

  datatype ExecutionAndTasks<E, T> = ExecutionAndTasks(execution: Option<E>, tasks: Option<T>, loading: bool)

  /** The two queries of `useExecutionAndTasks`: the execution and its task list. */
  function ExecutionAndTasksQueries(stack: string, workflowId: string, ready: bool): (qs: seq<Fetch>)
    ensures |qs| == 2 && qs[0].enabled == ready && qs[1].enabled == ready
    ensures qs[0].path == Root + workflowId && qs[1].path == Root + workflowId + "/tasks"
    ensures qs[0].key == InvalidationKey(stack, workflowId)
    ensures qs[1].key == qs[0].key + [Some("tasks")]
  {
    [Fetch([Some(stack), Some("workflow"), Some(workflowId)], Root + workflowId, ready),
     Fetch([Some(stack), Some("workflow"), Some(workflowId), Some("tasks")], Root + workflowId + "/tasks", ready)]
  }

  /** The key `useInvalidateExecution` invalidates: the execution's own key, scoped by the stack. */
  function InvalidationKey(stack: string, workflowId: string): (k: seq<KeyPart>)
    ensures k == [Some(stack)] + UseWorkflowResource(workflowId, WholeExecution).key
  {
    [Some(stack), Some("workflow"), Some(workflowId)]
  }

  /** The invalidation key is a prefix of the keys of both combined queries. */
  lemma InvalidationCoversExecutionAndTasks(stack: string, workflowId: string, ready: bool)
    ensures forall q :: q in ExecutionAndTasksQueries(stack, workflowId, ready) ==> InvalidationKey(stack, workflowId) <= q.key
  {
  }

  /**
    The merge of `useExecutionAndTasks`: the execution and the task list are exposed
    together or not at all, and the value is loading while either query is loading
    or fetching.
   */
  function CombineExecutionAndTasks<E, T>(executionQuery: Query<E>, tasksQuery: Query<T>): (c: ExecutionAndTasks<E, T>)
    ensures c.execution.Some? <==> executionQuery.data.Some? && tasksQuery.data.Some?
    ensures c.tasks.Some? <==> c.execution.Some?
    ensures c.execution.Some? ==> c.execution == executionQuery.data && c.tasks == tasksQuery.data
    ensures c.loading <==> executionQuery.isLoading || tasksQuery.isLoading || executionQuery.isFetching || tasksQuery.isFetching
  {
    var loading := executionQuery.isLoading || tasksQuery.isLoading || executionQuery.isFetching || tasksQuery.isFetching;
    if executionQuery.data.Some? && tasksQuery.data.Some? then
      ExecutionAndTasks(executionQuery.data, tasksQuery.data, loading)
    else
      ExecutionAndTasks(None, None, loading)
  }

  /**
    `useWorkflowDag`: the graph is built, from the whole combined value, only when
    both the execution and its tasks are present.
   */
  function WorkflowDag<E, T, D>(executionAndTasks: Option<ExecutionAndTasks<E, T>>, build: ExecutionAndTasks<E, T> -> D): (d: Option<D>)
    ensures d.Some? <==> executionAndTasks.Some? && executionAndTasks.value.execution.Some? && executionAndTasks.value.tasks.Some?
    ensures d.Some? ==> d.value == build(executionAndTasks.value)
  {
    match executionAndTasks
    case Some(et) => if et.execution.Some? && et.tasks.Some? then Some(build(et)) else None
    case None => None
  }

  /** `useWorkflowDagFromDef`: the graph is built only from a present definition. */
  function WorkflowDagFromDef<W, D>(definition: Option<W>, build: W -> D): (d: Option<D>)
    ensures d.Some? <==> definition.Some?
    ensures d.Some? ==> d.value == build(definition.value)
  {
    match definition
    case Some(w) => Some(build(w))
    case None => None
  }

  /**
    Through the merge, a graph exists exactly when both queries have data, and it is
    built from that data together with the combined loading flag.
   */
  lemma DagOfCombined<E, T, D>(q0: Query<E>, q1: Query<T>, build: ExecutionAndTasks<E, T> -> D)
    ensures WorkflowDag(Some(CombineExecutionAndTasks(q0, q1)), build).Some? <==> q0.data.Some? && q1.data.Some?
    ensures q0.data.Some? && q1.data.Some? ==>
      WorkflowDag(Some(CombineExecutionAndTasks(q0, q1)), build)
        == Some(build(ExecutionAndTasks(q0.data, q1.data, q0.isLoading || q1.isLoading || q0.isFetching || q1.isFetching)))
  {
  }
}
