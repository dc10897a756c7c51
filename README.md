# conductor-ui: task summary, execution fetch rules and the timeline y-axis

This project models three small pieces of logic in the Conductor workflow console's web UI.

- **Task summary table** (module `TaskSummary`, `task_summary.dfy`). Opening a task execution
  shows a key/value table. `TaskSummary` builds that table's rows from the task record:
  - four heading rows, each with its fallback chain (type, status, name, reference);
  - rows that appear only under conditions: domain, execution id, retry count, the three
    times, duration, elapsed time, reason for incompletion, worker, decision case,
    sub-workflow definition and id, externalized payload paths;
  - one row per configured custom row whose renderer yields something.

  The builder is imperative: each group of conditional pushes is a method that appends to a
  sequence, and the custom rows are appended by a loop. Every method is proved equal to a
  reference function (`Builtin`, `CustomEntries`, `SummaryRows`). The properties are lemmas
  about that function:
  - the heading rows and their values;
  - how many rows of each label appear, and under which conditions;
  - what each conditional row shows;
  - that custom rows come last, in configuration order.
- **Fetch addresses and result combination** (module `Execution`, `execution.dfy`). It covers:
  - the REST paths, built by methods with the optional `?taskId=` suffix, and what those paths
    decode back to;
  - the cache keys and their separation properties;
  - the `enabled` predicates;
  - the rule that merges the execution and tasks queries;
  - the guard that builds an execution graph only when both parts are present.
- **Gantt y-axis** (module `YAxis`, `y_axis.dfy`). It covers:
  - row relabelling;
  - the id→label map, built by a loop method;
  - the label anchor arithmetic with its falsy→0 fallback;
  - the scroll-into-view decision;
  - the expand/collapse marker and the cursor;
  - the label click effects (toggle only collapsible bands, always report);
  - the closing bottom line drawn only for the last band.

Module `Js` (`js.dfy`) holds the few JavaScript semantics the other modules use:
- absent, `null` and `undefined` all become `None`;
- string truthiness;
- `a || b`;
- `${x}` interpolation of an optional string.

## Model

| member | source | states |
|---|---|---|
| `Js.Or` | src/pages/execution/TaskSummary.jsx:10 | JavaScript or on optional strings: the left operand when it is truthy, otherwise the right operand as it is (so `""` or `undefined` gives `undefined`); truthy iff either operand is |
| `TaskSummary.TaskTypeOf` | src/pages/execution/TaskSummary.jsx:10 | the task type is the definition's type unless it is blank, otherwise the record's `taskType` |
| `TaskSummary.SubWorkflowName` | src/pages/execution/TaskSummary.jsx:102-104 | the sub-workflow name is the input's `subWorkflowName` unless it is blank, otherwise the definition's `subWorkflowParam.name` |
| `TaskSummary.BuiltinLabelTextsDistinct` | src/pages/execution/TaskSummary.jsx:14-137 | the nineteen built-in labels are pairwise different texts, so counting rows by label counts them by displayed label |
| `TaskSummary.FormatTextsDistinct` | src/pages/execution/TaskSummary.jsx:45-137 | the row formats are pairwise different `type` strings, and only the untyped rows have none |
| `TaskSummary.Summary` | src/pages/execution/TaskSummary.jsx:7-149 | the table built push by push is exactly `SummaryRows`: the built-in rows in source order, then the rendered custom rows |
| `TaskSummary.PushIdentity` | src/pages/execution/TaskSummary.jsx:29-39 | appends the Domain, Task Execution ID and Retry Count rows of `IdentityRows`, leaving earlier rows untouched |
| `TaskSummary.PushTiming` | src/pages/execution/TaskSummary.jsx:41-76 | appends the time, duration and elapsed rows of `TimingRows`, leaving earlier rows untouched |
| `TaskSummary.PushOutcome` | src/pages/execution/TaskSummary.jsx:77-92 | appends the second Retry Count, the reason and the worker rows of `OutcomeRows` |
| `TaskSummary.PushTypeSpecific` | src/pages/execution/TaskSummary.jsx:93-123 | appends the decision and sub-workflow rows of `TypeSpecificRows` for the computed task type |
| `TaskSummary.PushPayloads` | src/pages/execution/TaskSummary.jsx:125-139 | appends the externalized input/output rows of `PayloadRows` |
| `TaskSummary.PushCustom` | src/pages/execution/TaskSummary.jsx:141-149 | the loop appends `CustomEntries`: each configured row's rendering, in order, skipping `undefined` (loop invariant over the processed prefix) |
| `TaskSummary.HeadingRows` | src/pages/execution/TaskSummary.jsx:13-27 | the table always opens with Task Type, Status, Task Name, Task Reference, in that order |
| `TaskSummary.HeadingValues` | src/pages/execution/TaskSummary.jsx:10-26 | the type is the definition's type, else the record's; the status is the record's or "Not executed"; the name is the definition's `name`, else `taskDefName`; the reference prefers `referenceTaskName`, then `aliasForRef`, then the definition's `taskReferenceName` |
| `TaskSummary.LabelCounts` | src/pages/execution/TaskSummary.jsx:13-139 | for every label, the number of built-in rows with that label, as a sum over the guarding conditions |
| `TaskSummary.BuiltinRowsCanonical` | src/pages/execution/TaskSummary.jsx:13-139 | every built-in row is the canonical row for its label: the value and format depend only on the label and the record |
| `TaskSummary.DurationRow` | src/pages/execution/TaskSummary.jsx:62-69 | a Duration row exists iff both start and end times are set |
| `TaskSummary.DurationValue` | src/pages/execution/TaskSummary.jsx:62-69 | a Duration row holds end − start when start > 0, otherwise `false`, formatted as a duration |
| `TaskSummary.ElapsedRow` | src/pages/execution/TaskSummary.jsx:70-76 | a Current Elapsed Time row exists iff the start time is set and the status is IN_PROGRESS |
| `TaskSummary.ElapsedValue` | src/pages/execution/TaskSummary.jsx:70-76 | a Current Elapsed Time row holds now − start when start > 0, otherwise `false` |
| `TaskSummary.RetryCountRows` | src/pages/execution/TaskSummary.jsx:37-79 | one Retry Count row for a finite `retryCount`, plus one more exactly when a non-nil `retrycount` field exists |
| `TaskSummary.RetryCountValue` | src/pages/execution/TaskSummary.jsx:77-79 | every Retry Count row, including the one guarded by `retrycount`, shows `retryCount` |
| `TaskSummary.EvaluatedCaseRow` | src/pages/execution/TaskSummary.jsx:93-100 | an Evaluated Case row exists iff the task type is DECISION |
| `TaskSummary.EvaluatedCaseValue` | src/pages/execution/TaskSummary.jsx:94-99 | an Evaluated Case row holds `caseOutput[0]` when it exists, otherwise `false` |
| `TaskSummary.SubworkflowDefinitionRow` | src/pages/execution/TaskSummary.jsx:101-112 | a Subworkflow Definition row exists iff the task type is SUB_WORKFLOW |
| `TaskSummary.SubworkflowDefinitionValue` | src/pages/execution/TaskSummary.jsx:102-111 | the row links to `/workflowDef/` followed by the sub-workflow name (input's name, else the definition's), interpolated, and is captioned with that name followed by a space |
| `TaskSummary.SubworkflowIdRow` | src/pages/execution/TaskSummary.jsx:113-122 | a Subworkflow ID row exists iff the type is SUB_WORKFLOW and the record has a `subWorkflowId` key, even a null one |
| `TaskSummary.SubworkflowIdValue` | src/pages/execution/TaskSummary.jsx:114-121 | the row is a link; for a string id it is `/execution/{id}` captioned with the id; a `null` or `undefined` id gives `/execution/null` or `/execution/undefined` with an empty caption |
| `TaskSummary.CustomEntriesAppend` | src/pages/execution/TaskSummary.jsx:141-149 | rendering two batches of custom rows in turn equals rendering them together: order is kept |
| `TaskSummary.CustomEntriesShown` | src/pages/execution/TaskSummary.jsx:141-148 | a custom row appears iff its renderer does not yield `undefined`, under its own label with the rendered value |
| `TaskSummary.CustomRowsLast` | src/pages/execution/TaskSummary.jsx:141-149 | the custom rows follow every built-in row and leave them unchanged |
| `Execution.UseWorkflowResource` | src/data/execution.ts:9-47 | workflow-level fetches: key `["workflow", id(, part)]`, path `/v2/execution/{id}(/part)`, enabled iff the id is non-empty |
| `Execution.WorkflowKeysDistinct` | src/data/execution.ts:11-41 | different workflows or different parts never share a cache key |
| `Execution.QueryStart` | src/data/execution.ts:114-117 | the index of the first `?`, or the length; no `?` before it |
| `Execution.SplitTaskPath` | src/data/execution.ts:114-117 | the resource is exactly the text before the first `?`; a task id is reported iff `?taskId=` starts there, and is what follows it |
| `Execution.QueryStartAfter` | src/data/execution.ts:114-117 | a query string appended to a `?`-free resource starts right after it |
| `Execution.TaskResourceHasNoQueryMark` | src/data/execution.ts:114 | the resource part of a task path has no `?` when the ids have none |
| `Execution.SplitAfterResource` | src/data/execution.ts:115-117 | splitting a resource plus the optional suffix gives back the resource and the taskId exactly when it is truthy |
| `Execution.TaskPath` | src/data/execution.ts:114-117 | the path is `/v2/execution/{workflowId}/task/{ref}` and the part, followed by `?taskId={taskId}` when `taskId` is truthy and by nothing otherwise; with `?`-free ids it decodes back to that resource and task id |
| `Execution.TaskKey` | src/data/execution.ts:118 | the task cache key is `["workflow", workflowId, "task", taskReferenceName]` |
| `Execution.PayloadKey` | src/data/execution.ts:133 | output/input key: fourth part is the task id when truthy, else the reference name, fifth is "output" or "input" |
| `Execution.UseWorkflowTask` | src/data/execution.ts:109-121 | the task fetch: the key without task id, the exact path of `TaskPath`, enabled iff both ids are truthy |
| `Execution.UseWorkflowTaskPayload` | src/data/execution.ts:123-157 | the output/input fetch: its key, the exact path of `TaskPath` with `/output` or `/input` before the optional suffix, enabled iff both ids are truthy |
| `Execution.PayloadKeysSeparateParts` | src/data/execution.ts:133-151 | the output and input keys of one task differ |
| `Execution.PayloadKeysSeparateAttempts` | src/data/execution.ts:133 | distinct truthy task ids give distinct payload keys; without task ids the key falls back to the reference name |
| `Execution.TaskPathsSeparateAttempts` | src/data/execution.ts:114-117 | distinct truthy task ids give paths that decode to distinct task ids |
| `Execution.ExecutionAndTasksQueries` | src/data/execution.ts:61-72 | two queries: the execution under `[stack, "workflow", workflowId]` and its tasks under that key plus `"tasks"`, with their paths, both enabled iff `ready` |
| `Execution.InvalidationKey` | src/data/execution.ts:49-54 | the invalidated key is the execution's own key `["workflow", workflowId]` scoped by the stack |
| `Execution.InvalidationCoversExecutionAndTasks` | src/data/execution.ts:49-72 | the invalidation key is a prefix of both combined queries' keys |
| `Execution.CombineExecutionAndTasks` | src/data/execution.ts:74-88 | execution and tasks are both present iff both queries have data, otherwise both absent; loading is the OR of the four flags |
| `Execution.WorkflowDag` | src/data/execution.ts:93-99 | a graph exists iff both execution and tasks are present, and is built from the whole combined value |
| `Execution.WorkflowDagFromDef` | src/data/execution.ts:101-107 | a graph exists iff the definition is present, and is built from it |
| `Execution.DagOfCombined` | src/data/execution.ts:74-99 | the graph of the combined result exists iff both queries have data, and is built from that data with the combined loading flag |
| `YAxis.Relabel` | src/pages/execution/workflowTabs/gantt-chart/components/y-axis.tsx:46-49 | same length and order; each row keeps its id and other fields and gets `labelFormatter(yAccessor(row))` |
| `YAxis.RelabelKeepsIds` | src/pages/execution/workflowTabs/gantt-chart/components/y-axis.tsx:46-49 | relabelling keeps the id sequence |
| `YAxis.RelabelAppend` | src/pages/execution/workflowTabs/gantt-chart/components/y-axis.tsx:46-49 | relabelling works row by row: it distributes over concatenation |
| `YAxis.CurrRowsMap` | src/pages/execution/workflowTabs/gantt-chart/components/y-axis.tsx:73-76 | the reduce loop builds exactly `RowsMap`, one `set` per row in order |
| `YAxis.RowsMapKeys` | src/pages/execution/workflowTabs/gantt-chart/components/y-axis.tsx:73-76 | the map's keys are exactly the ids of the current rows |
| `YAxis.RowsMapLastWins` | src/pages/execution/workflowTabs/gantt-chart/components/y-axis.tsx:73-76 | the label of an id is that of the last row with the id |
| `YAxis.MapGet` | src/pages/execution/workflowTabs/gantt-chart/components/y-axis.tsx:131 | `Map.get` yields the stored label for a present key and `undefined` otherwise |
| `YAxis.FindRow` | src/pages/execution/workflowTabs/gantt-chart/components/y-axis.tsx:78 | `find` yields nothing iff no row has the band as id, otherwise a row with that id |
| `YAxis.YPos` | src/pages/execution/workflowTabs/gantt-chart/components/y-axis.tsx:87-89 | the anchor is the band's offset plus `(bandwidth − barHeight − 4) · ratio`, and 0 for an unknown band |
| `YAxis.YPosKeepsSpacing` | src/pages/execution/workflowTabs/gantt-chart/components/y-axis.tsx:87-89 | anchors of two known bands are as far apart as the bands |
| `YAxis.DefaultYPos` | src/pages/execution/workflowTabs/gantt-chart/components/y-axis.tsx:32-33 | with the default bar height 22 and ratio 0.3 the anchor is the band's offset plus 0.3 · (bandwidth − 26), inside the band once it is 26 tall |
| `YAxis.YPosWithinBand` | src/pages/execution/workflowTabs/gantt-chart/components/y-axis.tsx:87-89 | with a ratio in [0, 1] and room for the bar, the anchor lies within the band's free space |
| `YAxis.NumOr` | src/pages/execution/workflowTabs/gantt-chart/components/y-axis.tsx:63-65 | JavaScript or on numbers: `a` unless it is zero |
| `YAxis.ShouldScroll` | src/pages/execution/workflowTabs/gantt-chart/components/y-axis.tsx:53-70 | scroll iff an id is selected, its element exists, and its rect is not fully inside the viewport |
| `YAxis.FullyVisibleMeansEveryPoint` | src/pages/execution/workflowTabs/gantt-chart/components/y-axis.tsx:57-66 | the four-comparison test holds iff every point of the rect lies in the viewport |
| `YAxis.Marker` | src/pages/execution/workflowTabs/gantt-chart/components/y-axis.tsx:136-137 | "▼" iff collapsible and expanded, "►" iff collapsible and not expanded, nothing iff not collapsible |
| `YAxis.LabelText` | src/pages/execution/workflowTabs/gantt-chart/components/y-axis.tsx:136-138 | the label reads the marker, a space, then the band's label from the map, or nothing when the map has none |
| `YAxis.MarkerFollowsFlag` | src/pages/execution/workflowTabs/gantt-chart/components/y-axis.tsx:136-137 | for a collapsible band, flipping its expanded flag flips the marker |
| `YAxis.Cursor` | src/pages/execution/workflowTabs/gantt-chart/components/y-axis.tsx:118-121 | "pointer" iff there is a click handler, children, or the band is collapsible; "inherit" otherwise |
| `YAxis.OnLabelClick` | src/pages/execution/workflowTabs/gantt-chart/components/y-axis.tsx:127-134 | toggles iff the band is collapsible; reports `{id: band, label}` last iff a handler is given; nothing else happens |
| `YAxis.ClickableLabelShowsPointer` | src/pages/execution/workflowTabs/gantt-chart/components/y-axis.tsx:118-134 | a label whose band is collapsible or that has a click handler, so whose click does something, shows the pointer cursor |
| `YAxis.BandLines` | src/pages/execution/workflowTabs/gantt-chart/components/y-axis.tsx:92-155 | every band draws its line at the anchor; the last band also draws a closing line one bandwidth lower, first |
| `YAxis.OneClosingLine` | src/pages/execution/workflowTabs/gantt-chart/components/y-axis.tsx:92-99 | exactly one band, the last, draws the closing line |

## Left out

- Networking and caching: `useFetch`, `fetchWithContext`, `useQueries` and `invalidateQueries`
  are not modelled. A fetch is the record of its key, path and `enabled` flag. A query result
  is its data and its loading/fetching flags.
- React plumbing: hooks, `useMemo` and `useEffect` and their dependency lists, jotai atoms and
  `setRows`. Relabelling is a function of the input rows.
  - `useTime` becomes the `now` parameter.
  - `useAppContext` becomes the `stack`, `ready` and custom-row parameters.
- DOM and browser effects:
  - `getElementById`, `getBoundingClientRect`, `scrollIntoView` and `window`/`document` sizes
    become an element-lookup function, a rect and a viewport record;
  - the scroll itself is the boolean `ShouldScroll`;
  - the copy-to-clipboard circle (y-axis.tsx:143-154) is not modelled.
- Rendering: SVG and JSX layout, icons and styles (y-axis.tsx:101-126) are not modelled.
  - The label text is the marker, a space and the map's label (`YAxis.LabelText`).
  - The `NavLink` elements are a `Link(path, caption)` value and newTab is not modelled.
  - Custom renderers return an opaque `Value`.
- Components not shown:
  - the execution-graph builder (`WorkflowDAG`) is the `build` parameter;
  - the d3 band scale is an `yScale: string -> Option<real>` function plus `bandwidth`;
  - the gantt `defaultFormatter`, `idAccessor` and `yAccessor` are function parameters;
  - what `toggleRow` does to the expanded flags is owned by the caller.
- Numbers:
  - times are integers in milliseconds, 0 meaning unset, because every read is behind a
    truthiness test;
  - pixels are reals;
  - NaN, Infinity and IEEE rounding are not modelled;
  - `_.isFinite(retryCount)` is represented by `retryCount` being present;
  - the `|| 0` fallback in `yPos` is modelled as "unknown band → 0". A computed anchor of
    exactly 0 equals the fallback anyway.
- `null` and `undefined` are not distinguished on optional fields: both are `None`. `||`, `if`
  and `?.` treat them alike. `subWorkflowId` is the exception. There `_.has` and the link
  tell a missing key apart from one holding `null`, `undefined` or a string, so that field
  uses the four-state `Keyed`. The model therefore differs from the source in three places:
  - a `null` sub-workflow name from `subWorkflowParam.name` links to `/workflowDef/null` in
    the source and to `/workflowDef/undefined` in the model (TaskSummary.jsx:102-108);
  - a `null` `workflowId` or `taskReferenceName` appears as `null` in a source task path, and
    as `undefined` in the model (execution.ts:114, 128, 146);
  - a heading value or a row value that is `null` in the source is `Undefined` in the model.
- The `workflowTask`, `inputData` and `outputData` sub-objects are flattened into the record
  and an optional definition. A present `outputData.caseOutput` is a sequence of strings.
- TaskPath: the exact path is stated for every input. Its decoding back to the resource and
  the task id is stated only when neither `workflowId` nor `taskReferenceName` contains a `?`.
  The source does not escape path segments, so with a `?` in an id the suffix cannot be split
  off unambiguously.
- UseWorkflowTask: the cache key of the plain task fetch has no task id, while its path does
  (execution.ts:114-118). Two attempts of one task therefore share a cache entry. This is
  modelled as written and is visible in `TaskKey`. It is not claimed as a defect, because the
  caching layer is not part of this model.
- src/components/DropdownButton.tsx, src/pages/execution/taskTabs/TaskOutput.tsx and
  src/components/Dropdown.d.ts are UI widgets and type declarations with no logic of their
  own, and are not part of this model.
