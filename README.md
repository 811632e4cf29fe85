# Workflow execution engine and workflows slice, in Dafny

This project models two parts of a workflow-automation application. A user
builds a workflow: a graph of typed nodes (triggers, actions, flow control)
joined by connections. The models are:

- **The server's execution engine** (`workflowExecutionService.ts`):
  - `executeWorkflow` creates an execution record, emits RUNNING and finds
    the entry nodes (those whose type contains `trigger`). It runs each
    entry node in order, then records and emits SUCCESS.
  - `executeNode` logs RUNNING. It then looks the node's type up in the
    `nodeExecutors` table, calls the handler and stores its result in the
    shared `results` dictionary. It logs the result and then runs each
    downstream node, in connection order, on `result.output || {}`. A
    thrown error is logged as an ERROR pair and rethrown.
  - The nine handlers of the table: the two triggers, `http-request`,
    `code`, `set`, `if`, `email-send`, `postgres` and `openai`.
- **The client's `workflows` slice** (`workflowsSlice.ts`): the cached
  workflow list, the workflow open in the designer, and the loading and
  error flags, updated in place by seven reducers.

Layout, by module:

- `Json`: the JavaScript values that flow through a run. The module defines
  truthiness, `||`, object spread and `String(v)` for computed keys. It
  also defines `Field`, the read of a destructured parameter: the field when
  the parameters are an object holding it, `undefined` otherwise.
- `WorkflowGraph`: the workflow record, the entry-node filter, `find` and
  the downstream query.
- `NodeHandlers`: the handler type and the nine handlers, each a function.
  The whole table is `SourceRegistry(now, evalCondition)`.
- `Traversal`: ghost functions `RunNode`, `RunChildren` and `RunWorkflow`.
  They state what a run does to the state it threads: the `results`
  dictionary, plus one ordered trace of every record-store write and
  event-sink emission.
- `ExecutionEngine`: the imperative engine. `ExecutionContext` holds
  `results` and the effect trace, and its `ExecuteNode` method is
  recursive. The `for ... of` loops become `ExecuteInOrder`.
  `ExecuteWorkflow` drives the run. Each method is proved to end exactly
  in the state the `Traversal` functions give.
- `TraversalProperties` and `RegistryProperties`: what those functions
  imply. This covers:
  - the order of effects;
  - which errors halt a run and which do not;
  - that errors unwind innermost first;
  - that entry nodes after a failing one never start;
  - that a fan-in node is invoked once per path.
- `Scenarios`: a concrete diamond run against the server's table.
- `WorkflowsSlice`: a `WorkflowsState` class whose methods are the reducers,
  with lemmas about `findIndex` and `filter`.

Termination comes from a ranking: a map from node ids to naturals. It must
strictly decrease along every connection whose source is ranked and whose
target names a node. Connections from unranked ids, and connections whose
target resolves to no node, are not constrained, because the traversal never
follows them. A run is only defined when the entry nodes are ranked
(`Acyclic`). The handler table is a parameter of the run (`Env`).
The generic lemmas therefore hold for any table, and the `Registry...`
lemmas specialise them to the server's own nine handlers.

## Model

| member | source | states |
|---|---|---|
| Json.Truthy | server/src/services/workflowExecutionService.ts:133 | JavaScript truthiness, the test behind `\|\|` and the `nextPath` choice: `undefined`, `null`, `false`, `0` and `""` are falsy, everything else is truthy (a definition) |
| Json.Or | server/src/services/workflowExecutionService.ts:250 | `v \|\| fallback` keeps a truthy value and is truthy whenever the fallback is, so every `input \|\| {}` and `output \|\| {}` a node receives is truthy |
| Json.Spread | server/src/services/workflowExecutionService.ts:79 | the entries `{...v}` copies (a definition; its contents are stated by `SpreadEntries`) |
| Json.SpreadEntries | server/src/services/workflowExecutionService.ts:79 | an object spreads to its own fields; an array to key `String(i)` holding element `i` and nothing else; a string to key `String(i)` holding its `i`-th character; any other value to nothing |
| Json.IndexedEntries | server/src/services/workflowExecutionService.ts:79 | the index entries of a sequence: key `String(i)` holds element `i`, and there are no other keys (needs distinct decimal forms, `NatToStringInjective`) |
| Json.NatToStringInjective | server/src/services/workflowExecutionService.ts:100 | different indices have different decimal keys |
| Json.ToPropertyKey | server/src/services/workflowExecutionService.ts:100 | `String(v)` for a computed key `[key]`: strings as is, numbers in decimal, `null`/`undefined`/booleans by name, arrays joined with `,`, objects as `[object Object]`, and `None` where the conversion throws (a definition; when it throws is stated by `ToPropertyKeyThrows`) |
| Json.ToPropertyKeyThrows | server/src/services/workflowExecutionService.ts:100 | converting a key throws exactly when the key is, or holds inside nested arrays, an object with its own `toString` field |
| WorkflowGraph.ContainsIffOccurs | server/src/services/workflowExecutionService.ts:263 | the `includes` test holds exactly when the substring occurs at some offset |
| WorkflowGraph.StartNodes | server/src/services/workflowExecutionService.ts:263 | a node is an entry node iff it is in the workflow and its type contains `trigger`; there are no more entry nodes than nodes |
| WorkflowGraph.StartNodesAppend | server/src/services/workflowExecutionService.ts:263 | the entry nodes keep declaration order: the filter commutes with concatenation |
| WorkflowGraph.FindNode | server/src/services/workflowExecutionService.ts:371 | `find` gives nothing iff no node has the id; otherwise it gives a node of the list that has the id, and no earlier node has it |
| WorkflowGraph.Downstream | server/src/services/workflowExecutionService.ts:368-372 | at most one child per connection |
| WorkflowGraph.DownstreamMembers | server/src/services/workflowExecutionService.ts:368-372 | a node is a child iff some connection from the node resolves to it through `find` |
| WorkflowGraph.DownstreamAppend | server/src/services/workflowExecutionService.ts:368-372 | children keep connection order: the query commutes with concatenation of connections |
| WorkflowGraph.DownstreamMultiplicity | server/src/services/workflowExecutionService.ts:368-372 | no deduplication: a child occurs once per connection that reaches it |
| WorkflowGraph.DownstreamRanked | server/src/services/workflowExecutionService.ts:375-378 | under a ranking, every child is ranked strictly below its parent, so the recursion terminates |
| NodeHandlers.WebhookTrigger | server/src/services/workflowExecutionService.ts:26-33 | SUCCESS with the node's id, no error, output exactly `{message: 'Webhook triggered', timestamp}` |
| NodeHandlers.ScheduleTrigger | server/src/services/workflowExecutionService.ts:35-42 | SUCCESS, output exactly `{message: 'Schedule triggered', timestamp}` |
| NodeHandlers.HttpRequest | server/src/services/workflowExecutionService.ts:45-69 | SUCCESS, output keys exactly `statusCode` (200), `headers`, `body`; `body.input` is the node's input |
| NodeHandlers.Code | server/src/services/workflowExecutionService.ts:71-92 | SUCCESS; output keys are the input's spread keys plus `processedBy` and `timestamp`; `processedBy` is `code-node`; every other input entry is copied |
| NodeHandlers.Set | server/src/services/workflowExecutionService.ts:94-116 | returns ERROR with a null output and the TypeError's message exactly when the key cannot be converted (the catch block); otherwise SUCCESS, and the output is the input's spread entries plus `[String(key)]: value`, which overrides an input entry of the same name |
| NodeHandlers.If | server/src/services/workflowExecutionService.ts:119-144 | SUCCESS; `conditionResult` is whatever the evaluator yields for the `condition` parameter and the input; `nextPath` is `'true'` iff that value is truthy, else `'false'`; the input entries are otherwise copied |
| NodeHandlers.EmailSend | server/src/services/workflowExecutionService.ts:147-169 | SUCCESS, output keys exactly `message`, `to`, `subject`, the last two copied from the parameters |
| NodeHandlers.Postgres | server/src/services/workflowExecutionService.ts:172-195 | SUCCESS, output keys exactly `message`, `query`, `result`; `query` is copied and `result` is `[]` |
| NodeHandlers.OpenAI | server/src/services/workflowExecutionService.ts:198-220 | SUCCESS, output keys exactly `response`, `model`, `prompt`, the last two copied from the parameters |
| NodeHandlers.SourceRegistry | server/src/services/workflowExecutionService.ts:24-221 | the table's keys are exactly the nine type tags |
| NodeHandlers.SourceRegistryEntries | server/src/services/workflowExecutionService.ts:24-221 | each of the nine tags dispatches to its own handler, applied to the node data it is given |
| NodeHandlers.TriggerEntries | server/src/services/workflowExecutionService.ts:26-69 | `webhook-trigger`, `schedule-trigger` and `http-request` dispatch to their own handlers |
| NodeHandlers.TransformEntries | server/src/services/workflowExecutionService.ts:71-144 | `code`, `set` and `if` dispatch to their own handlers |
| NodeHandlers.IntegrationEntries | server/src/services/workflowExecutionService.ts:147-220 | `email-send`, `postgres` and `openai` dispatch to their own handlers |
| Traversal.Params | server/src/services/workflowExecutionService.ts:343 | `node.data?.parameters \|\| {}`, the parameters a handler receives (a definition) |
| Traversal.RunNode | server/src/services/workflowExecutionService.ts:313-402 | reference definition of `executeNode`: the RUNNING pair, dispatch, store and log the result, run the children on `output \|\| {}`, and log-and-rethrow on any throw; the lemmas below state its properties and `ExecuteNode` is proved equal to it |
| Traversal.RunChildren | server/src/services/workflowExecutionService.ts:374-378 | reference definition of the `for ... of` loops: run nodes in order on one input, stopping at the first throw; `ExecuteInOrder` is proved equal to it |
| Traversal.RunWorkflow | server/src/services/workflowExecutionService.ts:243-310 | reference definition of `executeWorkflow`: the opening pair, the no-entry error, the entry loop on `input \|\| {}`, then the SUCCESS pair; `ExecuteWorkflow` is proved equal to it |
| NodeHandlers.SourceHandlersSucceed | server/src/services/workflowExecutionService.ts:24-221 | apart from `set` with a key that cannot be converted, no handler reaches its catch branch: each returns SUCCESS with its node's id, no error and a truthy object output |
| TraversalProperties.RunNodeExtends | server/src/services/workflowExecutionService.ts:320-402 | a node invocation only appends node-log effects, keeps every stored result key, and first emits the RUNNING event and then writes the RUNNING record with its input |
| TraversalProperties.RunChildrenExtends | server/src/services/workflowExecutionService.ts:374-378 | running siblings only appends node-log effects and keeps every result key |
| TraversalProperties.AbruptStops | server/src/services/workflowExecutionService.ts:374-378 | once a sibling throws, the later ones never run: the loop's final state is the state at the throw |
| TraversalProperties.RunNodeUnknownType | server/src/services/workflowExecutionService.ts:335-338 | an unregistered type gives the RUNNING pair, then an ERROR record and event, then a throw with `Unknown node type: <type>` |
| TraversalProperties.RunChildrenNth | server/src/services/workflowExecutionService.ts:374-377 | every sibling runs on the same input: once the first k returned, the next effect is the RUNNING event of sibling k with that input |
| TraversalProperties.RunNodeFrame | server/src/services/workflowExecutionService.ts:350 | a node's traversal changes no stored result except its own and those of nodes ranked strictly below it; a node ranked level with it keeps its result |
| TraversalProperties.RunChildrenFrame | server/src/services/workflowExecutionService.ts:374-378 | a sibling loop below a rank bound keeps the stored result of every node ranked at or above it |
| TraversalProperties.RunNodeStores | server/src/services/workflowExecutionService.ts:347-380 | a traversal that returns came from a registered handler that returned that result, and leaves `results[node.id]` equal to it |
| TraversalProperties.RunChildrenFirst | server/src/services/workflowExecutionService.ts:374-378 | the first sibling to run begins with its RUNNING event on the shared input |
| TraversalProperties.RunNodeReturned | server/src/services/workflowExecutionService.ts:347-380 | after the RUNNING pair come the result record and then the event, with that result's status, output and error; the first child starts on `output \|\| {}`; a leaf stores and returns the result |
| TraversalProperties.ReturnedErrorDoesNotHalt | server/src/services/workflowExecutionService.ts:347-378 | a handler that returns status ERROR with null output does not stop the descent: the first child still runs, with input `{}` |
| TraversalProperties.RunNodeRaised | server/src/services/workflowExecutionService.ts:381-400 | a node whose traversal throws ends its trace with its own ERROR record and ERROR event, carrying the thrown message |
| TraversalProperties.RunChildrenAbrupt | server/src/services/workflowExecutionService.ts:374-378 | siblings that stop abruptly end with the ERROR pair of one of them, with the same message |
| TraversalProperties.UnwindInnermostFirst | server/src/services/workflowExecutionService.ts:374-400 | when a child throws, the trace ends with the child's ERROR pair followed by the parent's, both with the same message |
| TraversalProperties.RunWorkflowNoStart | server/src/services/workflowExecutionService.ts:265-268 | no entry node: only the created record, the RUNNING event and the ERROR event with `No starting nodes found in workflow`; no node log; the run throws that message |
| TraversalProperties.NoSuccessAfterStart | server/src/services/workflowExecutionService.ts:279-285 | any node-log extension of the opening effects holds no SUCCESS update or event |
| TraversalProperties.RunWorkflowFailed | server/src/services/workflowExecutionService.ts:243-309 | a failed run keeps the opening effects and never writes or emits SUCCESS; when an entry node existed, the trace ends with the ERROR pair of an entry node, with the rethrown message |
| TraversalProperties.RunWorkflowFailedNoStatus | server/src/services/workflowExecutionService.ts:288-309 | a failed run never writes an execution status; with an entry node, every effect after the opening pair is a node log |
| TraversalProperties.RunWorkflowCompleted | server/src/services/workflowExecutionService.ts:279-287 | a completed run had an entry node, ends with the SUCCESS update followed by the SUCCESS event carrying the final results, and returns the record as created (status RUNNING) |
| TraversalProperties.RunWorkflowStoresLastEntry | server/src/services/workflowExecutionService.ts:274-285 | the results a completed run reports with SUCCESS hold, under the last entry node's id, what that node's handler returned on `input \|\| {}` |
| TraversalProperties.LaterEntriesDoNotRun | server/src/services/workflowExecutionService.ts:274-276 | when entry node k's traversal throws, the run's state is that of entries 0..k and the run rethrows that error |
| TraversalProperties.RunningCountAppend | server/src/services/workflowExecutionService.ts:322 | RUNNING events of a node add up over concatenated traces |
| TraversalProperties.RunNodeCount | server/src/services/workflowExecutionService.ts:313-378 | a node traversal that returns emits one RUNNING event per path from it to node `x` (the reference count `Paths`) |
| TraversalProperties.RunChildrenCount | server/src/services/workflowExecutionService.ts:374-378 | siblings that all return emit, for node `x`, the sum of their path counts |
| TraversalProperties.RunWorkflowCount | server/src/services/workflowExecutionService.ts:274-276 | a completed run invoked each node once per path from the entry nodes, so fan-in nodes are replayed |
| RegistryProperties.SourceRegistryWellBehaved | server/src/services/workflowExecutionService.ts:24-221 | the server's table never throws and never reports RUNNING; `set`'s catch block returns ERROR rather than throwing |
| RegistryProperties.DownstreamInNodes | server/src/services/workflowExecutionService.ts:371-372 | every child is a node of the workflow |
| RegistryProperties.RunNodeReturns | server/src/services/workflowExecutionService.ts:313-402 | with a table that never throws and covers every node type, no node traversal throws |
| RegistryProperties.RunChildrenComplete | server/src/services/workflowExecutionService.ts:374-378 | under the same hypotheses, a sibling loop always runs to its end |
| RegistryProperties.RunWorkflowCompletes | server/src/services/workflowExecutionService.ts:243-287 | under the same hypotheses, a run completes iff the workflow has an entry node |
| RegistryProperties.SourceRunCompletes | server/src/services/workflowExecutionService.ts:243-287 | a workflow built only from the nine registered types, run against the server's table, completes iff it has an entry node, and then every node ran once per path |
| Scenarios.DiamondStart | server/src/services/workflowExecutionService.ts:263 | in the diamond, the webhook node is the only entry node |
| Scenarios.DiamondFinds | server/src/services/workflowExecutionService.ts:371 | each connection target resolves to its node |
| Scenarios.DiamondChildren | server/src/services/workflowExecutionService.ts:368-372 | the children of each diamond node, in connection order |
| Scenarios.DiamondRanked | server/src/services/workflowExecutionService.ts:375-378 | the diamond's ranking decreases along every connection |
| Scenarios.DiamondCovered | server/src/services/workflowExecutionService.ts:24-221 | every diamond node type is one of the nine registered tags |
| Scenarios.FanInPaths | server/src/services/workflowExecutionService.ts:369-378 | two paths reach the leaf of a fan-in |
| Scenarios.FanInRunsTwice | server/src/services/workflowExecutionService.ts:374-378 | under a table that never throws, a fan-in run completes and invokes the leaf twice |
| Scenarios.ParentOfLeaf | server/src/services/workflowExecutionService.ts:347-377 | a node whose only child is a leaf stores the leaf's result, computed on the parent's `output \|\| {}` |
| Scenarios.FanInLastWrite | server/src/services/workflowExecutionService.ts:350 | at the end of a fan-in run, the leaf's stored result is the one computed along the later path |
| Scenarios.DiamondFanIn | server/src/services/workflowExecutionService.ts:24-221 | the diamond with the server's table meets every hypothesis of the fan-in lemmas |
| Scenarios.DiamondRunsJoinTwice | server/src/services/workflowExecutionService.ts:376-377 | the diamond run completes and its code node is invoked twice |
| Scenarios.SetCatchDoesNotHalt | server/src/services/workflowExecutionService.ts:108-115 | with the server's table, a `set` node whose key has its own `toString` returns ERROR and its first child still runs next, on `{}` |
| Scenarios.SetThenCode | server/src/services/workflowExecutionService.ts:71-116 | a code node after a `set via=v` node still carries `via = v` in its output |
| Scenarios.DiamondLastWriteWins | server/src/services/workflowExecutionService.ts:350 | in the diamond, the stored result of the code node carries `via = "c"`, from the later path |
| ExecutionEngine.ExecutionContext.constructor | server/src/services/workflowExecutionService.ts:271 | a fresh context: empty `results`, no effects |
| ExecutionEngine.ExecutionContext.LogError | server/src/services/workflowExecutionService.ts:384-396 | appends the ERROR record (no output), then the ERROR event (null output), and leaves `results` alone |
| ExecutionEngine.ExecutionContext.ExecuteNode | server/src/services/workflowExecutionService.ts:313-402 | the in-place traversal of one node ends in exactly the state and outcome `RunNode` gives |
| ExecutionEngine.ExecutionContext.ExecuteInOrder | server/src/services/workflowExecutionService.ts:374-378 | the sibling loop ends in exactly the state and completion `RunChildren` gives |
| ExecutionEngine.ExecuteWorkflow | server/src/services/workflowExecutionService.ts:243-310 | returns a fresh context for the execution id whose final state and outcome are exactly `RunWorkflow`'s |
| WorkflowsSlice.FindIndex | client/src/store/features/workflows/workflowsSlice.ts:38 | `findIndex` is -1 iff no item has the id; otherwise the item there has the id and no earlier item does |
| WorkflowsSlice.RemoveId | client/src/store/features/workflows/workflowsSlice.ts:47 | the filtered list is never longer |
| WorkflowsSlice.RemoveIdMembers | client/src/store/features/workflows/workflowsSlice.ts:47 | an item survives iff it was present and its id differs; no survivor has the id |
| WorkflowsSlice.RemoveIdAppend | client/src/store/features/workflows/workflowsSlice.ts:47 | the filter keeps order: it commutes with concatenation |
| WorkflowsSlice.RemoveIdAbsent | client/src/store/features/workflows/workflowsSlice.ts:47 | when no item has the id the filter changes nothing |
| WorkflowsSlice.RemoveIdIdempotent | client/src/store/features/workflows/workflowsSlice.ts:46-51 | deleting an id twice is deleting it once |
| WorkflowsSlice.RemoveIdMultiplicity | client/src/store/features/workflows/workflowsSlice.ts:47 | every copy of a workflow with another id survives; every copy with this id is gone |
| WorkflowsSlice.AddThenDelete | client/src/store/features/workflows/workflowsSlice.ts:34-51 | adding a workflow and then deleting its id leaves what deleting alone leaves |
| WorkflowsSlice.AddThenFind | client/src/store/features/workflows/workflowsSlice.ts:34-38 | a workflow added under a fresh id is found at the new last position |
| WorkflowsSlice.WorkflowsState.constructor | client/src/store/features/workflows/workflowsSlice.ts:11-16 | the initial state: no items, no open workflow, not loading, no error |
| WorkflowsSlice.WorkflowsState.SetLoading | client/src/store/features/workflows/workflowsSlice.ts:22-24 | sets `loading` and nothing else |
| WorkflowsSlice.WorkflowsState.SetError | client/src/store/features/workflows/workflowsSlice.ts:25-27 | sets `error` and nothing else |
| WorkflowsSlice.WorkflowsState.SetWorkflows | client/src/store/features/workflows/workflowsSlice.ts:28-30 | replaces the list and nothing else |
| WorkflowsSlice.WorkflowsState.SetCurrentWorkflow | client/src/store/features/workflows/workflowsSlice.ts:31-33 | sets the open workflow and nothing else |
| WorkflowsSlice.WorkflowsState.AddWorkflow | client/src/store/features/workflows/workflowsSlice.ts:34-36 | one more item, the payload, at the end; earlier items and other fields unchanged |
| WorkflowsSlice.WorkflowsState.UpdateWorkflow | client/src/store/features/workflows/workflowsSlice.ts:37-45 | the length is kept; with no match the list is unchanged; otherwise only the first item with the id becomes the payload; the open workflow is replaced iff it has that id |
| WorkflowsSlice.WorkflowsState.DeleteWorkflow | client/src/store/features/workflows/workflowsSlice.ts:46-51 | the list becomes the filtered list; the open workflow is closed iff it has the id, and otherwise stays |

## Behaviour a reader might not expect

- A handler that *returns* status ERROR does not halt the traversal. Its
  record and event carry ERROR, and its children still run on
  `output || {}` (`ReturnedErrorDoesNotHalt`). Only a *thrown* error
  unwinds. In the server's table this happens to `set` when its key is an
  object with its own `toString` field, such as `{"toString": 1}`: building
  the computed key raises a TypeError, and the catch block returns ERROR
  with a null output (`Set`, `SetCatchDoesNotHalt`). Every other handler
  always returns SUCCESS (`SourceHandlersSucceed`).
- The catch block of `executeWorkflow` (lines 288-309) reads `execution`,
  a `const` declared inside the `try` block and so not in scope there.
  The ERROR status update and the ERROR event in that block never take
  effect: the inner `try` swallows the reference failure, and the original
  error is rethrown. A failed run therefore adds no effect after the
  failing node's own ERROR pair, and the execution record is never set to
  ERROR (`RunWorkflowFailedNoStatus`).
- With no entry node, the only effect after the opening pair is the ERROR
  event (line 266). The record itself is never updated.
- A completed run returns the record as it was created, whose status is
  still RUNNING (`RunWorkflowCompleted`). The SUCCESS update is written to
  the store but is not reflected in the returned value.
- A node reached by several connections is replayed once per path
  (`RunWorkflowCount`). The results dictionary keeps the last write
  (`DiamondLastWriteWins`).

## Left out

- Floating-point numbers: `JNum` holds integers. Object key order is not
  modelled: objects are maps.
- `new Date()`: every timestamp a handler writes is one abstract instant
  `now`, and `completedAt` is not recorded. No clock is read.
- A `JDate` used as a computed key is rendered by its instant.
  `Date.prototype.toString` formatting is not modelled.
- The inside of `evalCondition` (lines 224-240), which builds and runs code
  from a string. It is a parameter, `evalCondition: (Json, Json) -> Json`,
  so whatever value it yields (including `false` from its own catch block)
  is covered.
- Lookups of `Object.prototype` names (`toString`, `constructor`) in
  `nodeExecutors`. Every tag outside the nine is treated as unknown.
- `__proto__` as a key: `results[node.id] = result` for a node whose id
  is `"__proto__"` sets the prototype of the plain `{}` rather than adding
  a key, so the SUCCESS event's `results` would lack it. The model stores
  it like any other id. (A spread entry or a computed `set` key named
  `__proto__` does become an own key, as modelled.)
- Json.SpreadEntries, Json.Spread: a string spreads to one key per
  Unicode scalar value here. JavaScript spreads one key per UTF-16 code
  unit, so a character outside the Basic Multilingual Plane takes two keys
  there. `string` is `seq<char>` and UTF-16 encoding is not modelled.
- NodeHandlers.Set: the TypeError's message is the text V8 gives,
  `NoPrimitiveMessage`; other engines word it differently.
- Node types that are not strings. `Node.nodeType` is a `string`.
- Failures of the record store or the event sink: every write and emission
  succeeds, and each is one effect in the trace.
- Ids and timestamps the store generates. The execution id is a parameter
  (`Env.executionId`).
- The worker entry points: `executeWorkflowInWorker` and the
  `isMainThread` block (lines 404-432). These are thread plumbing around
  `executeWorkflow`.
- Logging to the console.
- `async`/`await`: every awaited call completes before the next statement
  runs, so the run is sequential.
- Cyclic graphs: a run is defined only when a ranking exists (`Acyclic`),
  so every graph with a cycle reachable through its connections is
  excluded. That includes graphs on which the source does end, because a
  node on the cycle, or a sibling run before it, throws (an unknown type,
  for instance) and the throw ends the descent before the cycle closes.
  Without such a throw, the source recurses without bound on the cycle.
- `workflow.connections || []`: the connections are a list, `[]` when the
  workflow has none.
- Falsy `data.parameters` (line 343): the model applies `|| {}` to the
  node's `parameters` value. A node without `data` has `JUndefined` there.
- `setError`'s `string | null` and the open workflow's `Workflow | null`
  are `Option`.
- The socket layer and the Prisma client are not part of this model.
- WorkflowsSlice.RemoveId: its own contract states only the length bound.
  What the filter keeps is stated by `RemoveIdMembers`,
  `RemoveIdMultiplicity` and `RemoveIdAppend`.
