/**
  The traversal of `executeWorkflow` and `executeNode` as functions that
  thread the execution state: the `results` dictionary and the ordered trace
  of record-store writes and event-sink emissions. The methods of
  ExecutionEngine are proved to produce exactly these states.
 */
module Traversal {
  import opened Wrappers
  import opened Json
  import opened WorkflowGraph
  import opened NodeHandlers

  /** One node-log record, as written to the store or emitted to the sink. */
  datatype LogEntry = LogEntry(
    executionId: string, nodeId: string, status: Status, input: Json, output: Json, error: Option<string>)

  /** The execution record the store creates when a run begins. */
  datatype ExecutionRecord = ExecutionRecord(id: string, workflowId: string, status: Status, input: Json)

  /** The run's external effects, in the order they happen. */
  datatype Effect =
    | StoreExecution(execution: ExecutionRecord)                    // prisma.execution.create
    | StoreExecutionStatus(executionId: string, status: Status)     // prisma.execution.update
    | StoreLog(entry: LogEntry)                                     // prisma.executionLog.create
    | EmitExecution(executionId: string, status: Status,
                    results: Option<map<string, NodeResult>>, error: Option<string>)  // emitExecutionUpdate
    | EmitLog(entry: LogEntry)                                      // emitExecutionLog

  /** The state a traversal threads: the shared results dictionary and the effects so far. */
  datatype Trace = Trace(results: map<string, NodeResult>, effects: seq<Effect>)

  /** How a loop over sibling (or entry) nodes ended: all ran, or one threw. */
  datatype Completion = Normal | Abrupt(message: string)

  /** How `executeWorkflow` ends: it returns the created execution record, or it throws. */
  datatype RunOutcome = Completed(execution: ExecutionRecord) | Failed(message: string)

  /** What a run works against: the workflow, the handler table and the store's execution id. */
  datatype Env = Env(workflow: Workflow, registry: Registry, executionId: string)

  const NoStartMessage: string := "No starting nodes found in workflow"

  function UnknownTypeMessage(nodeType: string): string {
    "Unknown node type: " + nodeType
  }

  /** `node.data?.parameters || {}`. */
  function Params(n: Node): Json {
    Or(n.parameters, EmptyObject)
  }

  function HandlerData(n: Node, input: Json): NodeExecutionData {
    NodeExecutionData(n.id, n.nodeType, Params(n), input)
  }

  /** Effects of a node starting: the RUNNING event, then the RUNNING log record. */
  function RunningEffects(executionId: string, n: Node, input: Json): seq<Effect> {
    var entry := LogEntry(executionId, n.id, RUNNING, input, JUndefined, None);
    [EmitLog(entry), StoreLog(entry)]
  }

  /** Effects of a handler returning `r`: the log record, then the event, both with `r`'s status. */
  function ResultEffects(executionId: string, n: Node, input: Json, r: NodeResult): seq<Effect> {
    var entry := LogEntry(executionId, n.id, r.status, input, r.output, r.error);
    [StoreLog(entry), EmitLog(entry)]
  }

  /** Effects of the catch block of `executeNode`: an ERROR record (no output), then an ERROR event (null output). */
  function ErrorEffects(executionId: string, n: Node, input: Json, message: string): seq<Effect> {
    [StoreLog(LogEntry(executionId, n.id, ERROR, input, JUndefined, Some(message))),
     EmitLog(LogEntry(executionId, n.id, ERROR, input, JNull, Some(message)))]
  }

  /** The catch block of `executeNode`: log the error for this node and rethrow it. */
  function Unwind(env: Env, n: Node, input: Json, t: Trace, message: string): (Trace, Invocation) {
    (Trace(t.results, t.effects + ErrorEffects(env.executionId, n, input, message)), Raised(message))
  }

  /** `executeNode(node, workflow, input, results, executionId)`. */
  ghost function RunNode(env: Env, rank: map<string, nat>, n: Node, input: Json, t: Trace): (Trace, Invocation)
    requires Ranked(env.workflow, rank) && n.id in rank
    decreases rank[n.id], 1
  {
    var t1 := Trace(t.results, t.effects + RunningEffects(env.executionId, n, input));
    if n.nodeType !in env.registry then
      Unwind(env, n, input, t1, UnknownTypeMessage(n.nodeType))
    else
      match env.registry[n.nodeType](HandlerData(n, input))
      case Raised(message) => Unwind(env, n, input, t1, message)
      case Returned(r) =>
        var t2 := Trace(t1.results[n.id := r], t1.effects + ResultEffects(env.executionId, n, input, r));
        DownstreamRanked(env.workflow, rank, n.id);
        var (t3, c) := RunChildren(env, rank, DownstreamOf(env.workflow, n.id), Or(r.output, EmptyObject), t2, rank[n.id]);
        if c.Abrupt? then Unwind(env, n, input, t3, c.message) else (t3, Returned(r))
  }

  /** Runs `cs` one after another on the same input, stopping at the first that throws. */
  ghost function RunChildren(env: Env, rank: map<string, nat>, cs: seq<Node>, input: Json, t: Trace, bound: nat)
    : (Trace, Completion)
    requires Ranked(env.workflow, rank)
    requires forall n :: n in cs ==> n.id in rank && rank[n.id] < bound
    decreases bound, 0, |cs|
  {
    if cs == [] then (t, Normal)
    else
      var (t1, c) := RunChildren(env, rank, cs[..|cs| - 1], input, t, bound);
      if c.Abrupt? then (t1, c)
      else
        var (t2, o) := RunNode(env, rank, cs[|cs| - 1], input, t1);
        (t2, if o.Raised? then Abrupt(o.message) else Normal)
  }

  /** A bound above the rank of every node in `ns`. */
  function RankBound(rank: map<string, nat>, ns: seq<Node>): (b: nat)
    requires forall n :: n in ns ==> n.id in rank
    ensures forall n :: n in ns ==> rank[n.id] < b
    decreases |ns|
  {
    if ns == [] then 0
    else
      var rest := RankBound(rank, ns[1..]);
      assert forall n :: n in ns[1..] ==> rank[n.id] < rest;
      if rank[ns[0].id] < rest then rest else rank[ns[0].id] + 1
  }

  /** The traversal terminates: the reachable part of the graph is ranked. */
  ghost predicate Acyclic(env: Env, rank: map<string, nat>) {
    Ranked(env.workflow, rank) && forall n :: n in StartNodes(env.workflow.nodes) ==> n.id in rank
  }

  function CreatedExecution(env: Env, input: Json): ExecutionRecord {
    ExecutionRecord(env.executionId, env.workflow.id, RUNNING, Or(input, EmptyObject))
  }

  /** Effects before the entry nodes are looked at: the record is created, then RUNNING is emitted. */
  function StartEffects(env: Env, input: Json): seq<Effect> {
    [StoreExecution(CreatedExecution(env, input)), EmitExecution(env.executionId, RUNNING, None, None)]
  }

  /** Effects after every entry traversal returned: the SUCCESS update, then the SUCCESS event with `results`. */
  function SuccessEffects(env: Env, results: map<string, NodeResult>): seq<Effect> {
    [StoreExecutionStatus(env.executionId, SUCCESS), EmitExecution(env.executionId, SUCCESS, Some(results), None)]
  }

  /**
    `executeWorkflow(workflow, input)`. Its catch block reads `execution`,
    which is only in scope inside the try block, so the ERROR update and ERROR
    event there never happen: the catch adds no effect and rethrows.
   */
  ghost function RunWorkflow(env: Env, rank: map<string, nat>, input: Json): (Trace, RunOutcome)
    requires Acyclic(env, rank)
  {
    var payload := Or(input, EmptyObject);
    var t0 := Trace(map[], StartEffects(env, input));
    var starts := StartNodes(env.workflow.nodes);
    if starts == [] then
      (Trace(map[], t0.effects + [EmitExecution(env.executionId, ERROR, None, Some(NoStartMessage))]),
       Failed(NoStartMessage))
    else
      var (t1, c) := RunChildren(env, rank, starts, payload, t0, RankBound(rank, starts));
      if c.Abrupt? then (t1, Failed(c.message))
      else (Trace(t1.results, t1.effects + SuccessEffects(env, t1.results)), Completed(CreatedExecution(env, input)))
  }
}
