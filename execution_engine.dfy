/**
  The imperative engine: `executeNode` as a recursive method that updates the
  shared results dictionary in place and appends to the effect trace, and
  `executeWorkflow` as a method that loops over the entry nodes. Each is
  proved to end in the state the Traversal functions describe.
 */
module ExecutionEngine {
  import opened Wrappers
  import opened Json
  import opened WorkflowGraph
  import opened NodeHandlers
  import opened Traversal
  import opened TraversalProperties

  /** The state of one execution: the `results` dictionary and what has been written and emitted. */
  class ExecutionContext {
    const executionId: string
    var results: map<string, NodeResult>
    ghost var effects: seq<Effect>

    constructor (executionId: string)
      ensures this.executionId == executionId && results == map[] && effects == []
    {
      this.executionId := executionId;
      results := map[];
      effects := [];
    }

    ghost function State(): Trace
      reads this
    {
      Trace(results, effects)
    }

    /** Appends the effects of `executeNode`'s catch block. */
    method LogError(n: Node, input: Json, message: string)
      modifies this
      ensures results == old(results)
      ensures effects == old(effects) + ErrorEffects(executionId, n, input, message)
    {
      effects := effects + [StoreLog(LogEntry(executionId, n.id, ERROR, input, JUndefined, Some(message)))];
      effects := effects + [EmitLog(LogEntry(executionId, n.id, ERROR, input, JNull, Some(message)))];
    }

    /** `executeNode`: log RUNNING, dispatch, store and log the result, then run the children in order. */
    method ExecuteNode(env: Env, ghost rank: map<string, nat>, n: Node, input: Json) returns (outcome: Invocation)
      requires env.executionId == executionId
      requires Ranked(env.workflow, rank) && n.id in rank
      modifies this
      ensures (State(), outcome) == RunNode(env, rank, n, input, old(State()))
      decreases rank[n.id], 1
    {
      ghost var t := State();
      effects := effects + [EmitLog(LogEntry(executionId, n.id, RUNNING, input, JUndefined, None))];
      effects := effects + [StoreLog(LogEntry(executionId, n.id, RUNNING, input, JUndefined, None))];
      if n.nodeType !in env.registry {
        var message := UnknownTypeMessage(n.nodeType);
        LogError(n, input, message);
        assert effects == t.effects + RunningEffects(executionId, n, input) + ErrorEffects(executionId, n, input, message);
        return Raised(message);
      }
      var invocation := env.registry[n.nodeType](HandlerData(n, input));
      if invocation.Raised? {
        LogError(n, input, invocation.message);
        assert effects == t.effects + RunningEffects(executionId, n, input)
                          + ErrorEffects(executionId, n, input, invocation.message);
        return invocation;
      }
      var r := invocation.result;
      results := results[n.id := r];
      var entry := LogEntry(executionId, n.id, r.status, input, r.output, r.error);
      effects := effects + [StoreLog(entry)];
      effects := effects + [EmitLog(entry)];
      ghost var t2 := State();
      assert t2 == Trace(t.results[n.id := r], t.effects + RunningEffects(executionId, n, input)
                                                       + ResultEffects(executionId, n, input, r));

      var children := DownstreamOf(env.workflow, n.id);
      DownstreamRanked(env.workflow, rank, n.id);
      var completion := ExecuteInOrder(env, rank, children, Or(r.output, EmptyObject), rank[n.id]);
      if completion.Abrupt? {
        LogError(n, input, completion.message);
        return Raised(completion.message);
      }
      return Returned(r);
    }

    /**
      The `for ... of` loops of `executeNode` and `executeWorkflow`: run each
      node on the same input, one after another, until one throws.
     */
    method ExecuteInOrder(env: Env, ghost rank: map<string, nat>, ns: seq<Node>, input: Json, ghost bound: nat)
      returns (completion: Completion)
      requires env.executionId == executionId
      requires Ranked(env.workflow, rank)
      requires forall n :: n in ns ==> n.id in rank && rank[n.id] < bound
      modifies this
      ensures (State(), completion) == RunChildren(env, rank, ns, input, old(State()), bound)
      decreases bound, 0, |ns|
    {
      ghost var t := State();
      var i := 0;
      completion := Normal;
      while i < |ns| && completion.Normal?
        invariant 0 <= i <= |ns|
        invariant (State(), completion) == RunChildren(env, rank, ns[..i], input, t, bound)
        decreases |ns| - i
      {
        assert ns[..i + 1][..i] == ns[..i];
        var o := ExecuteNode(env, rank, ns[i], input);
        if o.Raised? {
          completion := Abrupt(o.message);
        }
        i := i + 1;
      }
      AbruptStops(env, rank, ns, input, t, bound, i);
    }
  }

  /**
    `executeWorkflow`: create the execution, emit RUNNING, run each entry node
    in order, then record and emit SUCCESS; a thrown error is rethrown.
   */
  method ExecuteWorkflow(env: Env, ghost rank: map<string, nat>, input: Json)
    returns (ctx: ExecutionContext, outcome: RunOutcome)
    requires Acyclic(env, rank)
    ensures fresh(ctx) && ctx.executionId == env.executionId
    ensures (ctx.State(), outcome) == RunWorkflow(env, rank, input)
  {
    ctx := new ExecutionContext(env.executionId);
    var execution := CreatedExecution(env, input);
    ctx.effects := ctx.effects + [StoreExecution(execution)];
    ctx.effects := ctx.effects + [EmitExecution(env.executionId, RUNNING, None, None)];
    var starts := StartNodes(env.workflow.nodes);
    if starts == [] {
      ctx.effects := ctx.effects + [EmitExecution(env.executionId, ERROR, None, Some(NoStartMessage))];
      assert ctx.effects == StartEffects(env, input) + [EmitExecution(env.executionId, ERROR, None, Some(NoStartMessage))];
      return ctx, Failed(NoStartMessage);
    }
    assert ctx.State() == Trace(map[], StartEffects(env, input));
    var completion := ctx.ExecuteInOrder(env, rank, starts, Or(input, EmptyObject), RankBound(rank, starts));
    if completion.Abrupt? {
      return ctx, Failed(completion.message);
    }
    ghost var t1 := ctx.State();
    ctx.effects := ctx.effects + [StoreExecutionStatus(env.executionId, SUCCESS)];
    ctx.effects := ctx.effects + [EmitExecution(env.executionId, SUCCESS, Some(ctx.results), None)];
    assert ctx.State() == Trace(t1.results, t1.effects + SuccessEffects(env, t1.results));
    return ctx, Completed(execution);
  }
}
