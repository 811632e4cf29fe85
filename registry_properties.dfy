/**
  What the server's own handler table implies for a whole run: none of the
  nine handlers throws or reports RUNNING, so a workflow built only from
  registered types completes exactly when it has an entry node.
 */
module RegistryProperties {
  import opened Wrappers
  import opened Json
  import opened WorkflowGraph
  import opened NodeHandlers
  import opened Traversal
  import opened TraversalProperties

  /** No registered handler throws. */
  ghost predicate NeverRaises(reg: Registry) {
    forall tag, d :: tag in reg ==> reg[tag](d).Returned?
  }

  /** Every node of the workflow has a registered type. */
  ghost predicate Covered(wf: Workflow, reg: Registry) {
    forall n :: n in wf.nodes ==> n.nodeType in reg
  }

  /** The nine handlers never throw and never report RUNNING; `set`'s catch branch returns ERROR. */
  lemma SourceRegistryWellBehaved(now: int, evalCondition: (Json, Json) -> Json)
    ensures NeverRaises(SourceRegistry(now, evalCondition))
    ensures NoRunningResults(SourceRegistry(now, evalCondition))
  {
    var reg := SourceRegistry(now, evalCondition);
    forall tag, d | tag in reg
      ensures reg[tag](d).Returned? && reg[tag](d).result.status != RUNNING
    {
      if tag == "set" && ShadowsToString(Field(d.parameters, "key")) {
        TransformEntries(now, evalCondition, d);
      } else {
        SourceHandlersSucceed(now, evalCondition, tag, d);
      }
    }
  }

  /** Children are nodes of the workflow. */
  lemma DownstreamInNodes(wf: Workflow, id: string)
    ensures forall n :: n in DownstreamOf(wf, id) ==> n in wf.nodes
  {
    forall n | n in DownstreamOf(wf, id) ensures n in wf.nodes {
      DownstreamMembers(wf.nodes, wf.connections, id, n);
    }
  }

  /** With a covering table that never throws, no node's traversal throws. */
  lemma {:induction false} RunNodeReturns(env: Env, rank: map<string, nat>, n: Node, input: Json, t: Trace)
    requires Ranked(env.workflow, rank) && n.id in rank
    requires NeverRaises(env.registry) && Covered(env.workflow, env.registry) && n in env.workflow.nodes
    ensures RunNode(env, rank, n, input, t).1.Returned?
    decreases rank[n.id], 1
  {
    var r := env.registry[n.nodeType](HandlerData(n, input)).result;
    var t2 := Trace(t.results[n.id := r], t.effects + RunningEffects(env.executionId, n, input)
                                                   + ResultEffects(env.executionId, n, input, r));
    DownstreamRanked(env.workflow, rank, n.id);
    DownstreamInNodes(env.workflow, n.id);
    RunChildrenComplete(env, rank, DownstreamOf(env.workflow, n.id), Or(r.output, EmptyObject), t2, rank[n.id]);
  }

  lemma {:induction false} RunChildrenComplete(
    env: Env, rank: map<string, nat>, cs: seq<Node>, input: Json, t: Trace, bound: nat)
    requires Ranked(env.workflow, rank)
    requires forall n :: n in cs ==> n.id in rank && rank[n.id] < bound
    requires NeverRaises(env.registry) && Covered(env.workflow, env.registry)
    requires forall n :: n in cs ==> n in env.workflow.nodes
    ensures RunChildren(env, rank, cs, input, t, bound).1.Normal?
    decreases bound, 0, |cs|
  {
    if cs != [] {
      var prefix := cs[..|cs| - 1];
      RunChildrenComplete(env, rank, prefix, input, t, bound);
      var t1 := RunChildren(env, rank, prefix, input, t, bound).0;
      RunNodeReturns(env, rank, cs[|cs| - 1], input, t1);
    }
  }

  /** With a covering table that never throws, a run completes exactly when some node is an entry node. */
  lemma RunWorkflowCompletes(env: Env, rank: map<string, nat>, input: Json)
    requires Acyclic(env, rank)
    requires NeverRaises(env.registry) && Covered(env.workflow, env.registry)
    ensures RunWorkflow(env, rank, input).1.Completed? <==> StartNodes(env.workflow.nodes) != []
  {
    var starts := StartNodes(env.workflow.nodes);
    if starts != [] {
      RunChildrenComplete(env, rank, starts, Or(input, EmptyObject), Trace(map[], StartEffects(env, input)),
                          RankBound(rank, starts));
    }
  }

  /**
    A workflow whose node types are all among the nine registered tags, run
    against the server's table: it completes exactly when it has an entry
    node, and then every node was invoked once per path reaching it.
   */
  lemma SourceRunCompletes(
    now: int, evalCondition: (Json, Json) -> Json, wf: Workflow, executionId: string,
    rank: map<string, nat>, input: Json, x: string)
    requires forall n :: n in wf.nodes ==> n.nodeType in SourceTags
    requires Acyclic(Env(wf, SourceRegistry(now, evalCondition), executionId), rank)
    ensures var env := Env(wf, SourceRegistry(now, evalCondition), executionId);
            var (t', o) := RunWorkflow(env, rank, input);
            var starts := StartNodes(wf.nodes);
            && (o.Completed? <==> starts != [])
            && (o.Completed? ==>
                  RunningCount(t'.effects, x) == PathsFrom(wf, rank, starts, x, RankBound(rank, starts)))
  {
    var env := Env(wf, SourceRegistry(now, evalCondition), executionId);
    SourceRegistryWellBehaved(now, evalCondition);
    RunWorkflowCompletes(env, rank, input);
    RunWorkflowCount(env, rank, input, x);
  }
}
