/**
  A concrete run against the server's handler table: the diamond
  webhook -> {set via=b, set via=c} -> code. The code node sits below two
  connections, so it runs twice, and its stored result is the one from the
  later path.
 */
module Scenarios {
  import opened Wrappers
  import opened Json
  import opened WorkflowGraph
  import opened NodeHandlers
  import opened Traversal
  import opened TraversalProperties
  import opened RegistryProperties

  function SetParams(value: string): Json {
    JObj(map["key" := JStr("via"), "value" := JStr(value)])
  }

  const Hook: Node := Node("a", "webhook-trigger", JUndefined)
  const ViaB: Node := Node("b", "set", SetParams("b"))
  const ViaC: Node := Node("c", "set", SetParams("c"))
  const Join: Node := Node("d", "code", JUndefined)

  function Diamond(): Workflow {
    Workflow("w", "diamond", "", [Hook, ViaB, ViaC, Join],
             [Connection("e1", "a", "b", "", ""), Connection("e2", "a", "c", "", ""),
              Connection("e3", "b", "d", "", ""), Connection("e4", "c", "d", "", "")],
             0, 0, Active, "1")
  }

  const DiamondRank: map<string, nat> := map["a" := 2, "b" := 1, "c" := 1, "d" := 0]

  function DiamondEnv(now: int, evalCondition: (Json, Json) -> Json): Env {
    Env(Diamond(), SourceRegistry(now, evalCondition), "x")
  }

  /** The webhook node is the only entry node. */
  lemma DiamondStart()
    ensures StartNodes(Diamond().nodes) == [Hook]
  {
    var tag := "webhook-trigger";
    assert |tag| == 15 && TriggerTag == "trigger";
    assert forall i :: 0 <= i < 7 ==> tag[8..15][i] == TriggerTag[i];
    assert OccursAt(tag, TriggerTag, 8);
    ContainsIffOccurs(tag, TriggerTag);
    assert [Hook, ViaB, ViaC, Join][1..] == [ViaB, ViaC, Join];
    assert [ViaB, ViaC, Join][1..] == [ViaC, Join];
    assert [ViaC, Join][1..] == [Join];
  }

  lemma DiamondSuffixes()
    ensures Diamond().nodes[1..] == [ViaB, ViaC, Join]
    ensures Diamond().nodes[1..][1..] == [ViaC, Join]
    ensures Diamond().nodes[1..][1..][1..] == [Join]
  {
  }

  lemma FindViaB() ensures FindNode(Diamond().nodes, "b") == Some(ViaB) {
    DiamondSuffixes();
  }

  lemma FindViaC() ensures FindNode(Diamond().nodes, "c") == Some(ViaC) {
    DiamondSuffixes();
  }

  lemma FindJoin() ensures FindNode(Diamond().nodes, "d") == Some(Join) {
    DiamondSuffixes();
  }

  /** Every connection target names a node. */
  lemma DiamondFinds()
    ensures FindNode(Diamond().nodes, "b") == Some(ViaB)
    ensures FindNode(Diamond().nodes, "c") == Some(ViaC)
    ensures FindNode(Diamond().nodes, "d") == Some(Join)
  {
    FindViaB();
    FindViaC();
    FindJoin();
  }

  /** `Downstream` over four connections, one connection at a time. */
  lemma DownstreamOfFour(nodes: seq<Node>, cs: seq<Connection>, id: string)
    requires |cs| == 4
    ensures Downstream(nodes, cs, id)
            == Child(nodes, cs[0], id) + Child(nodes, cs[1], id) + Child(nodes, cs[2], id) + Child(nodes, cs[3], id)
  {
    assert cs[1..][0] == cs[1] && cs[2..][0] == cs[2] && cs[3..][0] == cs[3];
    assert cs[1..][1..] == cs[2..] && cs[2..][1..] == cs[3..] && cs[3..][1..] == [];
    calc {
      Downstream(nodes, cs, id);
      Child(nodes, cs[0], id) + Downstream(nodes, cs[1..], id);
      Child(nodes, cs[0], id) + (Child(nodes, cs[1], id) + Downstream(nodes, cs[2..], id));
      Child(nodes, cs[0], id) + (Child(nodes, cs[1], id) + (Child(nodes, cs[2], id) + Downstream(nodes, cs[3..], id)));
      Child(nodes, cs[0], id) + (Child(nodes, cs[1], id) + (Child(nodes, cs[2], id) + (Child(nodes, cs[3], id) + [])));
    }
  }

  /** What each of the four connections contributes to the children of `id`. */
  lemma ContributionsTo(id: string, k0: seq<Node>, k1: seq<Node>, k2: seq<Node>, k3: seq<Node>)
    requires var cs := Diamond().connections;
             && Child(Diamond().nodes, cs[0], id) == k0 && Child(Diamond().nodes, cs[1], id) == k1
             && Child(Diamond().nodes, cs[2], id) == k2 && Child(Diamond().nodes, cs[3], id) == k3
    ensures DownstreamOf(Diamond(), id) == k0 + k1 + k2 + k3
  {
    DownstreamOfFour(Diamond().nodes, Diamond().connections, id);
  }

  lemma HookToViaB() ensures Child(Diamond().nodes, Diamond().connections[0], "a") == [ViaB] { DiamondFinds(); }
  lemma HookToViaC() ensures Child(Diamond().nodes, Diamond().connections[1], "a") == [ViaC] { DiamondFinds(); }
  lemma ViaBToJoin() ensures Child(Diamond().nodes, Diamond().connections[2], "b") == [Join] { DiamondFinds(); }
  lemma ViaCToJoin() ensures Child(Diamond().nodes, Diamond().connections[3], "c") == [Join] { DiamondFinds(); }

  lemma ChildrenOfHook() ensures DownstreamOf(Diamond(), "a") == [ViaB, ViaC] {
    HookToViaB();
    HookToViaC();
    ContributionsTo("a", [ViaB], [ViaC], [], []);
  }

  lemma ChildrenOfViaB() ensures DownstreamOf(Diamond(), "b") == [Join] {
    ViaBToJoin();
    ContributionsTo("b", [], [], [Join], []);
  }

  lemma ChildrenOfViaC() ensures DownstreamOf(Diamond(), "c") == [Join] {
    ViaCToJoin();
    ContributionsTo("c", [], [], [], [Join]);
  }

  lemma ChildrenOfJoin() ensures DownstreamOf(Diamond(), "d") == [] {
    ContributionsTo("d", [], [], [], []);
  }

  /** The children of each node, in connection order. */
  lemma DiamondChildren()
    ensures DownstreamOf(Diamond(), "a") == [ViaB, ViaC]
    ensures DownstreamOf(Diamond(), "b") == [Join]
    ensures DownstreamOf(Diamond(), "c") == [Join]
    ensures DownstreamOf(Diamond(), "d") == []
  {
    ChildrenOfHook();
    ChildrenOfViaB();
    ChildrenOfViaC();
    ChildrenOfJoin();
  }

  /** The ranking decreases along every connection. */
  lemma DiamondRanked()
    ensures Ranked(Diamond(), DiamondRank)
  {
    var cs := Diamond().connections;
    forall c | c in cs
      ensures c.target in DiamondRank && DiamondRank[c.target] < DiamondRank[c.source]
    {
      var k :| 0 <= k < 4 && cs[k] == c;
      if k == 0 { assert c == Connection("e1", "a", "b", "", ""); }
      else if k == 1 { assert c == Connection("e2", "a", "c", "", ""); }
      else if k == 2 { assert c == Connection("e3", "b", "d", "", ""); }
      else { assert c == Connection("e4", "c", "d", "", ""); }
    }
  }

  /** The nodes are the four declared ones; each type is one of the nine registered tags. */
  lemma DiamondCovered()
    ensures forall n :: n in Diamond().nodes ==> n.nodeType in SourceTags
  {
    var ns := Diamond().nodes;
    forall n | n in ns ensures n.nodeType in SourceTags {
      var k :| 0 <= k < 4 && ns[k] == n;
      assert k == 0 || k == 1 || k == 2 || k == 3;
    }
  }

  lemma PathsFromOne(wf: Workflow, rank: map<string, nat>, a: Node, x: string, bound: nat)
    requires Ranked(wf, rank) && a.id in rank && rank[a.id] < bound
    ensures PathsFrom(wf, rank, [a], x, bound) == Paths(wf, rank, a, x)
  {
    assert [a][..0] == [];
  }

  lemma PathsFromTwo(wf: Workflow, rank: map<string, nat>, a: Node, b: Node, x: string, bound: nat)
    requires Ranked(wf, rank) && a.id in rank && rank[a.id] < bound && b.id in rank && rank[b.id] < bound
    ensures PathsFrom(wf, rank, [a, b], x, bound) == Paths(wf, rank, a, x) + Paths(wf, rank, b, x)
  {
    assert [a, b][..1] == [a];
    PathsFromOne(wf, rank, a, x, bound);
  }

  lemma PathsUnfold(wf: Workflow, rank: map<string, nat>, n: Node, x: string)
    requires Ranked(wf, rank) && n.id in rank
    ensures forall c :: c in DownstreamOf(wf, n.id) ==> c.id in rank && rank[c.id] < rank[n.id]
    ensures Paths(wf, rank, n, x)
            == (if n.id == x then 1 else 0) + PathsFrom(wf, rank, DownstreamOf(wf, n.id), x, rank[n.id])
  {
    DownstreamRanked(wf, rank, n.id);
  }

  /**
    A fan-in: a single entry `a` whose children are `b` and then `c`, both of
    which lead to the leaf `d` only.
   */
  ghost predicate FanIn(wf: Workflow, rank: map<string, nat>, a: Node, b: Node, c: Node, d: Node) {
    && Ranked(wf, rank) && a.id in rank
    && StartNodes(wf.nodes) == [a]
    && DownstreamOf(wf, a.id) == [b, c]
    && DownstreamOf(wf, b.id) == [d]
    && DownstreamOf(wf, c.id) == [d]
    && DownstreamOf(wf, d.id) == []
    && d.id != a.id && d.id != b.id && d.id != c.id
  }

  lemma FanInRanks(wf: Workflow, rank: map<string, nat>, a: Node, b: Node, c: Node, d: Node)
    requires FanIn(wf, rank, a, b, c, d)
    ensures b.id in rank && c.id in rank && d.id in rank
    ensures rank[b.id] < rank[a.id] && rank[c.id] < rank[a.id] && rank[d.id] < rank[b.id] && rank[d.id] < rank[c.id]
    ensures a in wf.nodes && b in wf.nodes && c in wf.nodes && d in wf.nodes
  {
    DownstreamRanked(wf, rank, a.id);
    assert b in DownstreamOf(wf, a.id) && c in DownstreamOf(wf, a.id);
    DownstreamRanked(wf, rank, b.id);
    DownstreamRanked(wf, rank, c.id);
    assert d in DownstreamOf(wf, b.id);
    assert a in StartNodes(wf.nodes);
    DownstreamInNodes(wf, a.id);
    DownstreamInNodes(wf, b.id);
  }

  /** Two paths reach the leaf of a fan-in. */
  lemma FanInPaths(wf: Workflow, rank: map<string, nat>, a: Node, b: Node, c: Node, d: Node)
    requires FanIn(wf, rank, a, b, c, d)
    ensures a.id in rank && Paths(wf, rank, a, d.id) == 2
  {
    FanInRanks(wf, rank, a, b, c, d);
    PathsUnfold(wf, rank, d, d.id);
    PathsUnfold(wf, rank, b, d.id);
    PathsFromOne(wf, rank, d, d.id, rank[b.id]);
    PathsUnfold(wf, rank, c, d.id);
    PathsFromOne(wf, rank, d, d.id, rank[c.id]);
    PathsUnfold(wf, rank, a, d.id);
    PathsFromTwo(wf, rank, b, c, d.id, rank[a.id]);
  }

  /** Under a table that never throws and never reports RUNNING, the leaf of a fan-in runs twice. */
  lemma FanInRunsTwice(env: Env, rank: map<string, nat>, input: Json, a: Node, b: Node, c: Node, d: Node)
    requires FanIn(env.workflow, rank, a, b, c, d)
    requires NeverRaises(env.registry) && Covered(env.workflow, env.registry) && NoRunningResults(env.registry)
    ensures Acyclic(env, rank)
    ensures var (t', o) := RunWorkflow(env, rank, input);
            o.Completed? && RunningCount(t'.effects, d.id) == 2
  {
    FanInPaths(env.workflow, rank, a, b, c, d);
    RunWorkflowCompletes(env, rank, input);
    RunWorkflowCount(env, rank, input, d.id);
    PathsFromOne(env.workflow, rank, a, d.id, RankBound(rank, [a]));
  }

  /** The result a handler that does not throw returns for node `n` on `input`. */
  ghost function ResultOf(env: Env, n: Node, input: Json): NodeResult
    requires NeverRaises(env.registry) && n.nodeType in env.registry
  {
    env.registry[n.nodeType](HandlerData(n, input)).result
  }

  /** A node whose only child is a leaf: the leaf's result, computed on the parent's output, is stored. */
  lemma ParentOfLeaf(env: Env, rank: map<string, nat>, p: Node, d: Node, input: Json, t: Trace)
    requires Ranked(env.workflow, rank) && p.id in rank
    requires DownstreamOf(env.workflow, p.id) == [d] && DownstreamOf(env.workflow, d.id) == []
    requires NeverRaises(env.registry) && p.nodeType in env.registry && d.nodeType in env.registry
    ensures var (t', o) := RunNode(env, rank, p, input, t);
            && o.Returned?
            && d.id in t'.results
            && t'.results[d.id] == ResultOf(env, d, Or(ResultOf(env, p, input).output, EmptyObject))
  {
    var r := ResultOf(env, p, input);
    assert env.registry[p.nodeType](HandlerData(p, input)) == Returned(r);
    var t2 := Trace(t.results[p.id := r], t.effects + RunningEffects(env.executionId, p, input)
                                                   + ResultEffects(env.executionId, p, input, r));
    DownstreamRanked(env.workflow, rank, p.id);
    assert d in DownstreamOf(env.workflow, p.id);
    var next := Or(r.output, EmptyObject);
    var rd := ResultOf(env, d, next);
    assert env.registry[d.nodeType](HandlerData(d, next)) == Returned(rd);
    RunNodeReturned(env, rank, d, next, t2, rd);
    assert [d][..0] == [];
    var td := RunNode(env, rank, d, next, t2).0;
    assert RunChildren(env, rank, [d], next, t2, rank[p.id]) == (td, Normal);
    assert td.results == t2.results[d.id := rd];
  }

  /**
    Last write wins: at the end of a fan-in run the leaf's stored result is
    the one computed on the later path, through `c`.
   */
  lemma FanInLastWrite(env: Env, rank: map<string, nat>, input: Json, a: Node, b: Node, c: Node, d: Node)
    requires FanIn(env.workflow, rank, a, b, c, d)
    requires NeverRaises(env.registry) && Covered(env.workflow, env.registry)
    ensures Acyclic(env, rank)
    ensures a.nodeType in env.registry && c.nodeType in env.registry && d.nodeType in env.registry
    ensures var t' := RunWorkflow(env, rank, input).0;
            var ra := ResultOf(env, a, Or(input, EmptyObject));
            var rc := ResultOf(env, c, Or(ra.output, EmptyObject));
            d.id in t'.results && t'.results[d.id] == ResultOf(env, d, Or(rc.output, EmptyObject))
  {
    var wf := env.workflow;
    FanInRanks(wf, rank, a, b, c, d);
    var payload := Or(input, EmptyObject);
    var t0 := Trace(map[], StartEffects(env, input));
    var ra := ResultOf(env, a, payload);
    assert env.registry[a.nodeType](HandlerData(a, payload)) == Returned(ra);
    var t2 := Trace(t0.results[a.id := ra], t0.effects + RunningEffects(env.executionId, a, payload)
                                                     + ResultEffects(env.executionId, a, payload, ra));
    var next := Or(ra.output, EmptyObject);
    DownstreamRanked(wf, rank, a.id);
    RunChildrenComplete(env, rank, [b], next, t2, rank[a.id]);
    var tb := RunChildren(env, rank, [b], next, t2, rank[a.id]).0;
    ParentOfLeaf(env, rank, c, d, next, tb);
    var tc := RunNode(env, rank, c, next, tb).0;
    assert [b, c][..1] == [b];
    assert RunChildren(env, rank, [b, c], next, t2, rank[a.id]) == (tc, Normal);
    assert RunNode(env, rank, a, payload, t0) == (tc, Returned(ra));
    assert [a][..0] == [];
    var bound := RankBound(rank, [a]);
    assert RunChildren(env, rank, [a], payload, t0, bound) == (tc, Normal);
  }

  /** The server's table meets every hypothesis of the fan-in lemmas on the diamond. */
  lemma DiamondFanIn(now: int, evalCondition: (Json, Json) -> Json)
    ensures FanIn(Diamond(), DiamondRank, Hook, ViaB, ViaC, Join)
    ensures NeverRaises(SourceRegistry(now, evalCondition)) && NoRunningResults(SourceRegistry(now, evalCondition))
    ensures Covered(Diamond(), SourceRegistry(now, evalCondition))
  {
    DiamondStart();
    DiamondChildren();
    DiamondRanked();
    DiamondCovered();
    SourceRegistryWellBehaved(now, evalCondition);
  }

  /** The code node is invoked once per path from the entry node: twice. */
  lemma DiamondRunsJoinTwice(now: int, evalCondition: (Json, Json) -> Json, input: Json)
    ensures Acyclic(DiamondEnv(now, evalCondition), DiamondRank)
    ensures var (t', o) := RunWorkflow(DiamondEnv(now, evalCondition), DiamondRank, input);
            o.Completed? && RunningCount(t'.effects, "d") == 2
  {
    DiamondFanIn(now, evalCondition);
    FanInRunsTwice(DiamondEnv(now, evalCondition), DiamondRank, input, Hook, ViaB, ViaC, Join);
  }

  /** A `set` node writing `via = value`, then a code node: the code node's output still carries it. */
  lemma SetThenCode(now: int, value: string, setNode: Node, codeNode: Node, input: Json)
    requires setNode.parameters == SetParams(value)
    ensures var rs := Set(HandlerData(setNode, input)).result;
            var out := Code(HandlerData(codeNode, Or(rs.output, EmptyObject)), now).result.output;
            out.JObj? && "via" in out.fields && out.fields["via"] == JStr(value)
  {
    var data := HandlerData(setNode, input);
    assert Params(setNode) == SetParams(value);
    assert ToPropertyKey(Field(SetParams(value), "key")) == Some("via");
    var rs := Set(data).result;
    assert rs.output.fields["via"] == JStr(value);
  }

  /**
    With the server's table, a `set` node whose key has its own `toString`
    returns ERROR from its catch block, and the descent goes on: its first
    child runs next, on `{}`.
   */
  lemma SetCatchDoesNotHalt(
    now: int, evalCondition: (Json, Json) -> Json, wf: Workflow, executionId: string,
    rank: map<string, nat>, n: Node, input: Json, t: Trace)
    requires Ranked(wf, rank) && n.id in rank
    requires n.nodeType == "set" && ShadowsToString(Field(Params(n), "key"))
    requires DownstreamOf(wf, n.id) != []
    ensures var t' := RunNode(Env(wf, SourceRegistry(now, evalCondition), executionId), rank, n, input, t).0;
            |t'.effects| > |t.effects| + 4
            && t'.effects[|t.effects| + 4]
               == EmitLog(LogEntry(executionId, DownstreamOf(wf, n.id)[0].id, RUNNING, EmptyObject, JUndefined, None))
  {
    var env := Env(wf, SourceRegistry(now, evalCondition), executionId);
    var d := HandlerData(n, input);
    TransformEntries(now, evalCondition, d);
    ReturnedErrorDoesNotHalt(env, rank, n, input, t, Set(d).result);
  }

  /** Last write wins on the diamond: the code node's stored result carries `via = "c"`. */
  lemma DiamondLastWriteWins(now: int, evalCondition: (Json, Json) -> Json, input: Json)
    ensures Acyclic(DiamondEnv(now, evalCondition), DiamondRank)
    ensures var t' := RunWorkflow(DiamondEnv(now, evalCondition), DiamondRank, input).0;
            && "d" in t'.results && t'.results["d"].output.JObj? && "via" in t'.results["d"].output.fields
            && t'.results["d"].output.fields["via"] == JStr("c")
  {
    var env := DiamondEnv(now, evalCondition);
    DiamondFanIn(now, evalCondition);
    FanInLastWrite(env, DiamondRank, input, Hook, ViaB, ViaC, Join);
    var ra := ResultOf(env, Hook, Or(input, EmptyObject));
    var cData := HandlerData(ViaC, Or(ra.output, EmptyObject));
    TransformEntries(now, evalCondition, cData);
    var rc := Set(cData).result;
    TransformEntries(now, evalCondition, HandlerData(Join, Or(rc.output, EmptyObject)));
    SetThenCode(now, "c", ViaC, Join, Or(ra.output, EmptyObject));
  }
}
