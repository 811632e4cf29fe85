/**
  What the traversal guarantees: the trace only grows, every node starts with
  a RUNNING log, returned results are logged and threaded into the children,
  a thrown error unwinds through every ancestor and stops everything after
  it, and each node is invoked once per path that reaches it.
 */
module TraversalProperties {
  import opened Wrappers
  import opened Json
  import opened WorkflowGraph
  import opened NodeHandlers
  import opened Traversal

  /** Node-level effects: the only kind `executeNode` produces. */
  predicate IsNodeLog(e: Effect) {
    e.StoreLog? || e.EmitLog?
  }

  /** `t2` continues `t`: same effects first, then only node logs; no result key is lost. */
  ghost predicate Extends(t: Trace, t2: Trace) {
    && t.effects <= t2.effects
    && t.results.Keys <= t2.results.Keys
    && forall i :: |t.effects| <= i < |t2.effects| ==> IsNodeLog(t2.effects[i])
  }

  /** `Extends` is transitive. */
  lemma ExtendsTrans(t1: Trace, t2: Trace, t3: Trace)
    requires Extends(t1, t2) && Extends(t2, t3)
    ensures Extends(t1, t3)
  {
    forall i | |t1.effects| <= i < |t3.effects| ensures IsNodeLog(t3.effects[i]) {
      if i < |t2.effects| { assert t3.effects[i] == t2.effects[i]; }
    }
  }

  /** Appending node logs, and adding result keys, extends a trace. */
  lemma AppendLogs(t: Trace, results: map<string, NodeResult>, es: seq<Effect>)
    requires t.results.Keys <= results.Keys
    requires forall e :: e in es ==> IsNodeLog(e)
    ensures Extends(t, Trace(results, t.effects + es))
  {
    forall i | |t.effects| <= i < |t.effects + es| ensures IsNodeLog((t.effects + es)[i]) {
      assert (t.effects + es)[i] == es[i - |t.effects|];
    }
  }

  /**
    A node invocation only appends node logs, keeps every result key, and
    its first two effects are the RUNNING event and the RUNNING record with
    the given input, written before the handler is looked up.
   */
  lemma {:induction false} RunNodeExtends(env: Env, rank: map<string, nat>, n: Node, input: Json, t: Trace)
    requires Ranked(env.workflow, rank) && n.id in rank
    ensures var t' := RunNode(env, rank, n, input, t).0;
            && Extends(t, t')
            && t.effects + RunningEffects(env.executionId, n, input) <= t'.effects
    decreases rank[n.id], 1
  {
    var id := env.executionId;
    var t1 := Trace(t.results, t.effects + RunningEffects(id, n, input));
    AppendLogs(t, t.results, RunningEffects(id, n, input));
    if n.nodeType !in env.registry {
      AppendLogs(t1, t1.results, ErrorEffects(id, n, input, UnknownTypeMessage(n.nodeType)));
      ExtendsTrans(t, t1, Unwind(env, n, input, t1, UnknownTypeMessage(n.nodeType)).0);
    } else {
      match env.registry[n.nodeType](HandlerData(n, input))
      case Raised(message) =>
        AppendLogs(t1, t1.results, ErrorEffects(id, n, input, message));
        ExtendsTrans(t, t1, Unwind(env, n, input, t1, message).0);
      case Returned(r) =>
        var t2 := Trace(t1.results[n.id := r], t1.effects + ResultEffects(id, n, input, r));
        AppendLogs(t1, t2.results, ResultEffects(id, n, input, r));
        ExtendsTrans(t, t1, t2);
        DownstreamRanked(env.workflow, rank, n.id);
        var cs := DownstreamOf(env.workflow, n.id);
        var (t3, c) := RunChildren(env, rank, cs, Or(r.output, EmptyObject), t2, rank[n.id]);
        RunChildrenExtends(env, rank, cs, Or(r.output, EmptyObject), t2, rank[n.id]);
        ExtendsTrans(t, t2, t3);
        if c.Abrupt? {
          AppendLogs(t3, t3.results, ErrorEffects(id, n, input, c.message));
          ExtendsTrans(t, t3, Unwind(env, n, input, t3, c.message).0);
        }
    }
  }

  /** Running a list of siblings only appends node logs and keeps every result key. */
  lemma {:induction false} RunChildrenExtends(
    env: Env, rank: map<string, nat>, cs: seq<Node>, input: Json, t: Trace, bound: nat)
    requires Ranked(env.workflow, rank)
    requires forall n :: n in cs ==> n.id in rank && rank[n.id] < bound
    ensures Extends(t, RunChildren(env, rank, cs, input, t, bound).0)
    decreases bound, 0, |cs|
  {
    if cs != [] {
      var prefix := cs[..|cs| - 1];
      RunChildrenExtends(env, rank, prefix, input, t, bound);
      var (t1, c) := RunChildren(env, rank, prefix, input, t, bound);
      if c.Normal? {
        RunNodeExtends(env, rank, cs[|cs| - 1], input, t1);
        ExtendsTrans(t, t1, RunNode(env, rank, cs[|cs| - 1], input, t1).0);
      }
    }
  }

  /** Once a sibling throws, the ones after it never run: the loop's state stays as it was. */
  lemma {:induction false} AbruptStops(
    env: Env, rank: map<string, nat>, cs: seq<Node>, input: Json, t: Trace, bound: nat, i: nat)
    requires Ranked(env.workflow, rank)
    requires forall n :: n in cs ==> n.id in rank && rank[n.id] < bound
    requires i <= |cs|
    requires i == |cs| || RunChildren(env, rank, cs[..i], input, t, bound).1.Abrupt?
    ensures RunChildren(env, rank, cs, input, t, bound) == RunChildren(env, rank, cs[..i], input, t, bound)
    decreases |cs|
  {
    if i < |cs| {
      var prefix := cs[..|cs| - 1];
      assert prefix[..i] == cs[..i];
      AbruptStops(env, rank, prefix, input, t, bound, i);
    } else {
      assert cs[..i] == cs;
    }
  }

  /**
    Every child runs on the same input: once the first `k` siblings have
    returned, the next effect is the RUNNING event of sibling `k` with that input.
   */
  lemma RunChildrenNth(
    env: Env, rank: map<string, nat>, cs: seq<Node>, input: Json, t: Trace, bound: nat, k: nat)
    requires Ranked(env.workflow, rank)
    requires forall n :: n in cs ==> n.id in rank && rank[n.id] < bound
    requires k < |cs|
    requires RunChildren(env, rank, cs[..k], input, t, bound).1.Normal?
    ensures var t1 := RunChildren(env, rank, cs[..k], input, t, bound).0;
            var t2 := RunChildren(env, rank, cs[..k + 1], input, t, bound).0;
            |t2.effects| > |t1.effects|
            && t2.effects[|t1.effects|] == EmitLog(LogEntry(env.executionId, cs[k].id, RUNNING, input, JUndefined, None))
  {
    assert cs[..k + 1][..k] == cs[..k] && cs[..k + 1][k] == cs[k];
    var t1 := RunChildren(env, rank, cs[..k], input, t, bound).0;
    RunNodeExtends(env, rank, cs[k], input, t1);
  }

  /** The entries of `r2` agree with `r1` on every key not ranked below `lo`. */
  ghost predicate SameFrom(r1: map<string, NodeResult>, r2: map<string, NodeResult>, rank: map<string, nat>, lo: nat) {
    forall k :: k in r1 && (k !in rank || rank[k] >= lo) ==> k in r2 && r2[k] == r1[k]
  }

  /**
    A node's traversal writes only its own key and keys ranked below it: the
    result of every other node, including one ranked level with it, is left
    as it was.
   */
  lemma {:induction false} RunNodeFrame(env: Env, rank: map<string, nat>, n: Node, input: Json, t: Trace)
    requires Ranked(env.workflow, rank) && n.id in rank
    ensures var r' := RunNode(env, rank, n, input, t).0.results;
            forall k :: k in t.results && k != n.id && (k !in rank || rank[k] >= rank[n.id]) ==>
              k in r' && r'[k] == t.results[k]
    decreases rank[n.id], 1
  {
    if n.nodeType in env.registry {
      match env.registry[n.nodeType](HandlerData(n, input))
      case Raised(_) =>
      case Returned(r) =>
        var t2 := Trace(t.results[n.id := r], t.effects + RunningEffects(env.executionId, n, input)
                                                       + ResultEffects(env.executionId, n, input, r));
        DownstreamRanked(env.workflow, rank, n.id);
        RunChildrenFrame(env, rank, DownstreamOf(env.workflow, n.id), Or(r.output, EmptyObject), t2, rank[n.id]);
    }
  }

  /** A sibling loop below `bound` leaves the result of every node ranked `bound` or more. */
  lemma {:induction false} RunChildrenFrame(
    env: Env, rank: map<string, nat>, cs: seq<Node>, input: Json, t: Trace, bound: nat)
    requires Ranked(env.workflow, rank)
    requires forall n :: n in cs ==> n.id in rank && rank[n.id] < bound
    ensures SameFrom(t.results, RunChildren(env, rank, cs, input, t, bound).0.results, rank, bound)
    decreases bound, 0, |cs|
  {
    if cs != [] {
      var prefix := cs[..|cs| - 1];
      RunChildrenFrame(env, rank, prefix, input, t, bound);
      var (t1, c) := RunChildren(env, rank, prefix, input, t, bound);
      if c.Normal? {
        RunNodeFrame(env, rank, cs[|cs| - 1], input, t1);
      }
    }
  }

  /**
    `results[node.id] = result` survives the node's own descent: a traversal
    that returns leaves the handler's result under the node's id.
   */
  lemma RunNodeStores(env: Env, rank: map<string, nat>, n: Node, input: Json, t: Trace)
    requires Ranked(env.workflow, rank) && n.id in rank
    ensures var (t', o) := RunNode(env, rank, n, input, t);
            o.Returned? ==>
              && n.nodeType in env.registry && env.registry[n.nodeType](HandlerData(n, input)) == o
              && n.id in t'.results && t'.results[n.id] == o.result
  {
    if n.nodeType in env.registry {
      match env.registry[n.nodeType](HandlerData(n, input))
      case Raised(_) =>
      case Returned(r) =>
        var t2 := Trace(t.results[n.id := r], t.effects + RunningEffects(env.executionId, n, input)
                                                       + ResultEffects(env.executionId, n, input, r));
        DownstreamRanked(env.workflow, rank, n.id);
        RunChildrenFrame(env, rank, DownstreamOf(env.workflow, n.id), Or(r.output, EmptyObject), t2, rank[n.id]);
    }
  }

  /** An unregistered type tag: RUNNING is logged, then the ERROR pair, and "Unknown node type: <type>" is thrown. */
  lemma RunNodeUnknownType(env: Env, rank: map<string, nat>, n: Node, input: Json, t: Trace)
    requires Ranked(env.workflow, rank) && n.id in rank
    requires n.nodeType !in env.registry
    ensures var message := UnknownTypeMessage(n.nodeType);
            RunNode(env, rank, n, input, t)
            == (Trace(t.results, t.effects + RunningEffects(env.executionId, n, input)
                                 + ErrorEffects(env.executionId, n, input, message)),
                Raised(message))
    ensures UnknownTypeMessage(n.nodeType)[..19] == "Unknown node type: "
  {
  }

  /** The first child to run starts the siblings' trace with its RUNNING event, carrying the shared input. */
  lemma {:induction false} RunChildrenFirst(
    env: Env, rank: map<string, nat>, cs: seq<Node>, input: Json, t: Trace, bound: nat)
    requires Ranked(env.workflow, rank)
    requires forall n :: n in cs ==> n.id in rank && rank[n.id] < bound
    requires cs != []
    ensures var t' := RunChildren(env, rank, cs, input, t, bound).0;
            |t'.effects| > |t.effects|
            && t'.effects[|t.effects|] == EmitLog(LogEntry(env.executionId, cs[0].id, RUNNING, input, JUndefined, None))
    decreases |cs|
  {
    var prefix := cs[..|cs| - 1];
    var (t1, c) := RunChildren(env, rank, prefix, input, t, bound);
    if prefix == [] {
      assert t1 == t;
      RunNodeExtends(env, rank, cs[0], input, t);
    } else {
      assert prefix[0] == cs[0];
      RunChildrenFirst(env, rank, prefix, input, t, bound);
      if c.Normal? {
        RunNodeExtends(env, rank, cs[|cs| - 1], input, t1);
      }
    }
  }

  /**
    A handler that returns `r`: after the RUNNING pair come the record and the
    event with `r`'s status, the same input, `r`'s output and error; the
    children start on `r.output || {}`; a node without children ends with
    `results[n.id] == r`; and when nothing below throws, the node returns `r`.
   */
  lemma RunNodeReturned(env: Env, rank: map<string, nat>, n: Node, input: Json, t: Trace, r: NodeResult)
    requires Ranked(env.workflow, rank) && n.id in rank
    requires n.nodeType in env.registry && env.registry[n.nodeType](HandlerData(n, input)) == Returned(r)
    ensures var (t', o) := RunNode(env, rank, n, input, t);
            && t.effects + RunningEffects(env.executionId, n, input) + ResultEffects(env.executionId, n, input, r)
               <= t'.effects
            && (o.Returned? ==> o == Returned(r))
    ensures var cs := DownstreamOf(env.workflow, n.id);
            var t' := RunNode(env, rank, n, input, t).0;
            cs != [] ==>
              |t'.effects| > |t.effects| + 4
              && t'.effects[|t.effects| + 4]
                 == EmitLog(LogEntry(env.executionId, cs[0].id, RUNNING, Or(r.output, EmptyObject), JUndefined, None))
    ensures DownstreamOf(env.workflow, n.id) == [] ==>
              RunNode(env, rank, n, input, t)
              == (Trace(t.results[n.id := r], t.effects + RunningEffects(env.executionId, n, input)
                                                      + ResultEffects(env.executionId, n, input, r)),
                  Returned(r))
  {
    var t2 := Trace(t.results[n.id := r], t.effects + RunningEffects(env.executionId, n, input)
                                                   + ResultEffects(env.executionId, n, input, r));
    DownstreamRanked(env.workflow, rank, n.id);
    var cs := DownstreamOf(env.workflow, n.id);
    RunChildrenExtends(env, rank, cs, Or(r.output, EmptyObject), t2, rank[n.id]);
    if cs != [] {
      RunChildrenFirst(env, rank, cs, Or(r.output, EmptyObject), t2, rank[n.id]);
    }
  }

  /**
    A handler that RETURNS status ERROR with a null output does not stop the
    descent: its first child still runs, with input `{}`.
   */
  lemma ReturnedErrorDoesNotHalt(env: Env, rank: map<string, nat>, n: Node, input: Json, t: Trace, r: NodeResult)
    requires Ranked(env.workflow, rank) && n.id in rank
    requires n.nodeType in env.registry && env.registry[n.nodeType](HandlerData(n, input)) == Returned(r)
    requires r.status == ERROR && r.output == JNull
    requires DownstreamOf(env.workflow, n.id) != []
    ensures var t' := RunNode(env, rank, n, input, t).0;
            |t'.effects| > |t.effects| + 4
            && t'.effects[|t.effects| + 4]
               == EmitLog(LogEntry(env.executionId, DownstreamOf(env.workflow, n.id)[0].id, RUNNING,
                                   EmptyObject, JUndefined, None))
  {
    RunNodeReturned(env, rank, n, input, t, r);
  }

  /** A node that throws ends its trace with its own ERROR record and event, carrying the thrown message. */
  lemma RunNodeRaised(env: Env, rank: map<string, nat>, n: Node, input: Json, t: Trace)
    requires Ranked(env.workflow, rank) && n.id in rank
    ensures var (t', o) := RunNode(env, rank, n, input, t);
            o.Raised? ==>
              |t'.effects| >= |t.effects| + 4
              && t'.effects[|t'.effects| - 2..] == ErrorEffects(env.executionId, n, input, o.message)
  {
    if n.nodeType in env.registry {
      match env.registry[n.nodeType](HandlerData(n, input))
      case Raised(_) =>
      case Returned(r) =>
        var t2 := Trace(t.results[n.id := r], t.effects + RunningEffects(env.executionId, n, input)
                                                       + ResultEffects(env.executionId, n, input, r));
        DownstreamRanked(env.workflow, rank, n.id);
        RunChildrenExtends(env, rank, DownstreamOf(env.workflow, n.id), Or(r.output, EmptyObject), t2, rank[n.id]);
    }
  }

  /** Siblings that stop abruptly end with the ERROR pair of the sibling that threw, with the same message. */
  lemma {:induction false} RunChildrenAbrupt(
    env: Env, rank: map<string, nat>, cs: seq<Node>, input: Json, t: Trace, bound: nat)
    requires Ranked(env.workflow, rank)
    requires forall n :: n in cs ==> n.id in rank && rank[n.id] < bound
    ensures var (t', c) := RunChildren(env, rank, cs, input, t, bound);
            c.Abrupt? ==>
              |t'.effects| >= |t.effects| + 4
              && exists k :: 0 <= k < |cs|
                   && t'.effects[|t'.effects| - 2..] == ErrorEffects(env.executionId, cs[k], input, c.message)
    decreases |cs|
  {
    if cs != [] {
      var prefix := cs[..|cs| - 1];
      var (t1, c) := RunChildren(env, rank, prefix, input, t, bound);
      if c.Abrupt? {
        RunChildrenAbrupt(env, rank, prefix, input, t, bound);
        var k :| 0 <= k < |prefix|
                 && t1.effects[|t1.effects| - 2..] == ErrorEffects(env.executionId, prefix[k], input, c.message);
        assert prefix[k] == cs[k];
      } else {
        RunChildrenExtends(env, rank, prefix, input, t, bound);
        RunNodeRaised(env, rank, cs[|cs| - 1], input, t1);
      }
    }
  }

  /**
    A thrown error unwinds innermost first: when a child's traversal throws,
    the trace ends with that child's ERROR pair followed by the parent's, both
    with the same message.
   */
  lemma UnwindInnermostFirst(env: Env, rank: map<string, nat>, n: Node, input: Json, t: Trace, r: NodeResult)
    requires Ranked(env.workflow, rank) && n.id in rank
    requires n.nodeType in env.registry && env.registry[n.nodeType](HandlerData(n, input)) == Returned(r)
    ensures var (t', o) := RunNode(env, rank, n, input, t);
            var cs := DownstreamOf(env.workflow, n.id);
            o.Raised? ==>
              |t'.effects| >= |t.effects| + 8
              && exists k :: 0 <= k < |cs|
                   && t'.effects[|t'.effects| - 4..]
                      == ErrorEffects(env.executionId, cs[k], Or(r.output, EmptyObject), o.message)
                         + ErrorEffects(env.executionId, n, input, o.message)
  {
    var t2 := Trace(t.results[n.id := r], t.effects + RunningEffects(env.executionId, n, input)
                                                   + ResultEffects(env.executionId, n, input, r));
    RunNodeAfterHandler(env, rank, n, input, t, r);
    var cs := DownstreamOf(env.workflow, n.id);
    var next := Or(r.output, EmptyObject);
    var (t3, c) := RunChildren(env, rank, cs, next, t2, rank[n.id]);
    if c.Abrupt? {
      RunChildrenAbrupt(env, rank, cs, next, t2, rank[n.id]);
      var k :| 0 <= k < |cs| && t3.effects[|t3.effects| - 2..] == ErrorEffects(env.executionId, cs[k], next, c.message);
      LastTwoThenTwo(t3.effects, ErrorEffects(env.executionId, n, input, c.message));
    }
  }

  /** `RunNode` once the handler has returned `r`: the children run, and their throw is caught and rethrown. */
  lemma RunNodeAfterHandler(env: Env, rank: map<string, nat>, n: Node, input: Json, t: Trace, r: NodeResult)
    requires Ranked(env.workflow, rank) && n.id in rank
    requires n.nodeType in env.registry && env.registry[n.nodeType](HandlerData(n, input)) == Returned(r)
    ensures forall ch :: ch in DownstreamOf(env.workflow, n.id) ==> ch.id in rank && rank[ch.id] < rank[n.id]
    ensures var t2 := Trace(t.results[n.id := r], t.effects + RunningEffects(env.executionId, n, input)
                                                         + ResultEffects(env.executionId, n, input, r));
            var (t3, c) := RunChildren(env, rank, DownstreamOf(env.workflow, n.id), Or(r.output, EmptyObject), t2, rank[n.id]);
            RunNode(env, rank, n, input, t) == if c.Abrupt? then Unwind(env, n, input, t3, c.message) else (t3, Returned(r))
  {
    DownstreamRanked(env.workflow, rank, n.id);
  }

  /** The last four effects after appending a pair: the previous last pair, then the new one. */
  lemma LastTwoThenTwo(s: seq<Effect>, e: seq<Effect>)
    requires |s| >= 2 && |e| == 2
    ensures (s + e)[|s + e| - 4..] == s[|s| - 2..] + e
  {
  }

  /** No entry node: only the created record, the RUNNING event and the ERROR event; the run throws. */
  lemma RunWorkflowNoStart(env: Env, rank: map<string, nat>, input: Json)
    requires Acyclic(env, rank)
    requires StartNodes(env.workflow.nodes) == []
    ensures RunWorkflow(env, rank, input)
            == (Trace(map[], StartEffects(env, input) + [EmitExecution(env.executionId, ERROR, None, Some(NoStartMessage))]),
                Failed(NoStartMessage))
    ensures forall e :: e in RunWorkflow(env, rank, input).0.effects ==> !IsNodeLog(e)
  {
  }

  /** A SUCCESS status update or SUCCESS event. */
  predicate IsSuccessEffect(e: Effect) {
    (e.StoreExecutionStatus? && e.status == SUCCESS) || (e.EmitExecution? && e.status == SUCCESS)
  }

  /**
    A failed run rethrows the message of the error that unwound it; it never
    writes or emits SUCCESS, and (when an entry node existed) its trace ends
    with the ERROR pair of the entry node whose traversal threw.
   */
  lemma RunWorkflowFailed(env: Env, rank: map<string, nat>, input: Json)
    requires Acyclic(env, rank)
    ensures var (t', o) := RunWorkflow(env, rank, input);
            o.Failed? ==>
              && StartEffects(env, input) <= t'.effects
              && (forall e :: e in t'.effects ==> !IsSuccessEffect(e))
              && var starts := StartNodes(env.workflow.nodes);
                 starts != [] ==>
                   exists k :: 0 <= k < |starts|
                     && t'.effects[|t'.effects| - 2..]
                        == ErrorEffects(env.executionId, starts[k], Or(input, EmptyObject), o.message)
  {
    var starts := StartNodes(env.workflow.nodes);
    if starts != [] {
      var t0 := Trace(map[], StartEffects(env, input));
      var bound := RankBound(rank, starts);
      var payload := Or(input, EmptyObject);
      RunChildrenExtends(env, rank, starts, payload, t0, bound);
      RunChildrenAbrupt(env, rank, starts, payload, t0, bound);
      var t1 := RunChildren(env, rank, starts, payload, t0, bound).0;
      NoSuccessAfterStart(env, input, t1);
    }
  }

  /**
    A failed run never writes an execution status: the catch block of
    `executeWorkflow` cannot reach the record it would update. With an entry
    node, everything after the two opening effects is a node log.
   */
  lemma RunWorkflowFailedNoStatus(env: Env, rank: map<string, nat>, input: Json)
    requires Acyclic(env, rank)
    ensures var (t', o) := RunWorkflow(env, rank, input);
            o.Failed? ==>
              && (forall e :: e in t'.effects ==> !e.StoreExecutionStatus?)
              && (StartNodes(env.workflow.nodes) != [] ==>
                    forall i :: |StartEffects(env, input)| <= i < |t'.effects| ==> IsNodeLog(t'.effects[i]))
  {
    var starts := StartNodes(env.workflow.nodes);
    if starts != [] {
      var t0 := Trace(map[], StartEffects(env, input));
      RunChildrenExtends(env, rank, starts, Or(input, EmptyObject), t0, RankBound(rank, starts));
      var t1 := RunChildren(env, rank, starts, Or(input, EmptyObject), t0, RankBound(rank, starts)).0;
      forall e | e in t1.effects ensures !e.StoreExecutionStatus? {
        var i :| 0 <= i < |t1.effects| && t1.effects[i] == e;
        if i < 2 { assert e == StartEffects(env, input)[i]; }
      }
    }
  }

  /** What follows the start effects in an extension is node logs, so no SUCCESS effect occurs. */
  lemma NoSuccessAfterStart(env: Env, input: Json, t1: Trace)
    requires Extends(Trace(map[], StartEffects(env, input)), t1)
    ensures forall e :: e in t1.effects ==> !IsSuccessEffect(e)
  {
    forall e | e in t1.effects ensures !IsSuccessEffect(e) {
      var i :| 0 <= i < |t1.effects| && t1.effects[i] == e;
      if i < 2 { assert e == StartEffects(env, input)[i]; }
    }
  }

  /**
    A completed run ends with the SUCCESS update and the SUCCESS event that
    carries the final results map; what it returns is the record as created,
    whose status is still RUNNING.
   */
  lemma RunWorkflowCompleted(env: Env, rank: map<string, nat>, input: Json)
    requires Acyclic(env, rank)
    ensures var (t', o) := RunWorkflow(env, rank, input);
            o.Completed? ==>
              && StartNodes(env.workflow.nodes) != []
              && o.execution == ExecutionRecord(env.executionId, env.workflow.id, RUNNING, Or(input, EmptyObject))
              && StartEffects(env, input) <= t'.effects
              && |t'.effects| >= 4
              && t'.effects[|t'.effects| - 2..] == SuccessEffects(env, t'.results)
  {
    var starts := StartNodes(env.workflow.nodes);
    if starts != [] {
      RunChildrenExtends(env, rank, starts, Or(input, EmptyObject), Trace(map[], StartEffects(env, input)), RankBound(rank, starts));
    }
  }

  /**
    The results a completed run reports with SUCCESS hold, under the last
    entry node's id, what its handler returned on the run's input.
   */
  lemma RunWorkflowStoresLastEntry(env: Env, rank: map<string, nat>, input: Json)
    requires Acyclic(env, rank)
    ensures var (t', o) := RunWorkflow(env, rank, input);
            var starts := StartNodes(env.workflow.nodes);
            o.Completed? ==>
              var last := starts[|starts| - 1];
              && last.nodeType in env.registry
              && env.registry[last.nodeType](HandlerData(last, Or(input, EmptyObject))).Returned?
              && last.id in t'.results
              && t'.results[last.id] == env.registry[last.nodeType](HandlerData(last, Or(input, EmptyObject))).result
  {
    var starts := StartNodes(env.workflow.nodes);
    if starts != [] {
      var t0 := Trace(map[], StartEffects(env, input));
      var bound := RankBound(rank, starts);
      var payload := Or(input, EmptyObject);
      var prefix, last := starts[..|starts| - 1], starts[|starts| - 1];
      var (t1, c) := RunChildren(env, rank, prefix, payload, t0, bound);
      if c.Normal? {
        RunNodeStores(env, rank, last, payload, t1);
        var (t2, o) := RunNode(env, rank, last, payload, t1);
        assert RunChildren(env, rank, starts, payload, t0, bound) == (t2, if o.Raised? then Abrupt(o.message) else Normal);
        if o.Returned? {
          assert RunWorkflow(env, rank, input).0.results == t2.results;
        }
      }
    }
  }

  /**
    When the traversal of entry node `k` throws, the entry nodes after it
    never start: the run's trace is the trace of entries `0..k`, and the run
    rethrows that error.
   */
  lemma LaterEntriesDoNotRun(env: Env, rank: map<string, nat>, input: Json, k: nat)
    requires Acyclic(env, rank)
    requires k < |StartNodes(env.workflow.nodes)|
    requires var starts := StartNodes(env.workflow.nodes);
             RunChildren(env, rank, starts[..k + 1], Or(input, EmptyObject), Trace(map[], StartEffects(env, input)),
                         RankBound(rank, starts)).1.Abrupt?
    ensures var starts := StartNodes(env.workflow.nodes);
            var (t1, c) := RunChildren(env, rank, starts[..k + 1], Or(input, EmptyObject),
                                       Trace(map[], StartEffects(env, input)), RankBound(rank, starts));
            RunWorkflow(env, rank, input) == (t1, Failed(c.message))
  {
    var starts := StartNodes(env.workflow.nodes);
    AbruptStops(env, rank, starts, Or(input, EmptyObject), Trace(map[], StartEffects(env, input)),
                RankBound(rank, starts), k + 1);
  }

  // ---------------------------------------------------------------------------
  // Fan-in replication: a node runs once per path that reaches it.

  /** A RUNNING event for node id `x`: the sink's record of one invocation of that node. */
  predicate IsRunningEvent(e: Effect, x: string) {
    e.EmitLog? && e.entry.nodeId == x && e.entry.status == RUNNING
  }

  function RunningCount(es: seq<Effect>, x: string): nat
    decreases |es|
  {
    if es == [] then 0
    else RunningCount(es[..|es| - 1], x) + (if IsRunningEvent(es[|es| - 1], x) then 1 else 0)
  }

  lemma {:induction false} RunningCountAppend(a: seq<Effect>, b: seq<Effect>, x: string)
    ensures RunningCount(a + b, x) == RunningCount(a, x) + RunningCount(b, x)
    decreases |b|
  {
    if b == [] {
      assert a + b == a;
    } else {
      assert (a + b)[..|a + b| - 1] == a + b[..|b| - 1];
      RunningCountAppend(a, b[..|b| - 1], x);
    }
  }

  lemma RunningCountPair(a: Effect, b: Effect, x: string)
    ensures RunningCount([a, b], x) == (if IsRunningEvent(a, x) then 1 else 0) + (if IsRunningEvent(b, x) then 1 else 0)
  {
    assert [a][..0] == [];
    assert RunningCount([a], x) == (if IsRunningEvent(a, x) then 1 else 0);
    assert [a, b][..1] == [a];
  }

  /**
    Reference count: the number of paths from `n` down to nodes with id `x`
    (counting `n` itself), following connections in the same way the
    traversal does (one step per connection, duplicates kept).
   */
  ghost function Paths(wf: Workflow, rank: map<string, nat>, n: Node, x: string): nat
    requires Ranked(wf, rank) && n.id in rank
    decreases rank[n.id], 1
  {
    DownstreamRanked(wf, rank, n.id);
    (if n.id == x then 1 else 0) + PathsFrom(wf, rank, DownstreamOf(wf, n.id), x, rank[n.id])
  }

  ghost function PathsFrom(wf: Workflow, rank: map<string, nat>, cs: seq<Node>, x: string, bound: nat): nat
    requires Ranked(wf, rank)
    requires forall n :: n in cs ==> n.id in rank && rank[n.id] < bound
    decreases bound, 0, |cs|
  {
    if cs == [] then 0
    else PathsFrom(wf, rank, cs[..|cs| - 1], x, bound) + Paths(wf, rank, cs[|cs| - 1], x)
  }

  /** No registered handler reports status RUNNING, so RUNNING events mark invocations only. */
  ghost predicate NoRunningResults(reg: Registry) {
    forall tag, d :: tag in reg && reg[tag](d).Returned? ==> reg[tag](d).result.status != RUNNING
  }

  /** A node whose traversal returns was invoked once per path, and so was every node below it. */
  lemma {:induction false} RunNodeCount(env: Env, rank: map<string, nat>, n: Node, input: Json, t: Trace, x: string)
    requires Ranked(env.workflow, rank) && n.id in rank
    requires NoRunningResults(env.registry)
    ensures var (t', o) := RunNode(env, rank, n, input, t);
            o.Returned? ==> RunningCount(t'.effects, x) == RunningCount(t.effects, x) + Paths(env.workflow, rank, n, x)
    decreases rank[n.id], 1
  {
    var id := env.executionId;
    if n.nodeType in env.registry {
      match env.registry[n.nodeType](HandlerData(n, input))
      case Raised(_) =>
      case Returned(r) =>
        var t2 := Trace(t.results[n.id := r], t.effects + RunningEffects(id, n, input) + ResultEffects(id, n, input, r));
        DownstreamRanked(env.workflow, rank, n.id);
        var cs := DownstreamOf(env.workflow, n.id);
        var next := Or(r.output, EmptyObject);
        RunChildrenCount(env, rank, cs, next, t2, rank[n.id], x);
        assert r.status != RUNNING;
        var running := RunningEffects(id, n, input);
        var logged := ResultEffects(id, n, input, r);
        RunningCountAppend(t.effects + running, logged, x);
        RunningCountAppend(t.effects, running, x);
        RunningCountPair(running[0], running[1], x);
        RunningCountPair(logged[0], logged[1], x);
        assert t2.effects == t.effects + running + logged;
    }
  }

  lemma {:induction false} RunChildrenCount(
    env: Env, rank: map<string, nat>, cs: seq<Node>, input: Json, t: Trace, bound: nat, x: string)
    requires Ranked(env.workflow, rank)
    requires forall n :: n in cs ==> n.id in rank && rank[n.id] < bound
    requires NoRunningResults(env.registry)
    ensures var (t', c) := RunChildren(env, rank, cs, input, t, bound);
            c.Normal? ==> RunningCount(t'.effects, x) == RunningCount(t.effects, x) + PathsFrom(env.workflow, rank, cs, x, bound)
    decreases bound, 0, |cs|
  {
    if cs != [] {
      var prefix, last := cs[..|cs| - 1], cs[|cs| - 1];
      assert forall n :: n in prefix ==> n in cs;
      RunChildrenCount(env, rank, prefix, input, t, bound, x);
      var (t1, c) := RunChildren(env, rank, prefix, input, t, bound);
      if c.Normal? {
        RunNodeCount(env, rank, last, input, t1, x);
        var (t2, o) := RunNode(env, rank, last, input, t1);
        assert RunChildren(env, rank, cs, input, t, bound) == (t2, if o.Raised? then Abrupt(o.message) else Normal);
        assert PathsFrom(env.workflow, rank, cs, x, bound)
               == PathsFrom(env.workflow, rank, prefix, x, bound) + Paths(env.workflow, rank, last, x);
      }
    }
  }

  /** A completed run invoked every node once per path from the entry nodes: fan-in nodes run repeatedly. */
  lemma RunWorkflowCount(env: Env, rank: map<string, nat>, input: Json, x: string)
    requires Acyclic(env, rank)
    requires NoRunningResults(env.registry)
    ensures var (t', o) := RunWorkflow(env, rank, input);
            var starts := StartNodes(env.workflow.nodes);
            o.Completed? ==>
              RunningCount(t'.effects, x) == PathsFrom(env.workflow, rank, starts, x, RankBound(rank, starts))
  {
    var starts := StartNodes(env.workflow.nodes);
    if starts != [] {
      var t0 := Trace(map[], StartEffects(env, input));
      var bound := RankBound(rank, starts);
      RunChildrenCount(env, rank, starts, Or(input, EmptyObject), t0, bound, x);
      var t1 := RunChildren(env, rank, starts, Or(input, EmptyObject), t0, bound).0;
      RunningCountPair(t0.effects[0], t0.effects[1], x);
      assert t0.effects == [t0.effects[0], t0.effects[1]];
      var done := SuccessEffects(env, t1.results);
      RunningCountAppend(t1.effects, done, x);
      RunningCountPair(done[0], done[1], x);
    }
  }
}
