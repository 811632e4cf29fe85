/**
  The workflow record and its graph: nodes, connections, the entry-node rule
  and the downstream query the traversal uses.
 */
module WorkflowGraph {
  import opened Wrappers
  import opened Json

  /**
    A node. `parameters` is the value of `node.data?.parameters`, `JUndefined`
    when the node has no data or no parameters. The presentation fields
    (position, label, icon, colour) play no part in execution.
   */
  datatype Node = Node(id: string, nodeType: string, parameters: Json)

  datatype Connection = Connection(
    id: string, source: string, target: string, sourceHandle: string, targetHandle: string)

  datatype WorkflowStatus = Draft | Active | Inactive

  /** A workflow; `connections` is `[]` when the stored workflow has none. */
  datatype Workflow = Workflow(
    id: string,
    name: string,
    description: string,
    nodes: seq<Node>,
    connections: seq<Connection>,
    createdAt: int,
    updatedAt: int,
    status: WorkflowStatus,
    version: string)

  /** The trigger-classifying substring of a node type. */
  const TriggerTag: string := "trigger"

  /** `s.includes(t)`, checked position by position. */
  predicate Contains(s: string, t: string)
    decreases |s|
  {
    |t| <= |s| && (s[..|t|] == t || Contains(s[1..], t))
  }

  /** `t` occurs in `s` starting at offset `i`. */
  predicate OccursAt(s: string, t: string, i: int) {
    0 <= i && i + |t| <= |s| && s[i..i + |t|] == t
  }

  /** `Contains` is exactly "t occurs in s at some offset". */
  lemma {:induction false} ContainsIffOccurs(s: string, t: string)
    ensures Contains(s, t) <==> exists i :: OccursAt(s, t, i)
    decreases |s|
  {
    if |t| <= |s| {
      assert s[..|t|] == s[0..0 + |t|];
      if s[..|t|] == t {
        assert OccursAt(s, t, 0);
      } else {
        var tail := s[1..];
        ContainsIffOccurs(tail, t);
        forall i | 1 <= i && i + |t| <= |s|
          ensures OccursAt(s, t, i) <==> OccursAt(tail, t, i - 1)
        {
          assert s[i..i + |t|] == tail[i - 1..i - 1 + |t|];
        }
        if Contains(tail, t) {
          var i :| OccursAt(tail, t, i);
          assert OccursAt(s, t, i + 1);
        } else {
          forall i | OccursAt(s, t, i)
            ensures false
          {
          }
        }
      }
    } else {
      forall i | OccursAt(s, t, i)
        ensures false
      {
      }
    }
  }

  predicate IsTrigger(n: Node) {
    Contains(n.nodeType, TriggerTag)
  }

  /** `nodes.filter(node => node.type.includes('trigger'))`. */
  function StartNodes(nodes: seq<Node>): (r: seq<Node>)
    ensures forall n :: n in r <==> n in nodes && IsTrigger(n)
    ensures |r| <= |nodes|
    decreases |nodes|
  {
    if nodes == [] then []
    else (if IsTrigger(nodes[0]) then [nodes[0]] else []) + StartNodes(nodes[1..])
  }

  /** The entry nodes keep declaration order: filtering commutes with concatenation. */
  lemma {:induction false} StartNodesAppend(a: seq<Node>, b: seq<Node>)
    ensures StartNodes(a + b) == StartNodes(a) + StartNodes(b)
    decreases |a|
  {
    if a == [] {
      assert a + b == b;
    } else {
      assert (a + b)[0] == a[0] && (a + b)[1..] == a[1..] + b;
      StartNodesAppend(a[1..], b);
    }
  }

  /** `nodes.find(n => n.id === id)`: the first node carrying that id. */
  function FindNode(nodes: seq<Node>, id: string): (r: Option<Node>)
    ensures r.None? <==> forall k :: 0 <= k < |nodes| ==> nodes[k].id != id
    ensures r.Some? ==> exists k :: 0 <= k < |nodes| && nodes[k] == r.value
                                    && forall j :: 0 <= j < k ==> nodes[j].id != id
    ensures r.Some? ==> r.value.id == id
    decreases |nodes|
  {
    if nodes == [] then None
    else if nodes[0].id == id then Some(nodes[0])
    else
      var r := FindNode(nodes[1..], id);
      assert r.Some? ==> exists k :: 0 <= k < |nodes| - 1 && nodes[1..][k] == r.value
                                     && forall j :: 0 <= j < k ==> nodes[1..][j].id != id;
      if r.Some? then
        var k :| 0 <= k < |nodes| - 1 && nodes[1..][k] == r.value
                 && forall j :: 0 <= j < k ==> nodes[1..][j].id != id;
        assert nodes[k + 1] == r.value;
        assert forall j :: 0 <= j < k + 1 ==> nodes[j].id != id by {
          forall j | 0 <= j < k + 1 ensures nodes[j].id != id {
            if j > 0 { assert nodes[j] == nodes[1..][j - 1]; }
          }
        }
        r
      else
        assert forall k :: 0 <= k < |nodes| - 1 ==> nodes[1..][k].id != id;
        assert forall k :: 1 <= k < |nodes| ==> nodes[k] == nodes[1..][k - 1];
        r
  }

  /** The child a single connection contributes to `downstreamOf(id)`, if any. */
  function Child(nodes: seq<Node>, c: Connection, id: string): seq<Node> {
    if c.source == id then
      match FindNode(nodes, c.target)
      case Some(n) => [n]
      case None => []
    else []
  }

  /**
    `connections.filter(c => c.source === id).map(c => find(c.target)).filter(Boolean)`:
    one child per connection leaving `id`, in connection order, duplicates kept,
    dangling targets dropped.
   */
  function Downstream(nodes: seq<Node>, conns: seq<Connection>, id: string): (r: seq<Node>)
    ensures |r| <= |conns|
    decreases |conns|
  {
    if conns == [] then [] else Child(nodes, conns[0], id) + Downstream(nodes, conns[1..], id)
  }

  /** A node is a child of `id` exactly when some connection from `id` resolves to it. */
  lemma {:induction false} DownstreamMembers(nodes: seq<Node>, conns: seq<Connection>, id: string, n: Node)
    ensures n in Downstream(nodes, conns, id) <==>
            exists c :: c in conns && c.source == id && FindNode(nodes, c.target) == Some(n)
    decreases |conns|
  {
    if conns != [] {
      DownstreamMembers(nodes, conns[1..], id, n);
      assert forall c :: c in conns <==> c == conns[0] || c in conns[1..];
    }
  }

  /** Children keep connection order: the query commutes with concatenation. */
  lemma {:induction false} DownstreamAppend(nodes: seq<Node>, a: seq<Connection>, b: seq<Connection>, id: string)
    ensures Downstream(nodes, a + b, id) == Downstream(nodes, a, id) + Downstream(nodes, b, id)
    decreases |a|
  {
    if a == [] {
      assert a + b == b;
    } else {
      assert (a + b)[0] == a[0] && (a + b)[1..] == a[1..] + b;
      DownstreamAppend(nodes, a[1..], b, id);
    }
  }

  /** Number of connections leaving `id` whose target resolves to `n`. */
  function EdgesTo(nodes: seq<Node>, conns: seq<Connection>, id: string, n: Node): nat
    decreases |conns|
  {
    if conns == [] then 0
    else (if Child(nodes, conns[0], id) == [n] then 1 else 0) + EdgesTo(nodes, conns[1..], id, n)
  }

  /** No deduplication: a child appears once per connection that reaches it. */
  lemma {:induction false} DownstreamMultiplicity(nodes: seq<Node>, conns: seq<Connection>, id: string, n: Node)
    ensures multiset(Downstream(nodes, conns, id))[n] == EdgesTo(nodes, conns, id, n)
    decreases |conns|
  {
    if conns != [] {
      DownstreamMultiplicity(nodes, conns[1..], id, n);
      var head := Child(nodes, conns[0], id);
      assert multiset(head + Downstream(nodes, conns[1..], id))
          == multiset(head) + multiset(Downstream(nodes, conns[1..], id));
      assert head == [] || |head| == 1;
    }
  }

  /**
    A ranking of the part of the graph the traversal can reach: along every
    connection whose source is ranked and whose target names a node, the rank
    strictly decreases. Such a ranking exists exactly when no cycle is
    reachable, and it is what makes the traversal terminate.
   */
  ghost predicate Ranked(wf: Workflow, rank: map<string, nat>) {
    forall c :: c in wf.connections && c.source in rank && FindNode(wf.nodes, c.target).Some? ==>
      c.target in rank && rank[c.target] < rank[c.source]
  }

  /** Every child of a ranked node is ranked lower. */
  lemma DownstreamRanked(wf: Workflow, rank: map<string, nat>, id: string)
    requires Ranked(wf, rank) && id in rank
    ensures forall n :: n in Downstream(wf.nodes, wf.connections, id) ==> n.id in rank && rank[n.id] < rank[id]
  {
    forall n | n in Downstream(wf.nodes, wf.connections, id)
      ensures n.id in rank && rank[n.id] < rank[id]
    {
      DownstreamMembers(wf.nodes, wf.connections, id, n);
    }
  }

  /** The workflow's children of node `id`. */
  function DownstreamOf(wf: Workflow, id: string): seq<Node> {
    Downstream(wf.nodes, wf.connections, id)
  }
}
