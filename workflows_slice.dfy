/**
  The client's `workflows` slice: the cached workflow list, the workflow open
  in the designer, and the loading and error flags. Each reducer is a method
  that updates the state object in place, as the Immer-style reducers do.
 */
module WorkflowsSlice {
  import opened Wrappers
  import opened WorkflowGraph

  /** No item of `items` carries `id`. */
  predicate NoneHas(items: seq<Workflow>, id: string) {
    forall k :: 0 <= k < |items| ==> items[k].id != id
  }

  /** `items.findIndex(w => w.id === id)`: the first position carrying `id`, or -1. */
  function FindIndex(items: seq<Workflow>, id: string): (r: int)
    ensures -1 <= r < |items|
    ensures r == -1 <==> NoneHas(items, id)
    ensures r != -1 ==> items[r].id == id && NoneHas(items[..r], id)
    decreases |items|
  {
    if items == [] then -1
    else if items[0].id == id then 0
    else
      var r := FindIndex(items[1..], id);
      if r == -1 then -1
      else
        assert items[1..][..r] == items[1..r + 1];
        r + 1
  }

  /** `items.filter(w => w.id !== id)`. */
  function RemoveId(items: seq<Workflow>, id: string): (r: seq<Workflow>)
    ensures |r| <= |items|
    decreases |items|
  {
    if items == [] then []
    else (if items[0].id == id then [] else [items[0]]) + RemoveId(items[1..], id)
  }

  /** What the filter keeps: exactly the workflows whose id differs, so none carries `id`. */
  lemma {:induction false} RemoveIdMembers(items: seq<Workflow>, id: string)
    ensures forall w :: w in RemoveId(items, id) <==> w in items && w.id != id
    ensures NoneHas(RemoveId(items, id), id)
    decreases |items|
  {
    if items != [] {
      RemoveIdMembers(items[1..], id);
      assert forall w :: w in items <==> w == items[0] || w in items[1..];
    }
  }

  /** The filter keeps order: it commutes with concatenation. */
  lemma {:induction false} RemoveIdAppend(a: seq<Workflow>, b: seq<Workflow>, id: string)
    ensures RemoveId(a + b, id) == RemoveId(a, id) + RemoveId(b, id)
    decreases |a|
  {
    if a == [] {
      assert a + b == b;
    } else {
      assert (a + b)[0] == a[0] && (a + b)[1..] == a[1..] + b;
      RemoveIdAppend(a[1..], b, id);
    }
  }

  /** With no item carrying `id`, the filter changes nothing. */
  lemma {:induction false} RemoveIdAbsent(items: seq<Workflow>, id: string)
    requires NoneHas(items, id)
    ensures RemoveId(items, id) == items
    decreases |items|
  {
    if items != [] {
      assert NoneHas(items[1..], id) by {
        forall k | 0 <= k < |items| - 1 ensures items[1..][k].id != id {
          assert items[1..][k] == items[k + 1];
        }
      }
      RemoveIdAbsent(items[1..], id);
      assert items == [items[0]] + items[1..];
    }
  }

  /** Deleting the same id twice is deleting it once. */
  lemma RemoveIdIdempotent(items: seq<Workflow>, id: string)
    ensures RemoveId(RemoveId(items, id), id) == RemoveId(items, id)
  {
    RemoveIdMembers(items, id);
    RemoveIdAbsent(RemoveId(items, id), id);
  }

  /** Every copy of a workflow with another id survives; every copy with this id is gone. */
  lemma {:induction false} RemoveIdMultiplicity(items: seq<Workflow>, id: string, w: Workflow)
    ensures multiset(RemoveId(items, id))[w] == if w.id == id then 0 else multiset(items)[w]
    decreases |items|
  {
    if items != [] {
      RemoveIdMultiplicity(items[1..], id, w);
      var head := if items[0].id == id then [] else [items[0]];
      assert multiset(head + RemoveId(items[1..], id)) == multiset(head) + multiset(RemoveId(items[1..], id));
      assert items == [items[0]] + items[1..];
      assert multiset(items) == multiset([items[0]]) + multiset(items[1..]);
    }
  }

  /** Adding a workflow and then deleting its id leaves what deleting alone would. */
  lemma AddThenDelete(items: seq<Workflow>, w: Workflow)
    ensures RemoveId(items + [w], w.id) == RemoveId(items, w.id)
  {
    RemoveIdAppend(items, [w], w.id);
    assert RemoveId([w], w.id) == [] + RemoveId([], w.id);
  }

  /** A workflow added under a fresh id is found at the new last position. */
  lemma {:induction false} AddThenFind(items: seq<Workflow>, w: Workflow)
    requires NoneHas(items, w.id)
    ensures FindIndex(items + [w], w.id) == |items|
    decreases |items|
  {
    if items == [] {
      assert items + [w] == [w];
    } else {
      assert (items + [w])[1..] == items[1..] + [w];
      assert NoneHas(items[1..], w.id) by {
        forall k | 0 <= k < |items| - 1 ensures items[1..][k].id != w.id {
          assert items[1..][k] == items[k + 1];
        }
      }
      AddThenFind(items[1..], w);
    }
  }

  /** The slice's state object. */
  class WorkflowsState {
    var items: seq<Workflow>
    var currentWorkflow: Option<Workflow>
    var loading: bool
    var error: Option<string>

    /** `initialState`. */
    constructor ()
      ensures items == [] && currentWorkflow == None && !loading && error == None
    {
      items := [];
      currentWorkflow := None;
      loading := false;
      error := None;
    }

    method SetLoading(payload: bool)
      modifies this
      ensures loading == payload
      ensures items == old(items) && currentWorkflow == old(currentWorkflow) && error == old(error)
    {
      loading := payload;
    }

    method SetError(payload: Option<string>)
      modifies this
      ensures error == payload
      ensures items == old(items) && currentWorkflow == old(currentWorkflow) && loading == old(loading)
    {
      error := payload;
    }

    method SetWorkflows(payload: seq<Workflow>)
      modifies this
      ensures items == payload
      ensures currentWorkflow == old(currentWorkflow) && loading == old(loading) && error == old(error)
    {
      items := payload;
    }

    method SetCurrentWorkflow(payload: Option<Workflow>)
      modifies this
      ensures currentWorkflow == payload
      ensures items == old(items) && loading == old(loading) && error == old(error)
    {
      currentWorkflow := payload;
    }

    /** `state.items.push(payload)`: one more item at the end, the earlier ones untouched. */
    method AddWorkflow(payload: Workflow)
      modifies this
      ensures |items| == |old(items)| + 1
      ensures items[..|old(items)|] == old(items) && items[|old(items)|] == payload
      ensures currentWorkflow == old(currentWorkflow) && loading == old(loading) && error == old(error)
    {
      items := items + [payload];
    }

    /**
      Replaces the first item carrying the payload's id, if there is one, and
      the open workflow when it carries that id.
     */
    method UpdateWorkflow(payload: Workflow)
      modifies this
      ensures |items| == |old(items)|
      ensures NoneHas(old(items), payload.id) ==> items == old(items)
      ensures !NoneHas(old(items), payload.id) ==>
                exists i :: 0 <= i < |items| && old(items)[i].id == payload.id
                            && NoneHas(old(items)[..i], payload.id)
                            && items[i] == payload
                            && forall k :: 0 <= k < |items| && k != i ==> items[k] == old(items)[k]
      ensures currentWorkflow == if old(currentWorkflow).Some? && old(currentWorkflow).value.id == payload.id
                                 then Some(payload) else old(currentWorkflow)
      ensures loading == old(loading) && error == old(error)
    {
      var index := FindIndex(items, payload.id);
      if index != -1 {
        items := items[index := payload];
      }
      if currentWorkflow.Some? && currentWorkflow.value.id == payload.id {
        currentWorkflow := Some(payload);
      }
    }

    /** Drops every item carrying `id`, and closes the open workflow when it carries `id`. */
    method DeleteWorkflow(id: string)
      modifies this
      ensures items == RemoveId(old(items), id)
      ensures currentWorkflow == None <==> old(currentWorkflow) == None || old(currentWorkflow).value.id == id
      ensures currentWorkflow != None ==> currentWorkflow == old(currentWorkflow)
      ensures loading == old(loading) && error == old(error)
    {
      items := RemoveId(items, id);
      if currentWorkflow.Some? && currentWorkflow.value.id == id {
        currentWorkflow := None;
      }
    }
  }
}
