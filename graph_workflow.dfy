/** src/graph_workflow.py: the shared state dict that the workflow's nodes
    update in place, the error handler, and the fixed order of the nodes. */
module GraphWorkflow {
  import opened PyJson

  /** The workflow's state dict, which `update_state` changes in place. */
  class GraphState {
    var fields: seq<Field>

    constructor (fields0: seq<Field>)
      ensures fields == fields0
    {
      fields := fields0;
    }
  }

  /** `update_state(state, updates)`: a dict `updates` is merged into `state`
      with `state.update(updates)`; anything else leaves it alone. The same
      object is returned. */
  method UpdateState(state: GraphState, updates: Json) returns (r: GraphState)
    modifies state
    ensures r == state
    ensures updates.JObj? ==> state.fields == Update(old(state.fields), updates.fields)
    ensures !updates.JObj? ==> state.fields == old(state.fields)
    ensures updates.JObj? && UniqueKeys(updates.fields) ==> forall k ::
      Get(state.fields, k) == if k in Keys(updates.fields) then Get(updates.fields, k) else Get(old(state.fields), k)
  {
    if updates.JObj? {
      ghost var before := state.fields;
      state.fields := Update(state.fields, updates.fields);
      if UniqueKeys(updates.fields) {
        forall k: string
          ensures Get(state.fields, k) == if k in Keys(updates.fields) then Get(updates.fields, k) else Get(before, k)
        {
          GetUpdate(before, updates.fields, k);
        }
      }
    }
    r := state;
  }

  /** `university_recommendations_node(state)`: sets `universities` to `[]`
      and changes no other key. */
  method UniversityRecommendationsNode(state: GraphState) returns (r: GraphState)
    modifies state
    ensures r == state
    ensures Get(state.fields, "universities") == Some(JList([]))
    ensures forall k :: k != "universities" ==> Get(state.fields, k) == Get(old(state.fields), k)
    ensures |state.fields| == if "universities" in Keys(old(state.fields)) then |old(state.fields)| else |old(state.fields)| + 1
  {
    ghost var before := state.fields;
    r := UpdateState(state, JObj([Field("universities", JList([]))]));
    assert Update(before, [Field("universities", JList([]))]) == Set(before, "universities", JList([]));
    SetLength(before, "universities", JList([]));
  }

  /** `handle_error(state, error)`: logs and reports the error, then returns
      the state as it is. */
  method HandleError(state: GraphState, error: string) returns (r: GraphState)
    ensures r == state
  {
    r := state;
  }

  /** `update_state` twice with the same dict is the same as once. */
  lemma {:induction false} UpdateIdempotent(fs: seq<Field>, us: seq<Field>)
    requires UniqueKeys(us)
    ensures forall k :: Get(Update(Update(fs, us), us), k) == Get(Update(fs, us), k)
  {
    forall k: string
      ensures Get(Update(Update(fs, us), us), k) == Get(Update(fs, us), k)
    {
      GetUpdate(Update(fs, us), us, k);
      GetUpdate(fs, us, k);
    }
  }

  /** The workflow's nodes and its end marker. */
  datatype Node = StudentInfoNode | UniversityRecommendations | Management | End

  const Entry: Node := StudentInfoNode

  /** `add_edge` calls, in order. */
  const Edges: seq<(Node, Node)> :=
    [(StudentInfoNode, UniversityRecommendations), (UniversityRecommendations, Management), (Management, End)]

  /** The targets of the edges leaving `n`. */
  function Successors(edges: seq<(Node, Node)>, n: Node): (r: seq<Node>)
    ensures forall m :: m in r <==> (n, m) in edges
  {
    if edges == [] then []
    else (if edges[0].0 == n then [edges[0].1] else []) + Successors(edges[1..], n)
  }

  /** The nodes visited from `n` by following single outgoing edges, at most
      `steps` of them. */
  function Walk(n: Node, steps: nat): (r: seq<Node>)
    ensures 1 <= |r| <= steps + 1 && r[0] == n
    ensures forall i {:trigger Successors(Edges, r[i])} :: 0 <= i < |r| - 1 ==> Successors(Edges, r[i]) == [r[i + 1]]
    ensures |r| < steps + 1 ==> |Successors(Edges, r[|r| - 1])| != 1
    decreases steps
  {
    var next := Successors(Edges, n);
    if steps == 0 || |next| != 1 then [n] else [n] + Walk(next[0], steps - 1)
  }

  /** Every node but the end has exactly one successor, and the run from the
      entry point is student_info, university_recommendations, management, END. */
  lemma FixedOrder()
    ensures Successors(Edges, StudentInfoNode) == [UniversityRecommendations]
    ensures Successors(Edges, UniversityRecommendations) == [Management]
    ensures Successors(Edges, Management) == [End]
    ensures Successors(Edges, End) == []
    ensures Walk(Entry, 10) == [StudentInfoNode, UniversityRecommendations, Management, End]
  {
    assert Edges[1..][1..][1..] == [];
  }
}
