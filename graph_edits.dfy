/** The value-level edits behind `updateNodeData`, `removeNode` and the
    structural test of `onNodesChange` / `onEdgesChange`. */
module GraphEdits {
  import opened Values
  import opened StudioGraph

  /** `{ ...old, ...patch }`: the patch's keys override, every other key is kept. */
  function Merge(base: Payload, patch: Payload): (d: Payload)
    ensures d.Keys == base.Keys + patch.Keys
    ensures forall k :: k in patch ==> d[k] == patch[k]
    ensures forall k :: k in base && k !in patch ==> d[k] == base[k]
  {
    base + patch
  }

  /** The node list after `updateNodeData(id, patch)`: a `map` over the nodes
      that merges the patch into the payload of every node with that id. */
  function Patched(ns: seq<Node>, id: string, patch: Payload): (r: seq<Node>)
    ensures |r| == |ns|
    ensures forall i :: 0 <= i < |ns| ==>
      r[i].id == ns[i].id && r[i].kind == ns[i].kind && r[i].position == ns[i].position
    ensures forall i :: 0 <= i < |ns| && ns[i].id == id ==> r[i].data == Merge(ns[i].data, patch)
    ensures forall i :: 0 <= i < |ns| && ns[i].id != id ==> r[i] == ns[i]
  {
    seq(|ns|, i requires 0 <= i < |ns| => if ns[i].id == id then ns[i].(data := Merge(ns[i].data, patch)) else ns[i])
  }

  /** `find` by id after a patch: the patched node is found with its merged
      data, and every other id is found as before. */
  lemma {:induction false} FindPatched(ns: seq<Node>, id: string, patch: Payload, x: string)
    ensures x != id ==> FindNode(Patched(ns, id, patch), x) == FindNode(ns, x)
    ensures FindNode(ns, id).Some? ==>
      FindNode(Patched(ns, id, patch), id)
        == Some(FindNode(ns, id).value.(data := Merge(FindNode(ns, id).value.data, patch)))
  {
    if ns != [] {
      assert Patched(ns, id, patch)[1..] == Patched(ns[1..], id, patch);
      FindPatched(ns[1..], id, patch, x);
    }
  }

  /** Patching an id no node carries changes nothing. */
  lemma PatchAbsent(ns: seq<Node>, id: string, patch: Payload)
    requires forall i :: 0 <= i < |ns| ==> ns[i].id != id
    ensures Patched(ns, id, patch) == ns
  {
    var r := Patched(ns, id, patch);
    assert forall i :: 0 <= i < |ns| ==> r[i] == ns[i];
  }

  /** Applying the same patch twice is applying it once. */
  lemma PatchIdempotent(ns: seq<Node>, id: string, patch: Payload)
    ensures Patched(Patched(ns, id, patch), id, patch) == Patched(ns, id, patch)
  {
    var once := Patched(ns, id, patch);
    var twice := Patched(once, id, patch);
    forall i | 0 <= i < |ns| ensures twice[i] == once[i] {
      if ns[i].id == id {
        assert Merge(Merge(ns[i].data, patch), patch) == Merge(ns[i].data, patch);
      }
    }
  }

  /** Two successive patches of one node are one patch with their keys merged,
      the later one's keys winning. */
  lemma PatchCompose(ns: seq<Node>, id: string, first: Payload, second: Payload)
    ensures Patched(Patched(ns, id, first), id, second) == Patched(ns, id, Merge(first, second))
  {
    var lhs := Patched(Patched(ns, id, first), id, second);
    var rhs := Patched(ns, id, Merge(first, second));
    forall i | 0 <= i < |ns| ensures lhs[i] == rhs[i] {
      if ns[i].id == id {
        assert Merge(Merge(ns[i].data, first), second) == Merge(ns[i].data, Merge(first, second));
      }
    }
  }

  function IdIsNot(id: string): Node -> bool
  {
    (n: Node) => n.id != id
  }

  function NotIncident(id: string): Edge -> bool
  {
    (e: Edge) => e.source != id && e.target != id
  }

  /** The graph after `removeNode(id)`: the nodes without that id and the
      edges touching it neither at the source nor at the target. */
  function WithoutNode(g: Graph, id: string): (r: Graph)
    ensures forall n :: n in r.nodes <==> n in g.nodes && n.id != id
    ensures forall e :: e in r.edges <==> e in g.edges && e.source != id && e.target != id
  {
    Graph(Filter(g.nodes, IdIsNot(id)), Filter(g.edges, NotIncident(id)))
  }

  /** The survivors keep their relative order: removing from a concatenation
      removes from each part. */
  lemma RemoveKeepsOrder(ns1: seq<Node>, ns2: seq<Node>, es1: seq<Edge>, es2: seq<Edge>, id: string)
    ensures WithoutNode(Graph(ns1 + ns2, es1 + es2), id).nodes
         == WithoutNode(Graph(ns1, es1), id).nodes + WithoutNode(Graph(ns2, es2), id).nodes
    ensures WithoutNode(Graph(ns1 + ns2, es1 + es2), id).edges
         == WithoutNode(Graph(ns1, es1), id).edges + WithoutNode(Graph(ns2, es2), id).edges
  {
    FilterAppend(ns1, ns2, IdIsNot(id));
    FilterAppend(es1, es2, NotIncident(id));
  }

  /** A second `removeNode` of the same id changes nothing. */
  lemma RemoveIdempotent(g: Graph, id: string)
    ensures WithoutNode(WithoutNode(g, id), id) == WithoutNode(g, id)
  {
    FilterIdempotent(g.nodes, IdIsNot(id));
    FilterIdempotent(g.edges, NotIncident(id));
  }

  /** Removing an id that neither a node nor an edge endpoint mentions changes nothing. */
  lemma RemoveAbsent(g: Graph, id: string)
    requires forall i :: 0 <= i < |g.nodes| ==> g.nodes[i].id != id
    requires forall i :: 0 <= i < |g.edges| ==> g.edges[i].source != id && g.edges[i].target != id
    ensures WithoutNode(g, id) == g
  {
    FilterAllKept(g.nodes, IdIsNot(id));
    FilterAllKept(g.edges, NotIncident(id));
  }

  /** The kinds of change React Flow reports for nodes and for edges. */
  datatype ChangeKind = Add | Remove | Replace | Select | Move | Resize

  /** One reported change to a node (`T` is `Node`) or an edge (`T` is
      `Edge`): its kind, the element id, the element itself for an `add` or
      `replace`, and the rest of the record (a new position or size, the
      selection flag, the dragging flag) as opaque fields. The store reads
      only the kind; the whole record goes to the library function. */
  datatype Change<T> = Change(kind: ChangeKind, id: string, item: Option<T>, details: Payload)

  predicate IsStructural<T>(c: Change<T>)
  {
    c.kind == Add || c.kind == Remove
  }

  /** `changes.some((c) => c.type === 'remove' || c.type === 'add')`. */
  predicate HasStructural<T>(changes: seq<Change<T>>)
  {
    exists i :: 0 <= i < |changes| && IsStructural(changes[i])
  }
}
