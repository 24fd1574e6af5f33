/** Nodes, edges and the graph the store holds, with the array helpers
    (`filter`, `find`) its operations are written with. */
module StudioGraph {
  import opened Values

  /** The node types the store knows a default payload for. */
  const TextPrompt := "textPrompt"
  const ImageUpload := "imageUpload"
  const ImageGen := "imageGen"
  const VideoGen := "videoGen"

  /** Canvas coordinates; opaque numbers. */
  datatype Position = Position(x: real, y: real)

  /** A canvas node. `kind` is the node's `type` string, which `addNode`
      accepts unchecked, so it may name no known type. */
  datatype Node = Node(id: string, kind: string, position: Position, data: Payload)

  /** A canvas edge; `kind` is the edge's `type` (the renderer to use). */
  datatype Edge = Edge(
    id: string,
    source: string,
    target: string,
    kind: string,
    animated: bool,
    sourceHandle: Option<string>,
    targetHandle: Option<string>)

  /** The graph; also the shape of a history snapshot. */
  datatype Graph = Graph(nodes: seq<Node>, edges: seq<Edge>)

  function NodeIds(g: Graph): set<string>
  {
    set n | n in g.nodes :: n.id
  }

  /** Every edge joins two nodes of the graph. */
  predicate EndpointsExist(g: Graph)
  {
    forall e :: e in g.edges ==> e.source in NodeIds(g) && e.target in NodeIds(g)
  }

  /** Appending nodes and edges keeps every edge joined when each new edge
      joins nodes of the old graph or of the appended nodes. */
  lemma AppendKeepsEndpoints(g: Graph, more: seq<Node>, es: seq<Edge>)
    requires EndpointsExist(g)
    requires forall e :: e in es ==>
      e.source in NodeIds(g) + NodeIds(Graph(more, [])) && e.target in NodeIds(g) + NodeIds(Graph(more, []))
    ensures EndpointsExist(Graph(g.nodes + more, g.edges + es))
  {
    var g' := Graph(g.nodes + more, g.edges + es);
    assert NodeIds(g') == NodeIds(g) + NodeIds(Graph(more, []));
  }

  /** `Array.prototype.filter`: the elements that pass, in their original order. */
  function Filter<T(!new)>(s: seq<T>, keep: T -> bool): (r: seq<T>)
    ensures |r| <= |s|
    ensures forall x :: x in r <==> x in s && keep(x)
  {
    if s == [] then []
    else (if keep(s[0]) then [s[0]] else []) + Filter(s[1..], keep)
  }

  /** Filtering distributes over concatenation: what is kept stays in its original order. */
  lemma {:induction false} FilterAppend<T(!new)>(a: seq<T>, b: seq<T>, keep: T -> bool)
    ensures Filter(a + b, keep) == Filter(a, keep) + Filter(b, keep)
  {
    if a == [] {
      assert a + b == b;
    } else {
      assert (a + b)[0] == a[0] && (a + b)[1..] == a[1..] + b;
      FilterAppend(a[1..], b, keep);
    }
  }

  /** A one-element sequence is kept or dropped whole. */
  lemma FilterSingle<T(!new)>(x: T, keep: T -> bool)
    ensures Filter([x], keep) == if keep(x) then [x] else []
  {
    assert [x][1..] == [];
  }

  /** Filtering twice by the same test is filtering once. */
  lemma {:induction false} FilterIdempotent<T(!new)>(s: seq<T>, keep: T -> bool)
    ensures Filter(Filter(s, keep), keep) == Filter(s, keep)
  {
    if s != [] {
      FilterIdempotent(s[1..], keep);
      var r := Filter(s, keep);
      if keep(s[0]) {
        assert r == [s[0]] + Filter(s[1..], keep);
        assert r[0] == s[0] && r[1..] == Filter(s[1..], keep);
        assert Filter(r, keep) == [s[0]] + Filter(r[1..], keep);
      } else {
        assert r == Filter(s[1..], keep);
      }
    }
  }

  /** When every element passes, the filter returns its input unchanged. */
  lemma {:induction false} FilterAllKept<T(!new)>(s: seq<T>, keep: T -> bool)
    requires forall i :: 0 <= i < |s| ==> keep(s[i])
    ensures Filter(s, keep) == s
  {
    if s != [] {
      FilterAllKept(s[1..], keep);
      assert [s[0]] + s[1..] == s;
    }
  }

  /** `nodes.find((n) => n.id === id)`: the first node carrying that id. */
  function FindNode(ns: seq<Node>, id: string): (r: Option<Node>)
    ensures r.Some? ==> r.value in ns && r.value.id == id
    ensures r.None? <==> forall n :: n in ns ==> n.id != id
  {
    if ns == [] then None
    else if ns[0].id == id then Some(ns[0])
    else FindNode(ns[1..], id)
  }

  /** A lookup in a concatenation looks in the first part first. */
  lemma {:induction false} FindNodeAppend(a: seq<Node>, b: seq<Node>, id: string)
    ensures FindNode(a + b, id) == if FindNode(a, id).Some? then FindNode(a, id) else FindNode(b, id)
  {
    if a == [] {
      assert a + b == b;
    } else {
      assert (a + b)[0] == a[0] && (a + b)[1..] == a[1..] + b;
      FindNodeAppend(a[1..], b, id);
    }
  }

  function TargetIs(id: string): Edge -> bool
  {
    (e: Edge) => e.target == id
  }

  /** `edges.filter((e) => e.target === id)`: the edges into `id`, in stored order. */
  function Incoming(es: seq<Edge>, id: string): seq<Edge>
  {
    Filter(es, TargetIs(id))
  }
}
