/** The studio store: the graph on the canvas, the selection, the undo and
    redo history, the batch triggers and the node id counter, with the
    operations the canvas and the node components call. */
module StudioStore {
  import opened Values
  import opened StudioGraph
  import opened Defaults
  import opened IdFormat
  import opened GraphEdits
  import opened UndoHistory
  import opened Resolver
  import opened Templates

  /** What React Flow reports when the user drags a connection. */
  datatype Connection = Connection(
    source: string,
    target: string,
    sourceHandle: Option<string>,
    targetHandle: Option<string>)

  /** The edge description handed to `addEdge`: the connection with the
      `animated` flag and the edge type set. */
  datatype EdgeParams = EdgeParams(
    source: string,
    target: string,
    sourceHandle: Option<string>,
    targetHandle: Option<string>,
    animated: bool,
    kind: string)

  /** `{ ...connection, animated: true, type: 'animatedEdge' }`. */
  function ConnectParams(c: Connection): (p: EdgeParams)
    ensures p.source == c.source && p.target == c.target
    ensures p.sourceHandle == c.sourceHandle && p.targetHandle == c.targetHandle
    ensures p.animated && p.kind == EdgeKind
  {
    EdgeParams(c.source, c.target, c.sourceHandle, c.targetHandle, true, EdgeKind)
  }

  /** Every id in `ids` carries a counter, and none exceeds `bound`. */
  ghost predicate CountersAtMost(ids: set<string>, bound: nat)
  {
    forall id :: id in ids ==> CounterOf(id).Some? && CounterOf(id).value <= bound
  }

  /** Issuing an id that carries the next counter keeps every issued
      counter at most the new bound, and that id was not issued before. */
  lemma IssueNext(ids: set<string>, bound: nat, id: string)
    requires CountersAtMost(ids, bound) && CounterOf(id) == Some(bound + 1)
    ensures id !in ids && CountersAtMost(ids + {id}, bound + 1)
  {
  }

  class Store {
    var nodes: seq<Node>
    var edges: seq<Edge>
    var selectedNodeId: Option<string>
    var undoStack: seq<Graph>
    var redoStack: seq<Graph>
    var batchImageTrigger: nat
    var batchVideoTrigger: nat
    /** The module-level counter behind `addNode`'s ids. */
    var nodeIdCounter: nat
    /** Every id `addNode` has returned. */
    ghost var issued: set<string>

    /** The graph on the canvas. */
    function Present(): Graph
      reads this
    {
      Graph(nodes, edges)
    }

    /** The canvas graph with both history stacks. */
    function History(): Timeline
      reads this
    {
      Timeline(Present(), undoStack, redoStack)
    }

    /** The stacks hold at most `Kept + 1` snapshots together. */
    ghost predicate Valid()
      reads this
    {
      Bounded(History())
    }

    /** Every id handed out carries a counter no greater than the current
        one. Only `addNode` touches the two fields; every other operation
        promises to leave both alone, so this holds across all of them. */
    ghost predicate IdsBelowCounter()
      reads this
    {
      CountersAtMost(issued, nodeIdCounter)
    }

    /** The initial state: an empty canvas, nothing selected, no history. */
    constructor()
      ensures Valid() && IdsBelowCounter()
      ensures nodes == [] && edges == [] && selectedNodeId == None
      ensures undoStack == [] && redoStack == []
      ensures batchImageTrigger == 0 && batchVideoTrigger == 0
      ensures nodeIdCounter == 0 && issued == {}
    {
      nodes, edges, selectedNodeId := [], [], None;
      undoStack, redoStack := [], [];
      batchImageTrigger, batchVideoTrigger := 0, 0;
      nodeIdCounter := 0;
      issued := {};
    }

    /** Snapshots the canvas onto the undo stack and clears the redo stack. */
    method RecordSnapshot()
      requires Valid()
      modifies this
      ensures Valid()
      ensures History() == Record(old(History()))
      ensures selectedNodeId == old(selectedNodeId) && issued == old(issued)
      ensures batchImageTrigger == old(batchImageTrigger) && batchVideoTrigger == old(batchVideoTrigger)
      ensures nodeIdCounter == old(nodeIdCounter)
    {
      undoStack, redoStack := Pushed(undoStack, Graph(nodes, edges)), [];
      assert Bounded(History());
    }

    /** `onNodesChange`: a batch that adds or removes a node is recorded
        first; the library then applies the batch to the nodes. */
    method OnNodesChange(changes: seq<Change<Node>>, applyNodeChanges: (seq<Change<Node>>, seq<Node>) -> seq<Node>)
      requires Valid()
      modifies this
      ensures Valid()
      ensures nodes == applyNodeChanges(changes, old(nodes)) && edges == old(edges)
      ensures HasStructural(changes) ==> undoStack == Record(old(History())).undo && redoStack == []
      ensures !HasStructural(changes) ==> undoStack == old(undoStack) && redoStack == old(redoStack)
      ensures selectedNodeId == old(selectedNodeId) && issued == old(issued)
      ensures batchImageTrigger == old(batchImageTrigger) && batchVideoTrigger == old(batchVideoTrigger)
      ensures nodeIdCounter == old(nodeIdCounter)
    {
      if HasStructural(changes) {
        RecordSnapshot();
      }
      nodes := applyNodeChanges(changes, nodes);
    }

    /** `onEdgesChange`, the same for edges. */
    method OnEdgesChange(changes: seq<Change<Edge>>, applyEdgeChanges: (seq<Change<Edge>>, seq<Edge>) -> seq<Edge>)
      requires Valid()
      modifies this
      ensures Valid()
      ensures edges == applyEdgeChanges(changes, old(edges)) && nodes == old(nodes)
      ensures HasStructural(changes) ==> undoStack == Record(old(History())).undo && redoStack == []
      ensures !HasStructural(changes) ==> undoStack == old(undoStack) && redoStack == old(redoStack)
      ensures selectedNodeId == old(selectedNodeId) && issued == old(issued)
      ensures batchImageTrigger == old(batchImageTrigger) && batchVideoTrigger == old(batchVideoTrigger)
      ensures nodeIdCounter == old(nodeIdCounter)
    {
      if HasStructural(changes) {
        RecordSnapshot();
      }
      edges := applyEdgeChanges(changes, edges);
    }

    /** `onConnect`: always recorded; the library adds an animated edge of
        the template edge type. */
    method OnConnect(connection: Connection, addEdge: (EdgeParams, seq<Edge>) -> seq<Edge>)
      requires Valid()
      modifies this
      ensures Valid()
      ensures nodes == old(nodes) && edges == addEdge(ConnectParams(connection), old(edges))
      ensures undoStack == Record(old(History())).undo && redoStack == []
      ensures selectedNodeId == old(selectedNodeId) && issued == old(issued)
      ensures batchImageTrigger == old(batchImageTrigger) && batchVideoTrigger == old(batchVideoTrigger)
      ensures nodeIdCounter == old(nodeIdCounter)
    {
      var before := edges;
      RecordSnapshot();
      assert |undoStack| + |redoStack| <= Kept + 1;
      edges := addEdge(ConnectParams(connection), before);
      assert |undoStack| + |redoStack| <= Kept + 1;
    }

    method SetSelectedNode(id: Option<string>)
      requires Valid()
      modifies this
      ensures Valid()
      ensures selectedNodeId == id && History() == old(History()) && issued == old(issued)
      ensures batchImageTrigger == old(batchImageTrigger) && batchVideoTrigger == old(batchVideoTrigger)
      ensures nodeIdCounter == old(nodeIdCounter)
    {
      selectedNodeId := id;
    }

    /** `addNode(type, position, data)` at time `now`: recorded; appends one
        node whose payload is the type's default overridden by `data`, under
        an id built from the incremented counter, and returns that id, which
        differs from every id handed out before. */
    method AddNode(kind: string, position: Position, data: Payload, now: nat) returns (id: string)
      requires Valid() && IdsBelowCounter()
      modifies this
      ensures Valid() && IdsBelowCounter()
      ensures id == NewNodeId(kind, nodeIdCounter, now) && CounterOf(id) == Some(nodeIdCounter)
      ensures nodeIdCounter == old(nodeIdCounter) + 1
      ensures id !in old(issued) && issued == old(issued) + {id}
      ensures History() == Record(old(History())).(present :=
        Graph(old(nodes) + [Node(id, kind, position, Merge(DefaultData(kind), data))], old(edges)))
      ensures selectedNodeId == old(selectedNodeId)
      ensures batchImageTrigger == old(batchImageTrigger) && batchVideoTrigger == old(batchVideoTrigger)
    {
      var before := nodes;
      RecordSnapshot();
      nodeIdCounter := nodeIdCounter + 1;
      id := NewNodeId(kind, nodeIdCounter, now);
      CounterOfNewNodeId(kind, nodeIdCounter, now);
      IssueNext(issued, nodeIdCounter - 1, id);
      nodes := before + [Node(id, kind, position, Merge(DefaultData(kind), data))];
      issued := issued + {id};
    }

    /** `updateNodeData(id, data)`: merges the patch into every node with
        that id; nothing is recorded. */
    method UpdateNodeData(id: string, patch: Payload)
      requires Valid()
      modifies this
      ensures Valid()
      ensures nodes == Patched(old(nodes), id, patch) && edges == old(edges)
      ensures undoStack == old(undoStack) && redoStack == old(redoStack)
      ensures selectedNodeId == old(selectedNodeId) && issued == old(issued)
      ensures batchImageTrigger == old(batchImageTrigger) && batchVideoTrigger == old(batchVideoTrigger)
      ensures nodeIdCounter == old(nodeIdCounter)
    {
      nodes := Patched(nodes, id, patch);
    }

    /** `removeNode(id)`: drops the node and every edge touching it; nothing
        is recorded. */
    method RemoveNode(id: string)
      requires Valid()
      modifies this
      ensures Valid()
      ensures Present() == WithoutNode(old(Present()), id)
      ensures undoStack == old(undoStack) && redoStack == old(redoStack)
      ensures selectedNodeId == old(selectedNodeId) && issued == old(issued)
      ensures batchImageTrigger == old(batchImageTrigger) && batchVideoTrigger == old(batchVideoTrigger)
      ensures nodeIdCounter == old(nodeIdCounter)
    {
      var g := WithoutNode(Graph(nodes, edges), id);
      nodes, edges := g.nodes, g.edges;
    }

    /** `getUpstreamData(nodeId)` on the canvas graph. */
    method GetUpstreamData(nodeId: string) returns (r: Upstream)
      ensures r == Resolve(Present(), nodeId)
      ensures r.imageUrl.Some? <==> |r.imageUrls| > 0
      ensures r.imageUrl.Some? ==> r.imageUrl.value == r.imageUrls[0]
      ensures Distinct(r.imageUrls) && "" !in r.imageUrls
    {
      r := Resolver.GetUpstreamData(Graph(nodes, edges), nodeId);
    }

    /** `setNodes`: replaces the nodes; nothing is recorded. */
    method SetNodes(ns: seq<Node>)
      requires Valid()
      modifies this
      ensures Valid()
      ensures nodes == ns && edges == old(edges)
      ensures undoStack == old(undoStack) && redoStack == old(redoStack)
      ensures selectedNodeId == old(selectedNodeId) && issued == old(issued)
      ensures batchImageTrigger == old(batchImageTrigger) && batchVideoTrigger == old(batchVideoTrigger)
      ensures nodeIdCounter == old(nodeIdCounter)
    {
      nodes := ns;
    }

    /** `setEdges`: replaces the edges; nothing is recorded. */
    method SetEdges(es: seq<Edge>)
      requires Valid()
      modifies this
      ensures Valid()
      ensures edges == es && nodes == old(nodes)
      ensures undoStack == old(undoStack) && redoStack == old(redoStack)
      ensures selectedNodeId == old(selectedNodeId) && issued == old(issued)
      ensures batchImageTrigger == old(batchImageTrigger) && batchVideoTrigger == old(batchVideoTrigger)
      ensures nodeIdCounter == old(nodeIdCounter)
    {
      edges := es;
    }

    /** `pushUndoState`: records the canvas without changing it. */
    method PushUndoState()
      requires Valid()
      modifies this
      ensures Valid()
      ensures History() == Record(old(History()))
      ensures selectedNodeId == old(selectedNodeId) && issued == old(issued)
      ensures batchImageTrigger == old(batchImageTrigger) && batchVideoTrigger == old(batchVideoTrigger)
      ensures nodeIdCounter == old(nodeIdCounter)
    {
      RecordSnapshot();
    }

    /** `undo`: with an empty undo stack nothing happens; otherwise the top
        snapshot replaces the canvas, which goes onto the redo stack. */
    method Undo()
      requires Valid()
      modifies this
      ensures Valid()
      ensures History() == UndoHistory.Undo(old(History()))
      ensures selectedNodeId == old(selectedNodeId) && issued == old(issued)
      ensures batchImageTrigger == old(batchImageTrigger) && batchVideoTrigger == old(batchVideoTrigger)
      ensures nodeIdCounter == old(nodeIdCounter)
    {
      if |undoStack| == 0 {
        return;
      }
      var prev := undoStack[|undoStack| - 1];
      undoStack, redoStack := undoStack[..|undoStack| - 1], redoStack + [Graph(nodes, edges)];
      nodes, edges := prev.nodes, prev.edges;
      MovesKeepTotal(old(History()));
    }

    /** `redo`, the mirror image of `undo`. */
    method Redo()
      requires Valid()
      modifies this
      ensures Valid()
      ensures History() == UndoHistory.Redo(old(History()))
      ensures selectedNodeId == old(selectedNodeId) && issued == old(issued)
      ensures batchImageTrigger == old(batchImageTrigger) && batchVideoTrigger == old(batchVideoTrigger)
      ensures nodeIdCounter == old(nodeIdCounter)
    {
      if |redoStack| == 0 {
        return;
      }
      var next := redoStack[|redoStack| - 1];
      redoStack, undoStack := redoStack[..|redoStack| - 1], undoStack + [Graph(nodes, edges)];
      nodes, edges := next.nodes, next.edges;
      MovesKeepTotal(old(History()));
    }

    /** `triggerBatchImages`: bumps the image batch counter only. */
    method TriggerBatchImages()
      requires Valid()
      modifies this
      ensures Valid()
      ensures batchImageTrigger == old(batchImageTrigger) + 1 && batchVideoTrigger == old(batchVideoTrigger)
      ensures History() == old(History()) && selectedNodeId == old(selectedNodeId)
      ensures issued == old(issued) && nodeIdCounter == old(nodeIdCounter)
    {
      batchImageTrigger := batchImageTrigger + 1;
    }

    /** `triggerBatchVideos`: bumps the video batch counter only. */
    method TriggerBatchVideos()
      requires Valid()
      modifies this
      ensures Valid()
      ensures batchVideoTrigger == old(batchVideoTrigger) + 1 && batchImageTrigger == old(batchImageTrigger)
      ensures History() == old(History()) && selectedNodeId == old(selectedNodeId)
      ensures issued == old(issued) && nodeIdCounter == old(nodeIdCounter)
    {
      batchVideoTrigger := batchVideoTrigger + 1;
    }

    /** `loadTemplate(templateId)`: an unknown id changes nothing; a known
        one installs the template, clears the selection and both stacks,
        and leaves the batch counters and the id counter alone. */
    method LoadTemplate(templateId: string)
      requires Valid()
      modifies this
      ensures Valid()
      ensures templateId !in TemplateTable() ==>
        History() == old(History()) && selectedNodeId == old(selectedNodeId)
      ensures templateId in TemplateTable() ==>
        History() == Timeline(TemplateTable()[templateId], [], []) && selectedNodeId == None
      ensures batchImageTrigger == old(batchImageTrigger) && batchVideoTrigger == old(batchVideoTrigger)
      ensures issued == old(issued) && nodeIdCounter == old(nodeIdCounter)
    {
      var templates := TemplateTable();
      if templateId !in templates {
        return;
      }
      Install(templates[templateId]);
    }

    /** The state change of a successful `loadTemplate`. */
    method Install(template: Graph)
      requires Valid()
      modifies this
      ensures Valid()
      ensures History() == Timeline(template, [], []) && selectedNodeId == None
      ensures batchImageTrigger == old(batchImageTrigger) && batchVideoTrigger == old(batchVideoTrigger)
      ensures issued == old(issued) && nodeIdCounter == old(nodeIdCounter)
    {
      nodes, edges := template.nodes, template.edges;
      selectedNodeId := None;
      undoStack, redoStack := [], [];
    }
  }
}
