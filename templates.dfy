/** The built-in layouts `loadTemplate` can install: `simple` and `quick-image-5`. */
module Templates {
  import opened Values
  import opened StudioGraph
  import opened Defaults
  import opened IdFormat
  import opened GraphEdits
  import opened Resolver

  const EdgeKind := "animatedEdge"

  /** A template edge: animated rendering, no `animated` flag, no handles. */
  function TemplateEdge(id: string, source: string, target: string): Edge
  {
    Edge(id, source, target, EdgeKind, false, None, None)
  }

  // ---------------------------------------------------------------------
  // `simple`: one text prompt wired into one image generator.

  const SimplePrompt := "A beautiful landscape, photorealistic, golden hour lighting"

  function SimplePromptNode(): Node
  {
    Node("simple-tp", TextPrompt, Position(0.0, 100.0), Merge(DefaultData(TextPrompt), map["prompt" := VStr(SimplePrompt)]))
  }

  function SimpleImageNode(): Node
  {
    Node("simple-img", ImageGen, Position(500.0, 100.0), DefaultData(ImageGen))
  }

  function Simple(): Graph
  {
    Graph([SimplePromptNode(), SimpleImageNode()], [TemplateEdge("simple-e1", "simple-tp", "simple-img")])
  }

  // ---------------------------------------------------------------------
  // `quick-image-5`: a shared upload and five angle rows of
  // text prompt -> image generator -> video generator <- video prompt.

  datatype Angle = Angle(name: string, prompt: string, videoPrompt: string)

  const Angles: seq<Angle> := [
    Angle("Hero Front",
      "Professional product photography, front view, studio lighting on white background, high-end commercial shot",
      "Slow smooth 360-degree orbit around the product, studio lighting"),
    Angle("Lifestyle",
      "Product in a beautiful lifestyle setting, natural lighting, editorial photography, warm tones",
      "Camera slowly pulling back to reveal the lifestyle scene, smooth dolly motion"),
    Angle("Close-Up Detail",
      "Extreme close-up of product details and textures, macro photography, shallow depth of field",
      "Slow macro camera movement revealing intricate product details"),
    Angle("Dark Moody",
      "Product on dark background with dramatic rim lighting, luxury feel, high contrast",
      "Dramatic lighting sweep across the product, cinematic shadows"),
    Angle("Flat Lay",
      "Top-down flat lay product arrangement with props, editorial style, soft shadows",
      "Top-down camera slowly rotating over the flat lay arrangement")
  ]

  /** The grid: one column per node role, one row per angle. */
  const ColUpload := -550.0
  const ColPrompt := 80.0
  const ColImage := 720.0
  const ColVideoPrompt := 1400.0
  const ColVideo := 2050.0
  const Row := 380.0

  const UploadId := "qi5-upload"

  /** `qi5-<role>-<angle index>`. */
  function RowId(role: string, i: nat): string
  {
    "qi5-" + role + "-" + Decimal(i)
  }

  function PromptId(i: nat): string { RowId("tp", i) }
  function ImageId(i: nat): string { RowId("img", i) }
  function VideoPromptId(i: nat): string { RowId("vtp", i) }
  function VideoId(i: nat): string { RowId("vid", i) }

  function UploadNode(): Node
  {
    Node(UploadId, ImageUpload, Position(ColUpload, 2.0 * Row),
      Merge(DefaultData(ImageUpload), map["label" := VStr("Upload Product Image")]))
  }

  function PromptNode(angles: seq<Angle>, i: nat): Node
    requires i < |angles|
  {
    Node(PromptId(i), TextPrompt, Position(ColPrompt, i as real * Row),
      Merge(DefaultData(TextPrompt),
        map["prompt" := VStr(angles[i].prompt), "style" := VStr("photorealistic"), "label" := VStr(angles[i].name)]))
  }

  function ImageNode(angles: seq<Angle>, i: nat): Node
    requires i < |angles|
  {
    Node(ImageId(i), ImageGen, Position(ColImage, i as real * Row),
      Merge(DefaultData(ImageGen), map["label" := VStr(angles[i].name)]))
  }

  function VideoPromptNode(angles: seq<Angle>, i: nat): Node
    requires i < |angles|
  {
    Node(VideoPromptId(i), TextPrompt, Position(ColVideoPrompt, i as real * Row),
      Merge(DefaultData(TextPrompt),
        map["prompt" := VStr(angles[i].videoPrompt), "style" := VStr("cinematic"), "label" := VStr("Video: " + angles[i].name)]))
  }

  function VideoNode(angles: seq<Angle>, i: nat): Node
    requires i < |angles|
  {
    Node(VideoId(i), VideoGen, Position(ColVideo, i as real * Row),
      Merge(DefaultData(VideoGen), map["label" := VStr(angles[i].name)]))
  }

  /** The four nodes pushed for angle `i`, in push order. */
  function AngleNodes(angles: seq<Angle>, i: nat): seq<Node>
    requires i < |angles|
  {
    [PromptNode(angles, i), ImageNode(angles, i), VideoPromptNode(angles, i), VideoNode(angles, i)]
  }

  /** The edges of row `i`: upload and text prompt into the image
      generator, image generator and video prompt into the video generator. */
  function UploadEdge(i: nat): Edge { TemplateEdge(RowId("eu", i), UploadId, ImageId(i)) }
  function PromptEdge(i: nat): Edge { TemplateEdge(RowId("et", i), PromptId(i), ImageId(i)) }
  function ImageVideoEdge(i: nat): Edge { TemplateEdge(RowId("eiv", i), ImageId(i), VideoId(i)) }
  function VideoPromptEdge(i: nat): Edge { TemplateEdge(RowId("evp", i), VideoPromptId(i), VideoId(i)) }

  /** The four edges pushed for angle `i`, in push order. */
  function AngleEdges(i: nat): seq<Edge>
  {
    [UploadEdge(i), PromptEdge(i), ImageVideoEdge(i), VideoPromptEdge(i)]
  }

  /** `start` followed by rows `0` to `k - 1`: what `k` rounds of pushes
      leave behind. */
  function Stacked<T>(start: seq<T>, row: nat -> seq<T>, k: nat): seq<T>
  {
    if k == 0 then start else Stacked(start, row, k - 1) + row(k - 1)
  }

  /** The nodes pushed for each angle of the table. */
  function NodeRow(angles: seq<Angle>): nat -> seq<Node>
  {
    (j: nat) => if j < |angles| then AngleNodes(angles, j) else []
  }

  /** The layout after the rows of the first `k` angles have been pushed. */
  function AnglesUpTo(angles: seq<Angle>, k: nat): Graph
    requires k <= |angles|
  {
    Graph(Stacked([UploadNode()], NodeRow(angles), k), Stacked([], AngleEdges, k))
  }

  /** The layout `quick-image-5` builds from an angle table: the upload
      node and one row per angle. */
  function Layout(angles: seq<Angle>): Graph
  {
    AnglesUpTo(angles, |angles|)
  }

  function QuickImage5(): Graph
  {
    Layout(Angles)
  }

  /** The `TEMPLATES` table. */
  function TemplateTable(): map<string, Graph>
  {
    map["quick-image-5" := QuickImage5(), "simple" := Simple()]
  }

  /** The `forEach` callback for angle `i`: four node pushes, then four edge pushes. */
  method PushAngle(angles: seq<Angle>, nodes: seq<Node>, edges: seq<Edge>, i: nat)
    returns (nodes': seq<Node>, edges': seq<Edge>)
    requires i < |angles|
    ensures nodes' == nodes + AngleNodes(angles, i)
    ensures edges' == edges + AngleEdges(i)
  {
    var tp, img, vtp, vid := PromptNode(angles, i), ImageNode(angles, i), VideoPromptNode(angles, i), VideoNode(angles, i);
    nodes' := nodes + [tp];
    nodes' := nodes' + [img];
    nodes' := nodes' + [vtp];
    nodes' := nodes' + [vid];
    PushFour(nodes, tp, img, vtp, vid);
    var eu, et, eiv, evp := UploadEdge(i), PromptEdge(i), ImageVideoEdge(i), VideoPromptEdge(i);
    edges' := edges + [eu];
    edges' := edges' + [et];
    edges' := edges' + [eiv];
    edges' := edges' + [evp];
    PushFour(edges, eu, et, eiv, evp);
  }

  /** Four single pushes append the four elements in order. */
  lemma PushFour<T>(s: seq<T>, a: T, b: T, c: T, d: T)
    ensures s + [a] + [b] + [c] + [d] == s + [a, b, c, d]
  {
  }

  /** The initialiser of `quick-image-5` over its angle table: start from
      the upload node and run the callback for every angle in order. */
  method BuildLayout(angles: seq<Angle>) returns (g: Graph)
    ensures g == Layout(angles)
  {
    var nodes := [UploadNode()];
    var edges: seq<Edge> := [];
    for i := 0 to |angles|
      invariant nodes == AnglesUpTo(angles, i).nodes
      invariant edges == AnglesUpTo(angles, i).edges
    {
      nodes, edges := PushAngle(angles, nodes, edges, i);
    }
    g := Graph(nodes, edges);
  }

  // ---------------------------------------------------------------------
  // `simple`.

  /** `simple` is one prompt node wired into one image node, and the image
      node resolves to the template prompt with the default style. */
  lemma SimpleShape()
    ensures |Simple().nodes| == 2 && |Simple().edges| == 1
    ensures Simple().nodes[0].id == "simple-tp" && Simple().nodes[1].id == "simple-img"
    ensures Simple().edges[0].source == "simple-tp" && Simple().edges[0].target == "simple-img"
    ensures Resolve(Simple(), "simple-img")
         == Upstream(Some(VStr(SimplePrompt)), Some(VStr("photorealistic")), None, [])
  {
    var g := Simple();
    var tp, img := SimplePromptNode(), SimpleImageNode();
    assert Incoming(g.edges, "simple-img") == g.edges;
    assert Incoming(g.edges, "simple-tp") == [];
    assert FindNode(g.nodes, "simple-tp") == Some(tp);
    var inner := Enter(g, "simple-tp", {"simple-img"});
    assert inner.examined == ExpandEdges(g, [], {"simple-img", "simple-tp"}).examined == [];
    var es := Incoming(g.edges, "simple-img");
    assert es[1..] == [];
    assert ExpandEdges(g, es, {"simple-img"}).examined == [tp] + inner.examined + ExpandEdges(g, [], inner.visited).examined;
    assert {} + {"simple-img"} == {"simple-img"};
    assert WalkFrom(g, "simple-img", {}).examined == [tp];
    SimplePromptOffers();
    OnlyPromptResolves(g, "simple-img", tp);
  }

  /** The `simple` prompt node offers its prompt, the photorealistic style
      and no image. */
  lemma SimplePromptOffers()
    ensures var tp := SimplePromptNode();
      && IsLivePrompt(tp) && Candidate(tp).None?
      && Field(tp.data, "prompt") == Some(VStr(SimplePrompt))
      && Field(tp.data, "style") == Some(VStr("photorealistic"))
  {
  }

  /** A walk that examines a single image-free live prompt resolves to its
      prompt and style. */
  lemma OnlyPromptResolves(g: Graph, id: string, a: Node)
    requires WalkFrom(g, id, {}).examined == [a]
    requires IsLivePrompt(a) && Candidate(a).None?
    ensures Resolve(g, id) == Upstream(Field(a.data, "prompt"), Field(a.data, "style"), None, [])
  {
    var ns := WalkFrom(g, id, {}).examined;
    assert forall j :: 0 <= j < |ns| ==> Candidate(ns[j]).None?;
    ResolveWithoutImages(g, id, 0);
  }

  // ---------------------------------------------------------------------
  // `quick-image-5`: ids.

  /** The roles of the nodes in an angle row. */
  predicate IsRole(r: string)
  {
    r == "tp" || r == "img" || r == "vtp" || r == "vid"
  }

  /** Row ids of node roles name their role and angle: two are equal only
      when both role and angle agree, and none is the upload id. */
  lemma RowIdsEqual(r1: string, i: nat, r2: string, j: nat)
    requires IsRole(r1) && IsRole(r2)
    ensures RowId(r1, i) == RowId(r2, j) <==> r1 == r2 && i == j
    ensures RowId(r1, i) != UploadId
  {
    var a, b := RowId(r1, i), RowId(r2, j);
    assert a[4] == r1[0] && a[5] == r1[1] && UploadId[4] == 'u';
    if a == b {
      assert b[4] == r2[0] && b[5] == r2[1];
      assert r1 == r2;
      assert a[|r1| + 5..] == Decimal(i) && b[|r2| + 5..] == Decimal(j);
      DecimalInjective(i, j);
    }
  }

  /** `find` over four nodes. */
  lemma FindInFour(a: Node, b: Node, c: Node, d: Node, x: string)
    ensures FindNode([a, b, c, d], x) ==
      if a.id == x then Some(a) else if b.id == x then Some(b)
      else if c.id == x then Some(c) else if d.id == x then Some(d) else None
  {
    assert [a, b, c, d][1..] == [b, c, d] && [b, c, d][1..] == [c, d] && [c, d][1..] == [d];
    assert FindNode([d], x) == if d.id == x then Some(d) else FindNode([], x);
    assert FindNode([c, d], x) == if c.id == x then Some(c) else FindNode([d], x);
    assert FindNode([b, c, d], x) == if b.id == x then Some(b) else FindNode([c, d], x);
  }

  /** Filtering four elements filters each on its own. */
  lemma FilterFour<T(!new)>(a: T, b: T, c: T, d: T, keep: T -> bool)
    ensures Filter([a, b, c, d], keep) == Filter([a], keep) + Filter([b], keep) + Filter([c], keep) + Filter([d], keep)
  {
    assert [a, b, c, d] == [a] + [b] + [c] + [d];
    FilterAppend([a] + [b] + [c], [d], keep);
    FilterAppend([a] + [b], [c], keep);
    FilterAppend([a], [b], keep);
  }

  /** `filter` by target over four edges. */
  lemma IncomingOfFour(a: Edge, b: Edge, c: Edge, d: Edge, x: string)
    ensures Incoming([a, b, c, d], x) ==
      (if a.target == x then [a] else []) + (if b.target == x then [b] else [])
      + (if c.target == x then [c] else []) + (if d.target == x then [d] else [])
  {
    var keep := TargetIs(x);
    FilterFour(a, b, c, d, keep);
    FilterSingle(a, keep);
    FilterSingle(b, keep);
    FilterSingle(c, keep);
    FilterSingle(d, keep);
  }

  /** Looking up an id among the nodes of one angle row. */
  lemma FindInAngle(angles: seq<Angle>, j: nat, x: string)
    requires j < |angles|
    ensures FindNode(AngleNodes(angles, j), x) ==
      if x == PromptId(j) then Some(PromptNode(angles, j))
      else if x == ImageId(j) then Some(ImageNode(angles, j))
      else if x == VideoPromptId(j) then Some(VideoPromptNode(angles, j))
      else if x == VideoId(j) then Some(VideoNode(angles, j))
      else None
  {
    FindInFour(PromptNode(angles, j), ImageNode(angles, j), VideoPromptNode(angles, j), VideoNode(angles, j), x);
  }

  /** The edges of one angle row into an id: the image generator takes the
      upload and then the prompt, the video generator the image generator and
      then the video prompt. */
  lemma IncomingInAngle(j: nat, x: string)
    ensures Incoming(AngleEdges(j), x) ==
      if x == ImageId(j) then [UploadEdge(j), PromptEdge(j)]
      else if x == VideoId(j) then [ImageVideoEdge(j), VideoPromptEdge(j)]
      else []
  {
    RowIdsEqual("img", j, "vid", j);
    IncomingOfFour(UploadEdge(j), PromptEdge(j), ImageVideoEdge(j), VideoPromptEdge(j), x);
  }

  /** Looking up an id in stacked rows: the start first, then the only row
      that may hold it. */
  lemma {:induction false} FindStacked(start: seq<Node>, row: nat -> seq<Node>, k: nat, x: string, i: nat)
    requires forall j :: 0 <= j < k && j != i ==> FindNode(row(j), x).None?
    ensures FindNode(Stacked(start, row, k), x) ==
      if FindNode(start, x).Some? then FindNode(start, x)
      else if i < k then FindNode(row(i), x)
      else None
  {
    if k > 0 {
      FindStacked(start, row, k - 1, x, i);
      FindNodeAppend(Stacked(start, row, k - 1), row(k - 1), x);
    }
  }

  /** The edges into an id in stacked rows: those of the start, then those of
      the only row that may target it. */
  lemma {:induction false} IncomingStacked(start: seq<Edge>, row: nat -> seq<Edge>, k: nat, x: string, i: nat)
    requires forall j :: 0 <= j < k && j != i ==> Incoming(row(j), x) == []
    ensures Incoming(Stacked(start, row, k), x) ==
      Incoming(start, x) + if i < k then Incoming(row(i), x) else []
  {
    if k > 0 {
      IncomingStacked(start, row, k - 1, x, i);
      FilterAppend(Stacked(start, row, k - 1), row(k - 1), TargetIs(x));
    }
  }

  /** Rows of four keep the start in front and add four elements each. */
  lemma {:induction false} StackedLength<T>(start: seq<T>, row: nat -> seq<T>, k: nat)
    requires forall j :: 0 <= j < k ==> |row(j)| == 4
    ensures |Stacked(start, row, k)| == |start| + 4 * k
    ensures |start| > 0 ==> Stacked(start, row, k)[0] == start[0]
  {
    if k > 0 {
      StackedLength(start, row, k - 1);
    }
  }

  /** The ids of four nodes. */
  lemma IdsOfFour(a: Node, b: Node, c: Node, d: Node)
    ensures NodeIds(Graph([a, b, c, d], [])) == {a.id, b.id, c.id, d.id}
  {
    var ns := [a, b, c, d];
    assert a == ns[0] && b == ns[1] && c == ns[2] && d == ns[3];
  }

  /** The ids of row `j`'s nodes. */
  lemma AngleNodeIds(angles: seq<Angle>, j: nat)
    requires j < |angles|
    ensures NodeIds(Graph(AngleNodes(angles, j), [])) == {PromptId(j), ImageId(j), VideoPromptId(j), VideoId(j)}
  {
    IdsOfFour(PromptNode(angles, j), ImageNode(angles, j), VideoPromptNode(angles, j), VideoNode(angles, j));
  }

  /** Every edge of `es` joins two ids of `ids`. */
  predicate EdgesWithin(es: seq<Edge>, ids: set<string>)
  {
    forall e :: e in es ==> e.source in ids && e.target in ids
  }

  /** Row `j`'s edges join the upload and row `j`'s own nodes. */
  lemma AngleEdgesWithin(j: nat, ids: set<string>)
    requires UploadId in ids && PromptId(j) in ids && ImageId(j) in ids
    requires VideoPromptId(j) in ids && VideoId(j) in ids
    ensures EdgesWithin(AngleEdges(j), ids)
  {
    forall e | e in AngleEdges(j) ensures e.source in ids && e.target in ids {
      assert e == UploadEdge(j) || e == PromptEdge(j) || e == ImageVideoEdge(j) || e == VideoPromptEdge(j);
    }
  }

  /** Stacked rows whose edges each join the start or their own row's nodes
      form a graph whose every edge joins two of its nodes. */
  lemma {:induction false} StackedClosed(start: seq<Node>, nodeRow: nat -> seq<Node>, edgeRow: nat -> seq<Edge>, k: nat)
    requires forall j :: 0 <= j < k ==>
      EdgesWithin(edgeRow(j), NodeIds(Graph(start, [])) + NodeIds(Graph(nodeRow(j), [])))
    ensures EndpointsExist(Graph(Stacked(start, nodeRow, k), Stacked([], edgeRow, k)))
    ensures NodeIds(Graph(start, [])) <= NodeIds(Graph(Stacked(start, nodeRow, k), []))
  {
    if k > 0 {
      StackedClosed(start, nodeRow, edgeRow, k - 1);
      var g := Graph(Stacked(start, nodeRow, k - 1), Stacked([], edgeRow, k - 1));
      var more := nodeRow(k - 1);
      assert EdgesWithin(edgeRow(k - 1), NodeIds(Graph(start, [])) + NodeIds(Graph(more, [])));
      AppendKeepsEndpoints(g, more, edgeRow(k - 1));
      assert NodeIds(Graph(g.nodes + more, [])) == NodeIds(g) + NodeIds(Graph(more, []));
    }
  }

  /** A layout has the upload node first and four nodes and four edges per angle. */
  lemma LayoutLength(angles: seq<Angle>)
    ensures |Layout(angles).nodes| == 1 + 4 * |angles| && |Layout(angles).edges| == 4 * |angles|
    ensures Layout(angles).nodes[0] == UploadNode()
  {
    var rows := NodeRow(angles);
    forall j | 0 <= j < |angles| ensures |rows(j)| == 4 {
      assert rows(j) == AngleNodes(angles, j);
    }
    StackedLength([UploadNode()], rows, |angles|);
    StackedLength([], AngleEdges, |angles|);
  }

  /** Every edge of a layout joins two of its nodes. */
  lemma LayoutClosed(angles: seq<Angle>)
    ensures EndpointsExist(Layout(angles))
  {
    var rows := NodeRow(angles);
    var start := NodeIds(Graph([UploadNode()], []));
    assert UploadId in start;
    forall j | 0 <= j < |angles|
      ensures EdgesWithin(AngleEdges(j), start + NodeIds(Graph(rows(j), [])))
    {
      RowEdgesWithin(angles, j, start);
    }
    StackedClosed([UploadNode()], rows, AngleEdges, |angles|);
  }

  /** Row `j`'s edges join the upload and the nodes of row `j`. */
  lemma RowEdgesWithin(angles: seq<Angle>, j: nat, start: set<string>)
    requires j < |angles| && UploadId in start
    ensures EdgesWithin(AngleEdges(j), start + NodeIds(Graph(NodeRow(angles)(j), [])))
  {
    assert NodeRow(angles)(j) == AngleNodes(angles, j);
    AngleNodeIds(angles, j);
    AngleEdgesWithin(j, start + NodeIds(Graph(AngleNodes(angles, j), [])));
  }

  /** `quick-image-5` has 21 nodes and 20 edges, and every edge joins two of its nodes. */
  lemma QuickImage5Shape()
    ensures |QuickImage5().nodes| == 21 && |QuickImage5().edges| == 20
    ensures EndpointsExist(QuickImage5())
  {
    LayoutLength(Angles);
    LayoutClosed(Angles);
  }

  /** In a layout, a row id is found in its own row and targeted only by its
      own row's edges. */
  lemma RowLookups(angles: seq<Angle>, r: string, i: nat)
    requires IsRole(r) && i < |angles|
    ensures FindNode(Layout(angles).nodes, RowId(r, i)) == FindNode(AngleNodes(angles, i), RowId(r, i))
    ensures Incoming(Layout(angles).edges, RowId(r, i)) == Incoming(AngleEdges(i), RowId(r, i))
  {
    var x := RowId(r, i);
    var rows := NodeRow(angles);
    forall j | 0 <= j < |angles| && j != i
      ensures FindNode(rows(j), x).None? && Incoming(AngleEdges(j), x) == []
    {
      assert rows(j) == AngleNodes(angles, j);
      FindInAngle(angles, j, x);
      IncomingInAngle(j, x);
      RowIdsEqual(r, i, "tp", j);
      RowIdsEqual(r, i, "img", j);
      RowIdsEqual(r, i, "vtp", j);
      RowIdsEqual(r, i, "vid", j);
    }
    RowIdsEqual(r, i, r, i);
    assert FindNode([UploadNode()], x).None? by {
      assert [UploadNode()][1..] == [];
    }
    assert rows(i) == AngleNodes(angles, i);
    FindStacked([UploadNode()], rows, |angles|, x, i);
    IncomingStacked([], AngleEdges, |angles|, x, i);
  }

  /** In a layout the upload node is found first and nothing targets it. */
  lemma UploadLookups(angles: seq<Angle>)
    ensures FindNode(Layout(angles).nodes, UploadId) == Some(UploadNode())
    ensures Incoming(Layout(angles).edges, UploadId) == []
  {
    var n := |angles|;
    var rows := NodeRow(angles);
    forall j | 0 <= j < n
      ensures FindNode(rows(j), UploadId).None? && Incoming(AngleEdges(j), UploadId) == []
    {
      UploadNotInRow(angles, j);
    }
    IncomingStacked([], AngleEdges, n, UploadId, n);
    FindStacked([UploadNode()], rows, n, UploadId, n);
  }

  /** No row holds the upload node, and no row edge points at it. */
  lemma UploadNotInRow(angles: seq<Angle>, j: nat)
    requires j < |angles|
    ensures FindNode(NodeRow(angles)(j), UploadId).None?
    ensures Incoming(AngleEdges(j), UploadId) == []
  {
    assert NodeRow(angles)(j) == AngleNodes(angles, j);
    FindInAngle(angles, j, UploadId);
    IncomingInAngle(j, UploadId);
    RowIdsEqual("tp", j, "tp", j);
    RowIdsEqual("img", j, "img", j);
    RowIdsEqual("vtp", j, "vtp", j);
    RowIdsEqual("vid", j, "vid", j);
  }

  /** A row of the `quick-image-5` shape in a graph: an image generator fed
      by an upload and a text prompt, and a video generator fed by the image
      generator and a video prompt, with no other inputs and distinct ids. */
  predicate RowShape(g: Graph, up: Node, tp: Node, img: Node, vtp: Node,
                     eu: Edge, et: Edge, eiv: Edge, evp: Edge, vid: string)
  {
    && eu.source == up.id && et.source == tp.id && eiv.source == img.id && evp.source == vtp.id
    && FindNode(g.nodes, up.id) == Some(up) && FindNode(g.nodes, tp.id) == Some(tp)
    && FindNode(g.nodes, img.id) == Some(img) && FindNode(g.nodes, vtp.id) == Some(vtp)
    && Incoming(g.edges, up.id) == [] && Incoming(g.edges, tp.id) == [] && Incoming(g.edges, vtp.id) == []
    && Incoming(g.edges, img.id) == [eu, et] && Incoming(g.edges, vid) == [eiv, evp]
    && vid != img.id && vid != up.id && vid != tp.id && vid != vtp.id
    && img.id != up.id && img.id != tp.id && img.id != vtp.id
    && up.id != tp.id && up.id != vtp.id && tp.id != vtp.id
  }

  /** Walking into the image generator of such a row examines the upload and
      then the text prompt. */
  lemma ShapeImageWalk(g: Graph, up: Node, tp: Node, img: Node, vtp: Node,
                       eu: Edge, et: Edge, eiv: Edge, evp: Edge, vid: string, visited: set<string>)
    requires RowShape(g, up, tp, img, vtp, eu, et, eiv, evp, vid)
    requires img.id !in visited && up.id !in visited && tp.id !in visited
    ensures Enter(g, img.id, visited).examined == [up, tp]
    ensures Enter(g, img.id, visited).visited == visited + {img.id} + {up.id} + {tp.id}
  {
    ExpandTwoLeaves(g, eu, et, up, tp, visited + {img.id});
  }

  /** Walking from the video generator of such a row examines the image
      generator, the upload, the text prompt and then the video prompt. */
  lemma ShapeVideoWalk(g: Graph, up: Node, tp: Node, img: Node, vtp: Node,
                       eu: Edge, et: Edge, eiv: Edge, evp: Edge, vid: string)
    requires RowShape(g, up, tp, img, vtp, eu, et, eiv, evp, vid)
    ensures WalkFrom(g, vid, {}).examined == [img, up, tp, vtp]
  {
    var v := {} + {vid};
    ShapeImageWalk(g, up, tp, img, vtp, eu, et, eiv, evp, vid, v);
    ExpandSourceThenLeaf(g, eiv, evp, img, vtp, v, [up, tp], v + {img.id} + {up.id} + {tp.id});
    OneTwoOne(img, up, tp, vtp);
  }

  lemma OneTwoOne<T>(a: T, b: T, c: T, d: T)
    ensures [a] + [b, c] + [d] == [a, b, c, d]
  {
  }

  /** Walking from the image generator of such a row. */
  lemma ShapeImageFresh(g: Graph, up: Node, tp: Node, img: Node, vtp: Node,
                        eu: Edge, et: Edge, eiv: Edge, evp: Edge, vid: string)
    requires RowShape(g, up, tp, img, vtp, eu, et, eiv, evp, vid)
    ensures WalkFrom(g, img.id, {}).examined == [up, tp]
  {
    ShapeImageWalk(g, up, tp, img, vtp, eu, et, eiv, evp, vid, {});
  }

  /** Every row of a layout has that shape. */
  lemma LayoutRowShape(angles: seq<Angle>, i: nat)
    requires i < |angles|
    ensures RowShape(Layout(angles), UploadNode(), PromptNode(angles, i), ImageNode(angles, i),
                     VideoPromptNode(angles, i), UploadEdge(i), PromptEdge(i), ImageVideoEdge(i),
                     VideoPromptEdge(i), VideoId(i))
  {
    UploadLookups(angles);
    RowLookups(angles, "tp", i);
    RowLookups(angles, "img", i);
    RowLookups(angles, "vtp", i);
    RowLookups(angles, "vid", i);
    FindInAngle(angles, i, PromptId(i));
    FindInAngle(angles, i, ImageId(i));
    FindInAngle(angles, i, VideoPromptId(i));
    IncomingInAngle(i, PromptId(i));
    IncomingInAngle(i, ImageId(i));
    IncomingInAngle(i, VideoPromptId(i));
    IncomingInAngle(i, VideoId(i));
    RowIdsEqual("tp", i, "img", i);
    RowIdsEqual("tp", i, "vid", i);
    RowIdsEqual("img", i, "vtp", i);
    RowIdsEqual("img", i, "vid", i);
    RowIdsEqual("vtp", i, "vid", i);
    RowIdsEqual("tp", i, "vtp", i);
  }

  /** The upload node of a layout offers neither an image nor a live prompt. */
  lemma UploadOffersNothing()
    ensures Candidate(UploadNode()).None? && !IsLivePrompt(UploadNode())
  {
  }

  /** The text prompt of row `i` holds the angle's prompt, live when that
      prompt is non-empty, in the photorealistic style, and offers no image. */
  lemma PromptNodeOffers(angles: seq<Angle>, i: nat)
    requires i < |angles|
    ensures Candidate(PromptNode(angles, i)).None?
    ensures IsLivePrompt(PromptNode(angles, i)) <==> angles[i].prompt != ""
    ensures Field(PromptNode(angles, i).data, "prompt") == Some(VStr(angles[i].prompt))
    ensures Field(PromptNode(angles, i).data, "style") == Some(VStr("photorealistic"))
  {
  }

  /** The image generator of row `i`, before it has run, offers neither an
      image nor a prompt. */
  lemma ImageNodeOffersNothing(angles: seq<Angle>, i: nat)
    requires i < |angles|
    ensures Candidate(ImageNode(angles, i)).None? && !IsLivePrompt(ImageNode(angles, i))
  {
  }

  /** The video prompt of row `i` offers no image. */
  lemma VideoPromptNodeOffersNoImage(angles: seq<Angle>, i: nat)
    requires i < |angles|
    ensures Candidate(VideoPromptNode(angles, i)).None?
  {
  }

  /** In a row of that shape where only the text prompt holds a live
      prompt and no node offers an image, the video generator resolves to the
      text prompt's prompt and style. */
  lemma ShapeVideoResolves(g: Graph, up: Node, tp: Node, img: Node, vtp: Node,
                           eu: Edge, et: Edge, eiv: Edge, evp: Edge, vid: string)
    requires RowShape(g, up, tp, img, vtp, eu, et, eiv, evp, vid)
    requires !IsLivePrompt(up) && !IsLivePrompt(img) && IsLivePrompt(tp)
    requires Candidate(up).None? && Candidate(tp).None? && Candidate(img).None? && Candidate(vtp).None?
    ensures Resolve(g, vid) == Upstream(Field(tp.data, "prompt"), Field(tp.data, "style"), None, [])
  {
    ShapeVideoWalk(g, up, tp, img, vtp, eu, et, eiv, evp, vid);
    ThirdPromptResolves(g, vid, img, up, tp, vtp);
  }

  /** A walk that examines four image-free nodes, the third the first live
      prompt, resolves to that prompt and its style. */
  lemma ThirdPromptResolves(g: Graph, id: string, a: Node, b: Node, c: Node, d: Node)
    requires WalkFrom(g, id, {}).examined == [a, b, c, d]
    requires !IsLivePrompt(a) && !IsLivePrompt(b) && IsLivePrompt(c)
    requires Candidate(a).None? && Candidate(b).None? && Candidate(c).None? && Candidate(d).None?
    ensures Resolve(g, id) == Upstream(Field(c.data, "prompt"), Field(c.data, "style"), None, [])
  {
    var ns := WalkFrom(g, id, {}).examined;
    assert forall j :: 0 <= j < |ns| ==> Candidate(ns[j]).None?;
    assert forall j :: 0 <= j < 2 ==> !IsLivePrompt(ns[j]);
    ResolveWithoutImages(g, id, 2);
  }

  /** The same for a walk over two image-free nodes, the second the first
      live prompt. */
  lemma SecondPromptResolves(g: Graph, id: string, a: Node, b: Node)
    requires WalkFrom(g, id, {}).examined == [a, b]
    requires !IsLivePrompt(a) && IsLivePrompt(b)
    requires Candidate(a).None? && Candidate(b).None?
    ensures Resolve(g, id) == Upstream(Field(b.data, "prompt"), Field(b.data, "style"), None, [])
  {
    var ns := WalkFrom(g, id, {}).examined;
    assert forall j :: 0 <= j < |ns| ==> Candidate(ns[j]).None?;
    ResolveWithoutImages(g, id, 1);
  }

  /** The same for the image generator. */
  lemma ShapeImageResolves(g: Graph, up: Node, tp: Node, img: Node, vtp: Node,
                           eu: Edge, et: Edge, eiv: Edge, evp: Edge, vid: string)
    requires RowShape(g, up, tp, img, vtp, eu, et, eiv, evp, vid)
    requires !IsLivePrompt(up) && IsLivePrompt(tp)
    requires Candidate(up).None? && Candidate(tp).None?
    ensures Resolve(g, img.id) == Upstream(Field(tp.data, "prompt"), Field(tp.data, "style"), None, [])
  {
    ShapeImageFresh(g, up, tp, img, vtp, eu, et, eiv, evp, vid);
    SecondPromptResolves(g, img.id, up, tp);
  }

  /** Once the upload offers the image `u` (and the image generator has no
      output yet), a row's image generator resolves to its prompt node's
      prompt and style with `u` as its one image. */
  lemma ShapeImageResolvesWithUpload(g: Graph, up: Node, tp: Node, img: Node, vtp: Node,
                                     eu: Edge, et: Edge, eiv: Edge, evp: Edge, vid: string, u: string)
    requires RowShape(g, up, tp, img, vtp, eu, et, eiv, evp, vid)
    requires !IsLivePrompt(up) && IsLivePrompt(tp)
    requires Candidate(up) == Some(u) && Candidate(tp).None?
    ensures Resolve(g, img.id) == Upstream(Field(tp.data, "prompt"), Field(tp.data, "style"), Some(u), [u])
  {
    ShapeImageFresh(g, up, tp, img, vtp, eu, et, eiv, evp, vid);
    SecondPromptFirstImage(g, img.id, up, tp, u);
  }

  /** The same for the row's video generator: it too gets the upload's
      image, and the image prompt's prompt and style. */
  lemma ShapeVideoResolvesWithUpload(g: Graph, up: Node, tp: Node, img: Node, vtp: Node,
                                     eu: Edge, et: Edge, eiv: Edge, evp: Edge, vid: string, u: string)
    requires RowShape(g, up, tp, img, vtp, eu, et, eiv, evp, vid)
    requires !IsLivePrompt(img) && !IsLivePrompt(up) && IsLivePrompt(tp)
    requires Candidate(img).None? && Candidate(up) == Some(u) && Candidate(tp).None? && Candidate(vtp).None?
    ensures Resolve(g, vid) == Upstream(Field(tp.data, "prompt"), Field(tp.data, "style"), Some(u), [u])
  {
    ShapeVideoWalk(g, up, tp, img, vtp, eu, et, eiv, evp, vid);
    ThirdPromptSecondImage(g, vid, img, up, tp, vtp, u);
  }

  /** A walk over `[a, b]` where `a` offers `u` and `b` is the first live
      prompt. */
  lemma SecondPromptFirstImage(g: Graph, id: string, a: Node, b: Node, u: string)
    requires WalkFrom(g, id, {}).examined == [a, b]
    requires !IsLivePrompt(a) && IsLivePrompt(b)
    requires Candidate(a) == Some(u) && Candidate(b).None?
    ensures Resolve(g, id) == Upstream(Field(b.data, "prompt"), Field(b.data, "style"), Some(u), [u])
  {
    var ns := WalkFrom(g, id, {}).examined;
    assert forall j :: 0 <= j < |ns| ==> Candidate(ns[j]).None? || Candidate(ns[j]) == Some(u);
    assert Candidate(ns[0]) == Some(u);
    ResolveWithOneImage(g, id, 1, u);
  }

  /** A walk over `[a, b, c, d]` where only `b` offers an image, `u`, and
      `c` is the first live prompt. */
  lemma ThirdPromptSecondImage(g: Graph, id: string, a: Node, b: Node, c: Node, d: Node, u: string)
    requires WalkFrom(g, id, {}).examined == [a, b, c, d]
    requires !IsLivePrompt(a) && !IsLivePrompt(b) && IsLivePrompt(c)
    requires Candidate(a).None? && Candidate(b) == Some(u) && Candidate(c).None? && Candidate(d).None?
    ensures Resolve(g, id) == Upstream(Field(c.data, "prompt"), Field(c.data, "style"), Some(u), [u])
  {
    var ns := WalkFrom(g, id, {}).examined;
    assert forall j :: 0 <= j < |ns| ==> Candidate(ns[j]).None? || Candidate(ns[j]) == Some(u);
    assert forall j :: 0 <= j < 2 ==> !IsLivePrompt(ns[j]);
    assert Candidate(ns[1]) == Some(u);
    ResolveWithOneImage(g, id, 2, u);
  }

  /** In a layout, the image generator of row `i` resolves to the row's
      image prompt in the photorealistic style. */
  lemma LayoutImageResolves(angles: seq<Angle>, i: nat)
    requires i < |angles| && angles[i].prompt != ""
    ensures Resolve(Layout(angles), ImageId(i))
         == Upstream(Some(VStr(angles[i].prompt)), Some(VStr("photorealistic")), None, [])
  {
    LayoutRowShape(angles, i);
    UploadOffersNothing();
    PromptNodeOffers(angles, i);
    ShapeImageResolves(Layout(angles), UploadNode(), PromptNode(angles, i), ImageNode(angles, i),
      VideoPromptNode(angles, i), UploadEdge(i), PromptEdge(i), ImageVideoEdge(i), VideoPromptEdge(i), VideoId(i));
  }

  /** In a layout, the video generator of row `i` also resolves to the row's
      image prompt in the photorealistic style, not to its own video prompt:
      the edge from the image generator is stored before the edge from the
      video prompt, and the walk meets the image prompt first. */
  lemma LayoutVideoResolves(angles: seq<Angle>, i: nat)
    requires i < |angles| && angles[i].prompt != ""
    ensures Resolve(Layout(angles), VideoId(i))
         == Upstream(Some(VStr(angles[i].prompt)), Some(VStr("photorealistic")), None, [])
  {
    LayoutRowShape(angles, i);
    UploadOffersNothing();
    PromptNodeOffers(angles, i);
    ImageNodeOffersNothing(angles, i);
    VideoPromptNodeOffersNoImage(angles, i);
    ShapeVideoResolves(Layout(angles), UploadNode(), PromptNode(angles, i), ImageNode(angles, i),
      VideoPromptNode(angles, i), UploadEdge(i), PromptEdge(i), ImageVideoEdge(i), VideoPromptEdge(i), VideoId(i));
  }

  /** Every angle's image prompt is non-empty and differs from its video prompt. */
  lemma AnglePromptsDiffer(i: nat)
    requires i < |Angles|
    ensures Angles[i].prompt != "" && Angles[i].prompt != Angles[i].videoPrompt
  {
    // every image prompt is the longer of the two
    assert |Angles[i].prompt| > 78 > |Angles[i].videoPrompt|;
  }

  /** In `quick-image-5`, the image generator of row `i` resolves to the
      angle's image prompt in the photorealistic style. */
  lemma QuickImageResolves(i: nat)
    requires i < |Angles|
    ensures Resolve(QuickImage5(), ImageId(i))
         == Upstream(Some(VStr(Angles[i].prompt)), Some(VStr("photorealistic")), None, [])
  {
    AnglePromptsDiffer(i);
    LayoutImageResolves(Angles, i);
  }

  /** In `quick-image-5`, the video generator of row `i` resolves to the
      angle's image prompt too, which is not its video prompt. */
  lemma QuickVideoResolves(i: nat)
    requires i < |Angles|
    ensures Resolve(QuickImage5(), VideoId(i))
         == Upstream(Some(VStr(Angles[i].prompt)), Some(VStr("photorealistic")), None, [])
    ensures Resolve(QuickImage5(), VideoId(i)).prompt != Some(VStr(Angles[i].videoPrompt))
  {
    AnglePromptsDiffer(i);
    LayoutVideoResolves(Angles, i);
  }

  // ---------------------------------------------------------------------
  // After an image is uploaded.

  /** A template graph after `updateNodeData('qi5-upload', { imageUrl: u })`. */
  function WithUpload(g: Graph, u: string): Graph
  {
    Graph(Patched(g.nodes, UploadId, map["imageUrl" := VStr(u)]), g.edges)
  }

  /** The upload node holding the image `u`. */
  function UploadedNode(u: string): Node
  {
    UploadNode().(data := Merge(UploadNode().data, map["imageUrl" := VStr(u)]))
  }

  /** The upload node then offers `u`, and still no prompt. */
  lemma UploadedOffers(u: string)
    requires u != ""
    ensures Candidate(UploadedNode(u)) == Some(u) && !IsLivePrompt(UploadedNode(u))
  {
    assert Field(UploadedNode(u).data, "imageUrl") == Some(VStr(u));
  }

  /** Uploading keeps every row in shape, with the updated upload node. */
  lemma UploadedRowShape(angles: seq<Angle>, i: nat, u: string)
    requires i < |angles|
    ensures RowShape(WithUpload(Layout(angles), u), UploadedNode(u), PromptNode(angles, i), ImageNode(angles, i),
                     VideoPromptNode(angles, i), UploadEdge(i), PromptEdge(i), ImageVideoEdge(i),
                     VideoPromptEdge(i), VideoId(i))
  {
    var ns := Layout(angles).nodes;
    var patch := map["imageUrl" := VStr(u)];
    LayoutRowShape(angles, i);
    UploadLookups(angles);
    FindPatched(ns, UploadId, patch, UploadId);
    RowIdsEqual("tp", i, "tp", i);
    RowIdsEqual("img", i, "img", i);
    RowIdsEqual("vtp", i, "vtp", i);
    FindPatched(ns, UploadId, patch, PromptId(i));
    FindPatched(ns, UploadId, patch, ImageId(i));
    FindPatched(ns, UploadId, patch, VideoPromptId(i));
  }

  /** With `u` uploaded, `qi5-img-i` resolves to angle i's prompt in the
      photorealistic style, with `u` as its one image. */
  lemma LayoutImageResolvesWithUpload(angles: seq<Angle>, i: nat, u: string)
    requires i < |angles| && angles[i].prompt != "" && u != ""
    ensures Resolve(WithUpload(Layout(angles), u), ImageId(i))
         == Upstream(Some(VStr(angles[i].prompt)), Some(VStr("photorealistic")), Some(u), [u])
  {
    UploadedRowShape(angles, i, u);
    UploadedOffers(u);
    PromptNodeOffers(angles, i);
    ShapeImageResolvesWithUpload(WithUpload(Layout(angles), u), UploadedNode(u), PromptNode(angles, i),
      ImageNode(angles, i), VideoPromptNode(angles, i), UploadEdge(i), PromptEdge(i), ImageVideoEdge(i),
      VideoPromptEdge(i), VideoId(i), u);
  }

  /** With `u` uploaded, `qi5-vid-i` resolves to the same: angle i's image
      prompt in the photorealistic style, with `u` as its one image. */
  lemma LayoutVideoResolvesWithUpload(angles: seq<Angle>, i: nat, u: string)
    requires i < |angles| && angles[i].prompt != "" && u != ""
    ensures Resolve(WithUpload(Layout(angles), u), VideoId(i))
         == Upstream(Some(VStr(angles[i].prompt)), Some(VStr("photorealistic")), Some(u), [u])
  {
    UploadedRowShape(angles, i, u);
    UploadedOffers(u);
    PromptNodeOffers(angles, i);
    ImageNodeOffersNothing(angles, i);
    VideoPromptNodeOffersNoImage(angles, i);
    ShapeVideoResolvesWithUpload(WithUpload(Layout(angles), u), UploadedNode(u), PromptNode(angles, i),
      ImageNode(angles, i), VideoPromptNode(angles, i), UploadEdge(i), PromptEdge(i), ImageVideoEdge(i),
      VideoPromptEdge(i), VideoId(i), u);
  }

  /** In `quick-image-5` with `u` uploaded, each image generator sees the
      shared upload's image and its own angle's prompt. */
  lemma QuickImageResolvesWithUpload(i: nat, u: string)
    requires i < |Angles| && u != ""
    ensures Resolve(WithUpload(QuickImage5(), u), ImageId(i))
         == Upstream(Some(VStr(Angles[i].prompt)), Some(VStr("photorealistic")), Some(u), [u])
  {
    AnglePromptsDiffer(i);
    LayoutImageResolvesWithUpload(Angles, i, u);
  }

  /** In `quick-image-5` with `u` uploaded, each video generator sees the
      shared upload's image and its angle's image prompt. */
  lemma QuickVideoResolvesWithUpload(i: nat, u: string)
    requires i < |Angles| && u != ""
    ensures Resolve(WithUpload(QuickImage5(), u), VideoId(i))
         == Upstream(Some(VStr(Angles[i].prompt)), Some(VStr("photorealistic")), Some(u), [u])
  {
    AnglePromptsDiffer(i);
    LayoutVideoResolvesWithUpload(Angles, i, u);
  }
}
