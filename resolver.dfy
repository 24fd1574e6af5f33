/** `getUpstreamData`: the prompt, style and images a node sees upstream.

    The specification comes in two parts. `WalkFrom` is the traversal: a
    depth-first walk over incoming edges in stored order that expands every
    node id at most once, listing each existing source node as it is
    examined (pre-order). `Absorb` folds the per-source update `Step` over
    that list. The method `Walk` does both at once, as the source does, and
    is proved to compute exactly their composition. */
module Resolver {
  import opened Values
  import opened StudioGraph
  import opened Defaults

  /** The result record: `prompt` and `style` are whatever the chosen text
      prompt node held (possibly undefined); `imageUrls` the collected images. */
  datatype Upstream = Upstream(prompt: Option<Value>, style: Option<Value>, imageUrl: Option<string>, imageUrls: seq<string>)

  const Nothing := Upstream(None, None, None, [])

  predicate Distinct<T(==)>(s: seq<T>)
  {
    forall i, j :: 0 <= i < j < |s| ==> s[i] != s[j]
  }

  /** The image a source node offers: an upload's `imageUrl`, or the first of
      an image generator's `outputImages`, when it is a non-empty string. */
  function Candidate(n: Node): (r: Option<string>)
    ensures r.Some? ==> r.value != "" && (n.kind == ImageUpload || n.kind == ImageGen)
    ensures n.kind == ImageUpload && r.Some? ==> Field(n.data, "imageUrl") == Some(VStr(r.value))
    ensures (&& n.kind == ImageUpload
             && Field(n.data, "imageUrl").Some? && Field(n.data, "imageUrl").value.VStr?
             && Field(n.data, "imageUrl").value.s != "")
            ==> r.Some?
    ensures n.kind == ImageGen && r.Some? ==>
      && Field(n.data, "outputImages").Some? && Field(n.data, "outputImages").value.VStrList?
      && |Field(n.data, "outputImages").value.items| > 0
      && Field(n.data, "outputImages").value.items[0] == r.value
    ensures (&& n.kind == ImageGen
             && Field(n.data, "outputImages").Some? && Field(n.data, "outputImages").value.VStrList?
             && |Field(n.data, "outputImages").value.items| > 0
             && Field(n.data, "outputImages").value.items[0] != "")
            ==> r.Some?
  {
    if n.kind == ImageUpload then
      match Field(n.data, "imageUrl")
      case Some(VStr(s)) => if s != "" then Some(s) else None
      case _ => None
    else if n.kind == ImageGen then
      match Field(n.data, "outputImages")
      case Some(VStrList(imgs)) => if |imgs| > 0 && imgs[0] != "" then Some(imgs[0]) else None
      case _ => None
    else None
  }

  predicate IsPromptNode(n: Node)
  {
    n.kind == TextPrompt
  }

  /** A text prompt node whose prompt is truthy: the first one seen wins. */
  predicate IsLivePrompt(n: Node)
  {
    IsPromptNode(n) && Truthy(Field(n.data, "prompt"))
  }

  /** What examining one source node does to the result (the body of the
      `for` loop before the recursive `walk`): a text prompt sets prompt and
      style together while the recorded prompt is still falsy, and a
      candidate image is appended unless already present. */
  function Step(acc: Upstream, n: Node): Upstream
  {
    var withPrompt :=
      if IsPromptNode(n) && !Truthy(acc.prompt)
      then acc.(prompt := Field(n.data, "prompt"), style := Field(n.data, "style"))
      else acc;
    match Candidate(n)
    case Some(u) =>
      if u in withPrompt.imageUrls then withPrompt
      else withPrompt.(imageUrls := withPrompt.imageUrls + [u])
    case None => withPrompt
  }

  /** `Step` over a list of examined sources, in order. */
  function Absorb(acc: Upstream, ns: seq<Node>): Upstream
    decreases |ns|
  {
    if ns == [] then acc else Absorb(Step(acc, ns[0]), ns[1..])
  }

  /** Sets `imageUrl` to the first collected image, if any. */
  function Finish(acc: Upstream): Upstream
  {
    if |acc.imageUrls| > 0 then acc.(imageUrl := Some(acc.imageUrls[0])) else acc
  }

  /** A traversal: the source nodes examined, in order; the ids expanded, in
      order; and the visited set afterwards. */
  datatype Trace = Trace(examined: seq<Node>, expanded: seq<string>, visited: set<string>)

  lemma SubsetFewerMissing(all: set<string>, small: set<string>, big: set<string>)
    requires small <= big
    ensures |all - big| <= |all - small|
  {
    assert all - big <= all - small;
    SubsetCardinality(all - big, all - small);
  }

  lemma SubsetCardinality(a: set<string>, b: set<string>)
    requires a <= b
    ensures |a| <= |b|
  {
    assert b == a + (b - a);
  }

  lemma MarkingShrinks(all: set<string>, visited: set<string>, id: string)
    requires id in all && id !in visited
    ensures |all - (visited + {id})| < |all - visited|
  {
    assert all - visited == (all - (visited + {id})) + {id};
  }

  /** Every node a trace examines is a node of the graph whose id it visited. */
  predicate Examined(g: Graph, t: Trace)
  {
    forall i :: 0 <= i < |t.examined| ==> t.examined[i] in g.nodes && t.examined[i].id in t.visited
  }

  /** Two lists of examined nodes, each within the graph and its visited set,
      joined under the larger of the two sets. */
  lemma ExaminedJoin(g: Graph, a: seq<Node>, b: seq<Node>, va: set<string>, vb: set<string>)
    requires va <= vb
    requires forall i :: 0 <= i < |a| ==> a[i] in g.nodes && a[i].id in va
    requires forall i :: 0 <= i < |b| ==> b[i] in g.nodes && b[i].id in vb
    ensures forall i :: 0 <= i < |a + b| ==> (a + b)[i] in g.nodes && (a + b)[i].id in vb
  {
  }

  /** `walk(c)` for an id not yet visited: mark it, then examine its incoming edges. */
  function Enter(g: Graph, c: string, visited: set<string>): (t: Trace)
    requires c !in visited
    ensures visited + {c} <= t.visited
    ensures forall x :: x in t.visited <==> x in visited || x in t.expanded
    ensures |t.expanded| > 0 && t.expanded[0] == c
    ensures Distinct(t.expanded) && forall i :: 0 <= i < |t.expanded| ==> t.expanded[i] !in visited
    decreases |NodeIds(g) - (visited + {c})|, 1, 0
  {
    var t := ExpandEdges(g, Incoming(g.edges, c), visited + {c});
    Trace(t.examined, [c] + t.expanded, t.visited)
  }

  /** The `for` loop of `walk` over the edges `es`, from the visited set `visited`. */
  function ExpandEdges(g: Graph, es: seq<Edge>, visited: set<string>): (t: Trace)
    ensures visited <= t.visited
    ensures forall x :: x in t.visited <==> x in visited || x in t.expanded
    ensures Distinct(t.expanded) && forall i :: 0 <= i < |t.expanded| ==> t.expanded[i] !in visited
    decreases |NodeIds(g) - visited|, 0, |es|
  {
    if es == [] then Trace([], [], visited)
    else
      match FindNode(g.nodes, es[0].source)
      case None => ExpandEdges(g, es[1..], visited)
      case Some(n) =>
        if n.id in visited then
          // `walk` returns at once on a visited id
          var rest := ExpandEdges(g, es[1..], visited);
          Trace([n] + rest.examined, rest.expanded, rest.visited)
        else
          assert n.id in NodeIds(g);
          MarkingShrinks(NodeIds(g), visited, n.id);
          var inner := Enter(g, n.id, visited);
          SubsetFewerMissing(NodeIds(g), visited, inner.visited);
          var rest := ExpandEdges(g, es[1..], inner.visited);
          Trace([n] + inner.examined + rest.examined, inner.expanded + rest.expanded, rest.visited)
  }

  /** `walk(c)` from the visited set `visited`. */
  function WalkFrom(g: Graph, c: string, visited: set<string>): Trace
  {
    if c in visited then Trace([], [], visited) else Enter(g, c, visited)
  }

  /** The resolution of `nodeId` as the specification states it: fold the
      examination order of a fresh walk, then set `imageUrl`. */
  function Resolve(g: Graph, nodeId: string): Upstream
  {
    Finish(Absorb(Nothing, WalkFrom(g, nodeId, {}).examined))
  }

  lemma {:induction false} AbsorbAppend(acc: Upstream, a: seq<Node>, b: seq<Node>)
    ensures Absorb(acc, a + b) == Absorb(Absorb(acc, a), b)
    decreases |a|
  {
    if a == [] {
      assert a + b == b;
    } else {
      assert (a + b)[0] == a[0] && (a + b)[1..] == a[1..] + b;
      AbsorbAppend(Step(acc, a[0]), a[1..], b);
    }
  }

  /** The recursive `walk` of the source: the visited set and the result
      record, which the source keeps in enclosing variables, are passed in
      and handed back. It computes exactly the specified walk and fold. */
  method Walk(g: Graph, currentId: string, visited: set<string>, acc: Upstream)
    returns (visited': set<string>, acc': Upstream)
    ensures visited' == WalkFrom(g, currentId, visited).visited
    ensures acc' == Absorb(acc, WalkFrom(g, currentId, visited).examined)
    decreases |(NodeIds(g) + {currentId}) - visited|
  {
    if currentId in visited {
      return visited, acc;
    }
    visited', acc' := visited + {currentId}, acc;
    var incomingEdges := Incoming(g.edges, currentId);
    ghost var whole := ExpandEdges(g, incomingEdges, visited');
    assert Enter(g, currentId, visited).visited == whole.visited;
    var k := 0;
    while k < |incomingEdges|
      invariant 0 <= k <= |incomingEdges|
      invariant visited + {currentId} <= visited'
      invariant ExpandEdges(g, incomingEdges[k..], visited').visited == whole.visited
      invariant Absorb(acc', ExpandEdges(g, incomingEdges[k..], visited').examined) == Absorb(acc, whole.examined)
    {
      var edge := incomingEdges[k];
      assert incomingEdges[k..][0] == edge && incomingEdges[k..][1..] == incomingEdges[k + 1..];
      var sourceNode := FindNode(g.nodes, edge.source);
      if sourceNode.Some? {
        var n := sourceNode.value;
        ghost var inner := WalkFrom(g, n.id, visited');
        ghost var rest := ExpandEdges(g, incomingEdges[k + 1..], inner.visited);
        AbsorbAppend(acc', [n] + inner.examined, rest.examined);
        AbsorbAppend(acc', [n], inner.examined);
        assert n.id in NodeIds(g);
        SubsetFewerMissing(NodeIds(g), visited + {currentId}, visited');
        assert NodeIds(g) + {n.id} == NodeIds(g);
        assert (NodeIds(g) + {currentId}) - visited == (NodeIds(g) - (visited + {currentId})) + {currentId};
        acc' := Step(acc', n);
        visited', acc' := Walk(g, n.id, visited', acc');
      }
      k := k + 1;
    }
    assert incomingEdges[k..] == [];
  }

  /** `getUpstreamData(nodeId)` on the graph `g`. */
  method GetUpstreamData(g: Graph, nodeId: string) returns (r: Upstream)
    ensures r == Resolve(g, nodeId)
    ensures r.imageUrl.Some? <==> |r.imageUrls| > 0
    ensures r.imageUrl.Some? ==> r.imageUrl.value == r.imageUrls[0]
    ensures Distinct(r.imageUrls) && "" !in r.imageUrls
  {
    var visited, acc := Walk(g, nodeId, {}, Nothing);
    r := acc;
    if |r.imageUrls| > 0 {
      r := r.(imageUrl := Some(r.imageUrls[0]));
    }
    ResolveImages(g, nodeId);
  }

  // ---------------------------------------------------------------------
  // What the fold collects.

  /** The images the result keeps are duplicate-free non-empty strings. */
  predicate CleanImages(acc: Upstream)
  {
    Distinct(acc.imageUrls) && "" !in acc.imageUrls
  }

  /** The first candidate image along a list of examined sources. */
  function FirstCandidate(ns: seq<Node>): Option<string>
  {
    if ns == [] then None
    else if Candidate(ns[0]).Some? then Candidate(ns[0])
    else FirstCandidate(ns[1..])
  }

  /** The fold keeps the images clean, never drops or reorders an image it
      already has, and adds exactly the candidates of the sources it meets. */
  lemma {:induction false} AbsorbImages(acc: Upstream, ns: seq<Node>)
    requires CleanImages(acc)
    ensures var r := Absorb(acc, ns);
      && CleanImages(r)
      && acc.imageUrls <= r.imageUrls
      && r.imageUrl == acc.imageUrl
      && (forall u :: u in r.imageUrls <==>
            u in acc.imageUrls || exists i :: 0 <= i < |ns| && Candidate(ns[i]) == Some(u))
      && (acc.imageUrls == [] && FirstCandidate(ns).Some? ==> |r.imageUrls| > 0 && r.imageUrls[0] == FirstCandidate(ns).value)
      && (acc.imageUrls == [] && FirstCandidate(ns).None? ==> r.imageUrls == [])
    decreases |ns|
  {
    if ns != [] {
      var next := Step(acc, ns[0]);
      assert CleanImages(next);
      AbsorbImages(next, ns[1..]);
      var r := Absorb(acc, ns);
      forall u ensures u in r.imageUrls <==>
        u in acc.imageUrls || exists i :: 0 <= i < |ns| && Candidate(ns[i]) == Some(u)
      {
        if u in r.imageUrls && u !in acc.imageUrls {
          if u in next.imageUrls {
            assert Candidate(ns[0]) == Some(u);
          } else {
            var i :| 0 <= i < |ns[1..]| && Candidate(ns[1..][i]) == Some(u);
            assert Candidate(ns[i + 1]) == Some(u);
          }
        }
        if exists i :: 0 <= i < |ns| && Candidate(ns[i]) == Some(u) {
          var i :| 0 <= i < |ns| && Candidate(ns[i]) == Some(u);
          if i > 0 {
            assert Candidate(ns[1..][i - 1]) == Some(u);
          }
        }
      }
    }
  }

  /** Image facts of a resolution: clean, `imageUrl` present exactly when there
      are images and then the first of them, which is the first candidate in
      examination order; every image is some examined source's candidate. */
  lemma ResolveImages(g: Graph, nodeId: string)
    ensures var r := Resolve(g, nodeId);
      var ns := WalkFrom(g, nodeId, {}).examined;
      && CleanImages(r)
      && (r.imageUrl.Some? <==> |r.imageUrls| > 0)
      && (r.imageUrl.Some? ==> r.imageUrl.value == r.imageUrls[0])
      && r.imageUrl == FirstCandidate(ns)
      && (forall u :: u in r.imageUrls <==> exists i :: 0 <= i < |ns| && Candidate(ns[i]) == Some(u))
  {
    var ns := WalkFrom(g, nodeId, {}).examined;
    AbsorbImages(Nothing, ns);
  }

  // ---------------------------------------------------------------------
  // Which prompt wins.

  /** Once the recorded prompt is truthy, nothing changes prompt or style. */
  lemma {:induction false} PromptLocked(acc: Upstream, ns: seq<Node>)
    requires Truthy(acc.prompt)
    ensures Absorb(acc, ns).prompt == acc.prompt && Absorb(acc, ns).style == acc.style
    decreases |ns|
  {
    if ns != [] {
      PromptLocked(Step(acc, ns[0]), ns[1..]);
    }
  }

  /** The first live text prompt along the list supplies both prompt and style. */
  lemma {:induction false} FirstLivePromptWins(acc: Upstream, ns: seq<Node>, i: nat)
    requires !Truthy(acc.prompt)
    requires i < |ns| && IsLivePrompt(ns[i])
    requires forall j :: 0 <= j < i ==> !IsLivePrompt(ns[j])
    ensures Absorb(acc, ns).prompt == Field(ns[i].data, "prompt")
    ensures Absorb(acc, ns).style == Field(ns[i].data, "style")
    decreases |ns|
  {
    var next := Step(acc, ns[0]);
    if i == 0 {
      PromptLocked(next, ns[1..]);
    } else {
      assert !IsLivePrompt(ns[0]);
      FirstLivePromptWins(next, ns[1..], i - 1);
    }
  }

  /** Only text prompt nodes supply prompt and style; without a live one the
      recorded prompt stays falsy and comes from the last text prompt seen. */
  lemma {:induction false} PromptSource(acc: Upstream, ns: seq<Node>)
    ensures var r := Absorb(acc, ns);
      || (r.prompt == acc.prompt && r.style == acc.style)
      || exists i :: 0 <= i < |ns| && IsPromptNode(ns[i])
           && r.prompt == Field(ns[i].data, "prompt") && r.style == Field(ns[i].data, "style")
    ensures (!Truthy(acc.prompt) && forall j :: 0 <= j < |ns| ==> !IsLivePrompt(ns[j]))
      ==> !Truthy(Absorb(acc, ns).prompt)
    decreases |ns|
  {
    if ns != [] {
      var next := Step(acc, ns[0]);
      PromptSource(next, ns[1..]);
      var r := Absorb(acc, ns);
      if !(r.prompt == acc.prompt && r.style == acc.style) {
        if r.prompt == next.prompt && r.style == next.style {
          assert IsPromptNode(ns[0]);
        } else {
          var i :| 0 <= i < |ns[1..]| && IsPromptNode(ns[1..][i])
            && r.prompt == Field(ns[1..][i].data, "prompt") && r.style == Field(ns[1..][i].data, "style");
          assert ns[i + 1] == ns[1..][i];
        }
      }
      if !Truthy(acc.prompt) && forall j :: 0 <= j < |ns| ==> !IsLivePrompt(ns[j]) {
        assert forall j :: 0 <= j < |ns[1..]| ==> !IsLivePrompt(ns[1..][j]) by {
          forall j | 0 <= j < |ns[1..]| ensures !IsLivePrompt(ns[1..][j]) {
            assert ns[1..][j] == ns[j + 1];
          }
        }
      }
    }
  }

  /** Of the resolution: the first live text prompt in examination order
      supplies prompt and style, from the same node. */
  lemma ResolvePrompt(g: Graph, nodeId: string, i: nat)
    requires var ns := WalkFrom(g, nodeId, {}).examined;
      i < |ns| && IsLivePrompt(ns[i]) && forall j :: 0 <= j < i ==> !IsLivePrompt(ns[j])
    ensures var n := WalkFrom(g, nodeId, {}).examined[i];
      Resolve(g, nodeId).prompt == Field(n.data, "prompt") && Resolve(g, nodeId).style == Field(n.data, "style")
  {
    FirstLivePromptWins(Nothing, WalkFrom(g, nodeId, {}).examined, i);
  }

  /** When no examined source offers an image and the `k`-th is the first
      live text prompt, the resolution is that node's prompt and style and
      nothing else. */
  lemma ResolveWithoutImages(g: Graph, nodeId: string, k: nat)
    requires var ns := WalkFrom(g, nodeId, {}).examined;
      && k < |ns| && IsLivePrompt(ns[k]) && (forall j :: 0 <= j < k ==> !IsLivePrompt(ns[j]))
      && forall j :: 0 <= j < |ns| ==> Candidate(ns[j]).None?
    ensures var n := WalkFrom(g, nodeId, {}).examined[k];
      Resolve(g, nodeId) == Upstream(Field(n.data, "prompt"), Field(n.data, "style"), None, [])
  {
    ResolvePrompt(g, nodeId, k);
    ResolveImages(g, nodeId);
  }

  /** When every examined source offers either nothing or the one image
      `u`, some source offers it, and the `k`-th is the first live text
      prompt, the resolution is that node's prompt and style with `u` as its
      only image. */
  lemma ResolveWithOneImage(g: Graph, nodeId: string, k: nat, u: string)
    requires var ns := WalkFrom(g, nodeId, {}).examined;
      && k < |ns| && IsLivePrompt(ns[k]) && (forall j :: 0 <= j < k ==> !IsLivePrompt(ns[j]))
      && (forall j :: 0 <= j < |ns| ==> Candidate(ns[j]).None? || Candidate(ns[j]) == Some(u))
      && (exists j :: 0 <= j < |ns| && Candidate(ns[j]) == Some(u))
    ensures var n := WalkFrom(g, nodeId, {}).examined[k];
      Resolve(g, nodeId) == Upstream(Field(n.data, "prompt"), Field(n.data, "style"), Some(u), [u])
  {
    var r := Resolve(g, nodeId);
    ResolvePrompt(g, nodeId, k);
    ResolveImages(g, nodeId);
    assert forall x :: x in r.imageUrls <==> x == u;
    OnlyElement(r.imageUrls, u);
  }

  /** A duplicate-free list holding exactly `u` is `[u]`. */
  lemma OnlyElement(xs: seq<string>, u: string)
    requires Distinct(xs) && forall x :: x in xs <==> x == u
    ensures xs == [u]
  {
    assert u in xs;
    forall i | 0 <= i < |xs|
      ensures xs[i] == u
    {
      assert xs[i] in xs;
    }
    assert xs[0] == u && xs[|xs| - 1] == u;
    assert |xs| == 1;
  }

  // ---------------------------------------------------------------------
  // The traversal.

  /** A walk expands every node id at most once, cycles included; everything
      it examines is a node of the graph, and that node is then visited. */
  lemma WalkExpandsOnce(g: Graph, nodeId: string)
    ensures var t := WalkFrom(g, nodeId, {});
      && Distinct(t.expanded)
      && (forall x :: x in t.visited <==> x in t.expanded)
      && Examined(g, t)
  {
    EnterExamined(g, nodeId, {});
  }

  /** Everything `Enter` examines is a node of the graph that it leaves visited. */
  lemma {:induction false} EnterExamined(g: Graph, c: string, visited: set<string>)
    requires c !in visited
    ensures Examined(g, Enter(g, c, visited))
    decreases |NodeIds(g) - (visited + {c})|, 1, 0
  {
    ExpandExamined(g, Incoming(g.edges, c), visited + {c});
  }

  /** The same for the loop over the edges `es`. */
  lemma {:induction false} ExpandExamined(g: Graph, es: seq<Edge>, visited: set<string>)
    ensures Examined(g, ExpandEdges(g, es, visited))
    decreases |NodeIds(g) - visited|, 0, |es|
  {
    if es != [] {
      match FindNode(g.nodes, es[0].source)
      case None =>
        ExpandExamined(g, es[1..], visited);
      case Some(n) =>
        if n.id in visited {
          var rest := ExpandEdges(g, es[1..], visited);
          ExpandExamined(g, es[1..], visited);
          ExaminedJoin(g, [n], rest.examined, visited, rest.visited);
        } else {
          assert n.id in NodeIds(g);
          MarkingShrinks(NodeIds(g), visited, n.id);
          var inner := Enter(g, n.id, visited);
          EnterExamined(g, n.id, visited);
          SubsetFewerMissing(NodeIds(g), visited, inner.visited);
          var rest := ExpandEdges(g, es[1..], inner.visited);
          ExpandExamined(g, es[1..], inner.visited);
          ExaminedJoin(g, [n], inner.examined, inner.visited, inner.visited);
          ExaminedJoin(g, [n] + inner.examined, rest.examined, inner.visited, rest.visited);
        }
    }
  }

  /** The loop over `[e] + rest` when `e`'s source is an unvisited node: the
      node is examined, its own inputs are walked, then the loop goes on. */
  lemma ExpandSource(g: Graph, e: Edge, rest: seq<Edge>, visited: set<string>, n: Node)
    requires FindNode(g.nodes, e.source) == Some(n) && n.id !in visited
    ensures var inner := Enter(g, n.id, visited);
      var after := ExpandEdges(g, rest, inner.visited);
      ExpandEdges(g, [e] + rest, visited)
        == Trace([n] + inner.examined + after.examined, inner.expanded + after.expanded, after.visited)
  {
    assert ([e] + rest)[0] == e && ([e] + rest)[1..] == rest;
  }

  /** An edge whose source node does not exist is skipped: nothing is
      examined or expanded for it. */
  lemma MissingSourceSkipped(g: Graph, e: Edge, rest: seq<Edge>, visited: set<string>)
    requires FindNode(g.nodes, e.source).None?
    ensures ExpandEdges(g, [e] + rest, visited) == ExpandEdges(g, rest, visited)
  {
    assert ([e] + rest)[0] == e && ([e] + rest)[1..] == rest;
  }

  /** An edge from a node that is already visited examines that node again
      (so it can still contribute) but does not walk into it. */
  lemma VisitedSourceNotExpanded(g: Graph, e: Edge, rest: seq<Edge>, visited: set<string>, n: Node)
    requires FindNode(g.nodes, e.source) == Some(n) && n.id in visited
    ensures var after := ExpandEdges(g, rest, visited);
      ExpandEdges(g, [e] + rest, visited) == Trace([n] + after.examined, after.expanded, after.visited)
  {
    assert ([e] + rest)[0] == e && ([e] + rest)[1..] == rest;
  }

  /** Entering a node without inputs marks it and examines nothing. */
  lemma EnterLeaf(g: Graph, c: string, visited: set<string>)
    requires c !in visited && Incoming(g.edges, c) == []
    ensures Enter(g, c, visited) == Trace([], [c], visited + {c})
  {
  }

  /** The loop over `[e] + rest` when `e`'s source is an unvisited node
      without inputs: the node is examined and marked, then the loop goes on. */
  lemma ExpandLeaf(g: Graph, e: Edge, rest: seq<Edge>, visited: set<string>, n: Node)
    requires FindNode(g.nodes, e.source) == Some(n) && n.id !in visited && Incoming(g.edges, n.id) == []
    ensures var after := ExpandEdges(g, rest, visited + {n.id});
      ExpandEdges(g, [e] + rest, visited) == Trace([n] + after.examined, [n.id] + after.expanded, after.visited)
  {
    ExpandSource(g, e, rest, visited, n);
    EnterLeaf(g, n.id, visited);
    SkipEmpty([n], ExpandEdges(g, rest, visited + {n.id}).examined);
  }

  lemma NoTail<T>(a: seq<T>)
    ensures a + [] == a
  {
  }

  lemma SkipEmpty<T>(a: seq<T>, b: seq<T>)
    ensures a + [] + b == a + b
  {
  }

  /** The loop over two edges from distinct unvisited sources without inputs. */
  lemma ExpandTwoLeaves(g: Graph, e1: Edge, e2: Edge, n1: Node, n2: Node, visited: set<string>)
    requires FindNode(g.nodes, e1.source) == Some(n1) && FindNode(g.nodes, e2.source) == Some(n2)
    requires n1.id !in visited && n2.id !in visited && n1.id != n2.id
    requires Incoming(g.edges, n1.id) == [] && Incoming(g.edges, n2.id) == []
    ensures ExpandEdges(g, [e1, e2], visited)
         == Trace([n1, n2], [n1.id, n2.id], visited + {n1.id} + {n2.id})
  {
    var v1 := visited + {n1.id};
    ExpandLeaf(g, e2, [], v1, n2);
    ExpandNothing(g, v1 + {n2.id});
    NoTail([n2]);
    NoTail([n2.id]);
    ExpandLeaf(g, e1, [e2], visited, n1);
    Pair(e1, e2);
    Pair(n1, n2);
    Pair(n1.id, n2.id);
  }

  /** The loop over two edges: the first from an unvisited source whose own
      walk examines `below` and ends with the visited set `reached`, the
      second from a source without inputs that walk did not reach. */
  lemma ExpandSourceThenLeaf(g: Graph, e1: Edge, e2: Edge, n1: Node, n2: Node, visited: set<string>,
                             below: seq<Node>, reached: set<string>)
    requires FindNode(g.nodes, e1.source) == Some(n1) && n1.id !in visited
    requires Enter(g, n1.id, visited).examined == below && Enter(g, n1.id, visited).visited == reached
    requires FindNode(g.nodes, e2.source) == Some(n2) && Incoming(g.edges, n2.id) == [] && n2.id !in reached
    ensures ExpandEdges(g, [e1, e2], visited).examined == [n1] + below + [n2]
  {
    ExpandSource(g, e1, [e2], visited, n1);
    ExpandLeaf(g, e2, [], reached, n2);
    ExpandNothing(g, reached + {n2.id});
    Pair(e1, e2);
  }

  /** The loop over no edges examines and expands nothing. */
  lemma ExpandNothing(g: Graph, visited: set<string>)
    ensures ExpandEdges(g, [], visited) == Trace([], [], visited)
  {
  }

  lemma Pair<T>(a: T, b: T)
    ensures [a] + [b] == [a, b]
  {
  }

  /** A freshly defaulted node offers neither an image nor a live prompt. */
  lemma DefaultsAreInert(id: string, kind: string, pos: Position)
    ensures Candidate(Node(id, kind, pos, DefaultData(kind))).None?
    ensures !IsLivePrompt(Node(id, kind, pos, DefaultData(kind)))
  {
  }
}
