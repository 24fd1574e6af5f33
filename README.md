# Studio store model

A Dafny model of the graph state container behind the studio canvas
(`lib/studio-store.ts`). The store holds the canvas graph (nodes and edges),
the selected node, an undo and a redo stack of graph snapshots, two batch
trigger counters and the node id counter. It offers the operations that the
canvas and the node components call. The model covers:

- **The store** (`studio_store.dfy`). This is a class `Store` whose fields are
  the store's fields. Each operation is a method that changes them in place.
  Each method's contract states the whole new state through pure functions of
  the old one. The functions are `UndoHistory.Record`, `UndoHistory.Undo`,
  `UndoHistory.Redo`, `GraphEdits.Patched`, `GraphEdits.WithoutNode` and
  `Resolver.Resolve`.
  - The three React Flow helpers (`applyNodeChanges`, `applyEdgeChanges`,
    `addEdge`) are function-valued parameters, so only the history behaviour
    around them is specified.
  - The clock reading used in new node ids is a parameter.
  - The module-level id counter is a field of the store.
  - A ghost set records every id `addNode` has handed out. `IdsBelowCounter`
    states that each of these ids carries a counter no greater than the current
    one.
- **History** (`history.dfy`). The present graph with both stacks is a
  `Timeline`. Recording keeps `slice(-30)` of the undo stack and then appends,
  so the undo stack can hold 31 snapshots. Undo and redo move one snapshot
  between the stacks. JSON deep copies become plain values.
- **Node edits** (`graph_edits.dfy`). The shallow merge `{...old, ...patch}` is
  map override. Covered edits:
  - `updateNodeData`'s `map` over the nodes;
  - `removeNode`'s two `filter`s;
  - the structural-change test of `onNodesChange` / `onEdgesChange`.
- **Ids** (`node_ids.dfy`). An id is `<type>-<counter>-<time>`. The counter can
  be read back from any such id, whatever the type string holds.
- **Default payloads** (`defaults.dfy`). This is `defaultDataForType`.
- **The upstream resolver** (`resolver.dfy`). This is `getUpstreamData`.
  - Its specification has two parts. The first is a pure pre-order trace of
    the depth-first walk over incoming edges: which source nodes are examined,
    in which order, and which ids are expanded. The second is a left fold of
    the per-source update over that trace.
  - The recursive method `Walk`, with its visited set and its `for` loop over
    the incoming edges, is proved to compute exactly that.
  - It terminates on every graph, including cyclic ones, because the number
    of unvisited node ids decreases.
- **Templates** (`templates.dfy`). This is the `TEMPLATES` table.
  - `quick-image-5` is built by a loop that pushes four nodes and four edges
    per angle, and that loop is proved to build the table entry.
  - Concrete resolutions are proved on both templates. In particular, each
    row's video generator resolves to the row's *image* prompt, not to its
    video prompt. The edge from the image generator is stored before the edge
    from the video prompt, and the walk reaches the image prompt through the
    image generator first.

## Model

| member | source | states |
|---|---|---|
| IdFormat.CounterOfNewNodeId | lib/studio-store.ts:257 | the counter embedded in `${type}-${counter}-${now}` reads back as that counter, whatever the type string contains |
| IdFormat.NewNodeIdsDiffer | lib/studio-store.ts:257 | ids built from different counters differ, whatever the types and clock readings |
| IdFormat.DecimalRoundTrip | lib/studio-store.ts:257 | the decimal rendering of the counter in a template literal reads back as the same number |
| StudioGraph.Filter | lib/studio-store.ts:282-283 | the result holds exactly the input elements that pass the test and is no longer than the input |
| StudioGraph.FilterAppend | lib/studio-store.ts:282-283 | filtering a concatenation equals concatenating the filtered parts |
| StudioGraph.FilterIdempotent | lib/studio-store.ts:282-283 | filtering twice by one test is filtering once |
| StudioGraph.FindNode | lib/studio-store.ts:300 | `find` by id returns a node of the list carrying that id, and none exactly when no node carries it |
| StudioGraph.FindNodeAppend | lib/studio-store.ts:300 | `find` on a concatenation looks in the first part first |
| Defaults.DefaultData | lib/studio-store.ts:84-115 | every default is labelled; each known type gets its declared fields (the video default adds `aspectRatio`); an unknown type gets only `{label: type}`; nothing runs and no error is set |
| GraphEdits.Merge | lib/studio-store.ts:262 | the spread merge has the keys of both records; the patch's keys win and the other keys keep their old values |
| GraphEdits.Patched | lib/studio-store.ts:272-278 | the nodes keep count, order, ids, types and positions; each node with the id gets its data merged with the patch; every other node is unchanged |
| GraphEdits.PatchAbsent | lib/studio-store.ts:272-278 | patching an id no node carries changes nothing |
| GraphEdits.FindPatched | lib/studio-store.ts:272-278 | after a patch, looking up the patched id finds that node with its merged data, and every other id is found as before |
| GraphEdits.PatchIdempotent | lib/studio-store.ts:272-278 | applying the same patch twice equals applying it once |
| GraphEdits.PatchCompose | lib/studio-store.ts:272-278 | two patches of one node equal one patch with their keys merged, the later winning |
| GraphEdits.WithoutNode | lib/studio-store.ts:280-285 | no surviving node has the id and no surviving edge touches it; every other node and edge survives |
| GraphEdits.RemoveKeepsOrder | lib/studio-store.ts:280-285 | removal works part by part over a concatenation, so survivors keep their relative order |
| GraphEdits.RemoveIdempotent | lib/studio-store.ts:280-285 | removing the same id a second time changes nothing |
| GraphEdits.RemoveAbsent | lib/studio-store.ts:280-285 | removing an id that no node and no edge endpoint mentions changes nothing |
| UndoHistory.Recent | lib/studio-store.ts:224 | `slice(-30)` keeps 30 snapshots, or all of them when there are fewer |
| UndoHistory.RecentIsTail | lib/studio-store.ts:224 | those are the last snapshots of the stack, oldest first |
| UndoHistory.Pushed | lib/studio-store.ts:224 | `[...stack.slice(-30), snapshot]` holds between 1 and 31 entries, at most one more than the stack |
| UndoHistory.PushedShape | lib/studio-store.ts:224 | the pushed stack has the snapshot on top and the most recent old snapshots below it, and is a plain append when the stack is shorter than 31 |
| UndoHistory.RecordEffects | lib/studio-store.ts:219-250 | recording puts the current graph on top of the undo stack, empties the redo stack, leaves the graph alone and keeps the stacks within 31 snapshots together |
| UndoHistory.RecordForgetsOnlyOldest | lib/studio-store.ts:224 | the snapshots below the new top are the most recent old ones, in their old positions relative to the top |
| UndoHistory.EmptyIsNoOp | lib/studio-store.ts:346-368 | undo with an empty undo stack and redo with an empty redo stack change nothing |
| UndoHistory.RedoUndoes | lib/studio-store.ts:346-368 | with a non-empty undo stack, redo after undo restores the graph and both stacks exactly |
| UndoHistory.UndoUndoes | lib/studio-store.ts:346-368 | with a non-empty redo stack, undo after redo restores the graph and both stacks exactly |
| UndoHistory.MovesKeepTotal | lib/studio-store.ts:346-368 | undo and redo keep the total number of snapshots, so they keep the 31-snapshot bound |
| UndoHistory.UndoTimesShape | lib/studio-store.ts:346-356 | k undos move exactly k snapshots from the undo stack to the redo stack |
| UndoHistory.UndoRedoTimes | lib/studio-store.ts:346-368 | k undos followed by k redos return to the exact starting point |
| UndoHistory.RecordAfterUndoClearsRedo | lib/studio-store.ts:219-250 | recording after an undo discards all pending redos, and undoing a recording restores the graph |
| Resolver.Candidate | lib/studio-store.ts:312-320 | a node offers an image only if it is an upload or an image generator; an upload offers exactly its `imageUrl` when that is a non-empty string, and a generator exactly the first entry of its `outputImages` when that is a non-empty string |
| Resolver.Enter | lib/studio-store.ts:293-298 | entering an unvisited id marks it first; ids are expanded at most once and never an already visited one |
| Resolver.ExpandEdges | lib/studio-store.ts:299-325 | the loop over incoming edges only grows the visited set, by exactly the ids it expands, each expanded once |
| Resolver.Walk | lib/studio-store.ts:293-326 | the recursive walk with its visited set and loop computes exactly the specified traversal's visited set and the fold of the update over its examination order |
| Resolver.GetUpstreamData | lib/studio-store.ts:287-335 | the result equals the specified resolution; `imageUrl` is present exactly when `imageUrls` is non-empty, and then it is the first; `imageUrls` has no duplicates and no empty string |
| Resolver.AbsorbImages | lib/studio-store.ts:312-322 | collecting images keeps them duplicate-free and non-empty, never drops or reorders one, and collects exactly the candidates of the sources met, the first candidate first |
| Resolver.ResolveImages | lib/studio-store.ts:312-332 | in a resolution, `imageUrl` is the first candidate in examination order, and the images are exactly the examined sources' candidates |
| Resolver.PromptLocked | lib/studio-store.ts:305-310 | once the recorded prompt is truthy, no later source changes prompt or style |
| Resolver.FirstLivePromptWins | lib/studio-store.ts:305-310 | the first text prompt node with a truthy prompt supplies both prompt and style |
| Resolver.PromptSource | lib/studio-store.ts:305-310 | prompt and style come together from one text prompt node, or stay as they were; without a truthy text prompt the prompt stays falsy |
| Resolver.ResolvePrompt | lib/studio-store.ts:305-310 | in a resolution, the first live text prompt in examination order supplies prompt and style from the same node |
| Resolver.ResolveWithoutImages | lib/studio-store.ts:287-335 | with no image candidate upstream, the resolution is exactly the first live prompt's prompt and style |
| Resolver.EnterExamined | lib/studio-store.ts:293-299 | everything a walk into an unvisited id examines is a node of the graph that the walk leaves visited |
| Resolver.ExpandExamined | lib/studio-store.ts:299-325 | the same for the loop over incoming edges: every examined source is a node of the graph, and visited |
| Resolver.ExpandNothing | lib/studio-store.ts:299 | the loop over no incoming edges examines and expands nothing |
| Resolver.ResolveWithOneImage | lib/studio-store.ts:287-335 | when every examined source offers nothing or the one image `u`, and one offers it, the resolution is the first live prompt's prompt and style with `imageUrl` `u` and `imageUrls` `[u]` |
| Resolver.WalkExpandsOnce | lib/studio-store.ts:291-295 | a walk from any node expands every id at most once, cycles included; the visited set is exactly the expanded ids; every examined node belongs to the graph |
| Resolver.ExpandSource | lib/studio-store.ts:299-324 | traversal is pre-order: a source is examined, then walked into, before the next sibling edge |
| Resolver.MissingSourceSkipped | lib/studio-store.ts:300-301 | an edge whose source node does not exist is skipped |
| Resolver.VisitedSourceNotExpanded | lib/studio-store.ts:294 | an edge from an already visited node examines that node but does not walk into it again |
| Resolver.EnterLeaf | lib/studio-store.ts:293-299 | entering a node without inputs marks it and examines nothing |
| Resolver.ExpandLeaf | lib/studio-store.ts:299-325 | a source without inputs is examined, marked and the loop goes on |
| Resolver.ExpandTwoLeaves | lib/studio-store.ts:299-325 | two input-free sources are examined in stored edge order |
| Resolver.ExpandSourceThenLeaf | lib/studio-store.ts:299-325 | the first source and everything below it are examined before the second source |
| Resolver.DefaultsAreInert | lib/studio-store.ts:84-115 | a freshly defaulted node of any type offers neither an image nor a live prompt |
| Templates.PushAngle | lib/studio-store.ts:144-182 | one `forEach` callback appends the angle's four nodes and then its four edges, in push order |
| Templates.BuildLayout | lib/studio-store.ts:134-185 | the initialiser, run over any angle table, builds exactly the layout of that table: the upload node, then each angle's four nodes and four edges in order |
| Templates.SimpleShape | lib/studio-store.ts:187-205 | `simple` has 2 nodes and 1 edge `simple-tp` → `simple-img`, and `simple-img` resolves to the template prompt with style `photorealistic` and no image |
| Templates.SimplePromptOffers | lib/studio-store.ts:189-194 | the `simple` prompt node is a live prompt holding the template prompt with the default style `photorealistic`, and offers no image |
| Templates.RowIdsEqual | lib/studio-store.ts:145-148 | `qi5-<role>-<i>` ids are equal only for the same role and angle, and never equal the upload id |
| Templates.FindInAngle | lib/studio-store.ts:145-176 | looking up an id among one row's nodes finds the node of that role |
| Templates.IncomingInAngle | lib/studio-store.ts:178-181 | one row's edges into its image generator are upload then prompt, and into its video generator image then video prompt |
| Templates.FindStacked | lib/studio-store.ts:144-176 | after rows are pushed, a lookup of an id that only one row knows is a lookup in that row, unless the starting nodes know it |
| Templates.IncomingStacked | lib/studio-store.ts:178-181 | after rows are pushed, the edges into an id that only one row feeds are that row's |
| Templates.AngleNodeIds | lib/studio-store.ts:145-176 | a row's nodes carry exactly its four role ids |
| Templates.AngleEdgesWithin | lib/studio-store.ts:178-181 | every edge of a row has both endpoints among the upload id and the row's four ids |
| Templates.StackedClosed | lib/studio-store.ts:144-182 | pushing rows whose edges only join the starting nodes and the row's own nodes leaves every edge with existing endpoints |
| Templates.LayoutLength | lib/studio-store.ts:134-182 | a layout of n angles has 1 + 4n nodes and 4n edges, with the upload node first |
| Templates.LayoutClosed | lib/studio-store.ts:134-182 | in a layout of any angle table every edge joins existing nodes |
| Templates.QuickImage5Shape | lib/studio-store.ts:118-185 | `quick-image-5` has 21 nodes and 20 edges, all with existing endpoints |
| Templates.RowLookups | lib/studio-store.ts:144-182 | in a layout, lookups of a row id land in that row, and only that row's edges point at it |
| Templates.UploadLookups | lib/studio-store.ts:134-182 | in a layout the upload node is found first and no edge points at it |
| Templates.ShapeImageWalk | lib/studio-store.ts:178-179 | the walk into an image generator of a row examines the upload, then the prompt |
| Templates.ShapeVideoWalk | lib/studio-store.ts:178-181 | in a row the walk from the video generator examines image generator, upload, prompt, then video prompt |
| Templates.LayoutRowShape | lib/studio-store.ts:144-182 | every row of a layout has that shape |
| Templates.UploadOffersNothing | lib/studio-store.ts:137-140 | the upload node holds no image yet and is not a prompt |
| Templates.PromptNodeOffers | lib/studio-store.ts:150-155 | a row's text prompt offers no image, is live exactly when the angle's prompt is non-empty, and holds that prompt with style `photorealistic` |
| Templates.ImageNodeOffersNothing | lib/studio-store.ts:157-162 | a row's image generator holds no output image and is not a prompt |
| Templates.VideoPromptNodeOffersNoImage | lib/studio-store.ts:164-169 | a row's video prompt offers no image |
| Templates.ShapeImageResolves | lib/studio-store.ts:178-179 | an image generator of a row with image-free inputs resolves to its prompt node's prompt and style |
| Templates.ShapeVideoResolves | lib/studio-store.ts:178-181 | a video generator of such a row resolves to the *image* prompt's prompt and style, since that prompt is met first |
| Templates.ShapeImageResolvesWithUpload | lib/studio-store.ts:178-179 | when the upload offers an image, a row's image generator resolves to its prompt node's prompt and style with that image as its only image |
| Templates.ShapeVideoResolvesWithUpload | lib/studio-store.ts:178-181 | a row's video generator then resolves to the image prompt's prompt and style with the upload's image as its only image |
| Templates.UploadedOffers | lib/studio-store.ts:137-140 | after `imageUrl` is set to a non-empty string, the upload node offers that image and still no prompt |
| Templates.UploadedRowShape | lib/studio-store.ts:144-182 | setting the upload's image with `updateNodeData` keeps every row of a layout in that shape |
| Templates.LayoutImageResolvesWithUpload | lib/studio-store.ts:134-182 | in a layout whose upload holds a non-empty image, `qi5-img-i` resolves to angle i's prompt with style `photorealistic` and that image as its only image |
| Templates.LayoutVideoResolvesWithUpload | lib/studio-store.ts:134-182 | in such a layout, `qi5-vid-i` resolves to angle i's image prompt with style `photorealistic` and the upload's image as its only image |
| Templates.LayoutImageResolves | lib/studio-store.ts:134-182 | in a layout of any angle table, `qi5-img-i` resolves to angle i's prompt with style `photorealistic` and no image when that prompt is non-empty |
| Templates.LayoutVideoResolves | lib/studio-store.ts:134-182 | in such a layout, `qi5-vid-i` resolves to angle i's image prompt with style `photorealistic` and no image, when that prompt is non-empty |
| Templates.AnglePromptsDiffer | lib/studio-store.ts:119-125 | every angle's image prompt is non-empty and differs from its video prompt |
| Templates.QuickImageResolves | lib/studio-store.ts:118-185 | `qi5-img-i` resolves to angle i's prompt with style `photorealistic` and no image |
| Templates.QuickVideoResolves | lib/studio-store.ts:118-185 | `qi5-vid-i` resolves to angle i's image prompt with style `photorealistic`, which is not its video prompt |
| Templates.QuickImageResolvesWithUpload | lib/studio-store.ts:118-185 | in `quick-image-5` with a non-empty image uploaded, each `qi5-img-i` resolves to that image and angle i's prompt in the photorealistic style |
| Templates.QuickVideoResolvesWithUpload | lib/studio-store.ts:118-185 | in `quick-image-5` with a non-empty image uploaded, each `qi5-vid-i` resolves to that image and angle i's image prompt in the photorealistic style |
| StudioStore.Store.constructor | lib/studio-store.ts:208-217 | the store starts empty, with nothing selected, no history, zero triggers and a zero counter |
| StudioStore.Store.RecordSnapshot | lib/studio-store.ts:222-224 | the snapshot step shared by the recording operations: the history becomes its recording, and nothing else changes |
| StudioStore.Store.OnNodesChange | lib/studio-store.ts:219-227 | a batch with an add or remove is recorded first, otherwise the stacks are untouched; the nodes become the library's result; the edges and other fields are unchanged |
| StudioStore.Store.OnEdgesChange | lib/studio-store.ts:229-237 | the same for edges |
| StudioStore.Store.OnConnect | lib/studio-store.ts:239-250 | always recorded; the edges become the library's result for the animated connection; the nodes are unchanged |
| StudioStore.Store.SetSelectedNode | lib/studio-store.ts:252 | only the selection changes |
| StudioStore.Store.AddNode | lib/studio-store.ts:254-270 | recorded; exactly one node is appended, with the type's default data overridden by the given data; its id carries the bumped counter and differs from every id handed out before |
| StudioStore.Store.UpdateNodeData | lib/studio-store.ts:272-278 | the nodes become the patched nodes; edges, history and everything else are untouched |
| StudioStore.Store.RemoveNode | lib/studio-store.ts:280-285 | the graph loses the node and every edge touching it; nothing is recorded |
| StudioStore.Store.GetUpstreamData | lib/studio-store.ts:287-335 | the resolution of the canvas graph, with clean images; the store is not modified |
| StudioStore.Store.SetNodes | lib/studio-store.ts:337 | only the nodes change; nothing is recorded |
| StudioStore.Store.SetEdges | lib/studio-store.ts:338 | only the edges change; nothing is recorded |
| StudioStore.Store.PushUndoState | lib/studio-store.ts:340-344 | the history becomes its recording; the graph is unchanged |
| StudioStore.Store.Undo | lib/studio-store.ts:346-356 | the history steps back one snapshot, or is unchanged on an empty undo stack; the selection and counters are untouched |
| StudioStore.Store.Redo | lib/studio-store.ts:358-368 | the history steps forward one snapshot, or is unchanged on an empty redo stack; the selection and counters are untouched |
| StudioStore.Store.TriggerBatchImages | lib/studio-store.ts:370-372 | only the image batch counter changes, by one |
| StudioStore.Store.TriggerBatchVideos | lib/studio-store.ts:374-376 | only the video batch counter changes, by one |
| StudioStore.Store.LoadTemplate | lib/studio-store.ts:378-388 | an unknown id changes nothing; a known one installs the template graph, clears the selection and both stacks, and leaves the triggers and the id counter alone |
| StudioStore.Store.Install | lib/studio-store.ts:381-387 | the state change of a successful template load |

## Left out

- The React Flow helpers `applyNodeChanges`, `applyEdgeChanges` and `addEdge` are parameters. Their internals are library code, so whether `addEdge` de-duplicates connections is not modelled.
- A change record keeps its kind, element id and, for an add or replace, the element. The rest of it (new position or size, selection and dragging flags) is a record of opaque fields. The store reads only the kind, and the whole record goes to the library function, which is a parameter.
- `Node` and `Edge` keep only the fields the store and the resolver read or the templates set. React Flow's own fields (`selected`, `measured`, `dragging`, `width`, `height`), which `applyNodeChanges` writes and snapshots copy, are not modelled.
- Template edges carry no `animated` key in the source. The model's edges always have the flag, and template edges have it `false`.
- `Date.now()` is a natural-number parameter. The clock, React, the UI components, the server and the API routes are not part of this model.
- Positions and numeric payload fields are opaque reals. No arithmetic is done on them, and NaN and floating-point rounding are not modelled.
- JSON deep copies of snapshots become value semantics. Values that JSON would lose or change (`undefined`, functions, NaN) cannot occur in the model.
- The payload model has no `undefined` value. A patch key set to `undefined` by `updateNodeData`, and therefore present but undefined, is not modelled. `addNode` without `data` is an empty patch.
- The module-level counter is a field of one store; it is not shared between stores. As in the source, `loadTemplate` does not reset it.
- StudioStore.Store.AddNode: freshness of the returned id is stated against the ids this store handed out while `IdsBelowCounter` holds. Ids that arrive through `setNodes`, `onNodesChange` or a template are not covered.
- Resolver.Candidate: the source pushes any truthy `imageUrl` or first output image, even one that is not a string (a number, or the first character of a string-valued `outputImages`). The model only collects strings.
- StudioStore.Store.LoadTemplate: the model knows only the two table keys. The source's `TEMPLATES[templateId]` would also find inherited object properties such as `toString` and then fail inside the deep copy.
- GraphEdits.RemoveAbsent: removing an id that no node carries still drops dangling edges that mention it. So the no-op holds only when no edge endpoint mentions the id either, which is what the source does.
