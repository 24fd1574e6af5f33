/** Snapshot history: the undo and redo stacks and the moves between them. */
module UndoHistory {
  import opened StudioGraph

  /** The present graph with both stacks; the last element of a stack is its top. */
  datatype Timeline = Timeline(present: Graph, undo: seq<Graph>, redo: seq<Graph>)

  /** How many old snapshots `slice(-30)` keeps before a new one is appended. */
  const Kept := 30

  /** `stack.slice(-30)`: the most recent `Kept` snapshots, oldest first. */
  function Recent(stack: seq<Graph>): (r: seq<Graph>)
    ensures |r| == if |stack| <= Kept then |stack| else Kept
  {
    if |stack| <= Kept then stack else stack[|stack| - Kept..]
  }

  /** `[...stack.slice(-30), snapshot]`. Since the slice is taken before the
      append, a stack can hold `Kept + 1` snapshots. */
  function Pushed(stack: seq<Graph>, snapshot: Graph): (r: seq<Graph>)
    ensures 1 <= |r| <= Kept + 1 && |r| - 1 <= |stack|
  {
    Recent(stack) + [snapshot]
  }

  /** The slice is the tail of the stack: nothing is reordered or altered. */
  lemma RecentIsTail(stack: seq<Graph>)
    ensures Recent(stack) == stack[|stack| - |Recent(stack)|..]
  {
  }

  /** The snapshot lands on top, above the most recent old snapshots in
      their old order; below the limit, pushing is a plain append. */
  lemma PushedShape(stack: seq<Graph>, snapshot: Graph)
    ensures var r := Pushed(stack, snapshot);
      && r[|r| - 1] == snapshot
      && r[..|r| - 1] == stack[|stack| - (|r| - 1)..]
      && (|stack| < Kept + 1 ==> r == stack + [snapshot])
  {
    var r := Pushed(stack, snapshot);
    RecentIsTail(stack);
    assert r[..|r| - 1] == Recent(stack);
  }

  /** What every history-recording operation does before it changes the graph:
      snapshot the present onto the undo stack and drop all redo history. */
  function Record(t: Timeline): Timeline
  {
    t.(undo := Pushed(t.undo, t.present), redo := [])
  }

  /** `undo`: with an empty undo stack, nothing; otherwise the top snapshot
      becomes the present and the present goes onto the redo stack. */
  function Undo(t: Timeline): Timeline
  {
    if t.undo == [] then t
    else Timeline(t.undo[|t.undo| - 1], t.undo[..|t.undo| - 1], t.redo + [t.present])
  }

  /** `redo`, the mirror image of `undo`. */
  function Redo(t: Timeline): Timeline
  {
    if t.redo == [] then t
    else Timeline(t.redo[|t.redo| - 1], t.undo + [t.present], t.redo[..|t.redo| - 1])
  }

  /** The bound the store keeps on its two stacks together. */
  predicate Bounded(t: Timeline)
  {
    |t.undo| + |t.redo| <= Kept + 1
  }

  /** After recording, the top of the undo stack is the graph as it was, the
      redo stack is empty, the stacks are bounded and the present is untouched. */
  lemma RecordEffects(t: Timeline)
    ensures var r := Record(t);
      && r.present == t.present
      && r.undo[|r.undo| - 1] == t.present
      && r.redo == []
      && |r.undo| <= Kept + 1
      && Bounded(r)
  {
    PushedShape(t.undo, t.present);
  }

  /** The snapshots under the new top are the most recent ones of the old
      undo stack, in their old order: recording forgets only the oldest. */
  lemma RecordForgetsOnlyOldest(t: Timeline, k: nat)
    requires k < |t.undo| && |t.undo| - k <= Kept
    ensures var r := Record(t);
      r.undo[|r.undo| - 1 - (|t.undo| - k)] == t.undo[k]
  {
    var r := Record(t);
    PushedShape(t.undo, t.present);
    var n := |r.undo| - 1;
    assert r.undo[..n] == t.undo[|t.undo| - n..];
    assert r.undo[n - (|t.undo| - k)] == r.undo[..n][n - (|t.undo| - k)];
  }

  /** An undo on an empty undo stack and a redo on an empty redo stack do nothing. */
  lemma EmptyIsNoOp(t: Timeline)
    ensures t.undo == [] ==> Undo(t) == t
    ensures t.redo == [] ==> Redo(t) == t
  {
  }

  /** A redo right after an undo restores the present and both stacks exactly. */
  lemma RedoUndoes(t: Timeline)
    requires t.undo != []
    ensures Redo(Undo(t)) == t
  {
    var u := Undo(t);
    assert u.redo[..|u.redo| - 1] == t.redo;
    assert u.undo + [u.present] == t.undo;
  }

  /** An undo right after a redo restores the present and both stacks exactly. */
  lemma UndoUndoes(t: Timeline)
    requires t.redo != []
    ensures Undo(Redo(t)) == t
  {
    var r := Redo(t);
    assert r.undo[..|r.undo| - 1] == t.undo;
    assert r.redo + [r.present] == t.redo;
  }

  /** Undo and redo move one snapshot between the stacks, so they keep the
      total number of snapshots, and with it the bound. */
  lemma MovesKeepTotal(t: Timeline)
    ensures |Undo(t).undo| + |Undo(t).redo| == |t.undo| + |t.redo|
    ensures |Redo(t).undo| + |Redo(t).redo| == |t.undo| + |t.redo|
    ensures Bounded(t) ==> Bounded(Undo(t)) && Bounded(Redo(t))
  {
  }

  /** `k` undos in a row. */
  function UndoTimes(t: Timeline, k: nat): Timeline
    decreases k
  {
    if k == 0 then t else UndoTimes(Undo(t), k - 1)
  }

  /** `k` redos in a row. */
  function RedoTimes(t: Timeline, k: nat): Timeline
  {
    if k == 0 then t else Redo(RedoTimes(t, k - 1))
  }

  lemma {:induction false} UndoTimesShape(t: Timeline, k: nat)
    requires k <= |t.undo|
    ensures |UndoTimes(t, k).undo| == |t.undo| - k
    ensures |UndoTimes(t, k).redo| == |t.redo| + k
    decreases k
  {
    if k > 0 {
      UndoTimesShape(Undo(t), k - 1);
    }
  }

  /** Undoing `k` steps and redoing `k` steps returns to the exact starting
      point, as long as nothing else is recorded in between. */
  lemma {:induction false} UndoRedoTimes(t: Timeline, k: nat)
    requires k <= |t.undo|
    ensures RedoTimes(UndoTimes(t, k), k) == t
    decreases k
  {
    if k > 0 {
      var u := Undo(t);
      UndoRedoTimes(u, k - 1);
      UndoTimesShape(u, k - 1);
      // the k-1 redos leave the state right after the first undo ...
      assert RedoTimes(UndoTimes(u, k - 1), k - 1) == u;
      // ... whose redo stack is non-empty, so one more redo undoes it.
      RedoUndoes(t);
    }
  }

  /** Recording after an undo discards every pending redo: history is linear. */
  lemma RecordAfterUndoClearsRedo(t: Timeline)
    ensures Record(Undo(t)).redo == []
    ensures Undo(Record(t)).present == t.present
  {
  }
}
