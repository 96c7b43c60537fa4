/** The undo/redo discipline: whole-collection snapshots on two stacks. The
    snapshots are value copies (the source round-trips them through JSON), so a
    stack is a sequence of card sequences; the top of a stack is its last element. */
module History {
  import opened Cards

  /** The undo stack holds at most this many snapshots. */
  const MaxUndo: nat := 20

  /** `list.push(x); if (list.length > cap) list.shift();` — append, then drop the
      oldest entry once if the list became longer than `cap`. The result ends with
      `x` and is no longer than `cap` when `s` was not. */
  function PushBounded<T>(s: seq<T>, x: T, cap: nat): (r: seq<T>)
    requires cap > 0
    ensures |r| == if |s| < cap then |s| + 1 else |s|
    ensures r[|r| - 1] == x
    ensures |s| <= cap ==> |r| <= cap
  {
    var pushed := s + [x];
    if |pushed| > cap then pushed[1..] else pushed
  }

  /** Nothing but the oldest entry is ever lost: the result is the newest entries
      of `s + [x]`, in order. */
  lemma PushBoundedKeepsNewest<T>(s: seq<T>, x: T, cap: nat)
    requires cap > 0
    ensures PushBounded(s, x, cap) == (s + [x])[|s| + 1 - |PushBounded(s, x, cap)|..]
  {
  }

  /** The live collection together with the two stacks. */
  datatype State = State(live: seq<Card>, undo: seq<seq<Card>>, redo: seq<seq<Card>>)

  /** The invariant every operation keeps: undo and redo together hold at most
      `MaxUndo` snapshots (undo and redo move one snapshot between the stacks). */
  predicate Bounded(h: State) {
    |h.undo| + |h.redo| <= MaxUndo
  }

  /** `saveToUndoStack`: push a copy of the live collection, evicting the oldest
      snapshot beyond `MaxUndo`, and forget the redo history. */
  function Snapshot(h: State): (r: State)
    requires |h.undo| <= MaxUndo
    ensures r.live == h.live && r.redo == []
    ensures |r.undo| > 0 && r.undo[|r.undo| - 1] == h.live
    ensures |r.undo| == if |h.undo| < MaxUndo then |h.undo| + 1 else MaxUndo
    ensures Bounded(r)
  {
    State(h.live, PushBounded(h.undo, h.live, MaxUndo), [])
  }

  /** `undoAction`: nothing on an empty undo stack; otherwise the live collection
      goes onto the redo stack and the newest undo snapshot becomes live. */
  function Undo(h: State): (r: State)
    ensures h.undo == [] ==> r == h
    ensures h.undo != [] ==> r.live == h.undo[|h.undo| - 1] && r.undo == h.undo[..|h.undo| - 1]
    ensures h.undo != [] ==> |r.redo| == |h.redo| + 1 && r.redo[|h.redo|] == h.live && r.redo[..|h.redo|] == h.redo
    ensures |r.undo| + |r.redo| == |h.undo| + |h.redo|
  {
    if h.undo == [] then h
    else State(h.undo[|h.undo| - 1], h.undo[..|h.undo| - 1], h.redo + [h.live])
  }

  /** `redoAction`, the mirror of `Undo` with the stacks' roles exchanged. */
  function Redo(h: State): (r: State)
    ensures h.redo == [] ==> r == h
    ensures h.redo != [] ==> r.live == h.redo[|h.redo| - 1] && r.redo == h.redo[..|h.redo| - 1]
    ensures h.redo != [] ==> |r.undo| == |h.undo| + 1 && r.undo[|h.undo|] == h.live && r.undo[..|h.undo|] == h.undo
    ensures |r.undo| + |r.redo| == |h.undo| + |h.redo|
  {
    if h.redo == [] then h
    else State(h.redo[|h.redo| - 1], h.undo + [h.live], h.redo[..|h.redo| - 1])
  }

  /** Undo then redo is the identity whenever there was something to undo. */
  lemma RedoUndo(h: State)
    requires h.undo != []
    ensures Redo(Undo(h)) == h
  {
    var u := Undo(h);
    assert u.redo[..|u.redo| - 1] == h.redo;
    assert u.undo + [u.live] == h.undo;
  }

  /** Redo then undo is the identity whenever there was something to redo. */
  lemma UndoRedo(h: State)
    requires h.redo != []
    ensures Undo(Redo(h)) == h
  {
    var r := Redo(h);
    assert r.undo[..|r.undo| - 1] == h.undo;
    assert r.redo + [r.live] == h.redo;
  }

  /** Undo and redo keep the bound. */
  lemma UndoRedoBounded(h: State)
    requires Bounded(h)
    ensures Bounded(Undo(h)) && Bounded(Redo(h))
  {
  }

  /** Snapshot-before-mutate: after a snapshot and any change of the live
      collection to `next`, one undo restores exactly the collection before the
      change, and a redo after it brings `next` back. */
  lemma UndoRevertsMutation(h: State, next: seq<Card>)
    requires |h.undo| <= MaxUndo
    ensures var s := Snapshot(h); var u := Undo(State(next, s.undo, s.redo));
      u.live == h.live && u.redo == [next] && Redo(u).live == next
  {
  }

  /** Snapshot-after-mutate, the order `duplicateCard` and the subtask operations
      use: the snapshot already holds the changed collection, so one undo leaves
      the live collection as it is (it only consumes the snapshot). */
  lemma UndoAfterLateSnapshot(h: State)
    requires |h.undo| <= MaxUndo
    ensures Undo(Snapshot(h)).live == h.live
  {
  }

  /** Eviction: once the undo stack is full, a snapshot drops the oldest entry and
      keeps the other nineteen in order. */
  lemma SnapshotEvictsOldest(h: State)
    requires |h.undo| == MaxUndo
    ensures Snapshot(h).undo == h.undo[1..] + [h.live]
  {
  }
}
