/**
 Sessions that edit a path again.  Every write and every undo gives the path an inode of its own, and
 inode numbers are taken as never reused: an earlier edit of the path can then never be undone.
 */
module UndoRepeat {

  import opened Undo
  import opened UndoOrder
  import opened UndoSession
  import opened UndoStack

  /** The path names another inode than the one the edit wrote, and always will. */
  predicate Stale(t: Tree, s: Snap) {
    s.ino < t.next && (s.path in t.entries ==> t.entries[s.path].ino != s.ino)
  }

  // ----- nothing brings a stale edit back -----

  /** Every entry of `u` is one of `t` or has a number not given out in `t`. */
  predicate OnlyFresh(t: Tree, u: Tree) {
    && t.next <= u.next
    && (forall q :: q in u.entries ==> (q in t.entries && u.entries[q] == t.entries[q]) || t.next <= u.entries[q].ino)
  }

  lemma {:induction false} FreshKeepsStale(t: Tree, u: Tree, s: Snap)
    requires OnlyFresh(t, u) && Stale(t, s)
    ensures Stale(u, s)
  {
  }

  lemma {:induction false} EnsureDirectoryFresh(t: Tree, d: Path)
    ensures OnlyFresh(t, EnsureDirectory(t, d).tree)
    decreases |d|
  {
    if !IsDirectory(t, d) { EnsureDirectoryFresh(t, Parent(d)); }
  }

  lemma {:induction false} WriteFresh(t: Tree, e: Edit)
    ensures OnlyFresh(t, Write(t, e).tree)
    ensures t.next <= Write(t, e).snap.ino < Write(t, e).tree.next && Write(t, e).snap.path == e.path
    ensures e.path in Write(t, e).tree.entries && Write(t, e).tree.entries[e.path].ino == Write(t, e).snap.ino
  {
    EnsureDirectoryFresh(t, Parent(e.path));
  }

  lemma {:induction false} RemoveCreatedFresh(t: Tree, created: seq<Created>)
    ensures OnlyFresh(t, RemoveCreated(t, created).tree)
    decreases |created|
  {
    if created != [] {
      var c, rest := created[|created| - 1], created[..|created| - 1];
      if c.path !in t.entries { RemoveCreatedFresh(t, rest); }
      else if t.entries[c.path] == Dir(c.ino) && EmptyDirectory(t, c.path) {
        RemoveCreatedFresh(t.(entries := t.entries - {c.path}), rest);
      }
    }
  }

  lemma {:induction false} UndoFresh(t: Tree, s: Snap)
    ensures OnlyFresh(t, UndoSnap(t, s).tree)
  {
    RemoveCreatedFresh(t.(entries := t.entries - {s.path}), s.created);
  }

  datatype Step = Writes(edit: Edit) | Undoes(snap: Snap)

  function AfterSteps(t: Tree, steps: seq<Step>): Tree
    decreases |steps|
  {
    if steps == [] then t else
      AfterSteps(if steps[0].Writes? then Write(t, steps[0].edit).tree else UndoSnap(t, steps[0].snap).tree, steps[1..])
  }

  lemma {:induction false} StepsKeepStale(t: Tree, steps: seq<Step>, s: Snap)
    requires Stale(t, s)
    ensures Stale(AfterSteps(t, steps), s)
    decreases |steps|
  {
    if steps != [] {
      if steps[0].Writes? { WriteFresh(t, steps[0].edit); } else { UndoFresh(t, steps[0].snap); }
      var u := if steps[0].Writes? then Write(t, steps[0].edit).tree else UndoSnap(t, steps[0].snap).tree;
      FreshKeepsStale(t, u, s);
      StepsKeepStale(u, steps[1..], s);
    }
  }

  /**
   Once a path has been written again, the undo of an earlier edit of it is refused and changes nothing,
   whatever is written and undone in between.
   */
  lemma {:induction false} OverwrittenNeverUndone(t: Tree, first: Edit, between: seq<Step>, again: Edit,
      after: seq<Step>)
    requires first.path == again.path
    ensures var w := Write(t, first);
            var u := AfterSteps(Write(AfterSteps(w.tree, between), again).tree, after);
            UndoSnap(u, w.snap) == Undone(u, false)
  {
    var w := Write(t, first);
    var v := AfterSteps(w.tree, between);
    WriteFresh(t, first);
    StepsGrow(w.tree, between);
    WriteFresh(v, again);
    assert Stale(Write(v, again).tree, w.snap);
    StepsKeepStale(Write(v, again).tree, after, w.snap);
  }

  lemma {:induction false} StepsGrow(t: Tree, steps: seq<Step>)
    ensures t.next <= AfterSteps(t, steps).next
    decreases |steps|
  {
    if steps != [] {
      if steps[0].Writes? { WriteFresh(t, steps[0].edit); } else { UndoFresh(t, steps[0].snap); }
      StepsGrow(if steps[0].Writes? then Write(t, steps[0].edit).tree else UndoSnap(t, steps[0].snap).tree, steps[1..]);
    }
  }

  // ----- a stack with a stale edit cannot be undone cleanly -----

  lemma {:induction false} UndoGroupFresh(t: Tree, group: seq<Snap>)
    ensures OnlyFresh(t, UndoGroup(t, group).tree)
  {
    if group != [] {
      var n := |group| - 1;
      UndoGroupFresh(t, group[..n]);
      UndoFresh(UndoGroup(t, group[..n]).tree, group[n]);
    }
  }

  lemma {:induction false} StaleGroupFails(t: Tree, group: seq<Snap>, k: nat)
    requires k < |group| && Stale(t, group[k])
    ensures UndoGroup(t, group).failures != []
  {
    var n := |group| - 1;
    if k < n {
      StaleGroupFails(t, group[..n], k);
    } else {
      UndoGroupFresh(t, group[..n]);
      FreshKeepsStale(t, UndoGroup(t, group[..n]).tree, group[k]);
    }
  }

  lemma {:induction false} StaleStackFails(t: Tree, stack: seq<seq<Snap>>, g: nat, k: nat)
    requires g < |stack| && k < |stack[g]| && Stale(t, stack[g][k])
    ensures !UndoAll(t, stack).ok
    decreases |stack|
  {
    var n := |stack| - 1;
    if g < n {
      UndoGroupFresh(t, stack[n]);
      FreshKeepsStale(t, UndoGroup(t, stack[n]).tree, stack[g][k]);
      StaleStackFails(UndoGroup(t, stack[n]).tree, stack[..n], g, k);
    } else {
      StaleGroupFails(t, stack[n], k);
    }
  }

  // ----- stacks built by any sequence of edits -----

  lemma {:induction false} WriteAllNumbers(t: Tree, edits: seq<Edit>, i: nat)
    requires i < |edits|
    ensures WriteAll(t, edits).snaps[i].ino < WriteAll(t, edits).tree.next
    decreases |edits|
  {
    var n := |edits| - 1;
    var s := WriteAll(t, edits[..n]);
    WriteFresh(s.tree, edits[n]);
    if i < n { WriteAllNumbers(t, edits[..n], i); }
  }

  lemma {:induction false} RepeatedIsStale(t: Tree, edits: seq<Edit>, i: nat, j: nat)
    requires i < j < |edits| && edits[i].path == edits[j].path
    ensures Stale(WriteAll(t, edits).tree, WriteAll(t, edits).snaps[i])
    decreases |edits|
  {
    var n := |edits| - 1;
    var s := WriteAll(t, edits[..n]);
    WriteFresh(s.tree, edits[n]);
    WriteAllPaths(t, edits[..n]);
    if j < n {
      RepeatedIsStale(t, edits[..n], i, j);
      FreshKeepsStale(s.tree, Write(s.tree, edits[n]).tree, s.snaps[i]);
    } else {
      WriteAllNumbers(t, edits[..n], i);
      assert s.snaps[i].path == edits[..n][i].path;
    }
  }

  lemma {:induction false} FlattenHolds(groups: seq<seq<Snap>>, i: nat) returns (g: nat, k: nat)
    requires i < |Flatten(groups)|
    ensures g < |groups| && k < |groups[g]| && groups[g][k] == Flatten(groups)[i]
  {
    var n := |groups| - 1;
    var front := Flatten(groups[..n]);
    if i < |front| {
      g, k := FlattenHolds(groups[..n], i);
    } else {
      g, k := n, i - |front|;
    }
  }

  /**
   For every sequence of edits from any tree, recorded in any groups: undoing the whole stack succeeds at every
   step if and only if no path was edited twice and no group put a file below a directory it made for an earlier
   one, and then the tree is the one before the first of these edits.
   */
  lemma {:induction false} StackRestoresIff(t: Tree, edits: seq<Edit>, stack: seq<seq<Snap>>)
    requires TreeOk(t) && AllWritable(t, edits) && Flatten(stack) == WriteAll(t, edits).snaps
    ensures var top := WriteAll(t, edits).tree;
            && (UndoAll(top, stack).ok <==> DistinctPaths(edits) && GroupsClean(stack))
            && (UndoAll(top, stack).ok ==> Restored(t, UndoAll(top, stack).tree))
  {
    var s := WriteAll(t, edits);
    if DistinctPaths(edits) {
      NothingInPlace(t);
      NewPathsKeepInPlace(t, [], t, edits);
      assert [] + s.snaps == s.snaps && [] + stack == stack;
      UndoAllRestoresIff(t, [], stack, s.tree);
    } else {
      var i, j :| 0 <= i < j < |edits| && edits[i].path == edits[j].path;
      RepeatedIsStale(t, edits, i, j);
      var g, k := FlattenHolds(stack, i);
      StaleStackFails(s.tree, stack, g, k);
    }
  }

  lemma {:induction false} NothingInPlace(t: Tree)
    requires TreeOk(t)
    ensures InPlace(t, [], t)
  {
    assert forall q :: q in t.entries ==> Kept(t, t, q);
  }
}
