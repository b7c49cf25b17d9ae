/** The mutable session: the file tree, the bounded stack of recorded groups, and `undoLast`. */
module UndoStack {

  import opened Common
  import opened Undo
  import opened UndoOrder
  import opened UndoSession

  /** Later groups push the oldest off a full stack; an empty group is not recorded. */
  function Push(stack: seq<seq<Snap>>, group: seq<Snap>): (r: seq<seq<Snap>>)
    ensures var all := if group == [] then stack else stack + [group];
            |stack| <= MAX_GROUPS ==> |r| == Min(|all|, MAX_GROUPS) && r == all[|all| - |r|..]
  {
    if group == [] then stack
    else if |stack| < MAX_GROUPS then stack + [group]
    else (stack + [group])[1..]
  }

  ghost predicate FreshPaths(snaps: seq<Snap>, edits: seq<Edit>) {
    && DistinctPaths(edits)
    && forall i :: 0 <= i < |edits| ==> !Edited(snaps, edits[i].path)
  }

  lemma {:induction false} WriteAllPaths(t: Tree, edits: seq<Edit>)
    ensures forall i :: 0 <= i < |edits| ==> WriteAll(t, edits).snaps[i].path == edits[i].path
    decreases |edits|
  {
    if edits != [] {
      var n := |edits| - 1;
      WriteAllPaths(t, edits[..n]);
      assert forall i :: 0 <= i < n ==> WriteAll(t, edits).snaps[i].path == edits[..n][i].path;
    }
  }

  lemma {:induction false} WriteAllKeepsTreeOk(t: Tree, edits: seq<Edit>)
    requires TreeOk(t) && AllWritable(t, edits)
    ensures TreeOk(WriteAll(t, edits).tree)
    decreases |edits|
  {
    if edits != [] {
      var n := |edits| - 1;
      WriteAllKeepsTreeOk(t, edits[..n]);
      WrittenTree(WriteAll(t, edits[..n]).tree, edits[n]);
    }
  }

  lemma {:induction false} NewPathsKeepInPlace(t0: Tree, snaps: seq<Snap>, t: Tree, edits: seq<Edit>)
    requires InPlace(t0, snaps, t) && AllWritable(t, edits) && FreshPaths(snaps, edits)
    ensures InPlace(t0, snaps + WriteAll(t, edits).snaps, WriteAll(t, edits).tree)
    decreases |edits|
  {
    if edits == [] {
      assert snaps + WriteAll(t, edits).snaps == snaps;
    } else {
      var n := |edits| - 1;
      var s := WriteAll(t, edits[..n]);
      NewPathsKeepInPlace(t0, snaps, t, edits[..n]);
      WriteAllPaths(t, edits[..n]);
      forall i: nat | i < |snaps + s.snaps| ensures (snaps + s.snaps)[i].path != edits[n].path {
        if |snaps| <= i { assert s.snaps[i - |snaps|].path == edits[..n][i - |snaps|].path; }
      }
      assert !Edited(snaps + s.snaps, edits[n].path);
      NewPathKeepsInPlace(t0, snaps + s.snaps, s.tree, edits[n]);
      assert snaps + WriteAll(t, edits).snaps == (snaps + s.snaps) + [Write(s.tree, edits[n]).snap];
    }
  }

  /** The account carries over to a group of writes exactly when it edits new, distinct paths. */
  lemma {:induction false} WriteAllKeepsInPlace(t0: Tree, snaps: seq<Snap>, t: Tree, edits: seq<Edit>)
    requires InPlace(t0, snaps, t) && AllWritable(t, edits)
    ensures InPlace(t0, snaps + WriteAll(t, edits).snaps, WriteAll(t, edits).tree) <==> FreshPaths(snaps, edits)
  {
    if FreshPaths(snaps, edits) {
      NewPathsKeepInPlace(t0, snaps, t, edits);
    } else {
      RepeatBreaksFacts(t0, snaps, t, edits);
    }
  }

  lemma {:induction false} RepeatBreaksFacts(t0: Tree, snaps: seq<Snap>, t: Tree, edits: seq<Edit>)
    requires !FreshPaths(snaps, edits)
    ensures !Facts(t0, snaps + WriteAll(t, edits).snaps)
  {
    var all, n := snaps + WriteAll(t, edits).snaps, |snaps|;
    WriteAllPaths(t, edits);
    if !DistinctPaths(edits) {
      var i, j :| 0 <= i < j < |edits| && edits[i].path == edits[j].path;
      assert all[n + i].path == all[n + j].path;
      assert !Separate(all[n + i], all[n + j]);
    } else {
      var j :| 0 <= j < |edits| && Edited(snaps, edits[j].path);
      var i: nat :| i < n && snaps[i].path == edits[j].path;
      assert all[i] == snaps[i] && all[n + j].path == all[i].path;
      assert !Separate(all[i], all[n + j]);
    }
  }

  class Workspace {
    var tree: Tree
    var stack: seq<seq<Snap>>
    ghost var base: Tree
    /** Groups pushed off the stack: their edits stay. */
    ghost var dropped: seq<seq<Snap>>
    /** No path has been edited again and no undo has failed. */
    ghost var intact: bool

    /** While intact, the tree is the base with exactly the dropped and the recorded edits in place. */
    ghost predicate Valid()
      reads this
    {
      && |stack| <= MAX_GROUPS && TreeOk(tree)
      && (intact ==> InPlace(base, Flatten(dropped + stack), tree))
    }

    constructor (t: Tree)
      requires TreeOk(t)
      ensures Valid() && intact && tree == base == t && stack == dropped == []
    {
      tree, base, stack, dropped, intact := t, t, [], [], true;
    }

    method WriteFiles(edits: seq<Edit>) returns (group: seq<Snap>)
      modifies this`tree
      ensures Session(tree, group) == WriteAll(old(tree), edits)
    {
      group := [];
      var i := 0;
      while i < |edits|
        invariant 0 <= i <= |edits|
        invariant Session(tree, group) == WriteAll(old(tree), edits[..i])
      {
        assert edits[..i + 1][..i] == edits[..i];
        var w := Write(tree, edits[i]);
        tree, group := w.tree, group + [w.snap];
        i := i + 1;
      }
      assert edits[..i] == edits;
    }

    /** Writes a group of files and records it as one undo step. */
    method EditFiles(edits: seq<Edit>) returns (group: seq<Snap>)
      requires Valid() && AllWritable(tree, edits)
      modifies this
      ensures Valid() && base == old(base)
      ensures intact == (old(intact) && FreshPaths(old(Flatten(dropped + stack)), edits))
      ensures tree == WriteAll(old(tree), edits).tree && group == WriteAll(old(tree), edits).snaps
      ensures stack == Push(old(stack), group)
      ensures Flatten(dropped + stack) == old(Flatten(dropped + stack)) + group
    {
      group := WriteFiles(edits);
      WriteAllKeepsTreeOk(old(tree), edits);
      if intact { WriteAllKeepsInPlace(base, Flatten(dropped + stack), old(tree), edits); }
      intact := intact && FreshPaths(Flatten(dropped + stack), edits);
      RecordEdit(group);
    }

    method RecordEdit(group: seq<Snap>)
      requires |stack| <= MAX_GROUPS
      modifies this`stack, this`dropped
      ensures stack == Push(old(stack), group)
      ensures Flatten(dropped + stack) == old(Flatten(dropped + stack)) + group
    {
      if |group| == 0 { return; }
      assert (dropped + stack + [group])[..|dropped + stack|] == dropped + stack;
      stack := stack + [group];
      assert dropped + stack == old(dropped + stack) + [group];
      if |stack| > MAX_GROUPS {
        dropped := dropped + [stack[0]];
        stack := stack[1..];
        assert dropped + stack == old(dropped + stack) + [group];
      }
    }

    method RemoveCreatedDirectories(created: seq<Created>) returns (ok: bool)
      modifies this`tree
      ensures Undone(tree, ok) == RemoveCreated(old(tree), created)
    {
      var i := |created|;
      assert created[..i] == created;
      while i > 0
        invariant 0 <= i <= |created|
        invariant RemoveCreated(tree, created[..i]) == RemoveCreated(old(tree), created)
      {
        i := i - 1;
        assert created[..i + 1][..i] == created[..i];
        var c := created[i];
        if c.path !in tree.entries { continue; }
        if tree.entries[c.path] != Dir(c.ino) || !EmptyDirectory(tree, c.path) { return false; }
        tree := tree.(entries := tree.entries - {c.path});
      }
      return true;
    }

    method UndoCommitted(s: Snap) returns (ok: bool)
      modifies this`tree
      ensures Undone(tree, ok) == UndoSnap(old(tree), s)
    {
      if s.path !in tree.entries || tree.entries[s.path] != File(s.ino, s.after, s.mode) { return false; }
      if s.before.None? {
        tree := tree.(entries := tree.entries - {s.path});
        ok := RemoveCreatedDirectories(s.created);
      } else {
        tree := Tree(tree.entries[s.path := File(tree.next, s.before.value.text, s.before.value.mode)], tree.next + 1);
        ok := true;
      }
    }

    /** `None` when there is nothing to undo. */
    method UndoLast() returns (r: Option<Report>)
      requires Valid()
      modifies this`tree, this`stack, this`intact
      ensures Valid()
      ensures old(stack) == [] ==> r.None? && tree == old(tree) && stack == [] && intact == old(intact)
      ensures old(stack) != [] ==>
                var group := old(stack)[|old(stack)| - 1];
                && r == Some(UndoGroup(old(tree), group))
                && tree == r.value.tree
                && stack == old(stack)[..|old(stack)| - 1]
                && (old(intact) ==> (r.value.failures == [] <==> NoSharedNewDirectory(group)))
                && intact == (old(intact) && r.value.failures == [])
    {
      if |stack| == 0 { return None; }
      var group := stack[|stack| - 1];
      ghost var was := dropped + stack;
      stack := stack[..|stack| - 1];
      assert was[..|was| - 1] == dropped + stack;
      UndoGroupKeepsTreeOk(tree, group);
      if intact { UndoGroupSucceedsIff(base, Flatten(dropped + stack), group, tree); }
      var files, failures := [], [];
      var i := 0;
      while i < |group|
        invariant 0 <= i <= |group|
        invariant Report(tree, files, failures) == UndoGroup(old(tree), group[..i])
        invariant stack == old(stack)[..|old(stack)| - 1] && intact == old(intact)
      {
        assert group[..i + 1][..i] == group[..i];
        var ok := UndoCommitted(group[i]);
        if ok { files := files + [group[i].path]; } else { failures := failures + [group[i].path]; }
        i := i + 1;
      }
      assert group[..i] == group;
      intact := intact && failures == [];
      return Some(Report(tree, files, failures));
    }
  }

  // ----- where the promise stops -----

  /**
   One group that writes two files into a directory it has to make: the undo reports a failure and
   leaves the directory.
   */
  lemma {:induction false} NewDirectoryLeftBehind(dir: nat, a: nat, b: nat, x: string, y: string)
    requires a != b
    ensures var s := WriteAll(Tree(map[], 0), [Edit([dir, a], x), Edit([dir, b], y)]);
            var r := UndoGroup(s.tree, s.snaps);
            r.files == [[dir, b]] && r.failures == [[dir, a]] && r.tree.entries == map[[dir] := Dir(0)]
  {
    TwoWrites(dir, a, b, x, y);
    WriteAllTwo(Tree(map[], 0), Edit([dir, a], x), Edit([dir, b], y));
    TwoUndos(dir, a, b, x, y);
    var p := Snap([dir, a], None, 1, NEW_FILE_MODE, x, [Created([dir], 0)]);
    var q := Snap([dir, b], None, 2, NEW_FILE_MODE, y, []);
    UndoGroupTwo(TwoFiles(dir, a, b, x, y), p, q);
  }

  lemma {:induction false} WriteAllTwo(t: Tree, e: Edit, f: Edit)
    ensures var w := Write(t, e); var v := Write(w.tree, f); WriteAll(t, [e, f]) == Session(v.tree, [w.snap, v.snap])
  {
    assert [e, f][..1] == [e] && [e][..0] == [];
    assert WriteAll(t, [e]) == Session(Write(t, e).tree, [Write(t, e).snap]);
  }

  lemma {:induction false} UndoGroupTwo(t: Tree, p: Snap, q: Snap)
    requires !UndoSnap(t, p).ok && UndoSnap(UndoSnap(t, p).tree, q).ok
    ensures UndoGroup(t, [p, q]) == Report(UndoSnap(UndoSnap(t, p).tree, q).tree, [q.path], [p.path])
  {
    assert [p, q][..1] == [p] && [p][..0] == [];
    assert UndoGroup(t, [p]) == Report(UndoSnap(t, p).tree, [], [p.path]);
  }

  lemma {:induction false} TwoUndos(dir: nat, a: nat, b: nat, x: string, y: string)
    requires a != b
    ensures var left := Tree(map[[dir] := Dir(0), [dir, b] := File(2, y, NEW_FILE_MODE)], 3);
            && UndoSnap(TwoFiles(dir, a, b, x, y), Snap([dir, a], None, 1, NEW_FILE_MODE, x, [Created([dir], 0)]))
                == Undone(left, false)
            && UndoSnap(left, Snap([dir, b], None, 2, NEW_FILE_MODE, y, []))
                == Undone(Tree(map[[dir] := Dir(0)], 3), true)
  {
    var left := Tree(map[[dir] := Dir(0), [dir, b] := File(2, y, NEW_FILE_MODE)], 3);
    assert TwoFiles(dir, a, b, x, y).entries - {[dir, a]} == left.entries;
    assert [dir, b] in left.entries && Below([dir], [dir, b]);
    assert left.entries - {[dir, b]} == map[[dir] := Dir(0)];
  }

  function OneFile(dir: nat, a: nat, x: string): Tree {
    Tree(map[[dir] := Dir(0), [dir, a] := File(1, x, NEW_FILE_MODE)], 2)
  }

  function TwoFiles(dir: nat, a: nat, b: nat, x: string, y: string): Tree {
    Tree(map[[dir] := Dir(0), [dir, a] := File(1, x, NEW_FILE_MODE), [dir, b] := File(2, y, NEW_FILE_MODE)], 3)
  }

  lemma {:induction false} TwoWrites(dir: nat, a: nat, b: nat, x: string, y: string)
    requires a != b
    ensures Write(Tree(map[], 0), Edit([dir, a], x))
         == Written(OneFile(dir, a, x), Snap([dir, a], None, 1, NEW_FILE_MODE, x, [Created([dir], 0)]))
    ensures Write(OneFile(dir, a, x), Edit([dir, b], y))
         == Written(TwoFiles(dir, a, b, x, y), Snap([dir, b], None, 2, NEW_FILE_MODE, y, []))
  {
    assert Parent([dir, a]) == [dir] && Parent([dir, b]) == [dir] && Parent([dir]) == [];
    assert EnsureDirectory(Tree(map[], 0), [dir]) == Made(Tree(map[[dir] := Dir(0)], 1), [Created([dir], 0)]);
  }
}
