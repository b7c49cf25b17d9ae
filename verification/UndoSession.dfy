/**
 Whole sessions: groups of edits written, recorded on a stack of at most fifty, and undone newest
 group first but, inside a group, in the order they were written.
 */
module UndoSession {

  import opened Common
  import opened Undo
  import opened UndoOrder

  const MAX_GROUPS: nat := 50

  // ----- every edit keeps the session -----

  ghost function All(n: nat): (s: set<nat>)
    ensures forall i: nat :: i in s <==> i < n
  {
    set i: nat | i < n && In(i, 0, n)
  }

  predicate In(i: nat, lo: nat, hi: nat) { lo <= i < hi }

  /** `t` is `t0` with all of `snaps` in place. */
  ghost predicate InPlace(t0: Tree, snaps: seq<Snap>, t: Tree) {
    && TreeOk(t0) && TreeOk(t)
    && Facts(t0, snaps)
    && Rel(t0, snaps, All(|snaps|), t)
  }

  lemma {:induction false} WrittenTree(t: Tree, e: Edit)
    requires TreeOk(t) && Writable(t, e.path)
    ensures MadeOk(t, Parent(e.path), EnsureDirectory(t, Parent(e.path)))
    ensures TreeOk(Write(t, e).tree)
  {
    var p, up := e.path, Parent(e.path);
    assert Below(up, p);
    forall q | q in t.entries && AtOrBelow(q, up) ensures t.entries[q].Dir? { BelowTrans(q, up, p); }
    EnsureDirectoryMakes(t, up);
    var m, w := EnsureDirectory(t, up), Write(t, e).tree;
    forall k: nat | k < |m.created| ensures m.created[k].path != [] && AtOrBelow(m.created[k].path, up) {
      assert Made1(t, up, m, k);
    }
    forall q, d | q in w.entries && d != [] && Below(d, q) ensures d in w.entries && w.entries[d].Dir? {
      if q == p { assert up[..|d|] == p[..|d|]; }
      else if q !in t.entries { assert Makes(m.created, q); BelowTrans(d, q, up); }
    }
  }

  lemma {:induction false} WrittenSnap(t0: Tree, snaps: seq<Snap>, t: Tree, e: Edit)
    requires InPlace(t0, snaps, t) && Writable(t, e.path) && !Edited(snaps, e.path)
    ensures SnapOk(t0, Write(t, e).snap)
    ensures forall i: nat :: i < |snaps| ==> Separate(snaps[i], Write(t, e).snap)
  {
    WrittenTree(t, e);
    var up := Parent(e.path);
    var m, s := EnsureDirectory(t, up), Write(t, e).snap;
    assert Below(up, e.path);
    forall k: nat | k < |s.created| ensures MadeOutside(t0, s, k) {
      assert Made1(t, up, m, k);
      BelowTrans(s.created[k].path, up, e.path);
    }
    if s.before.Some? {
      assert e.path in t0.entries by { NotOwned(t0, snaps, t, e.path); }
      assert IsDirectory(t, up);
    }
    forall i: nat | i < |snaps| ensures Separate(snaps[i], s) {
      assert i in All(|snaps|) && Live(t, snaps[i]);
      assert snaps[i].path != e.path;
      forall k: nat | k < |s.created| ensures !Below(s.created[k].path, snaps[i].path) { assert Made1(t, up, m, k); }
    }
  }

  lemma {:induction false} NotOwned(t0: Tree, snaps: seq<Snap>, t: Tree, p: Path)
    requires Rel(t0, snaps, All(|snaps|), t) && !Edited(snaps, p) && p in t.entries && t.entries[p].File?
    ensures p in t0.entries
  {
    forall i: nat | i in All(|snaps|) ensures !Owns(snaps[i], p) {
      assert Live(t, snaps[i]);
      forall k | 0 <= k < |snaps[i].created| ensures snaps[i].created[k].path != p {
        assert DirIn(t, snaps[i].created[k]);
      }
    }
    assert !OwnedLive(snaps, All(|snaps|), p);
  }

  lemma {:induction false} WriteKeepsLive(t: Tree, e: Edit, s: Snap)
    requires TreeOk(t) && Writable(t, e.path) && Live(t, s) && s.path != e.path
    ensures Live(Write(t, e).tree, s)
  {
    WrittenTree(t, e);
    forall k | 0 <= k < |s.created| ensures DirIn(Write(t, e).tree, s.created[k]) { assert DirIn(t, s.created[k]); }
  }

  lemma {:induction false} WriteIsLive(t: Tree, e: Edit)
    requires TreeOk(t) && Writable(t, e.path)
    ensures Live(Write(t, e).tree, Write(t, e).snap)
    ensures forall q :: q in Write(t, e).tree.entries && q !in t.entries ==> Owns(Write(t, e).snap, q)
    ensures forall q :: q in t.entries ==> q in Write(t, e).tree.entries
    ensures forall q :: q in t.entries && q != e.path ==> Write(t, e).tree.entries[q] == t.entries[q]
  {
    WrittenTree(t, e);
    var s, m := Write(t, e).snap, EnsureDirectory(t, Parent(e.path));
    forall k: nat | k < |s.created| ensures DirIn(Write(t, e).tree, s.created[k]) {
      assert Made1(t, Parent(e.path), m, k);
    }
  }

  /** The account carries over to a further write exactly when it is of a path not yet edited. */
  lemma {:induction false} WriteKeepsInPlace(t0: Tree, snaps: seq<Snap>, t: Tree, e: Edit)
    requires InPlace(t0, snaps, t) && Writable(t, e.path)
    ensures InPlace(t0, snaps + [Write(t, e).snap], Write(t, e).tree) <==> !Edited(snaps, e.path)
  {
    var s := Write(t, e).snap;
    if Edited(snaps, e.path) {
      var i: nat :| i < |snaps| && snaps[i].path == e.path;
      assert (snaps + [s])[i] == snaps[i] && (snaps + [s])[|snaps|] == s;
      assert !Separate(snaps[i], s);
    } else {
      NewPathKeepsInPlace(t0, snaps, t, e);
    }
  }

  lemma {:induction false} NewPathKeepsInPlace(t0: Tree, snaps: seq<Snap>, t: Tree, e: Edit)
    requires InPlace(t0, snaps, t) && Writable(t, e.path) && !Edited(snaps, e.path)
    ensures InPlace(t0, snaps + [Write(t, e).snap], Write(t, e).tree)
  {
    var s, w := Write(t, e).snap, Write(t, e).tree;
    assert TreeOk(w) by { WrittenTree(t, e); }
    assert Facts(t0, snaps + [s]) by { WrittenSnap(t0, snaps, t, e); }
    assert Rel(t0, snaps + [s], All(|snaps| + 1), w) by {
      forall i: nat | i < |snaps| ensures Live(w, snaps[i]) {
        assert i in All(|snaps|);
        WriteKeepsLive(t, e, snaps[i]);
      }
      WriteIsLive(t, e);
      WriteKeepsRel(t0, snaps, t, w, s);
    }
  }

  lemma {:induction false} WriteKeepsRel(t0: Tree, snaps: seq<Snap>, t: Tree, w: Tree, s: Snap)
    requires Rel(t0, snaps, All(|snaps|), t)
    requires forall i: nat :: i < |snaps| ==> Live(w, snaps[i])
    requires Live(w, s)
    requires forall q :: q in w.entries && q !in t.entries ==> Owns(s, q)
    requires forall q :: q in t.entries ==> q in w.entries
    requires forall q :: q in t.entries && q != s.path ==> w.entries[q] == t.entries[q]
    ensures Rel(t0, snaps + [s], All(|snaps| + 1), w)
  {
    var all := snaps + [s];
    assert all[|snaps|] == s;
    forall i: nat | i < |all| ensures Live(w, all[i]) { if i < |snaps| { assert all[i] == snaps[i]; } }
    forall q | q in w.entries && q !in t0.entries ensures OwnedLive(all, All(|all|), q) {
      if q in t.entries {
        var i: nat :| i in All(|snaps|) && i < |snaps| && Owns(snaps[i], q);
        assert i in All(|all|) && all[i] == snaps[i];
      } else {
        assert |snaps| in All(|all|) && Owns(all[|snaps|], q);
      }
    }
    forall q | q in t0.entries ensures q in w.entries && (Edited(all, q) || Kept(t0, w, q)) {
      if q == s.path { assert all[|snaps|].path == q; }
      else if Edited(snaps, q) { var i: nat :| i < |snaps| && snaps[i].path == q; assert all[i].path == q; }
      else { assert Kept(t0, t, q); }
    }
  }

  // ----- undoing a group -----

  /** What one `undoLast` reports: the paths reverted and the paths refused. */
  datatype Report = Report(tree: Tree, files: seq<Path>, failures: seq<Path>)

  function UndoGroup(t: Tree, group: seq<Snap>): Report {
    if group == [] then Report(t, [], []) else
      var n := |group| - 1;
      var r := UndoGroup(t, group[..n]);
      var u := UndoSnap(r.tree, group[n]);
      if u.ok then Report(u.tree, r.files + [group[n].path], r.failures)
      else Report(u.tree, r.files, r.failures + [group[n].path])
  }

  /** No file of the group lies below a directory made for one of its first `n` files before it. */
  predicate ClearUpTo(group: seq<Snap>, n: nat) {
    forall a: nat, b: nat :: a < n && a < b < |group| ==> !MadeAbove(group[a], group[b].path)
  }

  predicate AboveLater(group: seq<Snap>, n: nat)
    requires n < |group|
  {
    exists b: nat :: n < b < |group| && MadeAbove(group[n], group[b].path)
  }

  /** No file of the group lies below a directory made for an earlier file of the group. */
  predicate NoSharedNewDirectory(group: seq<Snap>) {
    forall a: nat, b: nat :: a < b < |group| ==> !MadeAbove(group[a], group[b].path)
  }

  lemma {:induction false} RemoveCreatedKeepsTreeOk(t: Tree, created: seq<Created>)
    requires TreeOk(t)
    ensures TreeOk(RemoveCreated(t, created).tree)
    decreases |created|
  {
    if created != [] {
      var c, rest := created[|created| - 1], created[..|created| - 1];
      if c.path !in t.entries { RemoveCreatedKeepsTreeOk(t, rest); }
      else if t.entries[c.path] == Dir(c.ino) && EmptyDirectory(t, c.path) {
        RemoveCreatedKeepsTreeOk(t.(entries := t.entries - {c.path}), rest);
      }
    }
  }

  lemma {:induction false} UndoSnapKeepsTreeOk(t: Tree, s: Snap)
    requires TreeOk(t)
    ensures TreeOk(UndoSnap(t, s).tree)
  {
    if s.path in t.entries && t.entries[s.path].File? {
      forall q | q in t.entries ensures !Below(s.path, q) { }
      RemoveCreatedKeepsTreeOk(t.(entries := t.entries - {s.path}), s.created);
    }
  }

  lemma {:induction false} UndoGroupKeepsTreeOk(t: Tree, group: seq<Snap>)
    requires TreeOk(t)
    ensures TreeOk(UndoGroup(t, group).tree)
  {
    if group != [] {
      var n := |group| - 1;
      UndoGroupKeepsTreeOk(t, group[..n]);
      UndoSnapKeepsTreeOk(UndoGroup(t, group[..n]).tree, group[n]);
    }
  }

  /** The edits still in place once `done` files of the last group are undone. */
  ghost function Remaining(earlier: nat, done: nat, total: nat): (s: set<nat>)
    ensures forall i: nat :: i in s <==> i < total && (i < earlier || earlier + done <= i)
  {
    All(total) - (All(earlier + done) - All(earlier))
  }

  lemma {:induction false} GroupBlockedIff(t0: Tree, earlier: seq<Snap>, group: seq<Snap>, n: nat)
    requires Facts(t0, earlier + group) && n < |group|
    ensures Blocked(earlier + group, Remaining(|earlier|, n, |earlier + group|), |earlier| + n)
       <==> AboveLater(group, n)
  {
    var all, live, j := earlier + group, Remaining(|earlier|, n, |earlier + group|), |earlier| + n;
    if Blocked(all, live, j) {
      var i: nat :| i in live && i != j && i < |all| && MadeAbove(all[j], all[i].path);
      assert i < j ==> Separate(all[i], all[j]);
      assert all[i] == group[i - |earlier|];
    }
    if b: nat :| n < b < |group| && MadeAbove(group[n], group[b].path) {
      assert all[|earlier| + b] == group[b] && (|earlier| + b) in live;
    }
  }

  /** Walking the first `n` files of the last group. */
  lemma {:induction false} GroupWalk(t0: Tree, earlier: seq<Snap>, group: seq<Snap>, t: Tree, n: nat)
    requires InPlace(t0, earlier + group, t) && n <= |group|
    ensures var r := UndoGroup(t, group[..n]);
            && TreeOk(r.tree)
            && (r.failures == [] <==> ClearUpTo(group, n))
            && (r.failures == [] ==> Rel(t0, earlier + group, Remaining(|earlier|, n, |earlier + group|), r.tree))
  {
    var all := earlier + group;
    if n == 0 {
      assert Remaining(|earlier|, 0, |all|) == All(|all|);
    } else {
      GroupWalk(t0, earlier, group, t, n - 1);
      var r := UndoGroup(t, group[..n - 1]);
      assert group[..n][..n - 1] == group[..n - 1];
      assert TreeOk(UndoSnap(r.tree, group[n - 1]).tree) by { UndoSnapKeepsTreeOk(r.tree, group[n - 1]); }
      ClearStep(group, n - 1);
      if r.failures == [] { GroupUndoOne(t0, earlier, group, r.tree, n - 1); }
    }
  }

  lemma {:induction false} ClearStep(group: seq<Snap>, n: nat)
    requires n < |group|
    ensures ClearUpTo(group, n + 1) <==> ClearUpTo(group, n) && !AboveLater(group, n)
  {
  }

  lemma {:induction false} RemainingStep(earlier: nat, done: nat, total: nat)
    requires earlier + done < total
    ensures Remaining(earlier, done, total) - {earlier + done} == Remaining(earlier, done + 1, total)
    ensures earlier + done in Remaining(earlier, done, total)
  {
  }

  lemma {:induction false} GroupUndoOne(t0: Tree, earlier: seq<Snap>, group: seq<Snap>, t: Tree, n: nat)
    requires TreeOk(t0) && Facts(t0, earlier + group) && n < |group|
    requires Rel(t0, earlier + group, Remaining(|earlier|, n, |earlier + group|), t)
    ensures UndoSnap(t, group[n]).ok <==> !AboveLater(group, n)
    ensures UndoSnap(t, group[n]).ok
            ==> Rel(t0, earlier + group, Remaining(|earlier|, n + 1, |earlier + group|), UndoSnap(t, group[n]).tree)
  {
    var all, j := earlier + group, |earlier| + n;
    var live := Remaining(|earlier|, n, |all|);
    assert all[j] == group[n];
    RemainingStep(|earlier|, n, |all|);
    assert Blocked(all, live, j) <==> AboveLater(group, n) by { GroupBlockedIff(t0, earlier, group, n); }
    UndoSucceedsIff(t0, all, live, t, j);
  }

  lemma {:induction false} DropUndone(t0: Tree, earlier: seq<Snap>, group: seq<Snap>, t: Tree)
    requires TreeOk(t0) && TreeOk(t) && Facts(t0, earlier + group) && Rel(t0, earlier + group, All(|earlier|), t)
    ensures InPlace(t0, earlier, t)
  {
    var all := earlier + group;
    assert forall i: nat :: i < |earlier| ==> all[i] == earlier[i];
    forall j: nat | j < |earlier| ensures SnapOk(t0, earlier[j]) { assert SnapOk(t0, all[j]); }
    forall i: nat, j: nat | i < j < |earlier| ensures Separate(earlier[i], earlier[j]) {
      assert Separate(all[i], all[j]);
    }
    forall i: nat | i in All(|earlier|) ensures Live(t, earlier[i]) { assert Live(t, all[i]); }
    forall q | q in t.entries && q !in t0.entries ensures OwnedLive(earlier, All(|earlier|), q) {
      var i: nat :| i in All(|earlier|) && i < |all| && Owns(all[i], q);
      assert Owns(earlier[i], q);
    }
    forall q | q in t0.entries && !Edited(earlier, q) ensures Kept(t0, t, q) {
      if Edited(all, q) {
        var i: nat :| i < |all| && all[i].path == q;
        assert |earlier| <= i;
        assert SnapOk(t0, all[i]) && HoldsBefore(t, all[i]);
      }
    }
  }

  /** Exactly when `undoLast` reverts its whole group, and what it leaves: the tree with the earlier edits alone. */
  lemma {:induction false} UndoGroupSucceedsIff(t0: Tree, earlier: seq<Snap>, group: seq<Snap>, t: Tree)
    requires InPlace(t0, earlier + group, t)
    ensures UndoGroup(t, group).failures == [] <==> NoSharedNewDirectory(group)
    ensures NoSharedNewDirectory(group) ==> InPlace(t0, earlier, UndoGroup(t, group).tree)
  {
    GroupWalk(t0, earlier, group, t, |group|);
    assert group[..|group|] == group;
    assert Remaining(|earlier|, |group|, |earlier + group|) == All(|earlier|);
    if UndoGroup(t, group).failures == [] { DropUndone(t0, earlier, group, UndoGroup(t, group).tree); }
  }

  // ----- undoing everything -----

  function Flatten(groups: seq<seq<Snap>>): seq<Snap> {
    if groups == [] then [] else Flatten(groups[..|groups| - 1]) + groups[|groups| - 1]
  }

  datatype Outcome = Outcome(tree: Tree, ok: bool)

  /** Calls `undoLast` until the stack is empty. */
  function UndoAll(t: Tree, stack: seq<seq<Snap>>): Outcome
    decreases |stack|
  {
    if stack == [] then Outcome(t, true) else
      var r := UndoGroup(t, stack[|stack| - 1]);
      var o := UndoAll(r.tree, stack[..|stack| - 1]);
      Outcome(o.tree, r.failures == [] && o.ok)
  }

  ghost predicate GroupsClean(groups: seq<seq<Snap>>) {
    forall g: nat :: g < |groups| ==> NoSharedNewDirectory(groups[g])
  }

  /**
   Undoing a whole stack succeeds at every step exactly when no group put two files under a directory
   it had to make; then the tree is back to what the edits no longer on the stack left.
   */
  lemma {:induction false} UndoAllRestoresIff(t0: Tree, dropped: seq<seq<Snap>>, stack: seq<seq<Snap>>, t: Tree)
    requires InPlace(t0, Flatten(dropped + stack), t)
    ensures UndoAll(t, stack).ok <==> GroupsClean(stack)
    ensures GroupsClean(stack) ==> InPlace(t0, Flatten(dropped), UndoAll(t, stack).tree)
    ensures GroupsClean(stack) && dropped == [] ==> Restored(t0, UndoAll(t, stack).tree)
    decreases |stack|
  {
    if stack == [] {
      assert dropped + stack == dropped;
    } else {
      var n := |stack| - 1;
      var group, rest := stack[n], stack[..n];
      assert (dropped + stack)[..|dropped + stack| - 1] == dropped + rest;
      UndoGroupSucceedsIff(t0, Flatten(dropped + rest), group, t);
      if NoSharedNewDirectory(group) {
        UndoAllRestoresIff(t0, dropped, rest, UndoGroup(t, group).tree);
        assert GroupsClean(rest) ==> GroupsClean(stack);
      }
    }
    if GroupsClean(stack) && dropped == [] {
      assert All(0) == {};
      NoneLiveRestores(t0, [], UndoAll(t, stack).tree);
    }
  }
}
