/**
 Which undos succeed, in any order: the directories an edit made can go only once every other file
 written below them has gone.
 */
module UndoOrder {

  import opened Common
  import opened Undo

  predicate AtOrBelow(d: Path, q: Path) { d == q || Below(d, q) }

  lemma {:induction false} BelowTrans(a: Path, b: Path, c: Path)
    requires AtOrBelow(a, b) && AtOrBelow(b, c)
    ensures AtOrBelow(a, c)
    ensures Below(a, b) || Below(b, c) ==> Below(a, c)
  {
    if Below(a, b) && Below(b, c) { assert c[..|a|] == c[..|b|][..|a|]; }
  }

  // ----- making directories -----

  ghost predicate Chain(created: seq<Created>) {
    forall a, b :: 0 <= a < b < |created| ==> Below(created[a].path, created[b].path)
  }

  predicate Made1(t: Tree, d: Path, m: Made, k: nat)
    requires k < |m.created|
  {
    var c := m.created[k];
    && c.path != [] && c.path !in t.entries && AtOrBelow(c.path, d)
    && c.path in m.tree.entries && m.tree.entries[c.path] == Dir(c.ino)
  }

  ghost predicate MadeOk(t: Tree, d: Path, m: Made) {
    && (forall q :: q in t.entries ==> q in m.tree.entries && m.tree.entries[q] == t.entries[q])
    && (forall q :: q in m.tree.entries && q !in t.entries ==> Makes(m.created, q))
    && (forall k: nat :: k < |m.created| ==> Made1(t, d, m, k))
    && Chain(m.created)
    && (forall q :: q != [] && AtOrBelow(q, d) ==> q in m.tree.entries && m.tree.entries[q].Dir?)
    && (m.created != [] ==> m.created[|m.created| - 1].path == d)
    && t.next <= m.tree.next
  }

  predicate Makes(created: seq<Created>, q: Path) { exists k :: 0 <= k < |created| && created[k].path == q }

  lemma {:induction false} EnsureDirectoryMakes(t: Tree, d: Path)
    requires TreeOk(t)
    requires forall q :: q in t.entries && AtOrBelow(q, d) ==> t.entries[q].Dir?
    ensures MadeOk(t, d, EnsureDirectory(t, d))
    decreases |d|
  {
    var m := EnsureDirectory(t, d);
    if IsDirectory(t, d) {
      forall q | q != [] && AtOrBelow(q, d) ensures q in t.entries && t.entries[q].Dir? { }
    } else {
      var up := Parent(d);
      var n := EnsureDirectory(t, up);
      assert MadeOk(t, up, n) by {
        assert Below(up, d);
        forall q | q in t.entries && AtOrBelow(q, up) ensures t.entries[q].Dir? { BelowTrans(q, up, d); }
        EnsureDirectoryMakes(t, up);
      }
      OneMore(t, d, n);
    }
  }

  lemma {:induction false} OneMore(t: Tree, d: Path, n: Made)
    requires d != [] && d !in t.entries && MadeOk(t, Parent(d), n)
    ensures MadeOk(t, d, Made(Tree(n.tree.entries[d := Dir(n.tree.next)], n.tree.next + 1),
                              n.created + [Created(d, n.tree.next)]))
  {
    var up := Parent(d);
    assert Below(up, d);
    var m := Made(Tree(n.tree.entries[d := Dir(n.tree.next)], n.tree.next + 1), n.created + [Created(d, n.tree.next)]);
    forall k: nat | k < |n.created| ensures n.created[k].path != d { assert Made1(t, up, n, k); }
    assert d !in n.tree.entries;
    forall k: nat | k < |m.created| ensures Made1(t, d, m, k) {
      if k < |n.created| { assert Made1(t, up, n, k); BelowTrans(n.created[k].path, up, d); }
    }
    forall a, b | 0 <= a < b < |m.created| ensures Below(m.created[a].path, m.created[b].path) {
      if b == |n.created| { assert Made1(t, up, n, a); BelowTrans(n.created[a].path, up, d); }
    }
    forall q | q in m.tree.entries && q !in t.entries ensures Makes(m.created, q) {
      if q == d { assert m.created[|n.created|].path == d; } else {
        var k :| 0 <= k < |n.created| && n.created[k].path == q;
        assert m.created[k].path == q;
      }
    }
    forall q | q != [] && AtOrBelow(q, d) ensures q in m.tree.entries && m.tree.entries[q].Dir? {
      if q != d { assert AtOrBelow(q, up) by { assert up[..|q|] == d[..|q|]; } }
    }
  }

  // ----- what a sequence of edits leaves behind -----

  /** The edit brought this entry into being. */
  predicate Owns(s: Snap, q: Path) { (s.before.None? && s.path == q) || Makes(s.created, q) }

  /** One of the directories the edit made lies above `q`. */
  predicate MadeAbove(s: Snap, q: Path) { exists k :: 0 <= k < |s.created| && Below(s.created[k].path, q) }

  predicate MadeOutside(t0: Tree, s: Snap, k: nat)
    requires k < |s.created|
  {
    s.created[k].path != [] && s.created[k].path !in t0.entries && Below(s.created[k].path, s.path)
  }

  ghost predicate SnapOk(t0: Tree, s: Snap) {
    && (s.before.None? ==> s.path !in t0.entries)
    && (s.before.Some? ==> s.created == [] && s.path in t0.entries && HoldsBefore(t0, s))
    && (forall k: nat :: k < |s.created| ==> MadeOutside(t0, s, k))
    && Chain(s.created)
  }

  predicate HoldsBefore(t: Tree, s: Snap) {
    s.before.Some? ==>
      && s.path in t.entries && t.entries[s.path].File?
      && t.entries[s.path].text == s.before.value.text && t.entries[s.path].mode == s.before.value.mode
  }

  predicate Separate(first: Snap, later: Snap) { first.path != later.path && !MadeAbove(later, first.path) }

  ghost predicate Facts(t0: Tree, snaps: seq<Snap>) {
    && (forall j: nat :: j < |snaps| ==> SnapOk(t0, snaps[j]))
    && (forall i: nat, j: nat :: i < j < |snaps| ==> Separate(snaps[i], snaps[j]))
  }

  predicate DirIn(t: Tree, c: Created) { c.path in t.entries && t.entries[c.path] == Dir(c.ino) }

  ghost predicate Live(t: Tree, s: Snap) {
    && s.path in t.entries && t.entries[s.path] == File(s.ino, s.after, s.mode)
    && (forall k :: 0 <= k < |s.created| ==> DirIn(t, s.created[k]))
  }

  /** The same directory, or a file with the same text and mode. */
  predicate SameEntry(a: Entry, b: Entry) { a == b || (a.File? && b.File? && a.text == b.text && a.mode == b.mode) }

  ghost predicate Edited(snaps: seq<Snap>, q: Path) { exists i: nat :: i < |snaps| && snaps[i].path == q }

  ghost predicate OwnedLive(snaps: seq<Snap>, live: set<nat>, q: Path) {
    exists i: nat :: i in live && i < |snaps| && Owns(snaps[i], q)
  }

  predicate Kept(t0: Tree, t: Tree, q: Path) {
    q in t0.entries && q in t.entries && SameEntry(t.entries[q], t0.entries[q])
  }

  /** `t` is `t0` with exactly the edits in `live` in place. */
  ghost predicate Rel(t0: Tree, snaps: seq<Snap>, live: set<nat>, t: Tree) {
    && (forall i: nat :: i in live ==> i < |snaps| && Live(t, snaps[i]))
    && (forall i: nat :: i < |snaps| && i !in live ==> HoldsBefore(t, snaps[i]))
    && (forall q :: q in t.entries && q !in t0.entries ==> OwnedLive(snaps, live, q))
    && (forall q :: q in t0.entries ==> q in t.entries && (Edited(snaps, q) || Kept(t0, t, q)))
  }

  /** The tree `t0` again: same names, same directories, same texts and modes. */
  ghost predicate Restored(t0: Tree, t: Tree) {
    && t.entries.Keys == t0.entries.Keys
    && (forall q :: q in t0.entries ==> Kept(t0, t, q))
  }

  lemma {:induction false} NoneLiveRestores(t0: Tree, snaps: seq<Snap>, t: Tree)
    requires Facts(t0, snaps) && Rel(t0, snaps, {}, t)
    ensures Restored(t0, t)
  {
    forall q | q in t0.entries ensures Kept(t0, t, q) {
      if Edited(snaps, q) {
        var i: nat :| i < |snaps| && snaps[i].path == q;
        assert SnapOk(t0, snaps[i]) && HoldsBefore(t, snaps[i]);
      }
    }
  }

  // ----- undoing one edit -----

  lemma {:induction false} RemoveCreatedClears(t: Tree, created: seq<Created>)
    requires Chain(created)
    requires forall k :: 0 <= k < |created| ==> DirIn(t, created[k])
    requires forall q, k :: q in t.entries && 0 <= k < |created| && Below(created[k].path, q) ==> Makes(created, q)
    ensures var u := RemoveCreated(t, created);
            && u.ok && u.tree.next == t.next
            && (forall q :: q in u.tree.entries <==> q in t.entries && !Makes(created, q))
            && (forall q :: q in u.tree.entries ==> u.tree.entries[q] == t.entries[q])
    decreases |created|
  {
    if created != [] {
      var n := |created| - 1;
      var c, rest := created[n], created[..n];
      assert DirIn(t, c);
      forall b | 0 <= b < |created| ensures !Below(c.path, created[b].path) {
        assert b < n ==> Below(created[b].path, c.path);
      }
      assert EmptyDirectory(t, c.path);
      var s := t.(entries := t.entries - {c.path});
      forall k | 0 <= k < |rest| ensures DirIn(s, rest[k]) {
        assert DirIn(t, created[k]) && Below(created[k].path, c.path);
      }
      forall q ensures Makes(created, q) <==> Makes(rest, q) || q == c.path {
        if Makes(created, q) && q != c.path {
          var b :| 0 <= b < |created| && created[b].path == q;
          assert rest[b].path == q;
        }
        if Makes(rest, q) { var b :| 0 <= b < |rest| && rest[b].path == q; assert created[b].path == q; }
      }
      forall q, k | q in s.entries && 0 <= k < |rest| && Below(rest[k].path, q) ensures Makes(rest, q) {
        assert Below(created[k].path, q);
      }
      RemoveCreatedClears(s, rest);
    }
  }

  lemma {:induction false} RemoveCreatedBlocked(t: Tree, created: seq<Created>, k: nat, q: Path)
    requires k < |created| && q in t.entries && Below(created[k].path, q) && created[k].path in t.entries
    requires !Makes(created, q)
    ensures !RemoveCreated(t, created).ok
    decreases |created|
  {
    var n := |created| - 1;
    var c, rest := created[n], created[..n];
    forall b | 0 <= b < |created| ensures created[b].path != q { }
    assert !Makes(rest, q) && q != c.path;
    if c.path !in t.entries {
      assert rest[k] == created[k];
      RemoveCreatedBlocked(t, rest, k, q);
    } else if t.entries[c.path] != Dir(c.ino) || !EmptyDirectory(t, c.path) {
    } else if c.path != created[k].path {
      assert rest[k] == created[k];
      RemoveCreatedBlocked(t.(entries := t.entries - {c.path}), rest, k, q);
    }
  }

  /** Another edit still in place wrote below a directory that edit `j` made. */
  ghost predicate Blocked(snaps: seq<Snap>, live: set<nat>, j: nat)
    requires j < |snaps|
  {
    exists i: nat :: i in live && i != j && i < |snaps| && MadeAbove(snaps[j], snaps[i].path)
  }

  lemma {:induction false} PathsApart(t0: Tree, snaps: seq<Snap>, i: nat, j: nat)
    requires Facts(t0, snaps) && i < |snaps| && j < |snaps| && i != j
    ensures snaps[i].path != snaps[j].path
    ensures forall q :: Makes(snaps[i].created, q) ==> !Makes(snaps[j].created, q)
  {
    var a, b := if i < j then i else j, if i < j then j else i;
    assert Separate(snaps[a], snaps[b]);
    forall q | Makes(snaps[a].created, q) ensures !Makes(snaps[b].created, q) {
      var k: nat :| k < |snaps[a].created| && snaps[a].created[k].path == q;
      assert SnapOk(t0, snaps[a]) && MadeOutside(t0, snaps[a], k);
      forall m | 0 <= m < |snaps[b].created| ensures snaps[b].created[m].path != q { }
    }
  }

  /** Rewriting the file in place or deleting it with its directories leaves every other edit in place. */
  lemma {:induction false} OthersStay(t0: Tree, snaps: seq<Snap>, live: set<nat>, t: Tree, j: nat, u: Tree, i: nat)
    requires Facts(t0, snaps) && Rel(t0, snaps, live, t) && j in live
    requires i in live && i != j
    requires forall q :: q in t.entries && q != snaps[j].path && !Makes(snaps[j].created, q)
                         ==> q in u.entries && u.entries[q] == t.entries[q]
    ensures Live(u, snaps[i])
  {
    PathsApart(t0, snaps, i, j);
    var s := snaps[i];
    assert Live(t, s) && Live(t, snaps[j]);
    forall m | 0 <= m < |snaps[j].created| ensures snaps[j].created[m].path != s.path {
      assert DirIn(t, snaps[j].created[m]);
    }
    assert !Makes(snaps[j].created, s.path);
    forall k | 0 <= k < |s.created| ensures DirIn(u, s.created[k]) {
      assert DirIn(t, s.created[k]);
      assert Makes(s.created, s.created[k].path);
    }
  }

  lemma {:induction false} UndoRewrites(t0: Tree, snaps: seq<Snap>, live: set<nat>, t: Tree, j: nat)
    requires Facts(t0, snaps) && Rel(t0, snaps, live, t) && j in live && snaps[j].before.Some?
    ensures UndoSnap(t, snaps[j]).ok && Rel(t0, snaps, live - {j}, UndoSnap(t, snaps[j]).tree)
    ensures !Blocked(snaps, live, j)
  {
    var s, u := snaps[j], UndoSnap(t, snaps[j]).tree;
    assert Live(t, s) && SnapOk(t0, s);
    forall i: nat | i in live - {j} ensures Live(u, snaps[i]) { OthersStay(t0, snaps, live, t, j, u, i); }
    forall i: nat | i < |snaps| && i !in live - {j} ensures HoldsBefore(u, snaps[i]) {
      if i != j { PathsApart(t0, snaps, i, j); assert HoldsBefore(t, snaps[i]); }
    }
    forall q | q in u.entries && q !in t0.entries ensures OwnedLive(snaps, live - {j}, q) {
      var i: nat :| i in live && i < |snaps| && Owns(snaps[i], q);
      assert i != j;
    }
    forall q | q in t0.entries && !Edited(snaps, q) ensures Kept(t0, u, q) { assert snaps[j].path != q; }
  }

  lemma {:induction false} NothingLeftBelow(t0: Tree, snaps: seq<Snap>, live: set<nat>, t: Tree, j: nat, q: Path,
      k: nat)
    requires TreeOk(t0) && Facts(t0, snaps) && Rel(t0, snaps, live, t) && j in live && !Blocked(snaps, live, j)
    requires q in t.entries && q != snaps[j].path && k < |snaps[j].created| && Below(snaps[j].created[k].path, q)
    ensures Makes(snaps[j].created, q)
  {
    assert SnapOk(t0, snaps[j]) && MadeOutside(t0, snaps[j], k);
    assert q !in t0.entries;
    var i: nat :| i in live && i < |snaps| && Owns(snaps[i], q);
    if i != j {
      assert !MadeAbove(snaps[j], snaps[i].path);
      if Makes(snaps[i].created, q) {
        var m: nat :| m < |snaps[i].created| && snaps[i].created[m].path == q;
        assert SnapOk(t0, snaps[i]) && MadeOutside(t0, snaps[i], m);
        BelowTrans(snaps[j].created[k].path, q, snaps[i].path);
      }
    }
  }

  lemma {:induction false} UndoDeletes(t0: Tree, snaps: seq<Snap>, live: set<nat>, t: Tree, j: nat)
    requires TreeOk(t0) && Facts(t0, snaps) && Rel(t0, snaps, live, t) && j in live && snaps[j].before.None?
    requires !Blocked(snaps, live, j)
    ensures UndoSnap(t, snaps[j]).ok && Rel(t0, snaps, live - {j}, UndoSnap(t, snaps[j]).tree)
  {
    var s := snaps[j];
    assert Live(t, s) && SnapOk(t0, s);
    var r := t.(entries := t.entries - {s.path});
    forall k | 0 <= k < |s.created| ensures DirIn(r, s.created[k]) { assert DirIn(t, s.created[k]); }
    forall q, k: nat | q in r.entries && k < |s.created| && Below(s.created[k].path, q) ensures Makes(s.created, q) {
      NothingLeftBelow(t0, snaps, live, t, j, q, k);
    }
    RemoveCreatedClears(r, s.created);
    DeletedRel(t0, snaps, live, t, j, RemoveCreated(r, s.created).tree);
  }

  lemma {:induction false} DeletedRel(t0: Tree, snaps: seq<Snap>, live: set<nat>, t: Tree, j: nat, u: Tree)
    requires Facts(t0, snaps) && Rel(t0, snaps, live, t) && j in live && snaps[j].before.None?
    requires forall q :: q in u.entries <==> q in t.entries && q != snaps[j].path && !Makes(snaps[j].created, q)
    requires forall q :: q in u.entries ==> u.entries[q] == t.entries[q]
    ensures Rel(t0, snaps, live - {j}, u)
  {
    var s := snaps[j];
    assert SnapOk(t0, s);
    forall k: nat | k < |s.created| ensures s.created[k].path !in t0.entries { assert MadeOutside(t0, s, k); }
    forall q | q in t0.entries ensures !Owns(s, q) { }
    forall i: nat | i in live - {j} ensures Live(u, snaps[i]) { OthersStay(t0, snaps, live, t, j, u, i); }
    forall i: nat | i < |snaps| && i !in live - {j} ensures HoldsBefore(u, snaps[i]) {
      if i != j { assert SnapOk(t0, snaps[i]) && HoldsBefore(t, snaps[i]); }
    }
    forall q | q in u.entries && q !in t0.entries ensures OwnedLive(snaps, live - {j}, q) {
      var i: nat :| i in live && i < |snaps| && Owns(snaps[i], q);
      assert i != j;
    }
    forall q | q in t0.entries && !Edited(snaps, q) ensures Kept(t0, u, q) { assert Kept(t0, t, q); }
  }

  lemma {:induction false} UndoRefused(t0: Tree, snaps: seq<Snap>, live: set<nat>, t: Tree, j: nat)
    requires Facts(t0, snaps) && Rel(t0, snaps, live, t) && j in live && Blocked(snaps, live, j)
    ensures !UndoSnap(t, snaps[j]).ok
  {
    var s := snaps[j];
    assert Live(t, s) && SnapOk(t0, s);
    var i: nat :| i in live && i != j && i < |snaps| && MadeAbove(s, snaps[i].path);
    var k: nat :| k < |s.created| && Below(s.created[k].path, snaps[i].path);
    PathsApart(t0, snaps, i, j);
    assert Live(t, snaps[i]);
    var r := t.(entries := t.entries - {s.path});
    forall m | 0 <= m < |s.created| ensures s.created[m].path != snaps[i].path && s.created[m].path in r.entries {
      assert DirIn(t, s.created[m]);
    }
    RemoveCreatedBlocked(r, s.created, k, snaps[i].path);
  }

  /** Exactly when one undo succeeds, whatever else has been undone, and what it leaves. */
  lemma {:induction false} UndoSucceedsIff(t0: Tree, snaps: seq<Snap>, live: set<nat>, t: Tree, j: nat)
    requires TreeOk(t0) && Facts(t0, snaps) && Rel(t0, snaps, live, t) && j in live
    ensures UndoSnap(t, snaps[j]).ok <==> !Blocked(snaps, live, j)
    ensures UndoSnap(t, snaps[j]).ok ==> Rel(t0, snaps, live - {j}, UndoSnap(t, snaps[j]).tree)
  {
    if snaps[j].before.Some? { UndoRewrites(t0, snaps, live, t, j); }
    else if Blocked(snaps, live, j) { UndoRefused(t0, snaps, live, t, j); }
    else { UndoDeletes(t0, snaps, live, t, j); }
  }
}
