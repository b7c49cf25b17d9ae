/**
 The session's undo stack over a file tree that nobody else changes.

 A path is a sequence of name components below a root directory that always exists.  Entries carry
 an identity that every write and every new directory gets afresh, as a rename into place does.
 */
module Undo {

  import opened Common

  type Path = seq<nat>

  type FilePath = p: Path | p != [] witness [0]

  datatype Entry = File(ino: nat, text: string, mode: nat) | Dir(ino: nat)

  datatype Tree = Tree(entries: map<Path, Entry>, next: nat)

  datatype Created = Created(path: Path, ino: nat)

  datatype Before = Before(text: string, mode: nat)

  /** What an edit tool records: the state before, the exact file it wrote, and the directories it made. */
  datatype Snap = Snap(path: FilePath, before: Option<Before>, ino: nat, mode: nat, after: string,
      created: seq<Created>)

  datatype Edit = Edit(path: FilePath, text: string)

  const NEW_FILE_MODE: nat := 420

  function Parent(p: Path): Path
    requires p != []
  {
    p[..|p| - 1]
  }

  /** `q` lies strictly below directory `d`. */
  predicate Below(d: Path, q: Path) { |d| < |q| && q[..|d|] == d }

  predicate IsDirectory(t: Tree, p: Path) { p == [] || (p in t.entries && t.entries[p].Dir?) }

  ghost predicate TreeOk(t: Tree) {
    && [] !in t.entries
    && (forall p, d :: p in t.entries && d != [] && Below(d, p) ==> d in t.entries && t.entries[d].Dir?)
  }

  // ----- writing -----

  datatype Made = Made(tree: Tree, created: seq<Created>)

  /** Makes the missing directories from the top down. */
  function EnsureDirectory(t: Tree, d: Path): Made
    decreases |d|
  {
    if IsDirectory(t, d) then Made(t, []) else
      var m := EnsureDirectory(t, Parent(d));
      Made(Tree(m.tree.entries[d := Dir(m.tree.next)], m.tree.next + 1), m.created + [Created(d, m.tree.next)])
  }

  /** No file stands where a directory is needed, and no directory where the file goes. */
  predicate Writable(t: Tree, p: FilePath) {
    && (p in t.entries ==> t.entries[p].File?)
    && (forall d :: d in t.entries && Below(d, p) ==> t.entries[d].Dir?)
  }

  datatype Written = Written(tree: Tree, snap: Snap)

  function Write(t: Tree, e: Edit): Written {
    var before :=
      if e.path in t.entries && t.entries[e.path].File? then
        Some(Before(t.entries[e.path].text, t.entries[e.path].mode))
      else None;
    var mode := if before.Some? then before.value.mode else NEW_FILE_MODE;
    var m := EnsureDirectory(t, Parent(e.path));
    var ino := m.tree.next;
    Written(Tree(m.tree.entries[e.path := File(ino, e.text, mode)], ino + 1),
            Snap(e.path, before, ino, mode, e.text, m.created))
  }

  // ----- undoing -----

  datatype Undone = Undone(tree: Tree, ok: bool)

  predicate EmptyDirectory(t: Tree, d: Path) { forall q :: q in t.entries ==> !Below(d, q) }

  /** Newest directory first; a missing one is skipped, a changed or non-empty one stops the removal. */
  function RemoveCreated(t: Tree, created: seq<Created>): Undone
    decreases |created|
  {
    if created == [] then Undone(t, true) else
      var c, rest := created[|created| - 1], created[..|created| - 1];
      if c.path !in t.entries then RemoveCreated(t, rest)
      else if t.entries[c.path] != Dir(c.ino) || !EmptyDirectory(t, c.path) then Undone(t, false)
      else RemoveCreated(t.(entries := t.entries - {c.path}), rest)
  }

  function UndoSnap(t: Tree, s: Snap): Undone {
    // A path that no longer names the exact file written is left, or put back, as it was.
    if s.path !in t.entries || t.entries[s.path] != File(s.ino, s.after, s.mode) then Undone(t, false)
    else if s.before.None? then RemoveCreated(t.(entries := t.entries - {s.path}), s.created)
    else Undone(Tree(t.entries[s.path := File(t.next, s.before.value.text, s.before.value.mode)], t.next + 1), true)
  }

  // ----- several edits -----

  datatype Session = Session(tree: Tree, snaps: seq<Snap>)

  predicate AllWritable(t: Tree, edits: seq<Edit>)
    decreases |edits|
  {
    edits == [] ||
    (var last := edits[|edits| - 1];
     AllWritable(t, edits[..|edits| - 1]) && Writable(WriteAll(t, edits[..|edits| - 1]).tree, last.path))
  }

  function WriteAll(t: Tree, edits: seq<Edit>): (s: Session)
    ensures |s.snaps| == |edits|
    decreases |edits|
  {
    if edits == [] then Session(t, []) else
      var s := WriteAll(t, edits[..|edits| - 1]);
      var w := Write(s.tree, edits[|edits| - 1]);
      Session(w.tree, s.snaps + [w.snap])
  }

  predicate DistinctPaths(edits: seq<Edit>) {
    forall i, j :: 0 <= i < j < |edits| ==> edits[i].path != edits[j].path
  }
}
