/**
 One `undoCommitted` call interleaved with anything other programs do to the public names of the
 directory.  The quarantine, discard and temporary names are private; inodes never change in place.
 */
module UndoRace {

  import opened Common
  import opened FsWrite
  import FsWriteSafety
  import FsWriteAlone

  /** The file as the edit tool committed it, and the text and mode to put back (`None`: the file was new). */
  datatype Snapshot = Snapshot(committed: Identity, after: string, before: Option<Inode>)

  /** `back` marks the removal of a quarantine name after the entry was linked back. */
  datatype Stage =
    | Start | Moved
    | Staging | Ready | Published
    | Move(id: Identity, back: bool) | Remove(id: Identity, back: bool)
    | Look | LinkBack(id: Identity)
    | Reverted | Refused | Stopped

  /**
   `handling` is set once the error handler runs: its own failures are swallowed.  `placed` is the inode the
   undo has linked at the free target in place of the verified one.
   */
  datatype Undoing = Undoing(
    snap: Snapshot, stage: Stage, handling: bool, held: Option<Ino>, verified: bool, temp: Option<Ino>,
    restored: bool, removed: bool, placed: Option<Ino>)

  datatype World = World(dir: map<Name, Ino>, inodes: map<Ino, Inode>, next: Ino, undo: Undoing)

  datatype Event =
    | Put(name: Name, text: string, mode: nat) | Unlink(name: Name)
    | Rename(from: Name, to: Name) | Link(from: Name, to: Name)
    | Quarantine | Inspect(readable: bool) | StageText | Fail(retain: bool) | Publish | DropStaged
    | ToDiscard(ok: bool) | CheckRemove | LookAt | PutBack | Stop

  predicate Foreign(e: Event) { e.Put? || e.Unlink? || e.Rename? || e.Link? }

  const QUARANTINE := Claim(0)
  const DISCARD := Discard(0)
  const TEMP := Temp(0)

  function At(s: World, n: Name): Identity
    requires n in s.dir && s.dir[n] in s.inodes
  {
    Identity(s.dir[n], s.inodes[s.dir[n]].mode, Nlink(s.dir, s.dir[n]))
  }

  /** The inode, mode, link count and bytes the tool wrote. */
  predicate Exact(s: World, n: Name)
    requires n in s.dir && s.dir[n] in s.inodes
  {
    At(s, n) == s.undo.snap.committed && s.inodes[s.dir[n]].text == s.undo.snap.after
  }

  predicate Enabled(s: World, e: Event) {
    match e
    case Put(name, _, _) => Public(name)
    case Unlink(name) => Public(name) && name in s.dir
    case Rename(from, to) => Public(from) && Public(to) && from in s.dir
    case Link(from, to) => Public(from) && Public(to) && from in s.dir && to !in s.dir
    case Quarantine => s.undo.stage.Start?
    case Inspect(_) => s.undo.stage.Moved? && QUARANTINE in s.dir && s.dir[QUARANTINE] in s.inodes
    case StageText => s.undo.stage.Staging? && s.undo.snap.before.Some?
    case Fail(_) => s.undo.stage.Staging? || s.undo.stage.Ready?
    case Publish => s.undo.stage.Ready? && TEMP in s.dir
    case DropStaged => s.undo.stage.Published? && TEMP in s.dir
    case ToDiscard(_) => s.undo.stage.Move? && QUARANTINE in s.dir
    case CheckRemove => s.undo.stage.Remove? && DISCARD in s.dir && s.dir[DISCARD] in s.inodes
    case LookAt => s.undo.stage.Look? && (QUARANTINE in s.dir ==> s.dir[QUARANTINE] in s.inodes)
    case PutBack => s.undo.stage.LinkBack? && QUARANTINE in s.dir
    case Stop => true
  }

  /** An error inside the guarded section enters the handler; one inside the handler ends the call. */
  function Throw(u: Undoing): Undoing {
    if u.handling then u.(stage := Refused) else u.(stage := Look, handling := true)
  }

  function Apply(s: World, e: Event): World
    requires Enabled(s, e)
  {
    var u := s.undo;
    match e
    case Put(name, text, mode) =>
      s.(dir := s.dir[name := s.next], inodes := s.inodes[s.next := Inode(text, mode)], next := s.next + 1)
    case Unlink(name) => s.(dir := s.dir - {name})
    case Rename(from, to) => s.(dir := FsWrite.Move(s.dir, from, to))
    case Link(from, to) => s.(dir := s.dir[to := s.dir[from]])
    case Quarantine =>
      if Target !in s.dir then s.(undo := u.(stage := Refused)) else
        s.(dir := FsWrite.Move(s.dir, Target, QUARANTINE), undo := u.(stage := Moved, held := Some(s.dir[Target])))
    case Inspect(readable) =>
      if !readable then s.(undo := Throw(u))
      else if !Exact(s, QUARANTINE) then s.(undo := u.(stage := Look))
      else s.(undo := u.(verified := true,
                         stage := if u.snap.before.None? then Move(u.snap.committed, false) else Staging))
    case StageText =>
      World(s.dir[TEMP := s.next], s.inodes[s.next := u.snap.before.value], s.next + 1,
            u.(stage := Ready, temp := Some(s.next)))
    case Fail(retain) => s.(dir := if retain then s.dir else s.dir - {TEMP}, undo := Throw(u))
    case Publish =>
      if Target in s.dir then s.(dir := s.dir - {TEMP}, undo := Throw(u))
      else s.(dir := s.dir[Target := s.dir[TEMP]], undo := u.(stage := Published, placed := Some(s.dir[TEMP])))
    case DropStaged => s.(dir := s.dir - {TEMP}, undo := u.(stage := Move(u.snap.committed, false)))
    case ToDiscard(ok) =>
      if !ok then s.(undo := Throw(u)) else
        s.(dir := FsWrite.Move(s.dir, QUARANTINE, DISCARD), undo := u.(stage := Remove(u.stage.id, u.stage.back)))
    case CheckRemove =>
      if At(s, DISCARD) != u.stage.id then s.(undo := Throw(u))
      else if u.stage.back then s.(dir := s.dir - {DISCARD}, undo := Throw(u))
      else s.(dir := s.dir - {DISCARD}, undo := u.(stage := Reverted, removed := true))
    case LookAt =>
      if QUARANTINE !in s.dir then s.(undo := Throw(u)) else s.(undo := u.(stage := Stage.LinkBack(At(s, QUARANTINE))))
    case PutBack =>
      if Target in s.dir then s.(undo := Throw(u)) else
        s.(dir := s.dir[Target := s.dir[QUARANTINE]],
           undo := u.(stage := Move(u.stage.id.(nlink := u.stage.id.nlink + 1), true), restored := true))
    case Stop => s.(undo := u.(stage := Stopped))
  }

  predicate ValidRun(s: World, run: seq<Event>)
    decreases |run|
  {
    run == [] || (Enabled(s, run[0]) && ValidRun(Apply(s, run[0]), run[1..]))
  }

  function After(s: World, run: seq<Event>): World
    requires ValidRun(s, run)
    decreases |run|
  {
    if run == [] then s else After(Apply(s, run[0]), run[1..])
  }

  predicate Initial(s: World) {
    && (forall n :: n in s.dir ==> Public(n) && s.dir[n] in s.inodes)
    && (forall i :: i in s.inodes ==> i < s.next)
    && s.undo == Undoing(s.undo.snap, Start, false, None, false, None, false, false, None)
  }

  predicate InQuarantine(g: Stage) {
    g.Moved? || g.Staging? || g.Ready? || g.Published? || g.Move? || g.LinkBack?
  }

  predicate HeldOk(s: World) {
    var u := s.undo;
    && (u.stage.Start? ==> u.held.None? && QUARANTINE !in s.dir && DISCARD !in s.dir)
    && (u.held.Some? ==> u.held.value in s.inodes)
    && (QUARANTINE in s.dir ==> u.held == Some(s.dir[QUARANTINE]))
    && (DISCARD in s.dir ==> u.held == Some(s.dir[DISCARD]))
    && (InQuarantine(u.stage) ==> QUARANTINE in s.dir)
    && (u.stage.Remove? ==> DISCARD in s.dir)
  }

  predicate VerifiedOk(s: World) {
    var u := s.undo;
    && (u.verified ==> && u.held == Some(u.snap.committed.ino) && u.held.value in s.inodes
                       && s.inodes[u.held.value] == Inode(u.snap.after, u.snap.committed.mode))
    && (u.stage.Staging? || u.stage.Ready? || u.stage.Published? || u.stage.Reverted? || u.removed ==> u.verified)
    && (u.stage.Move? || u.stage.Remove? ==> if u.stage.back then u.restored && u.stage.id.nlink >= 2 else u.verified)
    && (u.stage.LinkBack? ==> u.stage.id.nlink >= 1)
  }

  /**
   An entry that was moved aside still has its private name, was linked back, or was the verified one
   and is removed.
   */
  predicate Accounted(s: World) {
    var u := s.undo;
    u.held.Some? ==> QUARANTINE in s.dir || DISCARD in s.dir || u.restored || u.removed
  }

  predicate TempOk(s: World) {
    var u := s.undo;
    && (u.temp.Some? ==> u.temp.value in s.inodes && u.snap.before == Some(s.inodes[u.temp.value]) && u.held != u.temp)
    && (TEMP in s.dir ==> u.temp == Some(s.dir[TEMP]))
    && (u.stage.Start? || u.stage.Moved? || u.stage.Staging? ==> u.temp.None?)
    && (u.stage.Ready? || u.stage.Published? ==> TEMP in s.dir)
    && (u.stage.Reverted? && u.snap.before.Some? ==> u.temp.Some? && u.placed == u.temp)
    && ((u.stage.Move? || u.stage.Remove?) && !u.stage.back && u.snap.before.Some?
        ==> u.temp.Some? && u.placed == u.temp)
    && (u.stage.Published? ==> u.temp.Some? && u.placed == u.temp)
  }

  predicate Inv(s: World) {
    && (forall n :: n in s.dir ==> s.dir[n] in s.inodes)
    && (forall i :: i in s.inodes ==> i < s.next)
    && HeldOk(s) && VerifiedOk(s) && Accounted(s) && TempOk(s)
  }

  lemma {:induction false} LinkedOnce(dir: map<Name, Ino>, n: Name)
    requires n in dir
    ensures Nlink(dir, dir[n]) >= 1
  {
    assert n in Names(dir, dir[n]);
  }

  lemma {:induction false} ForeignKeepsInv(s: World, e: Event)
    requires Inv(s) && Enabled(s, e) && Foreign(e)
    ensures Inv(Apply(s, e))
  {
  }

  predicate Writes(e: Event) { e.StageText? || e.DropStaged? }

  predicate MayFail(e: Event) { e.Fail? || e.Publish? }

  lemma {:induction false} DropTempKeepsInv(s: World)
    requires Inv(s) && (s.undo.stage.Staging? || s.undo.stage.Ready?)
    ensures Inv(s.(dir := s.dir - {TEMP}, undo := Throw(s.undo)))
  {
  }

  lemma {:induction false} WritingKeepsInv(s: World, e: Event)
    requires Inv(s) && Enabled(s, e) && Writes(e)
    ensures Inv(Apply(s, e))
  {
  }

  lemma {:induction false} PublishKeepsInv(s: World, e: Event)
    requires Inv(s) && Enabled(s, e) && MayFail(e)
    ensures Inv(Apply(s, e))
  {
    if (e.Fail? && !e.retain) || (e.Publish? && Target in s.dir) { DropTempKeepsInv(s); }
    else if e.Fail? { ThrowKeepsInv(s); }
  }

  lemma {:induction false} ClaimKeepsInv(s: World, e: Event)
    requires Inv(s) && Enabled(s, e) && e.Quarantine?
    ensures Inv(Apply(s, e))
  {
  }

  /** Ending, or entering the error handler, is safe at any moment. */
  lemma {:induction false} SettleKeepsInv(s: World, g: Stage, handling: bool)
    requires Inv(s) && (g.Look? || g.Refused? || g.Stopped?)
    ensures Inv(s.(undo := s.undo.(stage := g, handling := handling)))
  {
  }

  lemma {:induction false} ThrowKeepsInv(s: World)
    requires Inv(s)
    ensures Inv(s.(undo := Throw(s.undo)))
  {
    SettleKeepsInv(s, Throw(s.undo).stage, Throw(s.undo).handling);
  }

  lemma {:induction false} VerifyKeepsInv(s: World)
    requires Inv(s) && Enabled(s, Inspect(true)) && Exact(s, QUARANTINE)
    ensures Inv(Apply(s, Inspect(true)))
  {
    assert s.undo.held == Some(s.undo.snap.committed.ino);
    assert s.inodes[s.dir[QUARANTINE]] == Inode(s.undo.snap.after, s.undo.snap.committed.mode);
  }

  lemma {:induction false} InspectKeepsInv(s: World, e: Event)
    requires Inv(s) && Enabled(s, e) && e.Inspect?
    ensures Inv(Apply(s, e))
  {
    if !e.readable { ThrowKeepsInv(s); }
    else if Exact(s, QUARANTINE) { VerifyKeepsInv(s); }
    else { SettleKeepsInv(s, Look, s.undo.handling); }
  }

  lemma {:induction false} LookKeepsInv(s: World, e: Event)
    requires Inv(s) && Enabled(s, e) && e.LookAt?
    ensures Inv(Apply(s, e))
  {
    if QUARANTINE in s.dir { LinkedOnce(s.dir, QUARANTINE); } else { ThrowKeepsInv(s); }
  }

  lemma {:induction false} PutBackKeepsInv(s: World, e: Event)
    requires Inv(s) && Enabled(s, e) && e.PutBack?
    ensures Inv(Apply(s, e))
  {
    if Target in s.dir { ThrowKeepsInv(s); }
  }

  lemma {:induction false} MoveKeepsInv(s: World, e: Event)
    requires Inv(s) && Enabled(s, e) && e.ToDiscard?
    ensures Inv(Apply(s, e))
  {
    if !e.ok { ThrowKeepsInv(s); }
  }

  lemma {:induction false} DropDiscard(s: World, u: Undoing)
    requires Inv(s) && s.undo.stage.Remove? && DISCARD in s.dir
    requires u == if s.undo.stage.back then Throw(s.undo) else s.undo.(stage := Reverted, removed := true)
    ensures Inv(s.(dir := s.dir - {DISCARD}, undo := u))
  {
  }

  lemma {:induction false} RemoveKeepsInv(s: World, e: Event)
    requires Inv(s) && Enabled(s, e) && e.CheckRemove?
    ensures Inv(Apply(s, e))
  {
    if At(s, DISCARD) != s.undo.stage.id { ThrowKeepsInv(s); }
    else if s.undo.stage.back { DropDiscard(s, Throw(s.undo)); }
    else { DropDiscard(s, s.undo.(stage := Reverted, removed := true)); }
  }

  lemma {:induction false} StepKeepsInodes(s: World, e: Event)
    requires Enabled(s, e) && forall i :: i in s.inodes ==> i < s.next
    ensures forall i :: i in s.inodes ==> i in Apply(s, e).inodes && Apply(s, e).inodes[i] == s.inodes[i]
    ensures Apply(s, e).undo.snap == s.undo.snap
  {
  }

  lemma {:induction false} StepKeepsInv(s: World, e: Event)
    requires Inv(s) && Enabled(s, e)
    ensures Inv(Apply(s, e))
  {
    if Foreign(e) { ForeignKeepsInv(s, e); }
    else if Writes(e) { WritingKeepsInv(s, e); }
    else if MayFail(e) { PublishKeepsInv(s, e); }
    else if e.Quarantine? { ClaimKeepsInv(s, e); }
    else if e.LookAt? { LookKeepsInv(s, e); }
    else if e.PutBack? { PutBackKeepsInv(s, e); }
    else if e.ToDiscard? { MoveKeepsInv(s, e); }
    else if e.CheckRemove? { RemoveKeepsInv(s, e); }
    else if e.Inspect? { InspectKeepsInv(s, e); }
    else { SettleKeepsInv(s, Stopped, s.undo.handling); }
  }

  lemma {:induction false} RunKeepsInv(s: World, run: seq<Event>)
    requires Inv(s) && ValidRun(s, run)
    ensures Inv(After(s, run)) && After(s, run).undo.snap == s.undo.snap
    ensures forall i :: i in s.inodes ==> i in After(s, run).inodes && After(s, run).inodes[i] == s.inodes[i]
    decreases |run|
  {
    if run != [] {
      StepKeepsInv(s, run[0]);
      StepKeepsInodes(s, run[0]);
      RunKeepsInv(Apply(s, run[0]), run[1..]);
    }
  }

  predicate Reachable(s: World, i: Ino) { exists n :: n in s.dir && s.dir[n] == i }

  /** No step of the undo takes the last name from an entry, except the verified one and its own staging file. */
  lemma {:induction false} UndoNeverLoses(s: World, e: Event, i: Ino)
    requires Inv(s) && Enabled(s, e) && !Foreign(e) && Reachable(s, i)
    ensures Reachable(Apply(s, e), i) || (s.undo.verified && s.undo.held == Some(i)) || s.undo.temp == Some(i)
  {
    var n :| n in s.dir && s.dir[n] == i;
    var t := Apply(s, e);
    if n in t.dir && t.dir[n] == i {
    } else if e.Quarantine? { assert t.dir[QUARANTINE] == i; }
    else if e.ToDiscard? { assert t.dir[DISCARD] == i; }
    else if e.CheckRemove? && s.undo.stage.back && n == DISCARD {
      FsWriteSafety.AnotherName(s.dir, DISCARD);
      var m :| m in s.dir && m != DISCARD && s.dir[m] == s.dir[DISCARD];
      assert t.dir[m] == i;
    }
  }

  /** After the claiming rename the undo never takes the target from whoever holds it. */
  lemma {:induction false} UndoNeverReplaces(s: World, e: Event)
    requires Inv(s) && Enabled(s, e) && !Foreign(e) && !e.Quarantine? && Target in s.dir
    ensures Target in Apply(s, e).dir && Apply(s, e).dir[Target] == s.dir[Target]
  {
  }

  predicate Looks(e: Event) { e.Inspect? || e.LookAt? }

  lemma {:induction false} RemovalPlacesNothing(s: World, e: Event)
    requires Enabled(s, e) && e.CheckRemove?
    ensures Apply(s, e).undo.placed == s.undo.placed
  {
  }

  lemma {:induction false} LooksPlaceNothing(s: World, e: Event)
    requires Enabled(s, e) && Looks(e)
    ensures Apply(s, e).undo.placed == s.undo.placed
  {
  }

  lemma {:induction false} OthersPlaceNothing(s: World, e: Event)
    requires Enabled(s, e) && !Looks(e) && !e.CheckRemove? && !e.Publish?
    ensures Apply(s, e).undo.placed == s.undo.placed
  {
  }

  /** The undo notes an inode as placed exactly when it links it at a target that was free. */
  lemma {:induction false} PlacedIsLinked(s: World, e: Event)
    requires Enabled(s, e) && Apply(s, e).undo.placed != s.undo.placed
    ensures e.Publish? && Target !in s.dir && Target in Apply(s, e).dir
    ensures Apply(s, e).undo.placed == Some(Apply(s, e).dir[Target])
  {
    if Looks(e) { LooksPlaceNothing(s, e); }
    else if e.CheckRemove? { RemovalPlacesNothing(s, e); }
    else if !e.Publish? { OthersPlaceNothing(s, e); }
  }

  /**
   Over every run: a completed undo removed exactly the inode and bytes the tool wrote and linked a file
   with the earlier text and mode at the target; an entry that was moved aside and not removed, verified or not,
   is still at a private name or was linked back.
   */
  lemma {:induction false} UndoOutcome(s: World, run: seq<Event>)
    requires Initial(s) && ValidRun(s, run)
    ensures var t, u := After(s, run), After(s, run).undo;
            && u.snap == s.undo.snap
            && (u.stage.Reverted? ==> && u.held == Some(s.undo.snap.committed.ino)
                                      && u.held.value in t.inodes
                                      && t.inodes[u.held.value] == Inode(s.undo.snap.after, s.undo.snap.committed.mode)
                                      && (s.undo.snap.before.Some? ==>
                                            u.placed.Some? && u.placed.value in t.inodes
                                            && t.inodes[u.placed.value] == s.undo.snap.before.value))
            && (u.removed ==> u.verified)
            && (u.held.Some? && !u.removed ==>
                  u.restored || (QUARANTINE in t.dir && t.dir[QUARANTINE] == u.held.value)
                  || (DISCARD in t.dir && t.dir[DISCARD] == u.held.value))
  {
    RunKeepsInv(s, run);
  }

  // ----- nobody interferes -----

  predicate Own(run: seq<Event>) { forall k :: 0 <= k < |run| ==> !Foreign(run[k]) }

  ghost predicate Reaches(s: World, t: World) {
    exists run :: ValidRun(s, run) && Own(run) && After(s, run) == t
  }

  lemma {:induction false} ReachesSelf(s: World)
    ensures Reaches(s, s)
  {
    assert ValidRun(s, []) && Own([]) && After(s, []) == s;
  }

  lemma {:induction false} RunThen(s: World, run: seq<Event>, e: Event)
    requires ValidRun(s, run) && Enabled(After(s, run), e)
    ensures ValidRun(s, run + [e]) && After(s, run + [e]) == Apply(After(s, run), e)
    decreases |run|
  {
    if run == [] {
      assert [] + [e] == [e] && [e][1..] == [];
      assert ValidRun(Apply(s, e), []);
    } else {
      assert (run + [e])[1..] == run[1..] + [e];
      RunThen(Apply(s, run[0]), run[1..], e);
    }
  }

  lemma {:induction false} ReachesStep(s: World, t: World, e: Event)
    requires Reaches(s, t) && Enabled(t, e) && !Foreign(e)
    ensures Reaches(s, Apply(t, e))
  {
    var run :| ValidRun(s, run) && Own(run) && After(s, run) == t;
    RunThen(s, run, e);
    assert Own(run + [e]);
  }

  predicate TargetIsExact(s: World) {
    && Target in s.dir && s.dir[Target] in s.inodes
    && At(s, Target) == s.undo.snap.committed && s.inodes[s.dir[Target]].text == s.undo.snap.after
  }

  /** The exact file, moved aside and inspected. */
  lemma {:induction false} AloneVerifies(s: World)
    requires Initial(s) && TargetIsExact(s)
    ensures var g := if s.undo.snap.before.None? then Move(s.undo.snap.committed, false) else Staging;
            Reaches(s, s.(dir := FsWrite.Move(s.dir, Target, QUARANTINE),
                          undo := s.undo.(stage := g, held := Some(s.dir[Target]), verified := true)))
  {
    ReachesSelf(s);
    ReachesStep(s, s, Quarantine);
    var t := Apply(s, Quarantine);
    FsWriteAlone.MoveKeepsLinks(s.dir, Target, QUARANTINE);
    ReachesStep(s, t, Inspect(true));
  }

  /** A file the tool created is removed. */
  lemma {:induction false} AloneDeletes(s: World)
    requires Initial(s) && TargetIsExact(s) && s.undo.snap.before.None?
    ensures exists t :: Reaches(s, t) && t.undo.stage.Reverted? && t.dir == s.dir - {Target} && t.inodes == s.inodes
  {
    AloneVerifies(s);
    var dir := FsWrite.Move(s.dir, Target, QUARANTINE);
    var id := s.undo.snap.committed;
    FsWriteAlone.MoveKeepsLinks(s.dir, Target, QUARANTINE);
    FsWriteAlone.MoveKeepsLinks(dir, QUARANTINE, DISCARD);
    var t := s.(dir := dir, undo := s.undo.(stage := Move(id, false), held := Some(s.dir[Target]), verified := true));
    ReachesStep(s, t, ToDiscard(true));
    var v := Apply(t, ToDiscard(true));
    ReachesStep(s, v, CheckRemove);
    assert v.dir - {DISCARD} == s.dir - {Target};
  }

  /** The earlier text published, the exact file still in quarantine. */
  function RewrittenWorld(s: World): World
    requires Target in s.dir && s.undo.snap.before.Some?
  {
    World(FsWrite.Move(s.dir, Target, QUARANTINE)[Target := s.next],
          s.inodes[s.next := s.undo.snap.before.value], s.next + 1,
          s.undo.(stage := Move(s.undo.snap.committed, false), held := Some(s.dir[Target]), verified := true,
                  temp := Some(s.next), placed := Some(s.next)))
  }

  lemma {:induction false} AlonePublishes(s: World)
    requires Initial(s) && TargetIsExact(s) && s.undo.snap.before.Some?
    ensures Reaches(s, RewrittenWorld(s))
  {
    AloneVerifies(s);
    var moved := FsWrite.Move(s.dir, Target, QUARANTINE);
    var inodes := s.inodes[s.next := s.undo.snap.before.value];
    var u := s.undo.(held := Some(s.dir[Target]), verified := true);
    ReachesStep(s, s.(dir := moved, undo := u.(stage := Staging)), StageText);
    var a := World(moved[TEMP := s.next], inodes, s.next + 1, u.(stage := Ready, temp := Some(s.next)));
    ReachesStep(s, a, Publish);
    var b := a.(dir := a.dir[Target := s.next], undo := a.undo.(stage := Published, placed := Some(s.next)));
    ReachesStep(s, b, DropStaged);
    assert b.dir - {TEMP} == moved[Target := s.next];
  }

  /** A file the tool rewrote gets its earlier text and mode back, under a new inode. */
  lemma {:induction false} AloneRewrites(s: World)
    requires Initial(s) && TargetIsExact(s) && s.undo.snap.before.Some?
    ensures exists t :: && Reaches(s, t) && t.undo.stage.Reverted? && t.dir == s.dir[Target := s.next]
                        && t.inodes == s.inodes[s.next := s.undo.snap.before.value]
  {
    var i, c := s.dir[Target], RewrittenWorld(s);
    AlonePublishes(s);
    FsWriteAlone.MoveKeepsLinks(s.dir, Target, QUARANTINE);
    FsWriteAlone.OtherNameKeepsLinks(FsWrite.Move(s.dir, Target, QUARANTINE), Target, i, s.next);
    FsWriteAlone.MoveKeepsLinks(c.dir, QUARANTINE, DISCARD);
    ReachesStep(s, c, ToDiscard(true));
    var d := Apply(c, ToDiscard(true));
    assert At(d, DISCARD) == s.undo.snap.committed;
    ReachesStep(s, d, CheckRemove);
    assert d.dir - {DISCARD} == s.dir[Target := s.next];
  }

  /** Any other entry ends where it was found, and the undo is refused. */
  lemma {:induction false} AlonePutsBack(s: World)
    requires Initial(s) && Target in s.dir && !TargetIsExact(s)
    ensures exists t :: Reaches(s, t) && t.undo.stage.Refused? && t.dir == s.dir && t.inodes == s.inodes
  {
    var i := s.dir[Target];
    var moved := FsWrite.Move(s.dir, Target, QUARANTINE);
    var u := s.undo.(held := Some(i));
    var id := Identity(i, s.inodes[i].mode, Nlink(s.dir, i));
    FsWriteAlone.MoveKeepsLinks(s.dir, Target, QUARANTINE);
    ReachesSelf(s);
    ReachesStep(s, s, Quarantine);
    ReachesStep(s, s.(dir := moved, undo := u.(stage := Moved)), Inspect(true));
    ReachesStep(s, s.(dir := moved, undo := u.(stage := Look)), LookAt);
    ReachesStep(s, s.(dir := moved, undo := u.(stage := Stage.LinkBack(id))), PutBack);
    var twice := moved[Target := i];
    FsWriteAlone.LinkAddsOne(moved, QUARANTINE, Target);
    var more := id.(nlink := id.nlink + 1);
    var c := s.(dir := twice, undo := u.(stage := Move(more, true), restored := true));
    FsWriteAlone.MoveKeepsLinks(twice, QUARANTINE, DISCARD);
    ReachesStep(s, c, ToDiscard(true));
    var d := c.(dir := FsWrite.Move(twice, QUARANTINE, DISCARD), undo := c.undo.(stage := Remove(more, true)));
    assert At(d, DISCARD) == more;
    ReachesStep(s, d, CheckRemove);
    var e := d.(dir := s.dir, undo := c.undo.(stage := Look, handling := true));
    assert d.dir - {DISCARD} == s.dir;
    ReachesStep(s, e, LookAt);
  }
}
