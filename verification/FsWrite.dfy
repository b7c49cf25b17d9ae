/**
 The claim / verify / link / discard protocol of `atomicWriteText` as a state machine.

 One directory is modelled.  Every system call of a writer is one step, except that the final
 identity check of a quarantined entry and its `unlink` form one step, as the source performs both
 synchronously.  Any number of writers and an environment interleave freely.  The environment may
 create, replace, remove, rename and hard-link every public name; the temporary, claim and discard
 names of the writers are unguessable and therefore private.  A crash stops a writer between steps.
 */
module FsWrite {

  import opened Common

  type Ino = nat

  datatype Name =
    | Target
    | Outside(slot: nat)
    | Temp(writer: nat)
    | Claim(writer: nat)
    | Discard(writer: nat)

  predicate Public(n: Name) { n.Target? || n.Outside? }

  datatype Inode = Inode(text: string, mode: nat)

  datatype Identity = Identity(ino: Ino, mode: nat, nlink: nat)

  datatype Request =
    | Unconditional
    | CreateIfAbsent
    | Conditional(expected: string, identity: Option<Identity>)

  datatype Pc =
    | Idle | Writing | Staged
    | Claimed | Identified | Verified
    | Linked
    | RestoreCheck | RestoreLink
    | DiscardMove(nlink: nat) | DiscardRemove(nlink: nat)
    | Cleanup | Done | Failed | Crashed

  /** `held` is the inode the claiming rename moved, `claimed` what `lstat` then reported about it. */
  datatype Writer = Writer(
    request: Request, content: string, perm: nat, pc: Pc,
    temp: Option<Ino>, held: Option<Ino>, claimed: Option<Identity>, committed: bool)

  datatype State = State(dir: map<Name, Ino>, inodes: map<Ino, Inode>, next: Ino, writers: map<nat, Writer>)

  datatype Action =
    | EnvPut(name: Name, text: string, mode: nat)
    | EnvRemove(name: Name)
    | EnvRename(from: Name, to: Name)
    | EnvLink(from: Name, to: Name)
    | Open(w: nat, mode: nat)
    | Write(w: nat, count: nat)
    | Finish(w: nat)
    | Overwrite(w: nat)
    | LinkNew(w: nat)
    | DropTemp(w: nat)
    | ClaimTarget(w: nat)
    | Identify(w: nat)
    | Verify(w: nat, readable: bool)
    | Abandon(w: nat, retain: bool)
    | CheckClaim(w: nat)
    | LinkBack(w: nat)
    | MoveToDiscard(w: nat)
    | CheckAndRemove(w: nat)
    | CleanTemp(w: nat, retain: bool)
    | Crash(w: nat)

  predicate IsEnv(a: Action) { a.EnvPut? || a.EnvRemove? || a.EnvRename? || a.EnvLink? }

  // ----- the directory -----

  function Names(dir: map<Name, Ino>, i: Ino): set<Name> { set n | n in dir && dir[n] == i }

  function Nlink(dir: map<Name, Ino>, i: Ino): nat { |Names(dir, i)| }

  predicate Reachable(s: State, i: Ino) { exists n :: n in s.dir && s.dir[n] == i }

  function Move(dir: map<Name, Ino>, from: Name, to: Name): map<Name, Ino>
    requires from in dir
  {
    (dir - {from})[to := dir[from]]
  }

  function IdentityAt(s: State, n: Name): Identity
    requires n in s.dir && s.dir[n] in s.inodes
  {
    Identity(s.dir[n], s.inodes[s.dir[n]].mode, Nlink(s.dir, s.dir[n]))
  }

  /** The request names this inode: the text it expects and, when one was captured, its identity. */
  predicate Expects(r: Request, i: Ino, node: Inode) {
    && r.Conditional?
    && r.expected == node.text
    && (r.identity.Some? ==> r.identity.value.ino == i && r.identity.value.mode == node.mode)
  }

  predicate VerifyAccepts(s: State, r: Request, n: Name)
    requires n in s.dir && s.dir[n] in s.inodes
  {
    && Expects(r, s.dir[n], s.inodes[s.dir[n]])
    && (r.identity.Some? ==> r.identity.value.nlink == Nlink(s.dir, s.dir[n]))
  }

  // ----- steps -----

  predicate WellFormed(s: State) {
    && (forall n :: n in s.dir ==> s.dir[n] in s.inodes)
    && (forall i :: i in s.inodes ==> i < s.next)
  }

  predicate Enabled(s: State, a: Action) {
    match a
    case EnvPut(name, _, _) => Public(name)
    case EnvRemove(name) => Public(name) && name in s.dir
    case EnvRename(from, to) => Public(from) && Public(to) && from in s.dir
    case EnvLink(from, to) => Public(from) && Public(to) && from in s.dir && to !in s.dir
    case Open(w, _) => w in s.writers && s.writers[w].pc.Idle?
    case Write(w, count) =>
      w in s.writers && s.writers[w].pc.Writing? && s.writers[w].temp.Some? && count <= |s.writers[w].content|
    case Finish(w) => w in s.writers && s.writers[w].pc.Writing? && s.writers[w].temp.Some?
    case Overwrite(w) =>
      w in s.writers && s.writers[w].pc.Staged? && s.writers[w].request.Unconditional? && Temp(w) in s.dir
    case LinkNew(w) =>
      && w in s.writers && Temp(w) in s.dir
      && (|| (s.writers[w].pc.Staged? && s.writers[w].request.CreateIfAbsent?)
          || s.writers[w].pc.Verified?)
    case DropTemp(w) =>
      && w in s.writers && s.writers[w].pc.Linked? && Temp(w) in s.dir
      && (s.writers[w].request.Conditional? ==> s.writers[w].claimed.Some?)
    case ClaimTarget(w) =>
      w in s.writers && s.writers[w].pc.Staged? && s.writers[w].request.Conditional?
    case Identify(w) =>
      w in s.writers && s.writers[w].pc.Claimed? && Claim(w) in s.dir && s.dir[Claim(w)] in s.inodes
    case Verify(w, _) =>
      w in s.writers && s.writers[w].pc.Identified? && Claim(w) in s.dir && s.dir[Claim(w)] in s.inodes
    case Abandon(w, retain) =>
      && w in s.writers
      && var p := s.writers[w];
         || ((p.pc.Idle? || p.pc.Writing? || p.pc.Staged?) && !retain)
         || p.pc.Verified?
         || (p.pc.DiscardMove? && p.committed && retain)
    case CheckClaim(w) =>
      && w in s.writers && s.writers[w].pc.RestoreCheck?
      && Claim(w) in s.dir && s.dir[Claim(w)] in s.inodes && s.writers[w].claimed.Some?
    case LinkBack(w) =>
      w in s.writers && s.writers[w].pc.RestoreLink? && Claim(w) in s.dir && s.writers[w].claimed.Some?
    case MoveToDiscard(w) => w in s.writers && s.writers[w].pc.DiscardMove? && Claim(w) in s.dir
    case CheckAndRemove(w) =>
      && w in s.writers && s.writers[w].pc.DiscardRemove?
      && Discard(w) in s.dir && s.dir[Discard(w)] in s.inodes && s.writers[w].claimed.Some?
    case CleanTemp(w, _) => w in s.writers && s.writers[w].pc.Cleanup?
    case Crash(w) => w in s.writers
  }

  function Set(s: State, w: nat, p: Writer): State { s.(writers := s.writers[w := p]) }

  function Apply(s: State, a: Action): State
    requires Enabled(s, a)
  {
    match a
    case EnvPut(name, text, mode) =>
      s.(dir := s.dir[name := s.next], inodes := s.inodes[s.next := Inode(text, mode)], next := s.next + 1)
    case EnvRemove(name) => s.(dir := s.dir - {name})
    case EnvRename(from, to) => s.(dir := Move(s.dir, from, to))
    case EnvLink(from, to) => s.(dir := s.dir[to := s.dir[from]])
    // Staging: an exclusive create, then partial writes, then the complete text and permission bits.
    case Open(w, mode) =>
      Set(s.(dir := s.dir[Temp(w) := s.next], inodes := s.inodes[s.next := Inode("", mode)], next := s.next + 1),
          w, s.writers[w].(pc := Writing, temp := Some(s.next)))
    case Write(w, count) =>
      var p := s.writers[w];
      s.(inodes := s.inodes[p.temp.value := Inode(p.content[..count], p.perm)])
    case Finish(w) =>
      var p := s.writers[w];
      Set(s.(inodes := s.inodes[p.temp.value := Inode(p.content, p.perm)]), w, p.(pc := Staged))
    // Unconditional commit.
    case Overwrite(w) =>
      Set(s.(dir := Move(s.dir, Temp(w), Target)), w, s.writers[w].(pc := Done, committed := true))
    // link(2) is create-if-absent: an existing target refuses it.
    case LinkNew(w) =>
      var p := s.writers[w];
      if Target in s.dir then
        Set(s, w, p.(pc := if p.request.CreateIfAbsent? then Cleanup else RestoreCheck))
      else
        Set(s.(dir := s.dir[Target := s.dir[Temp(w)]]), w, p.(pc := Linked, committed := true))
    case DropTemp(w) =>
      var p := s.writers[w];
      Set(s.(dir := s.dir - {Temp(w)}), w,
          p.(pc := if p.request.Conditional? then DiscardMove(p.claimed.value.nlink) else Done))
    // The directory entry is claimed before it is verified.
    case ClaimTarget(w) =>
      var p := s.writers[w];
      if Target in s.dir then
        Set(s.(dir := Move(s.dir, Target, Claim(w))), w, p.(pc := Claimed, held := Some(s.dir[Target])))
      else
        Set(s, w, p.(pc := Cleanup))
    case Identify(w) =>
      Set(s, w, s.writers[w].(pc := Identified, claimed := Some(IdentityAt(s, Claim(w)))))
    case Verify(w, readable) =>
      var p := s.writers[w];
      Set(s, w, p.(pc := if readable && VerifyAccepts(s, p.request, Claim(w)) then Verified else RestoreCheck))
    // Cancellation, a lost authority fence, an I/O error or a changed parent directory.
    case Abandon(w, retain) =>
      var p := s.writers[w];
      Set(s, w, p.(pc :=
        if p.pc.DiscardMove? then Done
        else if p.pc.Verified? && !retain then RestoreCheck
        else Cleanup))
    case CheckClaim(w) =>
      var p := s.writers[w];
      Set(s, w, p.(pc := if IdentityAt(s, Claim(w)) == p.claimed.value then RestoreLink else Cleanup))
    case LinkBack(w) =>
      var p := s.writers[w];
      if Target in s.dir then
        Set(s, w, p.(pc := Cleanup))
      else
        Set(s.(dir := s.dir[Target := s.dir[Claim(w)]]), w, p.(pc := DiscardMove(p.claimed.value.nlink + 1)))
    case MoveToDiscard(w) =>
      var p := s.writers[w];
      Set(s.(dir := Move(s.dir, Claim(w), Discard(w))), w, p.(pc := DiscardRemove(p.pc.nlink)))
    case CheckAndRemove(w) =>
      var p := s.writers[w];
      var same := IdentityAt(s, Discard(w)) == p.claimed.value.(nlink := p.pc.nlink);
      Set(if same then s.(dir := s.dir - {Discard(w)}) else s, w, p.(pc := if p.committed then Done else Cleanup))
    case CleanTemp(w, retain) =>
      var p := s.writers[w];
      var mine := !retain && p.temp.Some? && Temp(w) in s.dir && s.dir[Temp(w)] == p.temp.value;
      Set(if mine then s.(dir := s.dir - {Temp(w)}) else s, w, p.(pc := Failed))
    case Crash(w) => Set(s, w, s.writers[w].(pc := Crashed))
  }

  predicate ValidRun(s: State, run: seq<Action>)
    decreases |run|
  {
    run == [] || (Enabled(s, run[0]) && ValidRun(Apply(s, run[0]), run[1..]))
  }

  function After(s: State, run: seq<Action>): State
    requires ValidRun(s, run)
    decreases |run|
  {
    if run == [] then s else After(Apply(s, run[0]), run[1..])
  }

  /** Writers that have not started, beside whatever the public names already hold. */
  predicate Initial(s: State) {
    && WellFormed(s)
    && (forall n :: n in s.dir ==> Public(n))
    && (forall w :: w in s.writers ==>
          var p := s.writers[w];
          p.pc.Idle? && p.temp.None? && p.held.None? && p.claimed.None? && !p.committed)
  }

  // ----- the inductive invariant -----

  predicate HoldsClaim(pc: Pc) {
    pc.Claimed? || pc.Identified? || pc.Verified? || pc.RestoreCheck? || pc.RestoreLink?
  }

  /** The claim name still carries the claimed entry. */
  predicate ClaimInPlace(p: Writer) {
    HoldsClaim(p.pc) || p.pc.DiscardMove? || (p.pc.Linked? && p.request.Conditional?)
  }

  predicate BeforeClaim(pc: Pc) { pc.Idle? || pc.Writing? || pc.Staged? }

  predicate NeedsTemp(p: Writer) {
    p.pc.Writing? || p.pc.Staged? || HoldsClaim(p.pc) || p.pc.Linked?
  }

  predicate TempOk(s: State, w: nat)
    requires w in s.writers
  {
    var p := s.writers[w];
    && (p.pc.Idle? ==> p.temp.None?)
    && (Temp(w) in s.dir ==> p.temp == Some(s.dir[Temp(w)]))
    && (NeedsTemp(p) ==> Temp(w) in s.dir)
    && (p.temp.Some? ==> p.temp.value in s.inodes)
    && (p.temp.Some? && !p.committed ==> forall n :: n in s.dir && s.dir[n] == p.temp.value ==> n == Temp(w))
    && (p.temp.Some? && (p.committed || p.pc.Staged? || HoldsClaim(p.pc)) ==>
          s.inodes[p.temp.value] == Inode(p.content, p.perm))
    && (p.committed ==> p.temp.Some?)
    && (p.pc.Linked? ==> p.committed)
    && (BeforeClaim(p.pc) || HoldsClaim(p.pc) ==> !p.committed)
  }

  predicate ClaimOk(s: State, w: nat)
    requires w in s.writers
  {
    var p := s.writers[w];
    && (BeforeClaim(p.pc) ==> p.held.None? && p.claimed.None? && Claim(w) !in s.dir)
    && (p.pc.DiscardMove? || p.pc.DiscardRemove? || HoldsClaim(p.pc) ==> p.request.Conditional?)
    && (BeforeClaim(p.pc) || ClaimInPlace(p) ==> Discard(w) !in s.dir)
    && (ClaimInPlace(p) ==> p.held.Some? && Claim(w) in s.dir && s.dir[Claim(w)] == p.held.value)
    && (p.pc.DiscardRemove? ==> p.claimed.Some? && Discard(w) in s.dir && p.held == Some(s.dir[Discard(w)]))
    && (ClaimInPlace(p) && !p.pc.Claimed? ==> p.claimed.Some?)
    && (p.held.Some? ==> p.held.value in s.inodes)
    && (p.claimed.Some? ==>
          p.held == Some(p.claimed.value.ino) && p.claimed.value.nlink >= 1)
    && (p.request.Conditional? && (p.pc.Verified? || p.committed) ==>
          && p.held.Some? && p.claimed.Some?
          && Expects(p.request, p.held.value, s.inodes[p.held.value]))
    && ((p.pc.DiscardMove? || p.pc.DiscardRemove?) && !p.committed ==> p.pc.nlink >= 2)
  }

  /** No writer's unpublished inode is also claimed by anyone, and staged inodes are distinct. */
  predicate TempsPrivate(s: State) {
    forall v, w :: v in s.writers && w in s.writers && s.writers[v].temp.Some? ==>
      && (v != w ==> s.writers[w].temp != s.writers[v].temp)
      && (!s.writers[v].committed ==> s.writers[w].held != s.writers[v].temp)
  }

  predicate PrivateNamesOwned(s: State) {
    forall n :: n in s.dir && !Public(n) ==> n.writer in s.writers
  }

  predicate Inv(s: State) {
    && WellFormed(s)
    && PrivateNamesOwned(s)
    && TempsPrivate(s)
    && (forall w :: w in s.writers ==> TempOk(s, w) && ClaimOk(s, w))
  }

  lemma {:induction false} InitialInv(s: State)
    requires Initial(s)
    ensures Inv(s)
  {
  }

  const ENV: int := -1

  /** A name that a step of `w` may touch. */
  predicate Mine(n: Name, w: int) { Public(n) || n.writer == w }

  /** What a step of `w` leaves alone; the environment is `ENV`. */
  ghost predicate Framed(s: State, t: State, w: int) {
    && WellFormed(t) && PrivateNamesOwned(t)
    && t.writers.Keys == s.writers.Keys
    && (forall v :: v in s.writers && v != w ==> t.writers[v] == s.writers[v])
    && (forall n :: !Mine(n, w) ==> (n in t.dir <==> n in s.dir))
    && (forall n :: n in s.dir && !Mine(n, w) ==> t.dir[n] == s.dir[n])
    && (forall i :: i in s.inodes ==> i in t.inodes)
    && (forall i :: i in s.inodes && (w in s.writers ==> s.writers[w].temp != Some(i)) ==> t.inodes[i] == s.inodes[i])
    && (w in s.writers && s.writers[w].committed && s.writers[w].temp.Some? ==> t.inodes == s.inodes)
    && (forall v, n | v in s.writers && v != w && n in t.dir && s.writers[v].temp == Some(t.dir[n]) ::
          s.writers[v].committed || n == Temp(v))
  }

  ghost predicate SameButRecord(s: State, t: State, w: int) {
    && t.inodes == s.inodes && t.next == s.next && t.writers.Keys == s.writers.Keys
    && (forall v :: v in s.writers && v != w ==> t.writers[v] == s.writers[v])
  }

  lemma {:induction false} RecordFrames(s: State, t: State, w: int)
    requires Inv(s) && SameButRecord(s, t, w) && t.dir == s.dir
    ensures Framed(s, t, w)
  {
    assert forall v :: v in s.writers ==> TempOk(s, v);
  }

  lemma {:induction false} LinkFrames(s: State, t: State, w: int, from: Name, to: Name)
    requires Inv(s) && SameButRecord(s, t, w)
    requires from in s.dir && Mine(from, w) && Mine(to, w) && (Public(to) || w in s.writers)
    requires t.dir == s.dir[to := s.dir[from]]
    ensures Framed(s, t, w)
  {
    assert forall v :: v in s.writers ==> TempOk(s, v);
  }

  lemma {:induction false} UnlinkFrames(s: State, t: State, w: int, n: Name)
    requires Inv(s) && SameButRecord(s, t, w) && Mine(n, w)
    requires t.dir == s.dir - {n}
    ensures Framed(s, t, w)
  {
    assert forall v :: v in s.writers ==> TempOk(s, v);
  }

  lemma {:induction false} MoveFrames(s: State, t: State, w: int, from: Name, to: Name)
    requires Inv(s) && SameButRecord(s, t, w)
    requires from in s.dir && Mine(from, w) && Mine(to, w) && (Public(to) || w in s.writers)
    requires t.dir == Move(s.dir, from, to)
    ensures Framed(s, t, w)
  {
    assert forall v :: v in s.writers ==> TempOk(s, v);
  }

  lemma {:induction false} FreshFrames(s: State, t: State, w: int, n: Name, node: Inode)
    requires Inv(s) && SameButRecord(s, t.(inodes := s.inodes, next := s.next), w)
    requires Mine(n, w) && (Public(n) || w in s.writers)
    requires w in s.writers ==> s.writers[w].temp.None?
    requires t.dir == s.dir[n := s.next] && t.inodes == s.inodes[s.next := node] && t.next == s.next + 1
    ensures Framed(s, t, w)
  {
    assert forall v :: v in s.writers ==> TempOk(s, v);
  }

  lemma {:induction false} RewriteFrames(s: State, t: State, w: int, node: Inode)
    requires Inv(s) && SameButRecord(s, t.(inodes := s.inodes), w) && t.dir == s.dir
    requires w in s.writers && s.writers[w].temp.Some? && !s.writers[w].committed
    requires t.inodes == s.inodes[s.writers[w].temp.value := node]
    ensures Framed(s, t, w)
  {
    assert forall v :: v in s.writers ==> TempOk(s, v);
  }

  lemma {:induction false} FramedKeepsOthers(s: State, t: State, w: int, v: nat)
    requires Inv(s) && Framed(s, t, w) && v in s.writers && v != w
    ensures TempOk(t, v) && ClaimOk(t, v)
  {
    assert TempOk(s, v) && ClaimOk(s, v);
    assert !Mine(Temp(v), w) && !Mine(Claim(v), w) && !Mine(Discard(v), w);
  }

  /** How a step may change its own writer's record. */
  ghost predicate RecordOk(s: State, t: State, w: nat)
    requires w in s.writers
  {
    && w in t.writers
    && t.writers[w].request == s.writers[w].request
    && t.writers[w].content == s.writers[w].content
    && t.writers[w].perm == s.writers[w].perm
    && (s.writers[w].committed ==> t.writers[w].committed)
    && (t.writers[w].temp == s.writers[w].temp || t.writers[w].temp == Some(s.next))
    && (t.writers[w].held == s.writers[w].held || (Target in s.dir && t.writers[w].held == Some(s.dir[Target])))
  }

  lemma {:induction false} RecordKeepsTemps(s: State, t: State, w: nat)
    requires Inv(s) && w in s.writers && Framed(s, t, w) && RecordOk(s, t, w)
    ensures TempsPrivate(t)
  {
    assert forall v :: v in s.writers ==> TempOk(s, v) && ClaimOk(s, v);
  }

  function Actor(a: Action): int { if IsEnv(a) then ENV else a.w }

  lemma {:induction false} StepFrames(s: State, a: Action)
    requires Inv(s) && Enabled(s, a)
    ensures Framed(s, Apply(s, a), Actor(a))
  {
    if IsEnv(a) { EnvFrames(s, a); }
    else if a.Open? || a.Write? || a.Finish? { StagingFrames(s, a); }
    else if a.LinkNew? || a.LinkBack? || a.ClaimTarget? { TargetFrames(s, a); }
    else { QuarantineFrames(s, a); }
  }

  lemma {:induction false} EnvFrames(s: State, a: Action)
    requires Inv(s) && Enabled(s, a) && IsEnv(a)
    ensures Framed(s, Apply(s, a), ENV)
  {
    var t := Apply(s, a);
    match a {
      case EnvPut(n, text, mode) => FreshFrames(s, t, ENV, n, Inode(text, mode));
      case EnvRemove(n) => UnlinkFrames(s, t, ENV, n);
      case EnvRename(from, to) => MoveFrames(s, t, ENV, from, to);
      case EnvLink(from, to) => LinkFrames(s, t, ENV, from, to);
    }
  }

  lemma {:induction false} StagingFrames(s: State, a: Action)
    requires Inv(s) && Enabled(s, a) && (a.Open? || a.Write? || a.Finish?)
    ensures Framed(s, Apply(s, a), a.w)
  {
    var t := Apply(s, a);
    assert TempOk(s, a.w);
    if a.Open? {
      FreshFrames(s, t, a.w, Temp(a.w), Inode("", a.mode));
    } else {
      RewriteFrames(s, t, a.w, t.inodes[s.writers[a.w].temp.value]);
    }
  }

  lemma {:induction false} TargetFrames(s: State, a: Action)
    requires Inv(s) && Enabled(s, a) && (a.LinkNew? || a.LinkBack? || a.ClaimTarget?)
    ensures Framed(s, Apply(s, a), a.w)
  {
    var t := Apply(s, a);
    if a.ClaimTarget? && Target in s.dir {
      MoveFrames(s, t, a.w, Target, Claim(a.w));
    } else if a.ClaimTarget? || Target in s.dir {
      RecordFrames(s, t, a.w);
    } else {
      LinkFrames(s, t, a.w, if a.LinkNew? then Temp(a.w) else Claim(a.w), Target);
    }
  }

  lemma {:induction false} QuarantineFrames(s: State, a: Action)
    requires Inv(s) && Enabled(s, a) && !IsEnv(a) && !a.Open? && !a.Write? && !a.Finish?
    requires !a.LinkNew? && !a.LinkBack? && !a.ClaimTarget?
    ensures Framed(s, Apply(s, a), a.w)
  {
    var t := Apply(s, a);
    if t.dir == s.dir {
      RecordFrames(s, t, a.w);
    } else if a.Overwrite? {
      MoveFrames(s, t, a.w, Temp(a.w), Target);
    } else if a.MoveToDiscard? {
      MoveFrames(s, t, a.w, Claim(a.w), Discard(a.w));
    } else {
      UnlinkFrames(s, t, a.w, if a.CheckAndRemove? then Discard(a.w) else Temp(a.w));
    }
  }

  lemma {:induction false} OpenWriteOwn(s: State, a: Action)
    requires Inv(s) && Enabled(s, a) && (a.Open? || a.Write?)
    ensures TempOk(Apply(s, a), a.w) && ClaimOk(Apply(s, a), a.w) && RecordOk(s, Apply(s, a), a.w)
  {
  }

  lemma {:induction false} FinishOverwriteOwn(s: State, a: Action)
    requires Inv(s) && Enabled(s, a) && (a.Finish? || a.Overwrite?)
    ensures TempOk(Apply(s, a), a.w) && ClaimOk(Apply(s, a), a.w) && RecordOk(s, Apply(s, a), a.w)
  {
  }

  lemma {:induction false} LinkNewOwn(s: State, a: Action)
    requires Inv(s) && Enabled(s, a) && a.LinkNew?
    ensures TempOk(Apply(s, a), a.w) && ClaimOk(Apply(s, a), a.w) && RecordOk(s, Apply(s, a), a.w)
  {
  }

  lemma {:induction false} LinkBackOwn(s: State, a: Action)
    requires Inv(s) && Enabled(s, a) && a.LinkBack?
    ensures TempOk(Apply(s, a), a.w) && ClaimOk(Apply(s, a), a.w) && RecordOk(s, Apply(s, a), a.w)
  {
  }

  lemma {:induction false} ClaimTargetOwn(s: State, a: Action)
    requires Inv(s) && Enabled(s, a) && a.ClaimTarget?
    ensures TempOk(Apply(s, a), a.w) && ClaimOk(Apply(s, a), a.w) && RecordOk(s, Apply(s, a), a.w)
  {
  }

  lemma {:induction false} DropTempOwn(s: State, a: Action)
    requires Inv(s) && Enabled(s, a) && a.DropTemp?
    ensures TempOk(Apply(s, a), a.w) && ClaimOk(Apply(s, a), a.w) && RecordOk(s, Apply(s, a), a.w)
  {
  }

  lemma {:induction false} IdentifyVerifyOwn(s: State, a: Action)
    requires Inv(s) && Enabled(s, a) && (a.Identify? || a.Verify?)
    ensures TempOk(Apply(s, a), a.w) && ClaimOk(Apply(s, a), a.w) && RecordOk(s, Apply(s, a), a.w)
  {
    assert a.Identify? ==> Claim(a.w) in Names(s.dir, s.dir[Claim(a.w)]);
  }

  lemma {:induction false} AbandonOwn(s: State, a: Action)
    requires Inv(s) && Enabled(s, a) && a.Abandon?
    ensures TempOk(Apply(s, a), a.w) && ClaimOk(Apply(s, a), a.w) && RecordOk(s, Apply(s, a), a.w)
  {
  }

  lemma {:induction false} CheckClaimOwn(s: State, a: Action)
    requires Inv(s) && Enabled(s, a) && a.CheckClaim?
    ensures TempOk(Apply(s, a), a.w) && ClaimOk(Apply(s, a), a.w) && RecordOk(s, Apply(s, a), a.w)
  {
  }

  lemma {:induction false} MoveToDiscardOwn(s: State, a: Action)
    requires Inv(s) && Enabled(s, a) && a.MoveToDiscard?
    ensures TempOk(Apply(s, a), a.w) && ClaimOk(Apply(s, a), a.w) && RecordOk(s, Apply(s, a), a.w)
  {
  }

  lemma {:induction false} CheckAndRemoveOwn(s: State, a: Action)
    requires Inv(s) && Enabled(s, a) && a.CheckAndRemove?
    ensures TempOk(Apply(s, a), a.w) && ClaimOk(Apply(s, a), a.w) && RecordOk(s, Apply(s, a), a.w)
  {
  }

  lemma {:induction false} CleanTempOwn(s: State, a: Action)
    requires Inv(s) && Enabled(s, a) && a.CleanTemp?
    ensures TempOk(Apply(s, a), a.w) && ClaimOk(Apply(s, a), a.w) && RecordOk(s, Apply(s, a), a.w)
  {
  }

  lemma {:induction false} CrashOwn(s: State, a: Action)
    requires Inv(s) && Enabled(s, a) && a.Crash?
    ensures TempOk(Apply(s, a), a.w) && ClaimOk(Apply(s, a), a.w) && RecordOk(s, Apply(s, a), a.w)
  {
  }

  lemma {:induction false} WriterOwn(s: State, a: Action)
    requires Inv(s) && Enabled(s, a) && !IsEnv(a)
    ensures TempOk(Apply(s, a), a.w) && ClaimOk(Apply(s, a), a.w) && RecordOk(s, Apply(s, a), a.w)
  {
    match a {
      case Open(_, _) => OpenWriteOwn(s, a);
      case Write(_, _) => OpenWriteOwn(s, a);
      case Finish(_) => FinishOverwriteOwn(s, a);
      case Overwrite(_) => FinishOverwriteOwn(s, a);
      case LinkNew(_) => LinkNewOwn(s, a);
      case LinkBack(_) => LinkBackOwn(s, a);
      case ClaimTarget(_) => ClaimTargetOwn(s, a);
      case DropTemp(_) => DropTempOwn(s, a);
      case Identify(_) => IdentifyVerifyOwn(s, a);
      case Verify(_, _) => IdentifyVerifyOwn(s, a);
      case Abandon(_, _) => AbandonOwn(s, a);
      case CheckClaim(_) => CheckClaimOwn(s, a);
      case MoveToDiscard(_) => MoveToDiscardOwn(s, a);
      case CheckAndRemove(_) => CheckAndRemoveOwn(s, a);
      case CleanTemp(_, _) => CleanTempOwn(s, a);
      case Crash(_) => CrashOwn(s, a);
    }
  }

  lemma {:induction false} StepKeepsInv(s: State, a: Action)
    requires Inv(s) && Enabled(s, a)
    ensures Inv(Apply(s, a))
  {
    var t := Apply(s, a);
    StepFrames(s, a);
    if !IsEnv(a) {
      WriterOwn(s, a);
      RecordKeepsTemps(s, t, a.w);
    }
    forall v | v in s.writers && v != Actor(a) ensures TempOk(t, v) && ClaimOk(t, v) {
      FramedKeepsOthers(s, t, Actor(a), v);
    }
  }

  lemma {:induction false} RunKeepsInv(s: State, run: seq<Action>)
    requires Inv(s) && ValidRun(s, run)
    ensures Inv(After(s, run))
    decreases |run|
  {
    if run != [] {
      StepKeepsInv(s, run[0]);
      RunKeepsInv(Apply(s, run[0]), run[1..]);
    }
  }
}
