/** A conditional write that nobody interferes with: it replaces an expected entry, and puts back any other. */
module FsWriteAlone {

  import opened Common
  import opened FsWrite
  import opened FsWriteSafety

  lemma {:induction false} MoveKeepsLinks(dir: map<Name, Ino>, from: Name, to: Name)
    requires from in dir && to !in dir
    ensures Nlink(Move(dir, from, to), dir[from]) == Nlink(dir, dir[from])
  {
    var before, after := Names(dir, dir[from]), Names(Move(dir, from, to), dir[from]);
    assert after == (before - {from}) + {to};
    assert from in before && to !in before;
  }

  lemma {:induction false} LinkAddsOne(dir: map<Name, Ino>, n: Name, to: Name)
    requires n in dir && to !in dir
    ensures Nlink(dir[to := dir[n]], dir[n]) == Nlink(dir, dir[n]) + 1
  {
    assert Names(dir[to := dir[n]], dir[n]) == Names(dir, dir[n]) + {to};
  }

  lemma {:induction false} OtherNameKeepsLinks(dir: map<Name, Ino>, n: Name, i: Ino, j: Ino)
    requires i != j && (n in dir ==> dir[n] != i)
    ensures Nlink(dir[n := j], i) == Nlink(dir, i)
    ensures Nlink(dir - {n}, i) == Nlink(dir, i)
  {
    assert Names(dir[n := j], i) == Names(dir, i);
    assert Names(dir - {n}, i) == Names(dir, i);
  }

  /** The writer's solitary run from staging to its last step. */
  ghost predicate Reaches(s: State, t: State) {
    exists run :: ValidRun(s, run) && After(s, run) == t
  }

  lemma {:induction false} ReachesStep(s: State, t: State, a: Action)
    requires Reaches(s, t) && Enabled(t, a)
    ensures Reaches(s, Apply(t, a))
  {
    var run :| ValidRun(s, run) && After(s, run) == t;
    assert [a][1..] == [];
    var u := Apply(t, a);
    assert ValidRun(u, []) && After(u, []) == u;
    assert [a][0] == a && ValidRun(t, [a]) && After(t, [a]) == After(u, [a][1..]);
    RunConcat(s, run, [a]);
  }

  /** Staged and claimed: the entry now sits at the claim name, identified, with its link count unchanged. */
  function ClaimedState(s: State, w: nat): State
    requires w in s.writers && Target in s.dir && s.dir[Target] in s.inodes
  {
    var p := s.writers[w];
    var i := s.dir[Target];
    State(
      (s.dir - {Target})[Temp(w) := s.next][Claim(w) := i],
      s.inodes[s.next := Inode(p.content, p.perm)], s.next + 1,
      s.writers[w := p.(pc := Identified, temp := Some(s.next), held := Some(i),
                        claimed := Some(Identity(i, s.inodes[i].mode, Nlink(s.dir, i))))])
  }

  lemma {:induction false} ReachesClaimed(s: State, w: nat)
    requires Initial(s) && w in s.writers && s.writers[w].request.Conditional? && Target in s.dir
    ensures Reaches(s, ClaimedState(s, w)) && Nlink(ClaimedState(s, w).dir, s.dir[Target])
        == Nlink(s.dir, s.dir[Target])
  {
    var i := s.dir[Target];
    StageOne(s, w);
    var t := After(s, [Open(w, 420), Finish(w)]);
    assert Reaches(s, t);
    OtherNameKeepsLinks(s.dir, Temp(w), i, s.next);
    MoveKeepsLinks(t.dir, Target, Claim(w));
    ReachesStep(s, t, ClaimTarget(w));
    var u := Apply(t, ClaimTarget(w));
    ReachesStep(s, u, Identify(w));
    assert u.dir == ClaimedState(s, w).dir;
    assert Apply(u, Identify(w)) == ClaimedState(s, w);
  }

  lemma {:induction false} AloneDiscards(s: State, d: State, w: nat) returns (t: State)
    requires Reaches(s, d) && w in d.writers && d.writers[w].pc.DiscardMove? && d.writers[w].claimed.Some?
    requires Claim(w) in d.dir && Discard(w) !in d.dir && d.dir[Claim(w)] in d.inodes
    requires IdentityAt(d, Claim(w)) == d.writers[w].claimed.value.(nlink := d.writers[w].pc.nlink)
    ensures Reaches(s, t)
    ensures t.dir == d.dir - {Claim(w)} && t.inodes == d.inodes
    ensures t.writers == d.writers[w := d.writers[w].(pc := if d.writers[w].committed then Done else Cleanup)]
  {
    MoveKeepsLinks(d.dir, Claim(w), Discard(w));
    ReachesStep(s, d, MoveToDiscard(w));
    var m := Apply(d, MoveToDiscard(w));
    ReachesStep(s, m, CheckAndRemove(w));
    t := Apply(m, CheckAndRemove(w));
    assert m.dir - {Discard(w)} == d.dir - {Claim(w)};
  }

  /** Committed, with the old entry still to be discarded. */
  function CommittedState(s: State, w: nat): State
    requires w in s.writers && Target in s.dir && s.dir[Target] in s.inodes
  {
    var c := ClaimedState(s, w);
    c.(dir := (c.dir - {Temp(w)})[Target := s.next],
       writers := c.writers[w := c.writers[w].(pc := DiscardMove(Nlink(s.dir, s.dir[Target])), committed := true)])
  }

  lemma {:induction false} ReachesCommitted(s: State, w: nat)
    requires Initial(s) && w in s.writers && Target in s.dir
    requires VerifyAccepts(s, s.writers[w].request, Target)
    ensures Reaches(s, CommittedState(s, w))
  {
    ReachesClaimed(s, w);
    var c := ClaimedState(s, w);
    ReachesStep(s, c, Verify(w, true));
    var v := Apply(c, Verify(w, true));
    assert v == c.(writers := c.writers[w := c.writers[w].(pc := Verified)]);
    ReachesStep(s, v, LinkNew(w));
    var l := Apply(v, LinkNew(w));
    ReachesStep(s, l, DropTemp(w));
    assert Apply(l, DropTemp(w)).dir == CommittedState(s, w).dir;
  }

  /** Left alone, the write replaces an entry it expects: only the target changes, and no private name remains. */
  lemma {:induction false} AloneReplacesExpected(s: State, w: nat) returns (t: State)
    requires Initial(s) && w in s.writers && Target in s.dir
    requires VerifyAccepts(s, s.writers[w].request, Target)
    ensures Reaches(s, t)
    ensures t.dir == s.dir[Target := s.next]
    ensures t.inodes == s.inodes[s.next := Inode(s.writers[w].content, s.writers[w].perm)]
    ensures w in t.writers && t.writers[w].pc.Done? && t.writers[w].committed
  {
    var i := s.dir[Target];
    ReachesClaimed(s, w);
    ReachesCommitted(s, w);
    var c, d := ClaimedState(s, w), CommittedState(s, w);
    OtherNameKeepsLinks(c.dir, Temp(w), i, s.next);
    OtherNameKeepsLinks(c.dir - {Temp(w)}, Target, i, s.next);
    t := AloneDiscards(s, d, w);
  }

  /** The entry is linked back; the claim is still to be discarded. */
  function RestoredState(s: State, w: nat): State
    requires w in s.writers && Target in s.dir && s.dir[Target] in s.inodes
  {
    var c := ClaimedState(s, w);
    c.(dir := c.dir[Target := s.dir[Target]],
       writers := c.writers[w := c.writers[w].(pc := DiscardMove(Nlink(s.dir, s.dir[Target]) + 1))])
  }

  lemma {:induction false} ReachesRestored(s: State, w: nat)
    requires Initial(s) && w in s.writers && s.writers[w].request.Conditional? && Target in s.dir
    requires !VerifyAccepts(s, s.writers[w].request, Target)
    ensures Reaches(s, RestoredState(s, w))
  {
    ReachesClaimed(s, w);
    var c := ClaimedState(s, w);
    ReachesStep(s, c, Verify(w, true));
    var v := Apply(c, Verify(w, true));
    assert v == c.(writers := c.writers[w := c.writers[w].(pc := RestoreCheck)]);
    ReachesStep(s, v, CheckClaim(w));
    var k := Apply(v, CheckClaim(w));
    assert k == c.(writers := c.writers[w := c.writers[w].(pc := RestoreLink)]);
    ReachesStep(s, k, LinkBack(w));
    assert Apply(k, LinkBack(w)) == RestoredState(s, w);
  }

  /** Left alone, a write that finds anything else fails and leaves the directory exactly as it was. */
  lemma {:induction false} AloneRestoresUnexpected(s: State, w: nat) returns (t: State)
    requires Initial(s) && w in s.writers && s.writers[w].request.Conditional? && Target in s.dir
    requires !VerifyAccepts(s, s.writers[w].request, Target)
    ensures Reaches(s, t)
    ensures t.dir == s.dir
    ensures t.inodes == s.inodes[s.next := Inode(s.writers[w].content, s.writers[w].perm)]
    ensures w in t.writers && t.writers[w].pc.Failed? && !t.writers[w].committed
  {
    ReachesClaimed(s, w);
    ReachesRestored(s, w);
    LinkAddsOne(ClaimedState(s, w).dir, Claim(w), Target);
    var d := AloneDiscards(s, RestoredState(s, w), w);
    ReachesStep(s, d, CleanTemp(w, false));
    t := Apply(d, CleanTemp(w, false));
  }

  // ----- creating and overwriting -----

  /** The new text staged under the temporary name. */
  function StagedState(s: State, w: nat): State
    requires w in s.writers
  {
    var p := s.writers[w];
    State(s.dir[Temp(w) := s.next], s.inodes[s.next := Inode(p.content, p.perm)], s.next + 1,
          s.writers[w := p.(pc := Staged, temp := Some(s.next))])
  }

  lemma {:induction false} ReachesStaged(s: State, w: nat)
    requires Initial(s) && w in s.writers
    ensures Reaches(s, StagedState(s, w))
  {
    StageOne(s, w);
    assert After(s, [Open(w, 420), Finish(w)]) == StagedState(s, w);
  }

  /** Left alone, creating a file where there is none puts the new file there and nothing else. */
  lemma {:induction false} AloneCreates(s: State, w: nat) returns (t: State)
    requires Initial(s) && w in s.writers && s.writers[w].request.CreateIfAbsent? && Target !in s.dir
    ensures Reaches(s, t)
    ensures t.dir == s.dir[Target := s.next]
    ensures t.inodes == s.inodes[s.next := Inode(s.writers[w].content, s.writers[w].perm)]
    ensures w in t.writers && t.writers[w].pc.Done? && t.writers[w].committed
  {
    var g := StagedState(s, w);
    ReachesStaged(s, w);
    ReachesStep(s, g, LinkNew(w));
    var l := g.(dir := g.dir[Target := s.next],
                writers := g.writers[w := g.writers[w].(pc := Linked, committed := true)]);
    assert Apply(g, LinkNew(w)) == l;
    ReachesStep(s, l, DropTemp(w));
    t := Apply(l, DropTemp(w));
    assert l.dir - {Temp(w)} == s.dir[Target := s.next];
  }

  /** Left alone, creating a file where something stands fails and leaves the directory as it was. */
  lemma {:induction false} AloneCreateRefused(s: State, w: nat) returns (t: State)
    requires Initial(s) && w in s.writers && s.writers[w].request.CreateIfAbsent? && Target in s.dir
    ensures Reaches(s, t) && t.dir == s.dir
    ensures forall i :: i in s.inodes ==> i in t.inodes && t.inodes[i] == s.inodes[i]
    ensures w in t.writers && t.writers[w].pc.Failed? && !t.writers[w].committed
  {
    var g := StagedState(s, w);
    ReachesStaged(s, w);
    ReachesStep(s, g, LinkNew(w));
    var l := Apply(g, LinkNew(w));
    ReachesStep(s, l, CleanTemp(w, false));
    t := Apply(l, CleanTemp(w, false));
    assert t.dir == s.dir;
  }

  /** Left alone, an unconditional write puts the new file at the target, whatever stood there. */
  lemma {:induction false} AloneOverwrites(s: State, w: nat) returns (t: State)
    requires Initial(s) && w in s.writers && s.writers[w].request.Unconditional?
    ensures Reaches(s, t)
    ensures t.dir == s.dir[Target := s.next]
    ensures t.inodes == s.inodes[s.next := Inode(s.writers[w].content, s.writers[w].perm)]
    ensures w in t.writers && t.writers[w].pc.Done? && t.writers[w].committed
  {
    var g := StagedState(s, w);
    ReachesStaged(s, w);
    ReachesStep(s, g, Overwrite(w));
    t := Apply(g, Overwrite(w));
    assert t.dir == s.dir[Target := s.next];
  }

  /** Left alone, a conditional write whose entry has gone fails and creates nothing. */
  lemma {:induction false} AloneMissingRefused(s: State, w: nat) returns (t: State)
    requires Initial(s) && w in s.writers && s.writers[w].request.Conditional? && Target !in s.dir
    ensures Reaches(s, t) && t.dir == s.dir
    ensures w in t.writers && t.writers[w].pc.Failed? && !t.writers[w].committed
  {
    var g := StagedState(s, w);
    ReachesStaged(s, w);
    ReachesStep(s, g, ClaimTarget(w));
    var l := Apply(g, ClaimTarget(w));
    ReachesStep(s, l, CleanTemp(w, false));
    t := Apply(l, CleanTemp(w, false));
    assert t.dir == s.dir;
  }
}
