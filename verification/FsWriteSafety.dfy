/** What the conditional-write protocol guarantees over every interleaving. */
module FsWriteSafety {

  import opened Common
  import opened FsWrite

  // ----- nothing unverified is ever lost -----

  lemma {:induction false} AnotherName(dir: map<Name, Ino>, n: Name)
    requires n in dir && Nlink(dir, dir[n]) >= 2
    ensures exists m :: m in dir && m != n && dir[m] == dir[n]
  {
    var names := Names(dir, dir[n]);
    assert n in names;
    assert |names - {n}| >= 1;
    var m :| m in names - {n};
  }

  /** The inodes a writer may unlink for good: the one it staged, and the expected one after its commit. */
  predicate MayRemove(s: State, w: nat, i: Ino)
    requires w in s.writers && i in s.inodes
  {
    var p := s.writers[w];
    p.temp == Some(i) || (p.committed && p.held == Some(i) && Expects(p.request, i, s.inodes[i]))
  }

  lemma {:induction false} WriterKeepsReachable(s: State, a: Action, i: Ino)
    requires Inv(s) && Enabled(s, a) && !IsEnv(a) && !a.Overwrite?
    requires Reachable(s, i) && i in s.inodes && !MayRemove(s, a.w, i)
    ensures Reachable(Apply(s, a), i)
  {
    var t := Apply(s, a);
    assert TempOk(s, a.w) && ClaimOk(s, a.w);
    var n :| n in s.dir && s.dir[n] == i;
    var kept := n;
    if a.ClaimTarget? && n == Target {
      kept := Claim(a.w);
    } else if a.MoveToDiscard? && n == Claim(a.w) {
      kept := Discard(a.w);
    } else if a.CheckAndRemove? && n == Discard(a.w) && t.dir != s.dir {
      AnotherName(s.dir, n);
      kept :| kept in s.dir && kept != n && s.dir[kept] == i;
    }
    assert kept in t.dir && t.dir[kept] == i;
  }

  /** The environment itself never removes the last name of `i` along the run. */
  predicate EnvSpares(s: State, run: seq<Action>, i: Ino)
    requires ValidRun(s, run)
    decreases |run|
  {
    run != [] ==>
      && (IsEnv(run[0]) && Reachable(s, i) ==> Reachable(Apply(s, run[0]), i))
      && EnvSpares(Apply(s, run[0]), run[1..], i)
  }

  /** No writer staged `i`, and none overwrites unconditionally. */
  predicate Unstaged(s: State, i: Ino) {
    && i in s.inodes
    && (forall w :: w in s.writers ==> s.writers[w].temp != Some(i) && !s.writers[w].request.Unconditional?)
  }

  /** A writer has verified `i` as the entry it expects and committed in its place. */
  predicate Replaced(s: State, i: Ino) {
    i in s.inodes
    && exists w :: && w in s.writers && s.writers[w].committed && s.writers[w].held == Some(i)
                   && Expects(s.writers[w].request, i, s.inodes[i])
  }

  lemma {:induction false} StepKeepsUnstaged(s: State, a: Action, i: Ino)
    requires Inv(s) && Enabled(s, a) && Unstaged(s, i)
    ensures Unstaged(Apply(s, a), i) && Apply(s, a).inodes[i] == s.inodes[i]
  {
    StepFrames(s, a);
    if !IsEnv(a) { WriterOwn(s, a); }
  }

  lemma {:induction false} CommittedKeepsHeld(s: State, a: Action)
    requires Enabled(s, a) && !IsEnv(a) && s.writers[a.w].committed && TempOk(s, a.w)
    ensures var p, q := s.writers[a.w], Apply(s, a).writers[a.w];
            q.committed && q.held == p.held && q.request == p.request
  {
  }

  lemma {:induction false} CommittedStays(s: State, a: Action, w: nat)
    requires Inv(s) && Enabled(s, a) && w in s.writers && s.writers[w].committed
    ensures var t := Apply(s, a);
            && w in t.writers && t.writers[w].committed
            && t.writers[w].held == s.writers[w].held && t.writers[w].request == s.writers[w].request
  {
    StepFrames(s, a);
    if !IsEnv(a) && a.w == w { CommittedKeepsHeld(s, a); }
  }

  lemma {:induction false} StepKeepsReplaced(s: State, a: Action, i: Ino)
    requires Inv(s) && Enabled(s, a) && Unstaged(s, i) && Replaced(s, i)
    ensures Replaced(Apply(s, a), i)
  {
    var w :| && w in s.writers && s.writers[w].committed && s.writers[w].held == Some(i)
             && Expects(s.writers[w].request, i, s.inodes[i]);
    StepKeepsUnstaged(s, a, i);
    CommittedStays(s, a, w);
  }

  /** In the directory under a public, claim or discard name. */
  predicate Findable(s: State, i: Ino) { exists n :: n in s.dir && s.dir[n] == i && !n.Temp? }

  lemma {:induction false} ReachableIsFindable(s: State, i: Ino)
    requires Inv(s) && Unstaged(s, i) && Reachable(s, i)
    ensures Findable(s, i)
  {
    var n :| n in s.dir && s.dir[n] == i;
    assert forall w :: w in s.writers ==> TempOk(s, w);
  }

  /**
   Over every interleaving, crashes included, every entry keeps its contents and stays in the directory
   unless the environment itself removes it, or a writer has verified it as the one it expects and committed.
   */
  lemma {:induction false} UnverifiedEntrySurvives(s: State, run: seq<Action>, i: Ino)
    requires Inv(s) && ValidRun(s, run) && Unstaged(s, i) && EnvSpares(s, run, i)
    requires Reachable(s, i) || Replaced(s, i)
    ensures var t := After(s, run);
            i in t.inodes && t.inodes[i] == s.inodes[i] && (Findable(t, i) || Replaced(t, i))
    decreases |run|
  {
    if run == [] {
      if Reachable(s, i) { ReachableIsFindable(s, i); }
    } else {
      var a := run[0];
      StepKeepsInv(s, a);
      StepKeepsUnstaged(s, a, i);
      if Replaced(s, i) {
        StepKeepsReplaced(s, a, i);
      } else if !IsEnv(a) {
        assert !MayRemove(s, a.w, i);
        WriterKeepsReachable(s, a, i);
      }
      UnverifiedEntrySurvives(Apply(s, a), run[1..], i);
    }
  }

  /** An entry that no writer expects is never replaced. */
  lemma {:induction false} UnexpectedEntrySurvives(s: State, run: seq<Action>, i: Ino)
    requires Inv(s) && ValidRun(s, run) && Unstaged(s, i) && EnvSpares(s, run, i) && Reachable(s, i)
    requires forall w :: w in s.writers ==> !Expects(s.writers[w].request, i, s.inodes[i])
    ensures var t := After(s, run);
            i in t.inodes && t.inodes[i] == s.inodes[i] && Findable(t, i)
  {
    UnverifiedEntrySurvives(s, run, i);
    RequestsFixed(s, run);
  }

  /** No writer but an unconditional one takes the target away, except by claiming it intact. */
  lemma {:induction false} TargetNeverReplaced(s: State, a: Action)
    requires Inv(s) && Enabled(s, a) && !IsEnv(a) && !a.Overwrite? && Target in s.dir
    ensures var t := Apply(s, a);
            if a.ClaimTarget? then
              && s.writers[a.w].request.Conditional?
              && Claim(a.w) in t.dir && t.dir[Claim(a.w)] == s.dir[Target] && Claim(a.w) !in s.dir
            else Target in t.dir && t.dir[Target] == s.dir[Target]
  {
    assert ClaimOk(s, a.w);
  }

  // ----- a commit publishes -----

  lemma {:induction false} CommitsByPublishing(s: State, a: Action, w: nat)
    requires Enabled(s, a) && w in s.writers && !s.writers[w].committed
    requires w in Apply(s, a).writers && Apply(s, a).writers[w].committed
    ensures (a.LinkNew? || a.Overwrite?) && a.w == w
  {
  }

  lemma {:induction false} PublishesStaged(s: State, a: Action)
    requires Enabled(s, a) && (a.LinkNew? || a.Overwrite?) && TempOk(s, a.w)
    requires !s.writers[a.w].committed && Apply(s, a).writers[a.w].committed
    ensures var t, p := Apply(s, a), s.writers[a.w];
            && p.temp.Some? && Target in t.dir && t.dir[Target] == p.temp.value
            && t.dir[Target] in t.inodes && t.inodes[t.dir[Target]] == Inode(p.content, p.perm)
  {
  }

  /** The step in which a writer commits puts the inode it staged, with its complete text and mode, at the target. */
  lemma {:induction false} CommitPublishes(s: State, a: Action, w: nat)
    requires Inv(s) && Enabled(s, a) && w in s.writers && !s.writers[w].committed
    requires w in Apply(s, a).writers && Apply(s, a).writers[w].committed
    ensures var t := Apply(s, a);
            && s.writers[w].temp.Some? && Target in t.dir && t.dir[Target] == s.writers[w].temp.value
            && t.dir[Target] in t.inodes && t.inodes[t.dir[Target]] == Inode(s.writers[w].content, s.writers[w].perm)
  {
    CommitsByPublishing(s, a, w);
    PublishesStaged(s, a);
  }

  /** A write that reports success has committed. */
  lemma {:induction false} SuccessIsCommitted(s: State, a: Action, w: nat)
    requires Enabled(s, a) && w in s.writers && TempOk(s, w) && !s.writers[w].pc.Done?
    requires w in Apply(s, a).writers && Apply(s, a).writers[w].pc.Done?
    ensures Apply(s, a).writers[w].committed
  {
  }

  // ----- the target is never partially written -----

  /** Whatever writer staged the inode now at the target, that inode carries its complete text and mode. */
  lemma {:induction false} TargetIsWhole(s: State, run: seq<Action>, w: nat)
    requires Initial(s) && ValidRun(s, run)
    ensures var t := After(s, run);
            w in t.writers && Target in t.dir && t.writers[w].temp == Some(t.dir[Target]) ==>
              && t.writers[w].committed && t.dir[Target] in t.inodes
              && t.inodes[t.dir[Target]] == Inode(t.writers[w].content, t.writers[w].perm)
  {
    InitialInv(s);
    RunKeepsInv(s, run);
    var t := After(s, run);
    if w in t.writers { assert TempOk(t, w); }
  }

  /** A step never changes the contents of an inode that has any name but its stager's temporary one. */
  lemma {:induction false} PublishedContentsFixed(s: State, a: Action, n: Name)
    requires Inv(s) && Enabled(s, a) && n in s.dir && !n.Temp?
    ensures s.dir[n] in Apply(s, a).inodes && Apply(s, a).inodes[s.dir[n]] == s.inodes[s.dir[n]]
  {
    if !IsEnv(a) { assert TempOk(s, a.w); }
  }

  // ----- at most one commit -----

  /** The writer has taken its inode out of circulation, for good once it has committed. */
  predicate Holder(p: Writer) { HoldsClaim(p.pc) || (p.committed && p.request.Conditional?) }

  predicate SoleHolders(s: State) {
    && (forall w ::
          w in s.writers && Holder(s.writers[w]) && Target in s.dir ==> s.writers[w].held != Some(s.dir[Target]))
    && (forall v, w :: v in s.writers && w in s.writers && v != w && Holder(s.writers[v]) && Holder(s.writers[w]) ==>
          s.writers[v].held != s.writers[w].held)
  }

  /** The environment puts only new inodes at the target. */
  predicate FreshTargets(run: seq<Action>) {
    forall a :: a in run ==> (a.EnvRename? || a.EnvLink? ==> a.to != Target)
  }

  /** How one writer step moves the right to hold an inode between the target name and the writer. */
  predicate Passes(s: State, t: State, w: nat)
    requires w in s.writers && w in t.writers
  {
    var p, q := s.writers[w], t.writers[w];
    && (Holder(q) ==>
          || (Holder(p) && q.held == p.held)
          || (Target in s.dir && q.held == Some(s.dir[Target]) && Target !in t.dir))
    && (Target in t.dir ==>
          || (Target in s.dir && t.dir[Target] == s.dir[Target])
          || (p.temp == Some(t.dir[Target]) && !p.committed)
          || (Holder(p) && p.held == Some(t.dir[Target]) && !Holder(q)))
  }

  predicate TouchesTarget(a: Action) { a.LinkNew? || a.LinkBack? || a.ClaimTarget? || a.Overwrite? }

  predicate Decides(a: Action) { a.Identify? || a.Verify? || a.Abandon? || a.CheckClaim? || a.Crash? }

  lemma {:induction false} DecisionPasses(s: State, a: Action)
    requires Inv(s) && Enabled(s, a) && Decides(a)
    ensures Passes(s, Apply(s, a), a.w)
  {
    assert Apply(s, a).dir == s.dir;
  }

  lemma {:induction false} QuietPasses(s: State, a: Action)
    requires Inv(s) && Enabled(s, a) && !IsEnv(a) && !TouchesTarget(a) && !Decides(a)
    ensures Passes(s, Apply(s, a), a.w)
  {
  }

  lemma {:induction false} LinkPasses(s: State, a: Action)
    requires Inv(s) && Enabled(s, a) && (a.LinkNew? || a.LinkBack?)
    ensures Passes(s, Apply(s, a), a.w)
  {
    assert TempOk(s, a.w) && ClaimOk(s, a.w);
  }

  lemma {:induction false} TargetPasses(s: State, a: Action)
    requires Inv(s) && Enabled(s, a) && (a.ClaimTarget? || a.Overwrite?)
    ensures Passes(s, Apply(s, a), a.w)
  {
    assert TempOk(s, a.w) && ClaimOk(s, a.w);
  }

  lemma {:induction false} WriterPasses(s: State, a: Action)
    requires Inv(s) && Enabled(s, a) && !IsEnv(a)
    ensures Passes(s, Apply(s, a), a.w)
  {
    if a.LinkNew? || a.LinkBack? {
      LinkPasses(s, a);
    } else if TouchesTarget(a) {
      TargetPasses(s, a);
    } else if Decides(a) {
      DecisionPasses(s, a);
    } else {
      QuietPasses(s, a);
    }
  }

  lemma {:induction false} PassesKeepsSoleHolders(s: State, t: State, w: nat)
    requires TempsPrivate(s) && SoleHolders(s) && w in s.writers && t.writers.Keys == s.writers.Keys
    requires forall v :: v in s.writers && v != w ==> t.writers[v] == s.writers[v]
    requires Passes(s, t, w)
    ensures SoleHolders(t)
  {
  }

  lemma {:induction false} EnvKeepsSoleHolders(s: State, a: Action)
    requires Inv(s) && Enabled(s, a) && IsEnv(a) && SoleHolders(s) && FreshTargets([a])
    ensures SoleHolders(Apply(s, a))
  {
    assert a in [a];
    assert forall w :: w in s.writers ==> ClaimOk(s, w);
  }

  lemma {:induction false} RunKeepsSoleHolders(s: State, run: seq<Action>)
    requires Inv(s) && SoleHolders(s) && ValidRun(s, run) && FreshTargets(run)
    ensures Inv(After(s, run)) && SoleHolders(After(s, run))
    decreases |run|
  {
    if run != [] {
      var a := run[0];
      StepKeepsInv(s, a);
      if IsEnv(a) {
        EnvKeepsSoleHolders(s, a);
      } else {
        StepFrames(s, a);
        WriterPasses(s, a);
        PassesKeepsSoleHolders(s, Apply(s, a), a.w);
      }
      RunKeepsSoleHolders(Apply(s, a), run[1..]);
    }
  }

  /** When the environment puts only new inodes at the target, two commits never replaced one inode. */
  lemma {:induction false} AtMostOneCommit(s: State, run: seq<Action>, v: nat, w: nat)
    requires Initial(s) && ValidRun(s, run) && FreshTargets(run)
    requires v in After(s, run).writers && w in After(s, run).writers && v != w
    requires var p, q := After(s, run).writers[v], After(s, run).writers[w];
             p.request.Conditional? && q.request.Conditional? && p.committed && q.committed
    ensures var p, q := After(s, run).writers[v], After(s, run).writers[w];
            && p.held.Some? && q.held.Some? && p.held != q.held
            && (p.request.identity.Some? && q.request.identity.Some? ==>
                  p.request.identity.value.ino != q.request.identity.value.ino)
  {
    InitialInv(s);
    RunKeepsSoleHolders(s, run);
    var t := After(s, run);
    assert ClaimOk(t, v) && ClaimOk(t, w);
  }

  // ----- a hostile environment: hard links -----

  predicate ExpectsSoleLink(r: Request) { r.Conditional? && r.identity.Some? && r.identity.value.nlink == 1 }

  /** The writer verified that the claim was the only name of its inode. */
  predicate Exclusive(p: Writer) { ExpectsSoleLink(p.request) && (p.pc.Verified? || p.committed) }

  predicate OwnsAllNames(s: State, w: nat, i: Ino) {
    forall n :: n in s.dir && s.dir[n] == i ==> n == Claim(w) || n == Discard(w)
  }

  predicate ExclusivesOk(s: State) {
    && (forall w :: w in s.writers && Exclusive(s.writers[w]) && s.writers[w].held.Some? ==>
          OwnsAllNames(s, w, s.writers[w].held.value))
    && (forall v, w :: v in s.writers && w in s.writers && v != w
                       && Exclusive(s.writers[v]) && Exclusive(s.writers[w]) ==>
          s.writers[v].held != s.writers[w].held)
  }

  lemma {:induction false} SoleName(dir: map<Name, Ino>, n: Name, m: Name)
    requires n in dir && m in dir && dir[n] == dir[m] && Nlink(dir, dir[n]) == 1
    ensures n == m
  {
    var names := Names(dir, dir[n]);
    assert n in names && m in names;
    assert |names - {n}| == 0;
  }

  /** New names come from names the actor could already use. */
  lemma {:induction false} NewNamesFromMine(s: State, a: Action, n: Name)
    requires Enabled(s, a) && n in Apply(s, a).dir
    ensures var t := Apply(s, a);
            || t.dir[n] == s.next
            || (n in s.dir && t.dir[n] == s.dir[n])
            || exists m :: m in s.dir && s.dir[m] == t.dir[n] && Mine(m, Actor(a))
  {
  }

  lemma {:induction false} OthersKeepOwned(s: State, a: Action, w: nat, i: Ino)
    requires Inv(s) && Enabled(s, a) && Actor(a) != w && OwnsAllNames(s, w, i) && i < s.next
    ensures OwnsAllNames(Apply(s, a), w, i)
  {
    var t := Apply(s, a);
    forall n | n in t.dir && t.dir[n] == i ensures n == Claim(w) || n == Discard(w) {
      NewNamesFromMine(s, a, n);
    }
  }

  lemma {:induction false} SelfKeepsOwned(s: State, a: Action)
    requires Inv(s) && Enabled(s, a) && !IsEnv(a) && Exclusive(s.writers[a.w])
    requires s.writers[a.w].held.Some? && OwnsAllNames(s, a.w, s.writers[a.w].held.value)
    ensures s.writers[a.w].held == Apply(s, a).writers[a.w].held
    ensures OwnsAllNames(Apply(s, a), a.w, s.writers[a.w].held.value)
  {
    assert TempOk(s, a.w) && ClaimOk(s, a.w);
  }

  lemma {:induction false} VerifyGivesOwned(s: State, a: Action)
    requires Inv(s) && Enabled(s, a) && !IsEnv(a)
    requires !Exclusive(s.writers[a.w]) && Exclusive(Apply(s, a).writers[a.w])
    ensures s.writers[a.w].held.Some? && s.writers[a.w].held == Apply(s, a).writers[a.w].held
    ensures OwnsAllNames(Apply(s, a), a.w, s.writers[a.w].held.value)
    ensures Claim(a.w) in s.dir && s.dir[Claim(a.w)] == s.writers[a.w].held.value
  {
    assert TempOk(s, a.w) && ClaimOk(s, a.w);
    assert a.Verify?;
    forall n | n in s.dir && s.dir[n] == s.dir[Claim(a.w)] ensures n == Claim(a.w) {
      SoleName(s.dir, Claim(a.w), n);
    }
  }

  /** An exclusive writer after a step was exclusive before it, or has just verified its claim. */
  predicate StaysOwned(s: State, t: State, w: nat)
    requires w in s.writers && w in t.writers
  {
    Exclusive(t.writers[w]) && t.writers[w].held.Some? ==>
      && OwnsAllNames(t, w, t.writers[w].held.value)
      && (if Exclusive(s.writers[w]) then t.writers[w].held == s.writers[w].held
          else Claim(w) in s.dir && t.writers[w].held == Some(s.dir[Claim(w)]))
  }

  lemma {:induction false} StepStaysOwned(s: State, a: Action, w: nat)
    requires Inv(s) && Enabled(s, a) && ExclusivesOk(s) && w in s.writers && w in Apply(s, a).writers
    ensures StaysOwned(s, Apply(s, a), w)
  {
    var t := Apply(s, a);
    assert ClaimOk(s, w);
    if w != Actor(a) {
      StepFrames(s, a);
      if s.writers[w].held.Some? && Exclusive(s.writers[w]) { OthersKeepOwned(s, a, w, s.writers[w].held.value); }
    } else if Exclusive(s.writers[w]) {
      SelfKeepsOwned(s, a);
    } else if Exclusive(t.writers[w]) {
      VerifyGivesOwned(s, a);
    }
  }

  lemma {:induction false} StaysOwnedKeepsExclusives(s: State, t: State)
    requires ExclusivesOk(s) && t.writers.Keys == s.writers.Keys
    requires forall w :: w in s.writers ==> StaysOwned(s, t, w)
    requires forall w :: w in t.writers && Exclusive(t.writers[w]) ==> t.writers[w].held.Some?
    requires forall v, w :: v in s.writers && w in s.writers && v != w
                            && Exclusive(t.writers[v]) && Exclusive(t.writers[w]) ==>
                              Exclusive(s.writers[v]) || Exclusive(s.writers[w])
    ensures ExclusivesOk(t)
  {
  }

  lemma {:induction false} StepKeepsExclusives(s: State, a: Action)
    requires Inv(s) && Enabled(s, a) && ExclusivesOk(s)
    ensures ExclusivesOk(Apply(s, a))
  {
    var t := Apply(s, a);
    StepKeepsInv(s, a);
    StepFrames(s, a);
    forall w | w in s.writers ensures StaysOwned(s, t, w) && (Exclusive(t.writers[w]) ==> t.writers[w].held.Some?) {
      StepStaysOwned(s, a, w);
      assert ClaimOk(t, w);
    }
    StaysOwnedKeepsExclusives(s, t);
  }

  lemma {:induction false} RunKeepsExclusives(s: State, run: seq<Action>)
    requires Inv(s) && ExclusivesOk(s) && ValidRun(s, run)
    ensures Inv(After(s, run)) && ExclusivesOk(After(s, run))
    decreases |run|
  {
    if run != [] {
      StepKeepsInv(s, run[0]);
      StepKeepsExclusives(s, run[0]);
      RunKeepsExclusives(Apply(s, run[0]), run[1..]);
    }
  }

  /** Against an environment that may also move and hard-link entries, a sole-link expectation is enough. */
  lemma {:induction false} SoleLinkAtMostOneCommit(s: State, run: seq<Action>, v: nat, w: nat)
    requires Initial(s) && ValidRun(s, run)
    requires v in s.writers && w in s.writers && v != w
    requires s.writers[v].request == s.writers[w].request && ExpectsSoleLink(s.writers[v].request)
    ensures var t := After(s, run);
            v in t.writers && w in t.writers && !(t.writers[v].committed && t.writers[w].committed)
  {
    InitialInv(s);
    RunKeepsExclusives(s, run);
    RequestsFixed(s, run);
    var t := After(s, run);
    assert ClaimOk(t, v) && ClaimOk(t, w);
  }

  lemma {:induction false} RequestsFixed(s: State, run: seq<Action>)
    requires Inv(s) && ValidRun(s, run)
    ensures After(s, run).writers.Keys == s.writers.Keys
    ensures forall w :: w in s.writers ==> After(s, run).writers[w].request == s.writers[w].request
    decreases |run|
  {
    if run != [] {
      StepKeepsInv(s, run[0]);
      StepFrames(s, run[0]);
      if !IsEnv(run[0]) { WriterOwn(s, run[0]); }
      RequestsFixed(Apply(s, run[0]), run[1..]);
    }
  }

  // With more than one expected link the bound fails: a retained hard link can be moved back to the target.

  function Outsides(lo: nat, hi: nat): set<Name>
    requires lo <= hi
  {
    set j | lo <= j < hi :: Outside(j)
  }

  lemma {:induction false} OutsidesCount(lo: nat, hi: nat)
    requires lo <= hi
    ensures |Outsides(lo, hi)| == hi - lo
    decreases hi - lo
  {
    if lo < hi {
      OutsidesCount(lo + 1, hi);
      assert Outsides(lo, hi) == {Outside(lo)} + Outsides(lo + 1, hi);
    }
  }

  /** Hard links of inode 0 at the outside names `lo..hi`. */
  function OldLinks(lo: nat, hi: nat): (links: map<Name, Ino>)
    requires lo <= hi
    ensures links.Keys == Outsides(lo, hi) && forall n :: n in links ==> links[n] == 0
    decreases hi - lo
  {
    if lo == hi then map[] else
      assert Outsides(lo, hi) == {Outside(lo)} + Outsides(lo + 1, hi);
      OldLinks(lo + 1, hi)[Outside(lo) := 0]
  }

  function Rival(k: nat, content: string, pc: Pc, temp: Option<Ino>, held: Option<Ino>,
      claimed: Option<Identity>): Writer {
    Writer(Conditional("old", Some(Identity(0, 420, k))), content, 420, pc, temp, held, claimed, false)
  }

  function LinkedStart(k: nat): State
    requires k >= 2
  {
    State(
      OldLinks(0, k - 1)[Target := 0],
      map[0 := Inode("old", 420)], 1,
      map[0 := Rival(k, "left", Idle, None, None, None), 1 := Rival(k, "right", Idle, None, None, None)])
  }

  function BothStaged(k: nat): State
    requires k >= 2
  {
    State(
      LinkedStart(k).dir[Temp(0) := 1][Temp(1) := 2],
      map[0 := Inode("old", 420), 1 := Inode("left", 420), 2 := Inode("right", 420)], 3,
      map[0 := Rival(k, "left", Staged, Some(1), None, None), 1 := Rival(k, "right", Staged, Some(2), None, None)])
  }

  function BothClaimed(k: nat): State
    requires k >= 2
  {
    BothStaged(k).(
      dir := OldLinks(1, k - 1)[Temp(0) := 1][Temp(1) := 2][Claim(0) := 0][Claim(1) := 0],
      writers := map[0 := Rival(k, "left", Claimed, Some(1), Some(0), None),
                     1 := Rival(k, "right", Claimed, Some(2), Some(0), None)])
  }

  function BothVerified(k: nat): State
    requires k >= 2
  {
    BothClaimed(k).(
      writers := map[0 := Rival(k, "left", Verified, Some(1), Some(0), Some(Identity(0, 420, k))),
                     1 := Rival(k, "right", Verified, Some(2), Some(0), Some(Identity(0, 420, k)))])
  }

  lemma {:induction false} RunConcat(s: State, first: seq<Action>, second: seq<Action>)
    requires ValidRun(s, first) && ValidRun(After(s, first), second)
    ensures ValidRun(s, first + second) && After(s, first + second) == After(After(s, first), second)
    decreases |first|
  {
    if first == [] {
      assert first + second == second;
    } else {
      assert (first + second)[1..] == first[1..] + second;
      RunConcat(Apply(s, first[0]), first[1..], second);
    }
  }

  lemma {:induction false} RunTwo(s: State, a: Action, b: Action)
    requires Enabled(s, a) && Enabled(Apply(s, a), b)
    ensures ValidRun(s, [a, b]) && After(s, [a, b]) == Apply(Apply(s, a), b)
  {
    var t := Apply(s, a);
    assert [a, b][1..] == [b] && [b][1..] == [];
    assert ValidRun(Apply(t, b), []) && ValidRun(t, [b]) && After(t, [b]) == Apply(t, b);
  }

  lemma {:induction false} StageOne(s: State, w: nat)
    requires w in s.writers && s.writers[w].pc.Idle?
    ensures var p := s.writers[w];
            var run := [Open(w, 420), Finish(w)];
            && ValidRun(s, run)
            && After(s, run) == State(
                 s.dir[Temp(w) := s.next], s.inodes[s.next := Inode(p.content, p.perm)], s.next + 1,
                 s.writers[w := p.(pc := Staged, temp := Some(s.next))])
  {
    RunTwo(s, Open(w, 420), Finish(w));
  }

  lemma {:induction false} StageBoth(k: nat) returns (run: seq<Action>)
    requires k >= 2
    ensures ValidRun(LinkedStart(k), run) && After(LinkedStart(k), run) == BothStaged(k)
  {
    StageOne(LinkedStart(k), 0);
    var s := After(LinkedStart(k), [Open(0, 420), Finish(0)]);
    StageOne(s, 1);
    RunConcat(LinkedStart(k), [Open(0, 420), Finish(0)], [Open(1, 420), Finish(1)]);
    run := [Open(0, 420), Finish(0)] + [Open(1, 420), Finish(1)];
  }

  lemma {:induction false} ClaimMoves(k: nat)
    requires k >= 2
    ensures var d := BothStaged(k).dir;
            && Target in d && Outside(0) in Move(d, Target, Claim(0))
            && var moved := Move(Move(d, Target, Claim(0)), Outside(0), Target);
               moved[Target] == 0 && Move(moved, Target, Claim(1)) == BothClaimed(k).dir
  {
    assert Outsides(0, k - 1) == {Outside(0)} + Outsides(1, k - 1);
  }

  lemma {:induction false} ClaimBoth(k: nat) returns (run: seq<Action>)
    requires k >= 2
    ensures ValidRun(BothStaged(k), run) && After(BothStaged(k), run) == BothClaimed(k)
  {
    var s := BothStaged(k);
    ClaimMoves(k);
    RunTwo(s, ClaimTarget(0), EnvRename(Outside(0), Target));
    var t := Apply(Apply(s, ClaimTarget(0)), EnvRename(Outside(0), Target));
    assert Apply(t, ClaimTarget(1)) == BothClaimed(k);
    assert ValidRun(t, [ClaimTarget(1)]) && After(t, [ClaimTarget(1)]) == BothClaimed(k);
    RunConcat(s, [ClaimTarget(0), EnvRename(Outside(0), Target)], [ClaimTarget(1)]);
    run := [ClaimTarget(0), EnvRename(Outside(0), Target)] + [ClaimTarget(1)];
  }

  lemma {:induction false} ClaimedLinks(k: nat)
    requires k >= 2
    ensures Nlink(BothClaimed(k).dir, 0) == k
  {
    assert Names(BothClaimed(k).dir, 0) == {Claim(0), Claim(1)} + Outsides(1, k - 1);
    OutsidesCount(1, k - 1);
    assert |{Claim(0), Claim(1)} + Outsides(1, k - 1)| == 2 + |Outsides(1, k - 1)|;
  }

  lemma {:induction false} VerifyBoth(k: nat) returns (run: seq<Action>)
    requires k >= 2
    ensures ValidRun(BothClaimed(k), run) && After(BothClaimed(k), run) == BothVerified(k)
  {
    ClaimedLinks(k);
    var s := BothClaimed(k);
    RunTwo(s, Identify(0), Identify(1));
    var t := After(s, [Identify(0), Identify(1)]);
    RunTwo(t, Verify(0, true), Verify(1, true));
    assert Apply(Apply(t, Verify(0, true)), Verify(1, true)).writers == BothVerified(k).writers;
    RunConcat(s, [Identify(0), Identify(1)], [Verify(0, true), Verify(1, true)]);
    run := [Identify(0), Identify(1)] + [Verify(0, true), Verify(1, true)];
  }

  lemma {:induction false} CommitBoth(k: nat) returns (run: seq<Action>)
    requires k >= 2
    ensures ValidRun(BothVerified(k), run)
    ensures var t := After(BothVerified(k), run);
            0 in t.writers && 1 in t.writers && t.writers[0].committed && t.writers[1].committed
  {
    var s := BothVerified(k);
    RunTwo(s, LinkNew(0), EnvRemove(Target));
    var t := After(s, [LinkNew(0), EnvRemove(Target)]);
    assert ValidRun(t, [LinkNew(1)]) && After(t, [LinkNew(1)]) == Apply(t, LinkNew(1));
    RunConcat(s, [LinkNew(0), EnvRemove(Target)], [LinkNew(1)]);
    run := [LinkNew(0), EnvRemove(Target)] + [LinkNew(1)];
  }

  /** For every expected link count above one there is a run in which both writers commit. */
  lemma {:induction false} HardLinksAdmitTwoCommits(k: nat) returns (s: State, run: seq<Action>)
    requires k >= 2
    ensures Initial(s) && ValidRun(s, run) && s.writers.Keys == {0, 1}
    ensures s.writers[0].request == s.writers[1].request
    ensures s.writers[0].request.Conditional? && s.writers[0].request.identity.Some?
    ensures s.writers[0].request.identity.value.nlink == k == Nlink(s.dir, s.writers[0].request.identity.value.ino)
    ensures var t := After(s, run);
            0 in t.writers && 1 in t.writers && t.writers[0].committed && t.writers[1].committed
  {
    s := LinkedStart(k);
    StartLinks(k);
    run := RivalRun(k);
  }

  lemma {:induction false} StartLinks(k: nat)
    requires k >= 2
    ensures Initial(LinkedStart(k)) && Nlink(LinkedStart(k).dir, 0) == k
  {
    assert Names(LinkedStart(k).dir, 0) == {Target} + Outsides(0, k - 1);
    OutsidesCount(0, k - 1);
  }

  lemma {:induction false} RivalRun(k: nat) returns (run: seq<Action>)
    requires k >= 2
    ensures ValidRun(LinkedStart(k), run)
    ensures var t := After(LinkedStart(k), run);
            0 in t.writers && 1 in t.writers && t.writers[0].committed && t.writers[1].committed
  {
    var stage := StageBoth(k);
    var claim := ClaimBoth(k);
    var verify := VerifyBoth(k);
    var commit := CommitBoth(k);
    RunConcat(BothClaimed(k), verify, commit);
    RunConcat(BothStaged(k), claim, verify + commit);
    RunConcat(LinkedStart(k), stage, claim + (verify + commit));
    run := stage + (claim + (verify + commit));
  }
}
