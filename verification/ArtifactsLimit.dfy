/**
 The revision limit is checked before a revision becomes visible, not when it does.  Racing commits
 can therefore leave one revision too many, after which no revert is ever accepted again.
 */
module ArtifactsLimit {

  import opened Common
  import opened Artifacts
  import opened ArtifactsSafety

  ghost predicate Reaches(s: State, t: State) { exists run :: ValidRun(s, run) && After(s, run) == t }

  lemma {:induction false} RunConcat(s: State, first: seq<Action>, second: seq<Action>)
    requires ValidRun(s, first) && ValidRun(After(s, first), second)
    ensures ValidRun(s, first + second) && After(s, first + second) == After(After(s, first), second)
    decreases |first|
  {
    if first == [] {
      assert first + second == second;
    } else {
      assert (first + second)[1..] == first[1..] + second;
      RunConcat(Apply(s, first[0]), first[1..], second);
    }
  }

  lemma {:induction false} RunOne(s: State, a: Action)
    requires Enabled(s, a)
    ensures ValidRun(s, [a]) && After(s, [a]) == Apply(s, a)
  {
    var t := Apply(s, a);
    assert [a][1..] == [];
    assert ValidRun(t, []) && After(t, []) == t;
  }

  lemma {:induction false} Extend(s: State, t: State, a: Action) returns (u: State)
    requires Reaches(s, t) && Enabled(t, a) && Inv(t)
    ensures u == Apply(t, a) && Reaches(s, u) && Inv(u)
  {
    var run :| ValidRun(s, run) && After(s, run) == t;
    RunOne(t, a);
    RunConcat(s, run, [a]);
    StepKeepsInv(t, a);
    u := Apply(t, a);
  }

  predicate ProcessesBelow(s: State, n: nat) { forall p :: p in s.processes ==> p < n }

  /** Process `p` has passed the limit check for one more revision on top of the current one. */
  predicate Passed(t: State, p: nat) {
    p in t.processes && t.processes[p].pc.Checked? && t.processes[p].pc.seen == t.meta
  }

  /** A new process can always get as far as having passed the limit check. */
  lemma {:induction false} PassCheck(s: State, t: State, p: nat) returns (u: State)
    requires Reaches(s, t) && Inv(t) && p !in t.processes && |t.revisions| < MAX_REVISIONS
    ensures Reaches(s, u) && Inv(u) && Passed(u, p)
    ensures u.revisions == t.revisions && u.meta == t.meta && u.next == t.next
    ensures u.processes == t.processes[p := u.processes[p]]
  {
    assert t.meta.current in t.history;
    var request := Commit(t.meta.current, t.revisions[t.meta.current].content, None);
    u := Extend(s, t, Begin(p, request));
    u := Extend(s, u, Step(p));
    assert u.processes[p].pc == Ready(request.content);
    u := Extend(s, u, Step(p));
    u := Extend(s, u, Step(p));
  }

  lemma {:induction false} Activate(s: State, t: State, p: nat) returns (u: State)
    requires Reaches(s, t) && Inv(t) && p in t.processes && t.processes[p].pc.Checked?
    ensures Reaches(s, u) && Inv(u) && |u.revisions| == |t.revisions| + 1 && u.meta == t.meta
    ensures u.processes.Keys == t.processes.Keys
    ensures u.processes[p].pc.Activated? && u.processes[p].pc.seen == t.processes[p].pc.seen
    ensures forall q :: q in t.processes && q != p ==> u.processes[q] == t.processes[q]
  {
    u := Extend(s, t, Step(p));
    assert u == ActivateStep(t, p);
    assert t.next !in t.revisions;
    assert u.revisions.Keys == t.revisions.Keys + {t.next};
  }

  lemma {:induction false} Publish(s: State, t: State, p: nat) returns (u: State)
    requires Reaches(s, t) && Inv(t) && p in t.processes
    requires t.processes[p].pc.Activated? && t.processes[p].pc.seen == t.meta
    ensures Reaches(s, u) && Inv(u) && u.revisions == t.revisions && u.processes.Keys == t.processes.Keys
  {
    u := Extend(s, t, Step(p));
    assert u == PublishStep(t, p);
  }

  lemma {:induction false} AtImport(s: State)
    requires Imported(s)
    ensures Reaches(s, s) && Inv(s) && |s.revisions| == 1 && ProcessesBelow(s, 0)
  {
    ImportedInv(s);
    assert ValidRun(s, []) && After(s, []) == s;
    assert |s.revisions.Keys| == 1;
  }

  lemma {:induction false} GrowTo(s: State, n: nat) returns (t: State)
    requires Imported(s) && 1 <= n < MAX_REVISIONS
    ensures Reaches(s, t) && Inv(t) && |t.revisions| == n && ProcessesBelow(t, n)
    decreases n
  {
    if n == 1 {
      AtImport(s);
      t := s;
    } else {
      t := GrowTo(s, n - 1);
      t := PassCheck(s, t, n - 1);
      t := Activate(s, t, n - 1);
      t := Publish(s, t, n - 1);
    }
  }

  /** Two commits racing for the last place both become visible. */
  lemma {:induction false} LimitCanBeExceeded(s: State) returns (t: State)
    requires Imported(s)
    ensures Reaches(s, t) && Inv(t) && |t.revisions| == MAX_REVISIONS + 1
  {
    var n := MAX_REVISIONS - 1;
    t := GrowTo(s, n);
    t := PassCheck(s, t, n);
    t := PassCheck(s, t, n + 1);
    t := Activate(s, t, n);
    t := Activate(s, t, n + 1);
  }

  /** Beyond the limit every revert is refused, in this state and in all later ones. */
  lemma {:induction false} NoRevertBeyondLimit(s: State, run: seq<Action>, p: nat)
    requires Inv(s) && ValidRun(s, run) && |s.revisions| > MAX_REVISIONS
    requires var t := After(s, run); p in t.processes && t.processes[p].pc.RevertRead?
    ensures Apply(After(s, run), Step(p)).processes[p].pc == Refused(Corrupt)
  {
    RunKeepsInv(s, run);
    var t := After(s, run);
    SubsetCount(s.revisions.Keys, t.revisions.Keys);
    assert ProcessOk(t, t.processes[p]);
  }

  // ----- when the limit holds -----

  /** The processes that have passed the limit check and not yet made their revision visible. */
  function CheckedOnes(s: State): set<nat> { set p | p in s.processes && s.processes[p].pc.Checked? }

  predicate Activates(s: State, a: Action) { a.Step? && a.p in s.processes && s.processes[a.p].pc.Checked? }

  /** Making a revision visible takes one process out of that set. */
  lemma {:induction false} ActivationBalance(s: State, a: Action)
    requires Inv(s) && Enabled(s, a) && Activates(s, a)
    ensures |Apply(s, a).revisions| == |s.revisions| + 1 && CheckedOnes(Apply(s, a)) == CheckedOnes(s) - {a.p}
  {
    assert Apply(s, a) == ActivateStep(s, a.p);
    assert s.next !in s.revisions;
    assert Apply(s, a).revisions.Keys == s.revisions.Keys + {s.next};
  }

  /** Only the limit check puts one in, and only while a place is left. */
  lemma {:induction false} OtherBalance(s: State, a: Action)
    requires Enabled(s, a) && !Activates(s, a)
    ensures Apply(s, a).revisions == s.revisions
    ensures var t := Apply(s, a);
            || CheckedOnes(t) <= CheckedOnes(s)
            || (CheckedOnes(t) == CheckedOnes(s) + {a.p} && |s.revisions| < MAX_REVISIONS)
  {
    var t := Apply(s, a);
    assert forall q :: q in t.processes && q != a.p ==> q in s.processes && t.processes[q] == s.processes[q];
    assert forall q :: q in s.processes ==> q in t.processes;
    if a.p in t.processes && t.processes[a.p].pc.Checked? {
      assert |s.revisions| < MAX_REVISIONS;
      assert forall q :: q in CheckedOnes(t) <==> q in CheckedOnes(s) || q == a.p;
    }
  }

  /** In every state of the run at most one process is between the check and making its revision visible. */
  predicate OneAtATime(s: State, run: seq<Action>)
    requires ValidRun(s, run)
    decreases |run|
  {
    |CheckedOnes(s)| <= 1 && (run != [] ==> OneAtATime(Apply(s, run[0]), run[1..]))
  }

  lemma {:induction false} BalanceKept(s: State, a: Action)
    requires Inv(s) && Enabled(s, a) && |s.revisions| + |CheckedOnes(s)| <= MAX_REVISIONS
    requires |CheckedOnes(Apply(s, a))| <= 1
    ensures |Apply(s, a).revisions| + |CheckedOnes(Apply(s, a))| <= MAX_REVISIONS
  {
    var t := Apply(s, a);
    if Activates(s, a) { ActivationBalance(s, a); } else { OtherBalance(s, a); }
    if CheckedOnes(t) <= CheckedOnes(s) { SubsetCount(CheckedOnes(t), CheckedOnes(s)); }
  }

  lemma {:induction false} OneAtATimeKeepsLimit(s: State, run: seq<Action>)
    requires Inv(s) && ValidRun(s, run) && OneAtATime(s, run) && |s.revisions| + |CheckedOnes(s)| <= MAX_REVISIONS
    ensures |After(s, run).revisions| <= MAX_REVISIONS
    decreases |run|
  {
    if run != [] {
      StepKeepsInv(s, run[0]);
      BalanceKept(s, run[0]);
      OneAtATimeKeepsLimit(Apply(s, run[0]), run[1..]);
    }
  }

  /** Commits that do not overlap between their check and their activation never exceed the limit. */
  lemma {:induction false} SerialCommitsKeepLimit(s: State, run: seq<Action>)
    requires Imported(s) && ValidRun(s, run) && OneAtATime(s, run)
    ensures |After(s, run).revisions| <= MAX_REVISIONS
  {
    AtImport(s);
    assert CheckedOnes(s) == {};
    OneAtATimeKeepsLimit(s, run);
  }

  /** The run only makes checked revisions visible. */
  predicate OnlyActivates(s: State, run: seq<Action>)
    requires ValidRun(s, run)
    decreases |run|
  {
    run != [] ==>
      Activates(s, run[0]) && OnlyActivates(Apply(s, run[0]), run[1..])
  }

  lemma {:induction false} ActivationsBounded(s: State, run: seq<Action>)
    requires Inv(s) && ValidRun(s, run) && OnlyActivates(s, run)
    ensures |After(s, run).revisions| <= |s.revisions| + |CheckedOnes(s)|
    decreases |run|
  {
    if run != [] {
      ActivationBalance(s, run[0]);
      StepKeepsInv(s, run[0]);
      assert run[0].p in CheckedOnes(s);
      ActivationsBounded(Apply(s, run[0]), run[1..]);
    }
  }

  lemma {:induction false} ActivateAll(s: State) returns (run: seq<Action>)
    requires Inv(s)
    ensures ValidRun(s, run) && OnlyActivates(s, run)
    ensures |After(s, run).revisions| == |s.revisions| + |CheckedOnes(s)|
    decreases |CheckedOnes(s)|
  {
    if CheckedOnes(s) == {} {
      run := [];
    } else {
      var p :| p in CheckedOnes(s);
      ActivationBalance(s, Step(p));
      StepKeepsInv(s, Step(p));
      var rest := ActivateAll(Apply(s, Step(p)));
      run := [Step(p)] + rest;
      assert run[0] == Step(p) && run[1..] == rest;
    }
  }

  ghost predicate ActivationsExceed(s: State) {
    exists run :: ValidRun(s, run) && OnlyActivates(s, run) && |After(s, run).revisions| > MAX_REVISIONS
  }

  /** The limit is about to be exceeded exactly when more processes have passed the check than there are places left. */
  lemma {:induction false} LimitExceededIff(s: State)
    requires Inv(s)
    ensures ActivationsExceed(s) <==> |s.revisions| + |CheckedOnes(s)| > MAX_REVISIONS
  {
    if |s.revisions| + |CheckedOnes(s)| > MAX_REVISIONS {
      var run := ActivateAll(s);
    } else {
      forall run | ValidRun(s, run) && OnlyActivates(s, run) ensures |After(s, run).revisions| <= MAX_REVISIONS {
        ActivationsBounded(s, run);
      }
    }
  }
}
