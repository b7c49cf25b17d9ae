/** What the artifact store guarantees in every reachable state. */
module ArtifactsSafety {

  import opened Common
  import opened Artifacts

  lemma {:induction false} RunKeepsInv(s: State, run: seq<Action>)
    requires Inv(s) && ValidRun(s, run)
    ensures var t := After(s, run);
            && Inv(t) && s.history <= t.history
            && forall r :: r in s.revisions ==> r in t.revisions && t.revisions[r] == s.revisions[r]
    decreases |run|
  {
    if run != [] {
      StepKeepsInv(s, run[0]);
      StepKeepsRevisions(s, run[0]);
      RunKeepsInv(Apply(s, run[0]), run[1..]);
    }
  }

  // ----- the ancestor chain is the publication record -----

  function Reverse(s: seq<RevId>): seq<RevId> {
    if s == [] then [] else [s[|s| - 1]] + Reverse(s[..|s| - 1])
  }

  lemma {:induction false} ReverseMembers(s: seq<RevId>, x: RevId)
    ensures x in Reverse(s) <==> x in s
  {
    if s != [] {
      ReverseMembers(s[..|s| - 1], x);
      assert s == s[..|s| - 1] + [s[|s| - 1]];
    }
  }

  lemma {:induction false} ReverseLast(s: seq<RevId>, k: nat)
    requires k < |s|
    ensures Reverse(s[..k + 1]) == [s[k]] + Reverse(s[..k])
  {
    assert s[..k + 1][..k] == s[..k];
  }

  lemma {:induction false} ChainOfNext(revs: Revisions, history: seq<RevId>, k: nat)
    requires GraphOk(revs) && 1 <= k < |history| && BuiltOnPrevious(revs, history, k)
    requires history[k - 1] in revs && Chain(revs, history[k - 1]) == Reverse(history[..k])
    ensures Chain(revs, history[k]) == Reverse(history[..k + 1])
  {
    ChainStep(revs, history[k]);
    ReverseLast(history, k);
  }

  lemma {:induction false} ChainOfRoot(revs: Revisions, history: seq<RevId>)
    requires GraphOk(revs) && |history| >= 1 && history[0] == ROOT
    ensures Chain(revs, ROOT) == Reverse(history[..1])
  {
    assert LinkOk(revs, ROOT);
    ReverseLast(history, 0);
    assert Reverse(history[..0]) == [];
  }

  lemma {:induction false} ChainOfPublished(revs: Revisions, history: seq<RevId>, current: RevId, k: nat)
    requires GraphOk(revs) && HistoryOk(revs, history, current) && k < |history|
    ensures history[k] in revs
    ensures Chain(revs, history[k]) == Reverse(history[..k + 1])
  {
    if k == 0 {
      ChainOfRoot(revs, history);
    } else {
      ChainOfPublished(revs, history, current, k - 1);
      assert BuiltOnPrevious(revs, history, k);
      ChainOfNext(revs, history, k);
    }
  }

  /**
   In every reachable state the current revision is stored, and its ancestor chain is exactly the
   sequence of revisions that have been current, newest first, ending at the import.
   */
  lemma {:induction false} CurrentChainIsHistory(s: State, run: seq<Action>)
    requires Imported(s) && ValidRun(s, run)
    ensures var t := After(s, run);
            && GraphOk(t.revisions) && t.meta.current in t.revisions
            && Chain(t.revisions, t.meta.current) == Reverse(t.history)
            && t.history[0] == ROOT && t.revisions[ROOT] == s.revisions[ROOT]
  {
    ImportedInv(s);
    RunKeepsInv(s, run);
    var t := After(s, run);
    ChainOfPublished(t.revisions, t.history, t.meta.current, |t.history| - 1);
    assert t.history[..|t.history|] == t.history;
  }

  // ----- one winner per base -----

  lemma {:induction false} HistoryIncreases(s: State, i: nat, j: nat)
    requires Inv(s) && i < j < |s.history|
    ensures s.history[i] < s.history[j]
    decreases j
  {
    assert BuiltOnPrevious(s.revisions, s.history, j);
    assert LinkOk(s.revisions, s.history[j]);
    if i < j - 1 { HistoryIncreases(s, i, j - 1); }
  }

  /** Two processes that both published never started from the same revision. */
  lemma {:induction false} OneWinnerPerBase(s: State, run: seq<Action>, p: nat, q: nat)
    requires Imported(s) && ValidRun(s, run) && p != q
    requires var t := After(s, run);
             p in t.processes && q in t.processes && t.processes[p].pc.Won? && t.processes[q].pc.Won?
    ensures After(s, run).processes[p].request.base != After(s, run).processes[q].request.base
  {
    ImportedInv(s);
    RunKeepsInv(s, run);
    var t := After(s, run);
    var i := PublishedAfterBase(t, p);
    var j := PublishedAfterBase(t, q);
    assert t.history[i] != t.history[j];
    if i < j {
      HistoryIncreases(t, i - 1, j - 1);
    } else {
      HistoryIncreases(t, j - 1, i - 1);
    }
  }

  lemma {:induction false} PublishedAfterBase(s: State, p: nat) returns (k: nat)
    requires Inv(s) && p in s.processes && s.processes[p].pc.Won?
    ensures 1 <= k < |s.history| && s.history[k] == s.processes[p].pc.id
    ensures s.history[k - 1] == s.processes[p].request.base
  {
    assert ProcessOk(s, s.processes[p]);
    k :| 0 <= k < |s.history| && s.history[k] == s.processes[p].pc.id;
    assert BuiltOnPrevious(s.revisions, s.history, k);
  }

  /** A stored revision that lost its race is never current afterwards. */
  predicate Orphan(s: State, r: RevId) {
    && r in s.revisions && r !in s.history
    && (forall p :: p in s.processes && s.processes[p].pc.Activated? ==> s.processes[p].pc.id != r)
  }

  lemma {:induction false} OrphanStaysOrphan(s: State, run: seq<Action>, r: RevId)
    requires Inv(s) && ValidRun(s, run) && Orphan(s, r)
    ensures Orphan(After(s, run), r)
    decreases |run|
  {
    if run != [] {
      StepKeepsInv(s, run[0]);
      StepKeepsOrphan(s, run[0], r);
      OrphanStaysOrphan(Apply(s, run[0]), run[1..], r);
    }
  }

  lemma {:induction false} StepKeepsOrphan(s: State, a: Action, r: RevId)
    requires Inv(s) && Enabled(s, a) && Orphan(s, r)
    ensures Orphan(Apply(s, a), r)
  {
    StepKeepsRevisions(s, a);
    var t := Apply(s, a);
    if a.Step? && s.processes[a.p].pc.Activated? {
      assert t.history == s.history || t.history == s.history + [s.processes[a.p].pc.id];
    } else {
      assert t.history == s.history;
    }
  }

  // ----- reverts -----

  /** Within the listing limit a revert is accepted exactly for the proper ancestors of its base. */
  lemma {:induction false} RevertAcceptsProperAncestors(s: State, p: nat)
    requires Inv(s) && p in s.processes && s.processes[p].pc.RevertRead?
    ensures var r := s.processes[p].request;
            var next := Apply(s, Step(p)).processes[p].pc;
            && r.Revert? && r.base in s.history && r.base in s.revisions && r.base != r.target
            && (next.Ready? <==> |s.revisions| <= MAX_REVISIONS && r.target in Chain(s.revisions, r.base))
            && (next.Ready? ==> r.target in s.history && next.content == s.revisions[r.target].content)
  {
    var r := s.processes[p].request;
    assert ProcessOk(s, s.processes[p]);
    WalkFindsAncestors(s.revisions, r.base, r.target);
    if r.target in Chain(s.revisions, r.base) {
      var k :| 0 <= k < |s.history| && s.history[k] == r.base;
      ChainOfPublished(s.revisions, s.history, s.meta.current, k);
      ReverseMembers(s.history[..k + 1], r.target);
    }
  }

  /** A revert that won stored the target's content under a new id, on top of the revision it started from. */
  lemma {:induction false} RevertRestoresTarget(s: State, run: seq<Action>, p: nat)
    requires Imported(s) && ValidRun(s, run)
    requires var t := After(s, run);
             p in t.processes && t.processes[p].request.Revert? && t.processes[p].pc.Won?
    ensures var t := After(s, run);
            var r, id := t.processes[p].request, t.processes[p].pc.id;
            && id in t.history && id in t.revisions && r.target in t.revisions && r.base in t.revisions
            && t.revisions[id].content == t.revisions[r.target].content
            && t.revisions[id].digest == t.revisions[r.target].digest
            && t.revisions[id].parent == Some(r.base)
            && GraphOk(t.revisions) && r.target in Chain(t.revisions, r.base) && r.target != r.base
  {
    ImportedInv(s);
    RunKeepsInv(s, run);
    assert ProcessOk(After(s, run), After(s, run).processes[p]);
  }
}
