/** One synchronisation that nothing disturbs: what it submits, stores and moves past. */
module MailSync {

  import opened Common
  import opened MailIntake

  predicate Quiet(run: seq<Action>) { forall i :: 0 <= i < |run| ==> run[i].Start? || run[i].Next? || run[i].List? }

  /** Steps of the synchronisation alone lead from the one state to the other. */
  ghost predicate Syncs(s: State, t: State) { exists run :: ValidRun(s, run) && Quiet(run) && After(s, run) == t }

  lemma {:induction false} SyncsSelf(s: State)
    ensures Syncs(s, s)
  {
    assert ValidRun(s, []) && Quiet([]) && After(s, []) == s;
  }

  lemma {:induction false} SyncsBy(s: State, a: Action, t: State)
    requires Enabled(s, a) && (a.Start? || a.Next? || a.List?) && Syncs(Apply(s, a), t)
    ensures Syncs(s, t)
  {
    var rest :| ValidRun(Apply(s, a), rest) && Quiet(rest) && After(Apply(s, a), rest) == t;
    var run := [a] + rest;
    assert run[0] == a && run[1..] == rest;
    assert ValidRun(s, run) && Quiet(run) && After(s, run) == t;
  }

  function Messages(submissions: seq<Submission>): seq<Leaf> {
    seq(|submissions|, i requires 0 <= i < |submissions| => submissions[i].message)
  }

  // ----- draining a batch -----

  /** One message submitted, marked and taken off the queue. */
  function Sent(s: State, l: Leaf): State {
    s.(submissions := s.submissions + [Submission(RequestKey(s.id, FileName(l)), l)],
       inbox := s.inbox[l := Submitted],
       conn := s.conn.(pending := Without(s.conn.pending, l)))
  }

  function AllSent(s: State, todo: seq<Leaf>): State
    decreases |todo|
  {
    if todo == [] then s else AllSent(Sent(s, todo[0]), todo[1..])
  }

  lemma {:induction false} SendOne(s: State, todo: seq<Leaf>, page: Option<Page>, t: State)
    requires todo != [] && todo[0] in s.inbox && s.active == s.conn.revision
    requires s.pc.Drain? && s.pc == Drain(todo, page, s.pc.behind) && (page.None? ==> s.pc.behind == s.conn.passed)
    requires Syncs(Sent(s, todo[0]).(pc := Drain(todo[1..], page, s.pc.behind)), t)
    ensures Syncs(s, t)
  {
    var l, rest, behind := todo[0], todo[1..], s.pc.behind;
    var s1 := s.(pc := Posting(l, rest, page, behind));
    var s2 := s.(submissions := Sent(s, l).submissions, pc := Posted(l, rest, page, behind));
    var s3 := s2.(inbox := s.inbox[l := Submitted], pc := Filing(l, rest, page, behind));
    SyncsBy(s3, Next, t);
    SyncsBy(s2, Next, t);
    SyncsBy(s1, Next, t);
    SyncsBy(s, Next, t);
  }

  lemma {:induction false} DrainSyncs(s: State, todo: seq<Leaf>, page: Option<Page>, t: State)
    requires s.pc.Drain? && s.pc == Drain(todo, page, s.pc.behind) && (page.None? ==> s.pc.behind == s.conn.passed)
    requires s.active == s.conn.revision && (forall l :: l in todo ==> l in s.inbox)
    requires Syncs(AllSent(s, todo).(pc := Drain([], page, s.pc.behind)), t)
    ensures Syncs(s, t)
    decreases |todo|
  {
    if todo == [] {
      assert AllSent(s, todo).(pc := Drain([], page, s.pc.behind)) == s;
    } else {
      var u := Sent(s, todo[0]).(pc := Drain(todo[1..], page, s.pc.behind));
      PcIrrelevant(Sent(s, todo[0]), todo[1..], u.pc);
      DrainSyncs(u, todo[1..], page, t);
      SendOne(s, todo, page, t);
    }
  }

  lemma {:induction false} PcIrrelevant(s: State, todo: seq<Leaf>, pc: Pc)
    ensures AllSent(s.(pc := pc), todo) == AllSent(s, todo).(pc := pc)
    decreases |todo|
  {
    if todo != [] {
      assert Sent(s.(pc := pc), todo[0]) == Sent(s, todo[0]).(pc := pc);
      PcIrrelevant(Sent(s, todo[0]), todo[1..], pc);
    }
  }

  lemma {:induction false} WithoutFirst(leaves: seq<Leaf>)
    requires leaves != [] && NoRepeats(leaves)
    ensures Without(leaves, leaves[0]) == leaves[1..]
  {
    WithoutAbsent(leaves[1..], leaves[0]);
  }

  lemma {:induction false} WithoutAbsent(leaves: seq<Leaf>, l: Leaf)
    requires l !in leaves
    ensures Without(leaves, l) == leaves
  {
    if leaves != [] {
      assert leaves == [leaves[0]] + leaves[1..];
      WithoutAbsent(leaves[1..], l);
    }
  }

  /** The messages are submitted in order, marked, and off the queue; nothing else changes. */
  ghost predicate OnlySends(s: State, t: State, todo: seq<Leaf>, rest: seq<Leaf>) {
    && t == s.(submissions := t.submissions, inbox := t.inbox, conn := s.conn.(pending := rest))
    && Messages(t.submissions) == Messages(s.submissions) + todo
    && (forall l :: l in t.inbox <==> l in s.inbox || l in todo)
    && (forall l :: l in todo ==> t.inbox[l] == Submitted)
    && (forall l :: l in s.inbox && l !in todo ==> t.inbox[l] == s.inbox[l])
  }

  lemma {:induction false} SentThenSent(s: State, l: Leaf, u: State, t: State, todo: seq<Leaf>, rest: seq<Leaf>)
    requires u == Sent(s, l) && OnlySends(u, t, todo, rest)
    ensures OnlySends(s, t, [l] + todo, rest)
  {
    assert Messages(u.submissions) == Messages(s.submissions) + [l];
    assert Messages(s.submissions) + [l] + todo == Messages(s.submissions) + ([l] + todo);
  }

  /** Draining the front of the queue submits it in order and leaves the rest. */
  lemma {:induction false} AllSentIs(s: State, k: nat)
    requires k <= |s.conn.pending| && NoRepeats(s.conn.pending)
    ensures OnlySends(s, AllSent(s, s.conn.pending[..k]), s.conn.pending[..k], s.conn.pending[k..])
    decreases k
  {
    var q := s.conn.pending;
    if k == 0 {
      assert q[..0] == [] && q[0..] == q;
      assert Messages(s.submissions) + [] == Messages(s.submissions);
    } else {
      var u := Sent(s, q[0]);
      WithoutFirst(q);
      assert q[..k][0] == q[0] && q[..k][1..] == q[1..][..k - 1] && q[1..][k - 1..] == q[k..];
      assert q[..k] == [q[0]] + q[1..][..k - 1];
      AllSentIs(u, k - 1);
      SentThenSent(s, q[0], u, AllSent(u, q[1..][..k - 1]), q[1..][..k - 1], q[k..]);
    }
  }

  // ----- storing a page -----

  /** One listed message stored unless it is, and queued unless it is or was submitted. */
  function Kept(s: State, l: Leaf): State {
    var inbox := if l in s.inbox then s.inbox else s.inbox[l := Pending];
    s.(inbox := inbox,
       conn := if l !in s.conn.pending && inbox[l] == Pending then s.conn.(pending := s.conn.pending + [l]) else s.conn)
  }

  function AllKept(s: State, leaves: seq<Leaf>): State
    decreases |leaves|
  {
    if leaves == [] then s else AllKept(Kept(s, leaves[0]), leaves[1..])
  }

  lemma {:induction false} KeepOne(s: State, page: Page, k: nat, t: State)
    requires k < |page.leaves| && s.pc.Store? && s.pc == Store(page, k, s.pc.behind) && s.active == s.conn.revision
    requires |s.conn.pending| < MAX_PENDING
    requires Syncs(Kept(s, page.leaves[k]).(pc := Store(page, k + 1, s.pc.behind)), t)
    ensures Syncs(s, t)
  {
    var l, behind := page.leaves[k], s.pc.behind;
    var s1 := s.(pc := Fetching(page, k, behind));
    var s2 := s.(inbox := Kept(s, l).inbox, pc := Stored(page, k, behind));
    SyncsBy(s2, Next, t);
    SyncsBy(s1, Next, t);
    SyncsBy(s, Next, t);
  }

  lemma {:induction false} StoreSyncs(s: State, page: Page, k: nat, t: State)
    requires k <= |page.leaves| && s.pc.Store? && s.pc == Store(page, k, s.pc.behind) && s.active == s.conn.revision
    requires |s.conn.pending| + |page.leaves| - k <= MAX_PENDING
    requires Syncs(AllKept(s, page.leaves[k..]).(pc := Store(page, |page.leaves|, s.pc.behind)), t)
    ensures Syncs(s, t)
    decreases |page.leaves| - k
  {
    if k == |page.leaves| {
      assert page.leaves[k..] == [];
    } else {
      var l := page.leaves[k];
      assert page.leaves[k..][0] == l && page.leaves[k..][1..] == page.leaves[k + 1..];
      var u := Kept(s, l).(pc := Store(page, k + 1, s.pc.behind));
      KeptPcIrrelevant(Kept(s, l), page.leaves[k + 1..], u.pc);
      StoreSyncs(u, page, k + 1, t);
      KeepOne(s, page, k, t);
    }
  }

  lemma {:induction false} KeptPcIrrelevant(s: State, leaves: seq<Leaf>, pc: Pc)
    ensures AllKept(s.(pc := pc), leaves) == AllKept(s, leaves).(pc := pc)
    decreases |leaves|
  {
    if leaves != [] {
      assert Kept(s.(pc := pc), leaves[0]) == Kept(s, leaves[0]).(pc := pc);
      KeptPcIrrelevant(Kept(s, leaves[0]), leaves[1..], pc);
    }
  }

  /**
   Storing a page only adds: to the inbox what is new, to the end of the queue what is neither there nor
   submitted.
   */
  ghost predicate OnlyKeeps(s: State, t: State, leaves: seq<Leaf>, added: seq<Leaf>) {
    && t == s.(inbox := t.inbox, conn := s.conn.(pending := s.conn.pending + added))
    && |added| <= |leaves| && NoRepeats(t.conn.pending)
    && (forall l :: l in t.inbox <==> l in s.inbox || l in leaves)
    && (forall l :: l in added ==> l in leaves && t.inbox[l] == Pending)
    && (forall l :: l in s.inbox ==> t.inbox[l] == s.inbox[l])
    && (forall l :: l in leaves ==> l in t.conn.pending || t.inbox[l] == Submitted)
  }

  lemma {:induction false} AllKeptIs(s: State, leaves: seq<Leaf>) returns (added: seq<Leaf>)
    requires NoRepeats(s.conn.pending)
    ensures OnlyKeeps(s, AllKept(s, leaves), leaves, added)
    decreases |leaves|
  {
    if leaves == [] {
      added := [];
      assert s.conn.pending + [] == s.conn.pending;
    } else {
      var u := Kept(s, leaves[0]);
      var rest := AllKeptIs(u, leaves[1..]);
      var first := if u.conn.pending == s.conn.pending then [] else [leaves[0]];
      assert u.conn.pending == s.conn.pending + first;
      added := first + rest;
      assert (s.conn.pending + first) + rest == s.conn.pending + added;
      assert leaves == [leaves[0]] + leaves[1..];
    }
  }

  // ----- the whole synchronisation -----

  /** After the first drain, with the page listed from the record just read. */
  lemma {:induction false} BeginsListing(s: State, page: Page, t: State)
    requires Inv(s) && s.pc.Idle?
    requires var first := FirstBatch(s.conn.pending);
             Syncs(AllSent(s, first).(active := s.conn.revision, pc := Store(page, 0, s.conn.passed)), t)
    ensures Syncs(s, t)
  {
    var first := FirstBatch(s.conn.pending);
    var s1 := s.(active := s.conn.revision, pc := Leasing);
    var s2 := s1.(pc := Drain(first, None, s.conn.passed));
    var d := AllSent(s2, first).(pc := Drain([], None, s.conn.passed));
    var l := d.(pc := Listing(s.conn.passed));
    AllSentFrame(s, first, s.conn.revision, s2.pc);
    SyncsBy(l, List(page), t);
    SyncsBy(d, Next, t);
    DrainSyncs(s2, first, None, t);
    SyncsBy(s1, Next, t);
    SyncsBy(s, Start, t);
  }

  lemma {:induction false} AllSentFrame(s: State, todo: seq<Leaf>, active: nat, pc: Pc)
    ensures AllSent(s.(active := active, pc := pc), todo) == AllSent(s, todo).(active := active, pc := pc)
    decreases |todo|
  {
    if todo != [] {
      assert Sent(s.(active := active, pc := pc), todo[0]) == Sent(s, todo[0]).(active := active, pc := pc);
      AllSentFrame(Sent(s, todo[0]), todo[1..], active, pc);
    }
  }

  /** From a page stored to the commit. */
  lemma {:induction false} EndsCommitted(s: State, page: Page, t: State)
    requires s.pc.Store? && s.pc == Store(page, |page.leaves|, s.pc.behind) && s.active == s.conn.revision
    requires forall l :: l in FirstBatch(s.conn.pending) ==> l in s.inbox
    requires var second := FirstBatch(s.conn.pending);
             t == CommitStep(AllSent(s, second).(pc := Committing(page, s.pc.behind)))
    ensures Syncs(s, t)
  {
    var second, behind := FirstBatch(s.conn.pending), s.pc.behind;
    var s1 := s.(pc := Drain(second, Some(page), behind));
    var c := AllSent(s, second).(pc := Committing(page, behind));
    var d := c.(pc := Drain([], Some(page), behind));
    PcIrrelevant(s, second, s1.pc);
    SyncsSelf(t);
    SyncsBy(c, Next, t);
    SyncsBy(d, Next, t);
    DrainSyncs(s1, second, Some(page), t);
    SyncsBy(s, Next, t);
  }

  /** What one undisturbed synchronisation does with the queue and a listed page. */
  ghost predicate Delivers(s: State, t: State, page: Page, added: seq<Leaf>) {
    var first := FirstBatch(s.conn.pending);
    var queue := s.conn.pending[|first|..] + added;
    var second := FirstBatch(queue);
    // Submitted: the first fifty queued before the page, then the first fifty of the rest with its new messages.
    && Messages(t.submissions) == Messages(s.submissions) + first + second
    && t.conn.pending == queue[|second|..]
    && (forall l :: l in added ==> l in page.leaves && (l in s.inbox ==> s.inbox[l] == Pending))
    // Nothing of the page is missed, and the cursor is past it.
    && (forall l :: l in page.leaves ==>
          Covered(t.inbox, AtDesk(t.submissions), t.conn.pending, l) && l in t.conn.passed)
    && (|queue| <= DRAIN_BATCH ==>
          t.conn.pending == [] && forall l :: l in page.leaves ==> l in AtDesk(t.submissions))
    && t.conn.cursor == page.next && t.conn.passed == s.conn.passed + Leaves(page)
    && (page.next.None? ==> t.conn.settled == t.conn.passed)
    && t.pc.Idle?
  }

  /** Drained, with the page listed and not yet stored. */
  function ListedState(s: State): State {
    AllSent(s, FirstBatch(s.conn.pending)).(active := s.conn.revision)
  }

  /** From any queue, with any page of at most fifty messages. */
  lemma {:induction false} SyncDelivers(s: State, page: Page) returns (t: State, added: seq<Leaf>)
    requires Inv(s) && s.pc.Idle? && |page.leaves| <= DRAIN_BATCH
    ensures Syncs(s, t) && Inv(t) && Delivers(s, t, page, added)
  {
    var first, behind := FirstBatch(s.conn.pending), s.conn.passed;
    assert first == s.conn.pending[..|first|];
    AllSentIs(s, |first|);
    var a := ListedState(s).(pc := Store(page, 0, behind));
    TailHasNoRepeats(s.conn.pending, |first|);
    added := AllKeptIs(a, page.leaves);
    var b := AllKept(a, page.leaves).(pc := Store(page, |page.leaves|, behind));
    t := FinishSync(s, a, b, page, added);
    StoreAndBegin(s, a, b, page, t);
    SyncsKeepsInv(s, t);
    DeliveredAll(s, b, t, page, added);
  }

  lemma {:induction false} TailHasNoRepeats(q: seq<Leaf>, k: nat)
    requires NoRepeats(q) && k <= |q|
    ensures NoRepeats(q[k..])
  {
  }

  lemma {:induction false} StoreAndBegin(s: State, a: State, b: State, page: Page, t: State)
    requires Inv(s) && s.pc.Idle? && |page.leaves| <= DRAIN_BATCH
    requires a == ListedState(s).(pc := Store(page, 0, s.conn.passed))
    requires a.conn.pending == s.conn.pending[|FirstBatch(s.conn.pending)|..] && a.conn.revision == s.conn.revision
    requires b == AllKept(a, page.leaves).(pc := Store(page, |page.leaves|, s.conn.passed))
    requires Syncs(b, t)
    ensures Syncs(s, t)
  {
    assert page.leaves[0..] == page.leaves;
    StoreSyncs(a, page, 0, t);
    BeginsListing(s, page, t);
  }

  lemma {:induction false} FinishSync(s: State, a: State, b: State, page: Page, added: seq<Leaf>) returns (t: State)
    requires Inv(s) && s.pc.Idle?
    requires var first := FirstBatch(s.conn.pending);
             OnlySends(s, a.(active := s.active, pc := s.pc), first, s.conn.pending[|first|..])
    requires a.active == s.conn.revision
    requires b.pc == Store(page, |page.leaves|, s.conn.passed) && OnlyKeeps(a, b.(pc := a.pc), page.leaves, added)
    ensures Syncs(b, t) && t.pc.Idle?
    ensures Messages(t.submissions)
         == Messages(s.submissions) + FirstBatch(s.conn.pending) + FirstBatch(b.conn.pending)
    ensures t.conn.pending == b.conn.pending[|FirstBatch(b.conn.pending)|..]
    ensures forall l :: l in page.leaves ==> l in t.inbox && (l in b.conn.pending || t.inbox[l] == Submitted)
    ensures t.conn.cursor == page.next && t.conn.passed == s.conn.passed + Leaves(page)
    ensures page.next.None? ==> t.conn.settled == t.conn.passed
    ensures forall l :: l in added ==> l in page.leaves && (l in s.inbox ==> s.inbox[l] == Pending)
  {
    var second := FirstBatch(b.conn.pending);
    assert second == b.conn.pending[..|second|];
    AllSentIs(b, |second|);
    var c := AllSent(b, second).(pc := Committing(page, s.conn.passed));
    t := CommitStep(c);
    QueueStored(s, a, b, added, page);
    EndsCommitted(b, page, t);
    assert s.conn.passed + s.conn.passed + Leaves(page) == s.conn.passed + Leaves(page);
  }

  lemma {:induction false} QueueStored(s: State, a: State, b: State, added: seq<Leaf>, page: Page)
    requires Inv(s) && OnlyKeeps(a, b.(pc := a.pc), page.leaves, added)
    requires a.conn.pending == s.conn.pending[|FirstBatch(s.conn.pending)|..]
    requires forall l :: l in s.inbox ==> l in a.inbox
    ensures forall l :: l in b.conn.pending ==> l in b.inbox
  {
  }

  lemma {:induction false} SyncsKeepsInv(s: State, t: State)
    requires Inv(s) && Syncs(s, t)
    ensures Inv(t)
  {
    var run :| ValidRun(s, run) && Quiet(run) && After(s, run) == t;
    QuietRunsAreHarmless(s, run);
    RunKeepsInv(s, run);
  }

  lemma {:induction false} DeliveredAll(s: State, b: State, t: State, page: Page, added: seq<Leaf>)
    requires Inv(t) && t.pc.Idle?
    requires Messages(t.submissions) == Messages(s.submissions) + FirstBatch(s.conn.pending)
        + FirstBatch(b.conn.pending)
    requires b.conn.pending == s.conn.pending[|FirstBatch(s.conn.pending)|..] + added
    requires t.conn.pending == b.conn.pending[|FirstBatch(b.conn.pending)|..]
    requires forall l :: l in added ==> l in page.leaves && (l in s.inbox ==> s.inbox[l] == Pending)
    requires forall l :: l in page.leaves ==> l in t.inbox && (l in b.conn.pending || t.inbox[l] == Submitted)
    requires t.conn.cursor == page.next && t.conn.passed == s.conn.passed + Leaves(page)
    requires page.next.None? ==> t.conn.settled == t.conn.passed
    ensures Delivers(s, t, page, added)
  {
    var second := FirstBatch(b.conn.pending);
    forall l | l in second ensures l in AtDesk(t.submissions) {
      var i :| 0 <= i < |second| && second[i] == l;
      var n := |Messages(s.submissions)| + |FirstBatch(s.conn.pending)|;
      assert Messages(t.submissions)[n + i] == l;
      assert t.submissions[n + i] in t.submissions;
    }
    assert b.conn.pending == second + t.conn.pending;
  }
}
