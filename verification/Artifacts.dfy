/**
 The artifact store: an append-only graph of revisions with one mutable pointer.

 Processes interleave between the durable steps of a commit or revert: reading the metadata,
 counting the stored revisions, making the staged revision visible, and the compare-and-swap of the
 metadata text.  A crash stops a process between two steps.  Revision ids are fresh, the digest is
 injective, and importing has already made the artifact with its first revision visible.
 */
module Artifacts {

  import opened Common

  type RevId = nat

  const MAX_REVISIONS: nat := 10_000
  const ROOT: RevId := 0

  datatype Kind = Presentation | Spreadsheet | Document

  datatype Content = Content(bytes: seq<int>, kind: Kind)

  datatype Digest = Sha256(of: seq<int>)

  datatype Revision = Revision(parent: Option<RevId>, content: Content, digest: Digest)

  type Revisions = map<RevId, Revision>

  /** The text of the metadata file. */
  datatype Metadata = Metadata(title: string, current: RevId)

  datatype Request =
    | Commit(base: RevId, content: Content, title: Option<string>)
    | Revert(base: RevId, target: RevId)

  datatype Refusal = Conflict | InvalidInput | Corrupt | TooLarge

  datatype Pc =
    | Requested
    | RevertRead
    | Ready(content: Content)
    | MetaRead(content: Content, seen: Metadata)
    | Checked(content: Content, seen: Metadata)
    | Activated(content: Content, seen: Metadata, id: RevId)
    | Won(content: Content, id: RevId)
    | Refused(reason: Refusal)
    | Crashed

  datatype Process = Process(request: Request, pc: Pc)

  /** `history` records the pointer's values in order; everything else is on disk or in a process. */
  datatype State = State(
    kind: Kind, revisions: Revisions, meta: Metadata, next: RevId, processes: map<nat, Process>, history: seq<RevId>)

  datatype Action = Begin(p: nat, request: Request) | Step(p: nat) | Crash(p: nat)

  const MAX_BYTES: nat := 64 * 1024 * 1024

  predicate ContentOk(kind: Kind, c: Content) { c.kind == kind && 1 <= |c.bytes| <= MAX_BYTES }

  // ----- the bounded parent walk of a revert -----

  function Walk(revs: Revisions, cursor: Option<RevId>, target: RevId, steps: nat): bool
    decreases steps
  {
    steps > 0 && cursor.Some? && cursor.value in revs &&
    (cursor.value == target || Walk(revs, revs[cursor.value].parent, target, steps - 1))
  }

  /** Whether the walk from `base`, cut after one more step than there are revisions, meets `target`. */
  predicate WalkFinds(revs: Revisions, base: RevId, target: RevId) { Walk(revs, Some(base), target, |revs| + 1) }

  method WalkParents(revs: Revisions, base: RevId, target: RevId) returns (targetIsAncestor: bool)
    ensures targetIsAncestor == WalkFinds(revs, base, target)
  {
    var cursor := if base in revs then Some(base) else None;
    targetIsAncestor := false;
    var count := 0;
    while cursor.Some? && count <= |revs|
      invariant count <= |revs| + 1
      invariant cursor.Some? ==> cursor.value in revs
      invariant WalkFinds(revs, base, target) == Walk(revs, cursor, target, |revs| + 1 - count)
      decreases |revs| + 1 - count
    {
      if cursor.value == target {
        targetIsAncestor := true;
        break;
      }
      var parent := revs[cursor.value].parent;
      cursor := if parent.Some? && parent.value in revs then parent else None;
      count := count + 1;
    }
  }

  // ----- steps -----

  predicate Enabled(s: State, a: Action) {
    match a
    case Begin(p, _) => p !in s.processes
    case Step(p) =>
      p in s.processes && !s.processes[p].pc.Won? && !s.processes[p].pc.Refused? && !s.processes[p].pc.Crashed?
    case Crash(p) => p in s.processes && !s.processes[p].pc.Won? && !s.processes[p].pc.Refused?
  }

  function Go(s: State, p: nat, pc: Pc): State
    requires p in s.processes
  {
    s.(processes := s.processes[p := s.processes[p].(pc := pc)])
  }

  function RequestStep(s: State, p: nat): State
    requires p in s.processes
  {
    match s.processes[p].request
    case Commit(base, content, _) => Go(s, p, if s.meta.current != base then Refused(Conflict) else Ready(content))
    case Revert(base, target) =>
      Go(s, p,
         if base == target then Refused(InvalidInput)
         else if s.meta.current != base then Refused(Conflict)
         else RevertRead)
  }

  function RevertStep(s: State, p: nat): State
    requires p in s.processes && s.processes[p].request.Revert?
  {
    var r := s.processes[p].request;
    Go(s, p,
       if |s.revisions| > MAX_REVISIONS then Refused(Corrupt)
       else if !WalkFinds(s.revisions, r.base, r.target) || r.target !in s.revisions then Refused(InvalidInput)
       else Ready(s.revisions[r.target].content))
  }

  /** The staged revision becomes visible under its fresh id. */
  function ActivateStep(s: State, p: nat): State
    requires p in s.processes && s.processes[p].pc.Checked?
  {
    var pc := s.processes[p].pc;
    var rev := Revision(Some(s.processes[p].request.base), pc.content, Sha256(pc.content.bytes));
    Go(s.(revisions := s.revisions[s.next := rev], next := s.next + 1), p, Activated(pc.content, pc.seen, s.next))
  }

  /** The metadata text is replaced only if it is still the text that was read. */
  function PublishStep(s: State, p: nat): State
    requires p in s.processes && s.processes[p].pc.Activated?
  {
    var pc, r := s.processes[p].pc, s.processes[p].request;
    if s.meta != pc.seen then Go(s, p, Refused(Conflict)) else
      var title := if r.Commit? && r.title.Some? then r.title.value else pc.seen.title;
      Go(s.(meta := Metadata(title, pc.id), history := s.history + [pc.id]), p, Won(pc.content, pc.id))
  }

  function Apply(s: State, a: Action): State
    requires Enabled(s, a)
  {
    match a
    case Begin(p, request) => s.(processes := s.processes[p := Process(request, Requested)])
    case Crash(p) => Go(s, p, Crashed)
    case Step(p) =>
      var base := s.processes[p].request.base;
      match s.processes[p].pc
      case Requested => RequestStep(s, p)
      case RevertRead => if s.processes[p].request.Revert? then RevertStep(s, p) else s
      case Ready(content) =>
        Go(s, p,
           if s.meta.current != base then Refused(Conflict)
           else if !ContentOk(s.kind, content) then Refused(InvalidInput)
           else MetaRead(content, s.meta))
      case MetaRead(content, seen) =>
        Go(s, p, if |s.revisions| >= MAX_REVISIONS then Refused(TooLarge) else Checked(content, seen))
      case Checked(_, _) => ActivateStep(s, p)
      case Activated(_, _, _) => PublishStep(s, p)
  }

  predicate ValidRun(s: State, run: seq<Action>)
    decreases |run|
  {
    run == [] || (Enabled(s, run[0]) && ValidRun(Apply(s, run[0]), run[1..]))
  }

  function After(s: State, run: seq<Action>): State
    requires ValidRun(s, run)
    decreases |run|
  {
    if run == [] then s else After(Apply(s, run[0]), run[1..])
  }

  /** What importing makes visible in one rename. */
  predicate Imported(s: State) {
    && s.revisions.Keys == {ROOT}
    && s.revisions[ROOT].parent.None? && ContentOk(s.kind, s.revisions[ROOT].content)
    && s.revisions[ROOT].digest == Sha256(s.revisions[ROOT].content.bytes)
    && s.meta.current == ROOT && s.next == ROOT + 1 && s.processes == map[] && s.history == [ROOT]
  }

  // ----- the revision graph -----

  /** The parent is an older, stored revision; only the import has none. */
  predicate LinkOk(revs: Revisions, r: RevId)
    requires r in revs
  {
    if revs[r].parent.None? then r == ROOT else revs[r].parent.value < r && revs[r].parent.value in revs
  }

  predicate GraphOk(revs: Revisions) {
    ROOT in revs && forall r {:trigger LinkOk(revs, r)} :: r in revs ==> LinkOk(revs, r)
  }

  /** A revision and its ancestors, newest first. */
  function Chain(revs: Revisions, r: RevId): (chain: seq<RevId>)
    requires GraphOk(revs) && r in revs
    ensures chain != [] && chain[0] == r && chain[|chain| - 1] == ROOT
    ensures forall x :: x in chain ==> x in revs && x <= r
    decreases r
  {
    assert LinkOk(revs, r);
    [r] + (if revs[r].parent.None? then [] else Chain(revs, revs[r].parent.value))
  }

  function UpTo(revs: Revisions, r: RevId): set<RevId> { set x | x in revs && x <= r }

  lemma {:induction false} ChainIsShort(revs: Revisions, r: RevId)
    requires GraphOk(revs) && r in revs
    ensures |Chain(revs, r)| <= |UpTo(revs, r)|
    decreases r
  {
    assert r in UpTo(revs, r);
    if revs[r].parent.Some? {
      var p := revs[r].parent.value;
      ChainStep(revs, r);
      ChainIsShort(revs, p);
      SubsetCount(UpTo(revs, p), UpTo(revs, r) - {r});
    }
  }

  lemma {:induction false} ChainStep(revs: Revisions, r: RevId)
    requires GraphOk(revs) && r in revs && revs[r].parent.Some?
    ensures revs[r].parent.value in revs && revs[r].parent.value < r
    ensures Chain(revs, r) == [r] + Chain(revs, revs[r].parent.value)
    ensures |Chain(revs, r)| == 1 + |Chain(revs, revs[r].parent.value)|
    ensures forall x :: x in Chain(revs, r) <==> x == r || x in Chain(revs, revs[r].parent.value)
  {
    assert LinkOk(revs, r);
    var tail := Chain(revs, revs[r].parent.value);
    assert Chain(revs, r) == [r] + tail;
  }

  lemma {:induction false} SubsetCount(a: set<nat>, b: set<nat>)
    requires a <= b
    ensures |a| <= |b|
  {
    if a != {} {
      var x :| x in a;
      SubsetCount(a - {x}, b - {x});
    }
  }

  lemma {:induction false} WalkStep(revs: Revisions, r: RevId, target: RevId, steps: nat)
    requires r in revs && 0 < steps
    ensures Walk(revs, Some(r), target, steps) <==> r == target || Walk(revs, revs[r].parent, target, steps - 1)
    ensures !Walk(revs, None, target, steps - 1)
  {
  }

  lemma {:induction false} WalkIsChain(revs: Revisions, r: RevId, target: RevId, steps: nat)
    requires GraphOk(revs) && r in revs && |Chain(revs, r)| <= steps
    ensures Walk(revs, Some(r), target, steps) <==> target in Chain(revs, r)
    decreases r
  {
    WalkStep(revs, r, target, steps);
    match revs[r].parent
    case Some(p) =>
      ChainStep(revs, r);
      WalkIsChain(revs, p, target, steps - 1);
    case None =>
      assert Chain(revs, r) == [r];
  }

  /** The walk is long enough: it meets exactly the revision itself and its ancestors. */
  lemma {:induction false} WalkFindsAncestors(revs: Revisions, base: RevId, target: RevId)
    requires GraphOk(revs) && base in revs
    ensures WalkFinds(revs, base, target) <==> target in Chain(revs, base)
  {
    ChainIsShort(revs, base);
    SubsetCount(UpTo(revs, base), revs.Keys);
    WalkIsChain(revs, base, target, |revs| + 1);
  }

  lemma {:induction false} ChainKept(revs: Revisions, more: Revisions, r: RevId)
    requires GraphOk(revs) && GraphOk(more) && r in revs
    requires forall x :: x in revs ==> x in more && more[x] == revs[x]
    ensures Chain(more, r) == Chain(revs, r)
    decreases r
  {
    assert LinkOk(revs, r);
    if revs[r].parent.Some? { ChainKept(revs, more, revs[r].parent.value); }
  }

  // ----- the invariant -----

  /** The k-th published revision was built on the one published before it. */
  predicate BuiltOnPrevious(revs: Revisions, history: seq<RevId>, k: nat)
    requires 1 <= k < |history|
  {
    history[k] in revs && revs[history[k]].parent == Some(history[k - 1])
  }

  predicate HistoryOk(revs: Revisions, history: seq<RevId>, current: RevId) {
    && |history| >= 1 && history[0] == ROOT && history[|history| - 1] == current
    && (forall r :: r in history ==> r in revs)
    && (forall k :: 1 <= k < |history| ==> BuiltOnPrevious(revs, history, k))
  }

  lemma {:induction false} HistoryGrows(revs: Revisions, history: seq<RevId>, current: RevId, id: RevId)
    requires HistoryOk(revs, history, current) && id in revs && revs[id].parent == Some(current)
    ensures HistoryOk(revs, history + [id], id)
  {
    var longer := history + [id];
    forall k | 1 <= k < |longer| ensures BuiltOnPrevious(revs, longer, k) {
      if k < |history| { assert BuiltOnPrevious(revs, history, k); }
    }
  }

  lemma {:induction false} HistoryKept(revs: Revisions, more: Revisions, history: seq<RevId>, current: RevId)
    requires HistoryOk(revs, history, current)
    requires forall r :: r in revs ==> r in more && more[r] == revs[r]
    ensures HistoryOk(more, history, current)
  {
    forall k | 1 <= k < |history| ensures BuiltOnPrevious(more, history, k) {
      assert BuiltOnPrevious(revs, history, k);
    }
  }

  predicate StoreOk(s: State) {
    && GraphOk(s.revisions)
    && (forall r :: r in s.revisions ==>
          && r < s.next && ContentOk(s.kind, s.revisions[r].content)
          && s.revisions[r].digest == Sha256(s.revisions[r].content.bytes))
    && HistoryOk(s.revisions, s.history, s.meta.current)
  }

  predicate HoldsSeen(pc: Pc) { pc.MetaRead? || pc.Checked? || pc.Activated? }

  predicate HoldsContent(pc: Pc) { HoldsSeen(pc) || pc.Ready? || pc.Won? }

  predicate HoldsRevision(pc: Pc) { pc.Activated? || pc.Won? }

  predicate ProcessOk(s: State, p: Process) {
    && (p.pc.RevertRead? ==> p.request.Revert?)
    && (p.pc.RevertRead? || HoldsContent(p.pc) ==> p.request.base in s.revisions && p.request.base in s.history)
    && (p.request.Revert? && (p.pc.RevertRead? || HoldsContent(p.pc)) ==> p.request.base != p.request.target)
    && (HoldsSeen(p.pc) ==> p.pc.seen.current == p.request.base)
    && (HoldsSeen(p.pc) || p.pc.Won? ==> ContentOk(s.kind, p.pc.content))
    && (HoldsContent(p.pc) ==>
          match p.request
          case Commit(_, content, _) => p.pc.content == content
          case Revert(base, target) =>
            && GraphOk(s.revisions) && target in Chain(s.revisions, base)
            && p.pc.content == s.revisions[target].content)
    && (HoldsRevision(p.pc) ==>
          && p.pc.id in s.revisions && p.pc.id != ROOT
          && s.revisions[p.pc.id].parent == Some(p.request.base)
          && s.revisions[p.pc.id].content == p.pc.content)
    && (p.pc.Activated? ==> p.pc.id !in s.history)
    && (p.pc.Won? ==> p.pc.id in s.history)
  }

  predicate IdsDistinct(s: State) {
    forall p, q | p in s.processes && q in s.processes && p != q ::
      HoldsRevision(s.processes[p].pc) && HoldsRevision(s.processes[q].pc) ==>
      s.processes[p].pc.id != s.processes[q].pc.id
  }

  predicate Inv(s: State) {
    && StoreOk(s)
    && (forall p :: p in s.processes ==> ProcessOk(s, s.processes[p]))
    && IdsDistinct(s)
  }

  lemma {:induction false} ImportedInv(s: State)
    requires Imported(s)
    ensures Inv(s)
  {
  }

  /** A step that changes only one process. */
  lemma {:induction false} GoKeepsInv(s: State, p: nat, pc: Pc)
    requires Inv(s) && p in s.processes
    requires ProcessOk(s, s.processes[p].(pc := pc)) && !HoldsRevision(pc)
    ensures Inv(Go(s, p, pc))
  {
  }

  /** A process keeps its standing while revisions are only added and its own id stays unpublished. */
  lemma {:induction false} GrowthKeepsProcess(s: State, t: State, q: Process)
    requires ProcessOk(s, q) && t.kind == s.kind
    requires forall r :: r in s.revisions ==> r in t.revisions && t.revisions[r] == s.revisions[r]
    requires forall r :: r in s.history ==> r in t.history
    requires q.pc.Activated? ==> q.pc.id !in t.history
    requires GraphOk(s.revisions) && GraphOk(t.revisions)
    ensures ProcessOk(t, q)
  {
    if HoldsContent(q.pc) { ChainKept(s.revisions, t.revisions, q.request.base); }
  }

  lemma {:induction false} ActivateKeepsStore(s: State, p: nat)
    requires StoreOk(s) && p in s.processes && ProcessOk(s, s.processes[p]) && s.processes[p].pc.Checked?
    ensures StoreOk(ActivateStep(s, p))
  {
    var t := ActivateStep(s, p);
    forall r | r in t.revisions ensures LinkOk(t.revisions, r) {
      if r in s.revisions { assert LinkOk(s.revisions, r); }
    }
    HistoryKept(s.revisions, t.revisions, s.history, s.meta.current);
  }

  lemma {:induction false} ActivateKeepsInv(s: State, p: nat)
    requires Inv(s) && p in s.processes && s.processes[p].pc.Checked?
    ensures Inv(ActivateStep(s, p))
  {
    var t := ActivateStep(s, p);
    assert ProcessOk(s, s.processes[p]);
    ActivateKeepsStore(s, p);
    forall q | q in t.processes && q != p ensures ProcessOk(t, t.processes[q]) {
      GrowthKeepsProcess(s, t, s.processes[q]);
    }
    FreshProcessOk(s, p);
    forall q | q in s.processes && HoldsRevision(s.processes[q].pc) ensures s.processes[q].pc.id < s.next {
      assert ProcessOk(s, s.processes[q]);
    }
    assert IdsDistinct(t);
  }

  lemma {:induction false} FreshProcessOk(s: State, p: nat)
    requires StoreOk(s) && p in s.processes && ProcessOk(s, s.processes[p]) && s.processes[p].pc.Checked?
    ensures ProcessOk(ActivateStep(s, p), ActivateStep(s, p).processes[p])
  {
    assert s.next !in s.history;
    ActivateKeepsStore(s, p);
    ChainKept(s.revisions, ActivateStep(s, p).revisions, s.processes[p].request.base);
  }

  lemma {:induction false} PublishKeepsInv(s: State, p: nat)
    requires Inv(s) && p in s.processes && s.processes[p].pc.Activated?
    ensures Inv(PublishStep(s, p))
  {
    assert ProcessOk(s, s.processes[p]);
    if s.meta != s.processes[p].pc.seen {
      GoKeepsInv(s, p, Refused(Conflict));
    } else {
      var t := PublishStep(s, p);
      HistoryGrows(s.revisions, s.history, s.meta.current, s.processes[p].pc.id);
      forall q | q in t.processes && q != p ensures ProcessOk(t, t.processes[q]) {
        GrowthKeepsProcess(s, t, s.processes[q]);
      }
      assert ProcessOk(t, t.processes[p]);
    }
  }

  lemma {:induction false} DecisionKeepsInv(s: State, p: nat)
    requires Inv(s) && p in s.processes
    requires var pc := s.processes[p].pc; pc.Requested? || pc.RevertRead? || pc.Ready? || pc.MetaRead?
    ensures Inv(Apply(s, Step(p)))
  {
    var t := Apply(s, Step(p));
    assert ProcessOk(s, s.processes[p]);
    if s.processes[p].pc.RevertRead? {
      WalkFindsAncestors(s.revisions, s.processes[p].request.base, s.processes[p].request.target);
    }
    assert t == Go(s, p, t.processes[p].pc);
    GoKeepsInv(s, p, t.processes[p].pc);
  }

  lemma {:induction false} StepKeepsInv(s: State, a: Action)
    requires Inv(s) && Enabled(s, a)
    ensures Inv(Apply(s, a))
  {
    match a {
      case Begin(p, request) => BeginKeepsInv(s, p, request);
      case Crash(p) => GoKeepsInv(s, p, Crashed);
      case Step(p) =>
        if s.processes[p].pc.Checked? {
          ActivateKeepsInv(s, p);
        } else if s.processes[p].pc.Activated? {
          PublishKeepsInv(s, p);
        } else {
          DecisionKeepsInv(s, p);
        }
    }
  }

  lemma {:induction false} BeginKeepsInv(s: State, p: nat, request: Request)
    requires Inv(s) && p !in s.processes
    ensures Inv(s.(processes := s.processes[p := Process(request, Requested)]))
  {
    assert ProcessOk(s, Process(request, Requested));
  }

  /** Stored revisions never change, and the record of published ones only grows. */
  lemma {:induction false} StepKeepsRevisions(s: State, a: Action)
    requires Inv(s) && Enabled(s, a)
    ensures forall r :: r in s.revisions ==> r in Apply(s, a).revisions && Apply(s, a).revisions[r] == s.revisions[r]
    ensures s.history <= Apply(s, a).history
  {
    var t := Apply(s, a);
    if a.Step? && s.processes[a.p].pc.Checked? {
      assert t == ActivateStep(s, a.p);
      assert s.next !in s.revisions;
    } else {
      assert t.revisions == s.revisions;
    }
  }
}
