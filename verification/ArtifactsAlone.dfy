/** What a commit or revert does when nothing else happens meanwhile. */
module ArtifactsAlone {

  import opened Common
  import opened Artifacts

  function Steps(p: nat, n: nat): seq<Action> { if n == 0 then [] else [Step(p)] + Steps(p, n - 1) }

  /** The run of one process from its request on. */
  function AloneRun(p: nat, request: Request, steps: nat): seq<Action> { [Begin(p, request)] + Steps(p, steps) }

  function TitleAfter(request: Request, title: string): string {
    if request.Commit? && request.title.Some? then request.title.value else title
  }

  /** The content has become the newest revision, on top of the base, and the current one; nothing else has changed. */
  predicate Published(s: State, p: nat, request: Request, content: Content, t: State) {
    && t.revisions == s.revisions[s.next := Revision(Some(request.base), content, Sha256(content.bytes))]
    && t.meta == Metadata(TitleAfter(request, s.meta.title), s.next) && t.history == s.history + [s.next]
    && t.kind == s.kind && t.next == s.next + 1
    && t.processes == s.processes[p := Process(request, Won(content, s.next))]
  }

  /** The request was refused and nothing else has changed. */
  predicate RefusedOnly(s: State, p: nat, request: Request, reason: Refusal, t: State) {
    t == s.(processes := s.processes[p := Process(request, Refused(reason))])
  }

  predicate At(s: State, p: nat, request: Request, pc: Pc) {
    p in s.processes && s.processes[p] == Process(request, pc)
  }

  function With(s: State, p: nat, request: Request, pc: Pc): State {
    s.(processes := s.processes[p := Process(request, pc)])
  }

  lemma {:induction false} OneStep(s: State, p: nat, n: nat)
    requires n > 0 && Enabled(s, Step(p))
    ensures ValidRun(s, Steps(p, n)) <==> ValidRun(Apply(s, Step(p)), Steps(p, n - 1))
    ensures ValidRun(s, Steps(p, n)) ==> After(s, Steps(p, n)) == After(Apply(s, Step(p)), Steps(p, n - 1))
  {
    assert Steps(p, n)[1..] == Steps(p, n - 1);
  }

  lemma {:induction false} Started(s: State, p: nat, request: Request, n: nat)
    requires p !in s.processes
    ensures var r := AloneRun(p, request, n);
            && (ValidRun(s, r) <==> ValidRun(With(s, p, request, Requested), Steps(p, n)))
            && (ValidRun(s, r) ==> After(s, r) == After(With(s, p, request, Requested), Steps(p, n)))
  {
    assert AloneRun(p, request, n)[1..] == Steps(p, n);
  }

  lemma {:induction false} WithTwice(s: State, p: nat, request: Request, pc: Pc, next: Pc)
    ensures With(With(s, p, request, pc), p, request, next) == With(s, p, request, next)
    ensures Go(With(s, p, request, pc), p, next) == With(s, p, request, next)
  {
    assert s.processes[p := Process(request, pc)][p := Process(request, next)]
        == s.processes[p := Process(request, next)];
  }

  /** The last two steps make the checked content visible and current. */
  lemma {:induction false} CheckedPublishes(s: State, p: nat, request: Request, content: Content)
    ensures var t := With(s, p, request, Checked(content, s.meta));
            ValidRun(t, Steps(p, 2)) && Published(s, p, request, content, After(t, Steps(p, 2)))
  {
    var t := With(s, p, request, Checked(content, s.meta));
    OneStep(t, p, 2);
    var u := Apply(t, Step(p));
    OneStep(u, p, 1);
    var v := Apply(u, Step(p));
    assert After(v, Steps(p, 0)) == v;
    assert v.processes == s.processes[p := Process(request, Won(content, s.next))];
  }

  lemma {:induction false} ReadyPublishes(s: State, p: nat, request: Request, content: Content)
    requires s.meta.current == request.base && ContentOk(s.kind, content) && |s.revisions| < MAX_REVISIONS
    ensures var t := With(s, p, request, Ready(content));
            ValidRun(t, Steps(p, 4)) && Published(s, p, request, content, After(t, Steps(p, 4)))
  {
    var t := With(s, p, request, Ready(content));
    OneStep(t, p, 4);
    WithTwice(s, p, request, Ready(content), MetaRead(content, s.meta));
    var u := With(s, p, request, MetaRead(content, s.meta));
    assert Apply(t, Step(p)) == u;
    OneStep(u, p, 3);
    WithTwice(s, p, request, MetaRead(content, s.meta), Checked(content, s.meta));
    assert Apply(u, Step(p)) == With(s, p, request, Checked(content, s.meta));
    CheckedPublishes(s, p, request, content);
  }

  /**
   An undisturbed commit on the current revision wins: its content becomes a revision on top of it and
   the current one.
   */
  lemma {:induction false} AloneCommits(s: State, p: nat, base: RevId, content: Content, title: Option<string>)
    requires p !in s.processes && s.meta.current == base && ContentOk(s.kind, content) && |s.revisions| < MAX_REVISIONS
    ensures var r := Commit(base, content, title);
            && ValidRun(s, AloneRun(p, r, 5))
            && Published(s, p, r, content, After(s, AloneRun(p, r, 5)))
  {
    var r := Commit(base, content, title);
    Started(s, p, r, 5);
    OneStep(With(s, p, r, Requested), p, 5);
    WithTwice(s, p, r, Requested, Ready(content));
    ReadyPublishes(s, p, r, content);
  }

  lemma {:induction false} RevertReads(s: State, p: nat, base: RevId, target: RevId)
    requires s.meta.current == base && target != base
    ensures var r := Revert(base, target);
            Apply(With(s, p, r, Requested), Step(p)) == With(s, p, r, RevertRead)
  {
    WithTwice(s, p, Revert(base, target), Requested, RevertRead);
  }

  lemma {:induction false} AncestorRead(s: State, p: nat, base: RevId, target: RevId)
    requires Inv(s) && s.meta.current == base && target in Chain(s.revisions, base) && |s.revisions| <= MAX_REVISIONS
    ensures var r := Revert(base, target);
            Apply(With(s, p, r, RevertRead), Step(p)) == With(s, p, r, Ready(s.revisions[target].content))
  {
    var r := Revert(base, target);
    WalkFindsAncestors(s.revisions, base, target);
    WithTwice(s, p, r, RevertRead, Ready(s.revisions[target].content));
  }

  /** An undisturbed revert to an ancestor of the current revision wins with a copy of the ancestor's content. */
  lemma {:induction false} AloneReverts(s: State, p: nat, base: RevId, target: RevId)
    requires Inv(s) && p !in s.processes && s.meta.current == base && target != base
    requires target in Chain(s.revisions, base) && |s.revisions| < MAX_REVISIONS
    ensures var r := Revert(base, target);
            && ValidRun(s, AloneRun(p, r, 6))
            && Published(s, p, r, s.revisions[target].content, After(s, AloneRun(p, r, 6)))
  {
    var r := Revert(base, target);
    Started(s, p, r, 6);
    RevertReads(s, p, base, target);
    OneStep(With(s, p, r, Requested), p, 6);
    OneStep(With(s, p, r, RevertRead), p, 5);
    AncestorRead(s, p, base, target);
    ReadyPublishes(s, p, r, s.revisions[target].content);
  }

  /** The reason an undisturbed commit is refused for, if it is. */
  function WhyRefused(s: State, base: RevId, content: Content): Option<Refusal> {
    if s.meta.current != base then Some(Conflict)
    else if !ContentOk(s.kind, content) then Some(InvalidInput)
    else if |s.revisions| >= MAX_REVISIONS then Some(TooLarge)
    else None
  }

  /** Any other undisturbed commit is refused for its reason and changes nothing. */
  lemma {:induction false} AloneRefused(s: State, p: nat, base: RevId, content: Content, title: Option<string>)
    requires p !in s.processes && WhyRefused(s, base, content).Some?
    ensures var r := Commit(base, content, title);
            exists n: nat :: ValidRun(s, AloneRun(p, r, n))
              && RefusedOnly(s, p, r, WhyRefused(s, base, content).value, After(s, AloneRun(p, r, n)))
  {
    var r := Commit(base, content, title);
    var why := WhyRefused(s, base, content).value;
    var n := match why case Conflict => 1 case InvalidInput => 2 case _ => 3;
    Started(s, p, r, n);
    OneStep(With(s, p, r, Requested), p, n);
    WithTwice(s, p, r, Requested, if n == 1 then Refused(why) else Ready(content));
    if n > 1 {
      OneStep(With(s, p, r, Ready(content)), p, n - 1);
      WithTwice(s, p, r, Ready(content), if n == 2 then Refused(why) else MetaRead(content, s.meta));
      if n > 2 {
        OneStep(With(s, p, r, MetaRead(content, s.meta)), p, 1);
        WithTwice(s, p, r, MetaRead(content, s.meta), Refused(why));
      }
    }
    assert RefusedOnly(s, p, r, why, With(s, p, r, Refused(why)));
    assert ValidRun(s, AloneRun(p, r, n));
  }
}
