/**
 The repeat-failure guard: a ledger of at most 64 failure identities, least recently failed first,
 kept once per session scope for warnings and once per run for the stop verdict.
 */
module RepeatGuard {

  import opened Common
  import opened OrderedMap

  const MAX_IDENTITIES: nat := 64

  datatype Kind = Exact | Strategy | HomeBoundary | EmptyRecall | AccessBoundary | PolicyBoundary

  datatype Identity = Identity(key: string, kind: Kind, hardStopAfter: nat)

  datatype Streak = Streak(fails: nat, kind: Kind)

  type FailureLedger = seq<Entry<string, Streak>>

  /** A settled tool call; `intake` says that the tool was `task_intake`. */
  datatype Call = Call(intake: bool, failed: bool, identities: seq<Identity>)

  datatype Counted = Counted(identity: Identity, fails: nat)

  // ----- what one call does to a ledger -----

  /** A success cannot grant access, and only a successful intake repairs a policy boundary. */
  predicate Survives(s: Streak, intake: bool) { s.kind.AccessBoundary? || (s.kind.PolicyBoundary? && !intake) }

  function Cleared(m: FailureLedger, intake: bool): FailureLedger {
    if m == [] then [] else
      var n := |m| - 1;
      Cleared(m[..n], intake) + (if Survives(m[n].value, intake) then [m[n]] else [])
  }

  function FailsOf(o: Option<Streak>): nat { if o.Some? then o.value.fails else 0 }

  function CountOne(m: FailureLedger, id: Identity): FailureLedger {
    Refresh(m, id.key, Streak(FailsOf(Lookup(m, id.key)) + 1, id.kind))
  }

  function CountEach(m: FailureLedger, ids: seq<Identity>): FailureLedger {
    if ids == [] then m else CountOne(CountEach(m, ids[..|ids| - 1]), ids[|ids| - 1])
  }

  function Counts(m: FailureLedger, ids: seq<Identity>): seq<Counted> {
    if ids == [] then [] else
      var n := |ids| - 1;
      Counts(m, ids[..n]) + [Counted(ids[n], FailsOf(Lookup(CountEach(m, ids[..n]), ids[n].key)) + 1)]
  }

  function Record(m: FailureLedger, c: Call): FailureLedger {
    if c.failed then Newest(CountEach(m, c.identities), MAX_IDENTITIES) else Cleared(m, c.intake)
  }

  function FirstStop(counts: seq<Counted>): (r: Option<Counted>)
    ensures r.Some? <==> exists i :: 0 <= i < |counts| && counts[i].fails >= counts[i].identity.hardStopAfter
    ensures r.Some? ==> exists i :: && 0 <= i < |counts| && r.value == counts[i]
                                    && counts[i].fails >= counts[i].identity.hardStopAfter
                                    && forall j :: 0 <= j < i ==> counts[j].fails < counts[j].identity.hardStopAfter
    decreases |counts|
  {
    if counts == [] then None else
      var n := |counts| - 1;
      var r := FirstStop(counts[..n]);
      if r.Some? then
        (assert forall i :: 0 <= i < n ==> counts[..n][i] == counts[i]; r)
      else if counts[n].fails >= counts[n].identity.hardStopAfter then
        (assert forall i :: 0 <= i < n ==> counts[..n][i] == counts[i]; Some(counts[n]))
      else
        (assert forall i :: 0 <= i < n ==> counts[..n][i] == counts[i]; None)
  }

  /** The ledger after a whole sequence of calls. */
  function After(calls: seq<Call>): FailureLedger {
    if calls == [] then [] else Record(After(calls[..|calls| - 1]), calls[|calls| - 1])
  }

  /** The stop verdict on the last call. */
  function Stopped(calls: seq<Call>): Option<Counted>
    requires calls != []
  {
    var n := |calls| - 1;
    if calls[n].failed then FirstStop(Counts(After(calls[..n]), calls[n].identities)) else None
  }

  // ----- the class -----

  method RecordFailures(seen: FailureLedger, c: Call) returns (after: FailureLedger, counts: seq<Counted>)
    ensures after == Record(seen, c)
    ensures counts == if c.failed then Counts(seen, c.identities) else []
  {
    counts := [];
    if !c.failed {
      after := [];
      for i := 0 to |seen|
        invariant after == Cleared(seen[..i], c.intake)
      {
        assert seen[..i + 1][..i] == seen[..i];
        if Survives(seen[i].value, c.intake) { after := after + [seen[i]]; }
      }
      assert seen[..|seen|] == seen;
      return;
    }
    after := seen;
    for i := 0 to |c.identities|
      invariant after == CountEach(seen, c.identities[..i])
      invariant counts == Counts(seen, c.identities[..i])
    {
      var id := c.identities[i];
      assert c.identities[..i + 1][..i] == c.identities[..i];
      var fails := FailsOf(Lookup(after, id.key)) + 1;
      after := Refresh(after, id.key, Streak(fails, id.kind));
      counts := counts + [Counted(id, fails)];
    }
    assert c.identities[..|c.identities|] == c.identities;
    after := DropOldest(after, MAX_IDENTITIES);
  }

  class RunRepeatGuard {
    var warningSeen: FailureLedger
    var runSeen: FailureLedger
    ghost var calls: seq<Call>

    ghost predicate Valid()
      reads this
    {
      runSeen == After(calls)
    }

    /** A new run starts its own stop history and inherits the warnings of its scope. */
    constructor (scopeSeen: FailureLedger)
      ensures Valid() && warningSeen == scopeSeen && runSeen == [] && calls == []
    {
      warningSeen, runSeen, calls := scopeSeen, [], [];
    }

    method RecordCall(c: Call) returns (warnings: seq<Counted>, stopped: Option<Counted>)
      requires Valid()
      modifies this
      ensures Valid() && calls == old(calls) + [c]
      ensures warningSeen == Record(old(warningSeen), c) && runSeen == Record(old(runSeen), c)
      ensures warnings == if c.failed then Counts(old(warningSeen), c.identities) else []
      ensures stopped == Stopped(calls)
    {
      warningSeen, warnings := RecordFailures(warningSeen, c);
      var counts;
      runSeen, counts := RecordFailures(runSeen, c);
      stopped := None;
      var i := 0;
      while i < |counts| && stopped.None?
        invariant 0 <= i <= |counts|
        invariant stopped == FirstStop(counts[..i])
      {
        assert counts[..i + 1][..i] == counts[..i];
        if counts[i].fails >= counts[i].identity.hardStopAfter { stopped := Some(counts[i]); }
        i := i + 1;
      }
      FirstStopPrefix(counts, i);
      calls := calls + [c];
      assert calls[..|calls| - 1] == old(calls);
    }
  }

  lemma {:induction false} FirstStopPrefix(counts: seq<Counted>, i: nat)
    requires i <= |counts| && (FirstStop(counts[..i]).Some? || i == |counts|)
    ensures FirstStop(counts) == FirstStop(counts[..i])
    decreases |counts|
  {
    if i == |counts| {
      assert counts[..i] == counts;
    } else {
      var n := |counts| - 1;
      assert counts[..n][..i] == counts[..i];
      FirstStopPrefix(counts[..n], i);
    }
  }
}
