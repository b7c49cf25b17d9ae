/**
 The progress watchdog: one ledger fed once per round, which stops a run that makes no durable progress.
 Digests, normalised tool names and shingles are opaque numbers.
 */
module Watchdog {

  import opened Common
  import opened OrderedMap

  const SIMILAR: real := 0.8
  const REPEATED_CALL_STOP: nat := 4
  const SIMILAR_STOP_ROUNDS: nat := 6
  const NUDGE_ROUNDS: nat := 5
  const STOP_ROUNDS: nat := 8
  const TOKEN_LIMIT: nat := 200_000
  const TOKEN_WARNING: nat := 160_000
  const TOKEN_STALE_ROUNDS: nat := 2
  const MAX_OBSERVATIONS: nat := 128
  const MAX_CALL_IDENTITIES: nat := 128

  datatype Fingerprint = Fingerprint(exact: nat, length: nat, shingles: set<nat>, metric: Option<nat>)

  datatype Observation = Observation(name: nat, identity: nat, mark: Fingerprint)

  datatype Stored = Stored(name: nat, mark: Fingerprint)

  datatype Streak = Streak(name: nat, count: nat, round: nat, mark: Fingerprint)

  datatype Todo = Todo(evidence: nat, done: bool)

  datatype Usage = Usage(input: int, output: int)

  datatype Round = Round(
    observations: seq<Observation>, verifiedChanges: seq<string>, toolCalls: int, substantive: bool,
    userIntervened: bool, checkpoint: set<nat>, todos: seq<Todo>, usage: Usage)

  datatype Trigger = RepeatedCall | SimilarEvidence | TokenBudget | NoCheckpoint

  datatype Decision = Decision(
    trigger: Option<Trigger>, warn: bool, toolCalls: nat, unattendedRounds: nat, similarRounds: nat, staleRounds: nat,
    similarity: real, repeatedTool: Option<nat>, repeatedCount: nat, tokens: nat, todoUnchanged: nat)

  predicate Stops(d: Decision) { d.trigger.Some? }

  // ----- similarity -----

  function Similarity(l: Fingerprint, r: Fingerprint): (q: real)
    ensures 0.0 <= q <= 1.0
  {
    if l.exact == r.exact then 1.0
    else if (l.metric.Some? || r.metric.Some?) && l.metric != r.metric then 0.0
    else if l.length < 24 || r.length < 24 then 0.0
    else if l.shingles == {} || r.shingles == {} then 0.0
    else
      SharedAtMost(l.shingles, r.shingles);
      Ratio(|l.shingles * r.shingles|, |l.shingles| + |r.shingles|)
  }

  function Ratio(shared: nat, total: nat): (q: real)
    requires 2 * shared <= total && 0 < total
    ensures 0.0 <= q <= 1.0
  {
    (2 * shared) as real / total as real
  }

  lemma {:induction false} SharedAtMost(a: set<nat>, b: set<nat>)
    ensures |a * b| <= |a| && |a * b| <= |b|
  {
    assert a == (a * b) + (a - b) && b == (a * b) + (b - a);
  }

  lemma {:induction false} SimilarityIsSymmetric(l: Fingerprint, r: Fingerprint)
    ensures Similarity(l, r) == Similarity(r, l)
  {
    assert l.shingles * r.shingles == r.shingles * l.shingles;
  }

  /** Counts the shared shingles by walking the smaller set. */
  method CompareFingerprints(l: Fingerprint, r: Fingerprint) returns (q: real)
    ensures q == Similarity(l, r)
  {
    if l.exact == r.exact { return 1.0; }
    if (l.metric.Some? || r.metric.Some?) && l.metric != r.metric { return 0.0; }
    if l.length < 24 || r.length < 24 { return 0.0; }
    if |l.shingles| == 0 || |r.shingles| == 0 { return 0.0; }
    var smaller, larger := l.shingles, r.shingles;
    if |l.shingles| > |r.shingles| { smaller, larger := r.shingles, l.shingles; }
    var shared := CountShared(smaller, larger);
    assert smaller * larger == l.shingles * r.shingles;
    SharedAtMost(l.shingles, r.shingles);
    return Ratio(shared, |l.shingles| + |r.shingles|);
  }

  method CountShared(smaller: set<nat>, larger: set<nat>) returns (shared: nat)
    ensures shared == |smaller * larger|
  {
    shared := 0;
    var rest := smaller;
    while rest != {}
      invariant rest <= smaller
      invariant shared == |(smaller - rest) * larger|
      decreases |rest|
    {
      var item :| item in rest;
      ghost var before := (smaller - rest) * larger;
      rest := rest - {item};
      if item in larger {
        assert (smaller - rest) * larger == before + {item};
        shared := shared + 1;
      } else {
        assert (smaller - rest) * larger == before;
      }
    }
    assert smaller - rest == smaller;
  }

  // ----- one round -----

  datatype Ledger = Ledger(
    unattended: bool, baseline: Usage, observations: seq<Stored>, streaks: seq<Entry<nat, Streak>>,
    checkpoint: set<nat>, todos: set<nat>, verified: set<string>,
    toolCalls: nat, unattendedRounds: nat, similarRounds: nat, staleRounds: nat, todoUnchanged: nat, tracked: nat)

  predicate IsDigest(s: string) {
    |s| == 64 && forall i :: 0 <= i < |s| ==> 'a' <= s[i] <= 'f' || '0' <= s[i] <= '9'
  }

  function Digests(changes: seq<string>): set<string> { set c | c in changes && IsDigest(c) }

  function Completed(todos: seq<Todo>): set<nat> { set t | t in todos && t.done :: t.evidence }

  predicate CheckpointAdvanced(l: Ledger, r: Round) { !(r.checkpoint <= l.checkpoint) }

  predicate TodoAdvanced(l: Ledger, r: Round) { !(Completed(r.todos) <= l.todos) }

  predicate ChangeAdvanced(l: Ledger, r: Round) { !(Digests(r.verifiedChanges) <= l.verified) }

  predicate Durable(l: Ledger, r: Round) { CheckpointAdvanced(l, r) || TodoAdvanced(l, r) || ChangeAdvanced(l, r) }

  function Best(stored: seq<Stored>, name: nat, mark: Fingerprint): real {
    if stored == [] then 0.0 else
      var n := |stored| - 1;
      var best := Best(stored[..n], name, mark);
      if stored[n].name != name then best else RealMax(best, Similarity(mark, stored[n].mark))
  }

  function RealMax(a: real, b: real): real { if a >= b then a else b }

  function NextCount(streaks: seq<Entry<nat, Streak>>, tracked: nat, o: Observation): nat {
    var p := Lookup(streaks, o.identity);
    if p.Some? && tracked - p.value.round <= STOP_ROUNDS && Similarity(o.mark, p.value.mark) >= SIMILAR
    then p.value.count + 1
    else 1
  }

  /** What the loop over a round's observations has found so far. */
  datatype Scan = Scan(
    observations: seq<Stored>, streaks: seq<Entry<nat, Streak>>,
    similarity: real, allStale: bool, highest: nat, tool: Option<nat>)

  function Observe(s: Scan, tracked: nat, o: Observation): Scan {
    var best := Best(s.observations, o.name, o.mark);
    var count := NextCount(s.streaks, tracked, o);
    Scan(s.observations + [Stored(o.name, o.mark)],
         Refresh(s.streaks, o.identity, Streak(o.name, count, tracked, o.mark)),
         RealMax(s.similarity, best),
         s.allStale && best >= SIMILAR,
         if count > s.highest then count else s.highest,
         if count > s.highest then Some(o.name) else s.tool)
  }

  function ScanAll(l: Ledger, tracked: nat, obs: seq<Observation>): Scan {
    if obs == [] then Scan(l.observations, l.streaks, 0.0, true, 0, None)
    else Observe(ScanAll(l, tracked, obs[..|obs| - 1]), tracked, obs[|obs| - 1])
  }

  function Tracked(l: Ledger, r: Round): nat { if r.substantive then l.tracked + 1 else l.tracked }

  function NonNegative(x: int): nat { if x > 0 then x else 0 }

  function Tokens(l: Ledger, r: Round): nat {
    NonNegative(NonNegative(r.usage.input) - l.baseline.input)
        + NonNegative(NonNegative(r.usage.output) - l.baseline.output)
  }

  function DoneCount(todos: seq<Todo>): nat {
    if todos == [] then 0 else DoneCount(todos[..|todos| - 1]) + (if todos[|todos| - 1].done then 1 else 0)
  }

  /** The ledger with the round counted and its durable evidence taken in. */
  function Learned(l: Ledger, r: Round): Ledger {
    l.(toolCalls := l.toolCalls + NonNegative(r.toolCalls),
       tracked := Tracked(l, r),
       unattendedRounds :=
         if r.userIntervened then 0 else if r.substantive then l.unattendedRounds + 1 else l.unattendedRounds,
       checkpoint := l.checkpoint + r.checkpoint,
       todos := l.todos + Completed(r.todos),
       verified := l.verified + Digests(r.verifiedChanges),
       todoUnchanged :=
         if TodoAdvanced(l, r) then 0
         else if r.substantive && |r.todos| > 0 then l.todoUnchanged + 1
         else l.todoUnchanged,
       staleRounds := if !r.substantive then l.staleRounds else if Durable(l, r) then 0 else l.staleRounds + 1)
  }

  /** The ledger after the round. */
  function Next(l: Ledger, r: Round): Ledger {
    var scan := ScanAll(l, Tracked(l, r), r.observations);
    Learned(l, r).(
      observations := Newest(scan.observations, MAX_OBSERVATIONS),
      streaks := if Durable(l, r) then [] else Newest(scan.streaks, MAX_CALL_IDENTITIES),
      similarRounds :=
        if Durable(l, r) then 0
        else if !r.substantive then l.similarRounds
        else if scan.allStale && r.observations != [] then l.similarRounds + 1
        else 0)
  }

  function TriggerOf(n: Ledger, highest: nat, tokens: nat): Option<Trigger> {
    if highest >= REPEATED_CALL_STOP then Some(RepeatedCall)
    else if n.similarRounds >= SIMILAR_STOP_ROUNDS then Some(SimilarEvidence)
    else if tokens >= TOKEN_LIMIT && n.staleRounds >= TOKEN_STALE_ROUNDS then Some(TokenBudget)
    else if n.unattended && n.unattendedRounds >= STOP_ROUNDS && n.staleRounds >= STOP_ROUNDS then Some(NoCheckpoint)
    else None
  }

  function Judge(n: Ledger, r: Round, similarity: real, highest: nat, tool: Option<nat>): Decision {
    var trigger := TriggerOf(n, highest, Tokens(n, r));
    var warn :=
      || trigger.Some? || highest >= 2 || n.similarRounds >= 2
      || ((n.unattended || |r.todos| > DoneCount(r.todos)) && n.unattendedRounds >= NUDGE_ROUNDS
          && n.staleRounds >= NUDGE_ROUNDS)
      || (Tokens(n, r) >= TOKEN_WARNING && n.staleRounds >= 2);
    Decision(trigger, warn, n.toolCalls, n.unattendedRounds, n.similarRounds, n.staleRounds,
             similarity, tool, highest, Tokens(n, r), n.todoUnchanged)
  }

  /** The verdict on the round. */
  function Decide(l: Ledger, r: Round): Decision {
    var scan := ScanAll(l, Tracked(l, r), r.observations);
    if Durable(l, r) then Judge(Next(l, r), r, scan.similarity, 0, None)
    else Judge(Next(l, r), r, scan.similarity, scan.highest, scan.tool)
  }

  function Fresh(unattended: bool, checkpoint: set<nat>, todos: seq<Todo>, usage: Usage): Ledger {
    Ledger(unattended, Usage(NonNegative(usage.input), NonNegative(usage.output)), [], [],
           checkpoint, Completed(todos), {}, 0, 0, 0, 0, 0, 0)
  }

  // ----- the class -----

  class AgentProgressWatchdog {
    const unattended: bool
    const baseline: Usage
    var observations: seq<Stored>
    var streaks: seq<Entry<nat, Streak>>
    var checkpoint: set<nat>
    var todos: set<nat>
    var verified: set<string>
    var toolCalls: nat
    var unattendedRounds: nat
    var similarRounds: nat
    var staleRounds: nat
    var todoUnchanged: nat
    var tracked: nat

    function View(): Ledger
      reads this
    {
      Ledger(unattended, baseline, observations, streaks, checkpoint, todos, verified,
             toolCalls, unattendedRounds, similarRounds, staleRounds, todoUnchanged, tracked)
    }

    constructor (unattended: bool, checkpoint: set<nat>, todos: seq<Todo>, usage: Usage)
      ensures View() == Fresh(unattended, checkpoint, todos, usage)
    {
      this.unattended := unattended;
      this.baseline := Usage(NonNegative(usage.input), NonNegative(usage.output));
      this.observations, this.streaks := [], [];
      this.checkpoint, this.todos, this.verified := checkpoint, Completed(todos), {};
      this.toolCalls, this.unattendedRounds, this.similarRounds := 0, 0, 0;
      this.staleRounds, this.todoUnchanged, this.tracked := 0, 0, 0;
    }

    method LearnChanges(changes: seq<string>) returns (advanced: bool)
      modifies this`verified
      ensures verified == old(verified) + Digests(changes)
      ensures advanced <==> !(Digests(changes) <= old(verified))
    {
      advanced := false;
      for i := 0 to |changes|
        invariant advanced <==> !(Digests(changes[..i]) <= old(verified))
        invariant verified == old(verified)
      {
        assert changes[..i + 1] == changes[..i] + [changes[i]];
        if IsDigest(changes[i]) && changes[i] !in verified { advanced := true; }
        assert Digests(changes[..i + 1]) == Digests(changes[..i]) + (if IsDigest(changes[i]) then {changes[i]} else {});
      }
      assert changes[..|changes|] == changes;
      for i := 0 to |changes|
        invariant verified == old(verified) + Digests(changes[..i])
      {
        assert changes[..i + 1] == changes[..i] + [changes[i]];
        if IsDigest(changes[i]) { verified := verified + {changes[i]}; }
        assert Digests(changes[..i + 1]) == Digests(changes[..i]) + (if IsDigest(changes[i]) then {changes[i]} else {});
      }
    }

    method BestMatch(name: nat, mark: Fingerprint) returns (best: real)
      ensures best == Best(observations, name, mark)
    {
      best := 0.0;
      for i := 0 to |observations|
        invariant best == Best(observations[..i], name, mark)
      {
        assert observations[..i + 1][..i] == observations[..i];
        if observations[i].name != name { continue; }
        var q := CompareFingerprints(mark, observations[i].mark);
        best := RealMax(best, q);
      }
      assert observations[..|observations|] == observations;
    }

    method CountCall(o: Observation) returns (repeated: nat)
      modifies this`streaks
      ensures repeated == NextCount(old(streaks), tracked, o)
      ensures streaks == Refresh(old(streaks), o.identity, Streak(o.name, repeated, tracked, o.mark))
    {
      var previous := Lookup(streaks, o.identity);
      repeated := 1;
      if previous.Some? && tracked - previous.value.round <= STOP_ROUNDS {
        var q := CompareFingerprints(o.mark, previous.value.mark);
        if q >= SIMILAR { repeated := previous.value.count + 1; }
      }
      streaks := Refresh(streaks, o.identity, Streak(o.name, repeated, tracked, o.mark));
    }

    method ScanRound(obs: seq<Observation>) returns (similarity: real, allStale: bool, highest: nat, tool: Option<nat>)
      modifies this`observations, this`streaks
      ensures var s := ScanAll(old(View()), tracked, obs);
              && observations == Newest(s.observations, MAX_OBSERVATIONS)
              && streaks == Newest(s.streaks, MAX_CALL_IDENTITIES)
              && similarity == s.similarity && highest == s.highest && tool == s.tool
              && allStale == (s.allStale && obs != [])
    {
      similarity, allStale, highest, tool := 0.0, |obs| > 0, 0, None;
      for i := 0 to |obs|
        invariant ScanAll(old(View()), tracked, obs[..i])
               == Scan(observations, streaks, similarity, if obs == [] then true else allStale, highest, tool)
        invariant obs == [] ==> !allStale
      {
        var o := obs[i];
        assert obs[..i + 1][..i] == obs[..i];
        var best := BestMatch(o.name, o.mark);
        similarity := RealMax(similarity, best);
        if best < SIMILAR { allStale := false; }
        var repeated := CountCall(o);
        if repeated > highest { highest, tool := repeated, Some(o.name); }
        observations := observations + [Stored(o.name, o.mark)];
      }
      assert obs[..|obs|] == obs;
      observations := DropOldest(observations, MAX_OBSERVATIONS);
      streaks := DropOldest(streaks, MAX_CALL_IDENTITIES);
    }

    method RecordRound(r: Round) returns (d: Decision)
      modifies this
      ensures View() == Next(old(View()), r)
      ensures d == Decide(old(View()), r)
    {
      ghost var l := View();
      var durable := Learn(r);
      ScanDependsOn(l, View(), tracked, r.observations);
      var similarity, allStale, highest, tool := ScanRound(r.observations);
      if durable {
        similarRounds, streaks, highest, tool := 0, [], 0, None;
      } else if r.substantive {
        similarRounds := if allStale then similarRounds + 1 else 0;
      }
      assert View() == Next(l, r);
      d := Judge(View(), r, similarity, highest, tool);
    }

    method TakeEvidence(r: Round) returns (todoAdvanced: bool, durable: bool)
      modifies this`checkpoint, this`todos, this`verified
      ensures checkpoint == old(checkpoint) + r.checkpoint && todos == old(todos) + Completed(r.todos)
      ensures verified == old(verified) + Digests(r.verifiedChanges)
      ensures todoAdvanced == TodoAdvanced(old(View()), r) && durable == Durable(old(View()), r)
    {
      var checkpointAdvanced := !(r.checkpoint <= checkpoint);
      checkpoint := checkpoint + r.checkpoint;
      todoAdvanced := !(Completed(r.todos) <= todos);
      todos := todos + Completed(r.todos);
      var changeAdvanced := LearnChanges(r.verifiedChanges);
      durable := checkpointAdvanced || todoAdvanced || changeAdvanced;
    }

    /** Counts the round and takes in its durable evidence. */
    method Learn(r: Round) returns (durable: bool)
      modifies this
      ensures durable == Durable(old(View()), r)
      ensures View() == Learned(old(View()), r)
    {
      toolCalls := toolCalls + NonNegative(r.toolCalls);
      if r.substantive { tracked := tracked + 1; }
      if r.userIntervened { unattendedRounds := 0; } else if r.substantive { unattendedRounds := unattendedRounds + 1; }
      var todoAdvanced;
      todoAdvanced, durable := TakeEvidence(r);
      if r.substantive && |r.todos| > 0 {
        todoUnchanged := if todoAdvanced then 0 else todoUnchanged + 1;
      } else if todoAdvanced {
        todoUnchanged := 0;
      }
      if r.substantive { staleRounds := if durable then 0 else staleRounds + 1; }
    }
  }

  lemma {:induction false} ScanDependsOn(l: Ledger, m: Ledger, tracked: nat, obs: seq<Observation>)
    requires l.observations == m.observations && l.streaks == m.streaks
    ensures ScanAll(l, tracked, obs) == ScanAll(m, tracked, obs)
  {
    if obs != [] { ScanDependsOn(l, m, tracked, obs[..|obs| - 1]); }
  }
}
