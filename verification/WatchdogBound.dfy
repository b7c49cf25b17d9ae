/** How long a run can go on: the counting arguments over every sequence of rounds. */
module WatchdogBound {

  import opened Common
  import opened OrderedMap
  import opened Watchdog

  function After(l: Ledger, rounds: seq<Round>): Ledger {
    if rounds == [] then l else Next(After(l, rounds[..|rounds| - 1]), rounds[|rounds| - 1])
  }

  /** The verdict given on round `k`. */
  function Verdict(l: Ledger, rounds: seq<Round>, k: nat): Decision
    requires k < |rounds|
  {
    Decide(After(l, rounds[..k]), rounds[k])
  }

  predicate NeverStopped(l: Ledger, rounds: seq<Round>) {
    forall k: nat :: k < |rounds| ==> !Stops(Verdict(l, rounds, k))
  }

  predicate NoIntervention(rounds: seq<Round>) { forall k :: 0 <= k < |rounds| ==> !rounds[k].userIntervened }

  function SubstantiveCount(rounds: seq<Round>): nat {
    if rounds == [] then 0 else
      SubstantiveCount(rounds[..|rounds| - 1]) + (if rounds[|rounds| - 1].substantive then 1 else 0)
  }

  // ----- the evidence a run produced, independent of the ledger -----

  datatype Evidence = Checkpoint(item: nat) | DoneTodo(item: nat) | Change(digest: string)

  function Tagged(checkpoint: set<nat>, todos: set<nat>, changes: set<string>): set<Evidence> {
    (set c | c in checkpoint :: Checkpoint(c)) + (set c | c in todos :: DoneTodo(c))
        + (set c | c in changes :: Change(c))
  }

  function RoundEvidence(r: Round): set<Evidence> {
    Tagged(r.checkpoint, Completed(r.todos), Digests(r.verifiedChanges))
  }

  function RunEvidence(rounds: seq<Round>): set<Evidence> {
    if rounds == [] then {} else RunEvidence(rounds[..|rounds| - 1]) + RoundEvidence(rounds[|rounds| - 1])
  }

  function Known(l: Ledger): set<Evidence> { Tagged(l.checkpoint, l.todos, l.verified) }

  lemma {:induction false} TaggedUnion(a: set<nat>, b: set<nat>, c: set<string>, x: set<nat>, y: set<nat>,
      z: set<string>)
    ensures Tagged(a + x, b + y, c + z) == Tagged(a, b, c) + Tagged(x, y, z)
  {
  }

  lemma {:induction false} TaggedSubset(a: set<nat>, b: set<nat>, c: set<string>, x: set<nat>, y: set<nat>,
      z: set<string>)
    ensures Tagged(a, b, c) <= Tagged(x, y, z) <==> a <= x && b <= y && c <= z
  {
    if Tagged(a, b, c) <= Tagged(x, y, z) {
      forall i | i in a ensures i in x { assert Checkpoint(i) in Tagged(a, b, c); }
      forall i | i in b ensures i in y { assert DoneTodo(i) in Tagged(a, b, c); }
      forall i | i in c ensures i in z { assert Change(i) in Tagged(a, b, c); }
    }
  }

  lemma {:induction false} NextKnows(l: Ledger, r: Round)
    ensures Known(Next(l, r)) == Known(l) + RoundEvidence(r)
    ensures Durable(l, r) <==> !(RoundEvidence(r) <= Known(l))
  {
    TaggedUnion(l.checkpoint, l.todos, l.verified, r.checkpoint, Completed(r.todos), Digests(r.verifiedChanges));
    TaggedSubset(r.checkpoint, Completed(r.todos), Digests(r.verifiedChanges), l.checkpoint, l.todos, l.verified);
  }

  lemma {:induction false} RunKnows(l: Ledger, rounds: seq<Round>)
    ensures Known(After(l, rounds)) == Known(l) + RunEvidence(rounds)
  {
    if rounds != [] {
      var n := |rounds| - 1;
      RunKnows(l, rounds[..n]);
      NextKnows(After(l, rounds[..n]), rounds[n]);
    }
  }

  // ----- the bound -----

  predicate IsFresh(l: Ledger) {
    l.unattendedRounds == 0 && l.staleRounds == 0 && l.similarRounds == 0 && l.streaks == []
  }

  lemma {:induction false} NeverStoppedPrefix(l: Ledger, rounds: seq<Round>, n: nat)
    requires n <= |rounds| && NeverStopped(l, rounds)
    ensures NeverStopped(l, rounds[..n])
  {
    forall k: nat | k < n ensures !Stops(Verdict(l, rounds[..n], k)) {
      assert rounds[..n][..k] == rounds[..k];
      assert !Stops(Verdict(l, rounds, k));
    }
  }

  lemma {:induction false} SurvivingStep(l: Ledger, r: Round)
    requires l.unattended && !r.userIntervened && !Stops(Decide(l, r)) && l.staleRounds <= l.unattendedRounds
    ensures var n := Next(l, r);
            && n.unattended
            && n.unattendedRounds == l.unattendedRounds + (if r.substantive then 1 else 0)
            && n.staleRounds <= n.unattendedRounds && n.staleRounds < STOP_ROUNDS
            && n.staleRounds == if !r.substantive then l.staleRounds else if Durable(l, r) then 0 else l.staleRounds + 1
  {
  }

  lemma {:induction false} NewItemsGrow(base: set<Evidence>, known: set<Evidence>, more: set<Evidence>)
    ensures |known - base| <= |known + more - base|
    ensures base <= known && !(more <= known) ==> |known - base| + 1 <= |known + more - base|
  {
    assert known + more - base == (known - base) + ((more - known) - base);
    if base <= known && !(more <= known) {
      var item :| item in more && item !in known;
      assert item in (more - known) - base;
      assert |(more - known) - base| >= 1;
    }
  }

  lemma {:induction false} Counting(l: Ledger, rounds: seq<Round>)
    requires IsFresh(l) && l.unattended && NoIntervention(rounds) && NeverStopped(l, rounds)
    ensures var n := After(l, rounds);
            && n.unattended
            && n.unattendedRounds == SubstantiveCount(rounds)
            && n.staleRounds <= n.unattendedRounds && n.staleRounds < STOP_ROUNDS
            && SubstantiveCount(rounds) <= n.staleRounds + 8 * |Known(n) - Known(l)|
  {
    if rounds != [] {
      var k: nat := |rounds| - 1;
      var m, r := After(l, rounds[..k]), rounds[k];
      NeverStoppedPrefix(l, rounds, k);
      Counting(l, rounds[..k]);
      assert !Stops(Verdict(l, rounds, k));
      SurvivingStep(m, r);
      NextKnows(m, r);
      RunKnows(l, rounds[..k]);
      NewItemsGrow(Known(l), Known(m), RoundEvidence(r));
    }
  }

  /**
   An unattended run that nobody steers and nothing stops is short: eight rounds per new item of durable
   evidence, and seven.
   */
  lemma {:induction false} UnattendedRunIsBounded(l: Ledger, rounds: seq<Round>)
    requires IsFresh(l) && l.unattended && NoIntervention(rounds) && NeverStopped(l, rounds)
    ensures SubstantiveCount(rounds) <= 7 + 8 * |RunEvidence(rounds) - Known(l)|
  {
    Counting(l, rounds);
    RunKnows(l, rounds);
    assert Known(After(l, rounds)) - Known(l) == RunEvidence(rounds) - Known(l);
  }

  // ----- durable progress and stop verdicts -----

  lemma {:induction false} SubstantiveProgressNeverStops(l: Ledger, r: Round)
    requires r.substantive && Durable(l, r)
    ensures !Stops(Decide(l, r))
  {
  }

  /**
   Durable evidence in a round that is not substantive leaves the stale count alone, so the token budget
   can still stop it.
   */
  lemma {:induction false} IdleProgressStopsIff(l: Ledger, r: Round)
    requires !r.substantive && Durable(l, r)
    ensures Stops(Decide(l, r)) <==>
            || (Tokens(l, r) >= TOKEN_LIMIT && l.staleRounds >= TOKEN_STALE_ROUNDS)
            || (l.unattended && !r.userIntervened && l.unattendedRounds >= STOP_ROUNDS && l.staleRounds >= STOP_ROUNDS)
  {
  }

  function Quiet(substantive: bool, checkpoint: set<nat>, tokens: int): Round {
    Round([], [], 0, substantive, false, checkpoint, [], Usage(tokens, 0))
  }

  lemma {:induction false} QuietStep(l: Ledger, r: Round)
    requires r == Quiet(r.substantive, r.checkpoint, r.usage.input)
    ensures !Durable(l, r) <==> r.checkpoint <= l.checkpoint
    ensures Next(l, r).staleRounds ==
            if !r.substantive then l.staleRounds else if Durable(l, r) then 0 else l.staleRounds + 1
    ensures Next(l, r).unattendedRounds == if r.substantive then l.unattendedRounds + 1 else l.unattendedRounds
    ensures Next(l, r).checkpoint == l.checkpoint + r.checkpoint && Next(l, r).unattended == l.unattended
    ensures Next(l, r).baseline == l.baseline
    ensures Next(l, r).similarRounds == if r.substantive || Durable(l, r) then 0 else l.similarRounds
    ensures Decide(l, r).trigger == TriggerOf(Next(l, r), 0, Tokens(l, r))
  {
    assert Completed([]) == {} && Digests([]) == {};
  }

  /** Two idle rounds pass; a third, not substantive, brings a new fact and is stopped by the token budget. */
  lemma {:induction false} NewFactCanBeStopped(fact: nat)
    ensures var l := Fresh(false, {}, [], Usage(0, 0));
            var idle, last := Quiet(true, {}, 0), Quiet(false, {fact}, 200_000);
            var m := Next(Next(l, idle), idle);
            && !Stops(Decide(l, idle)) && !Stops(Decide(Next(l, idle), idle))
            && Durable(m, last) && Decide(m, last).trigger == Some(TokenBudget)
  {
    var l := Fresh(false, {}, [], Usage(0, 0));
    StillIdling(l, 0);
    StillIdling(Next(l, Quiet(true, {}, 0)), 1);
    FactOverBudget(Next(Next(l, Quiet(true, {}, 0)), Quiet(true, {}, 0)), fact);
  }

  predicate Idling(l: Ledger, stale: nat) {
    !l.unattended && l.staleRounds == stale && l.similarRounds == 0 && l.checkpoint == {} && l.baseline == Usage(0, 0)
  }

  lemma {:induction false} StillIdling(l: Ledger, stale: nat)
    requires Idling(l, stale)
    ensures !Stops(Decide(l, Quiet(true, {}, 0))) && Idling(Next(l, Quiet(true, {}, 0)), stale + 1)
  {
    QuietStep(l, Quiet(true, {}, 0));
  }

  lemma {:induction false} FactOverBudget(l: Ledger, fact: nat)
    requires Idling(l, 2)
    ensures Durable(l, Quiet(false, {fact}, 200_000))
    ensures Decide(l, Quiet(false, {fact}, 200_000)).trigger == Some(TokenBudget)
  {
    assert fact in {fact};
    QuietStep(l, Quiet(false, {fact}, 200_000));
  }

  // ----- the bound is met exactly -----

  lemma {:induction false} AppendRound(l: Ledger, rounds: seq<Round>, r: Round)
    ensures After(l, rounds + [r]) == Next(After(l, rounds), r)
    ensures NeverStopped(l, rounds) && !Stops(Decide(After(l, rounds), r)) ==> NeverStopped(l, rounds + [r])
    ensures RunEvidence(rounds + [r]) == RunEvidence(rounds) + RoundEvidence(r)
    ensures SubstantiveCount(rounds + [r]) == SubstantiveCount(rounds) + (if r.substantive then 1 else 0)
    ensures NoIntervention(rounds) && !r.userIntervened ==> NoIntervention(rounds + [r])
  {
    var all := rounds + [r];
    assert all[..|rounds|] == rounds;
    if NeverStopped(l, rounds) && !Stops(Decide(After(l, rounds), r)) {
      forall k: nat | k < |all| ensures !Stops(Verdict(l, all, k)) {
        if k < |rounds| { assert all[..k] == rounds[..k]; assert !Stops(Verdict(l, rounds, k)); }
      }
    }
  }

  ghost predicate Waiting(l: Ledger, stale: nat, facts: nat) {
    && l.unattended && l.staleRounds == stale && l.similarRounds == 0 && l.baseline == Usage(0, 0)
    && l.checkpoint == RangeTo(facts)
  }

  lemma {:induction false} IdleStep(l: Ledger, stale: nat, facts: nat)
    requires Waiting(l, stale, facts) && stale < 7
    ensures !Stops(Decide(l, Quiet(true, {}, 0))) && Waiting(Next(l, Quiet(true, {}, 0)), stale + 1, facts)
  {
    QuietStep(l, Quiet(true, {}, 0));
  }

  lemma {:induction false} FactStep(l: Ledger, stale: nat, facts: nat)
    requires Waiting(l, stale, facts)
    ensures !Stops(Decide(l, Quiet(true, {facts}, 0))) && Waiting(Next(l, Quiet(true, {facts}, 0)), 0, facts + 1)
  {
    assert facts in {facts};
    QuietStep(l, Quiet(true, {facts}, 0));
  }

  /** A quiet run under way: never stopped, `stale` rounds since its last fact, `facts` facts in all. */
  ghost predicate Underway(rounds: seq<Round>, stale: nat, facts: nat) {
    var l := Fresh(true, {}, [], Usage(0, 0));
    && NeverStopped(l, rounds) && NoIntervention(rounds)
    && Waiting(After(l, rounds), stale, facts)
    && RunEvidence(rounds) == Tagged(RangeTo(facts), {}, {})
  }

  function RangeTo(n: nat): (s: set<nat>)
    ensures forall i: nat :: i in s <==> i < n
  {
    if n == 0 then {} else RangeTo(n - 1) + {n - 1}
  }

  lemma {:induction false} OneMoreFact(n: nat)
    ensures Tagged(RangeTo(n + 1), {}, {}) == Tagged(RangeTo(n), {}, {}) + {Checkpoint(n)}
    ensures Checkpoint(n) !in Tagged(RangeTo(n), {}, {})
  {
  }

  lemma {:induction false} QuietEvidence(checkpoint: set<nat>)
    ensures RoundEvidence(Quiet(true, checkpoint, 0)) == set c | c in checkpoint :: Checkpoint(c)
  {
  }

  lemma {:induction false} NoEvidence()
    ensures Tagged({}, {}, {}) == {}
  {
  }

  lemma {:induction false} CheckpointsOnly(n: nat)
    ensures |Tagged(RangeTo(n), {}, {})| == n
  {
    if n == 0 {
      assert RangeTo(0) == {};
      NoEvidence();
    } else {
      CheckpointsOnly(n - 1);
      OneMoreFact(n - 1);
    }
  }

  lemma {:induction false} IdleRound(rounds: seq<Round>, stale: nat, facts: nat)
    requires Underway(rounds, stale, facts) && stale < 7
    ensures Underway(rounds + [Quiet(true, {}, 0)], stale + 1, facts)
  {
    var l, r := Fresh(true, {}, [], Usage(0, 0)), Quiet(true, {}, 0);
    IdleStep(After(l, rounds), stale, facts);
    AppendRound(l, rounds, r);
    assert RoundEvidence(r) == {} by { QuietEvidence({}); }
  }

  lemma {:induction false} FactRound(rounds: seq<Round>, stale: nat, facts: nat)
    requires Underway(rounds, stale, facts)
    ensures Underway(rounds + [Quiet(true, {facts}, 0)], 0, facts + 1)
  {
    var l, r := Fresh(true, {}, [], Usage(0, 0)), Quiet(true, {facts}, 0);
    FactStep(After(l, rounds), stale, facts);
    AppendRound(l, rounds, r);
    assert RoundEvidence(r) == {Checkpoint(facts)} by { QuietEvidence({facts}); }
    OneMoreFact(facts);
  }

  lemma {:induction false} SevenIdle(rounds: seq<Round>, stale: nat, facts: nat) returns (more: seq<Round>)
    requires Underway(rounds, stale, facts) && stale <= 7
    ensures Underway(more, 7, facts) && SubstantiveCount(more) == SubstantiveCount(rounds) + 7 - stale
    decreases 7 - stale
  {
    if stale == 7 { return rounds; }
    IdleRound(rounds, stale, facts);
    AppendRound(Fresh(true, {}, [], Usage(0, 0)), rounds, Quiet(true, {}, 0));
    more := SevenIdle(rounds + [Quiet(true, {}, 0)], stale + 1, facts);
  }

  lemma {:induction false} NothingYet()
    ensures Underway([], 0, 0)
  {
    assert Completed([]) == {} && Tagged({}, {}, {}) == {};
  }

  lemma {:induction false} EightMore(rounds: seq<Round>, facts: nat) returns (more: seq<Round>)
    requires Underway(rounds, 7, facts)
    ensures Underway(more, 7, facts + 1) && SubstantiveCount(more) == SubstantiveCount(rounds) + 8
  {
    FactRound(rounds, 7, facts);
    AppendRound(Fresh(true, {}, [], Usage(0, 0)), rounds, Quiet(true, {facts}, 0));
    more := SevenIdle(rounds + [Quiet(true, {facts}, 0)], 0, facts + 1);
  }

  lemma {:induction false} LongestRun(facts: nat) returns (rounds: seq<Round>)
    ensures Underway(rounds, 7, facts) && SubstantiveCount(rounds) == 7 + 8 * facts
  {
    if facts == 0 {
      NothingYet();
      rounds := SevenIdle([], 0, 0);
    } else {
      var shorter := LongestRun(facts - 1);
      rounds := EightMore(shorter, facts - 1);
    }
  }

  /** For every number of facts some run lasts exactly as long as the bound allows. */
  lemma {:induction false} BoundIsReached(facts: nat)
    ensures exists rounds ::
              var l := Fresh(true, {}, [], Usage(0, 0));
              && NoIntervention(rounds) && NeverStopped(l, rounds)
              && |RunEvidence(rounds) - Known(l)| == facts
              && SubstantiveCount(rounds) == 7 + 8 * facts
  {
    var rounds := LongestRun(facts);
    CheckpointsOnly(facts);
    assert Completed([]) == {} && Tagged({}, {}, {}) == {};
    assert RunEvidence(rounds) - {} == RunEvidence(rounds);
  }

  // ----- a repeated-call stop is earned -----

  function Occurs(obs: seq<Observation>, id: nat): nat {
    if obs == [] then 0 else Occurs(obs[..|obs| - 1], id) + (if obs[|obs| - 1].identity == id then 1 else 0)
  }

  /** How often the call was observed since the last round that brought durable evidence. */
  function Since(l: Ledger, rounds: seq<Round>, id: nat): nat {
    if rounds == [] then 0 else
      var n := |rounds| - 1;
      if Durable(After(l, rounds[..n]), rounds[n]) then 0
      else Since(l, rounds[..n], id) + Occurs(rounds[n].observations, id)
  }

  predicate RepeatedSince(l: Ledger, rounds: seq<Round>, id: nat) { Since(l, rounds, id) >= REPEATED_CALL_STOP }

  ghost predicate CountsBounded(streaks: seq<Entry<nat, Streak>>, l: Ledger, rounds: seq<Round>,
      obs: seq<Observation>) {
    forall i :: 0 <= i < |streaks| ==>
      streaks[i].value.count <= Since(l, rounds, streaks[i].key) + Occurs(obs, streaks[i].key)
  }

  lemma {:induction false} ScanBound(l: Ledger, rounds: seq<Round>, tracked: nat, obs: seq<Observation>)
    requires CountsBounded(After(l, rounds).streaks, l, rounds, [])
    ensures var s := ScanAll(After(l, rounds), tracked, obs);
            && CountsBounded(s.streaks, l, rounds, obs)
            && (s.highest > 0 ==> exists id :: s.highest <= Since(l, rounds, id) + Occurs(obs, id))
  {
    if obs != [] {
      var n := |obs| - 1;
      var o := obs[n];
      ScanBound(l, rounds, tracked, obs[..n]);
      var s := ScanAll(After(l, rounds), tracked, obs[..n]);
      var count := NextCount(s.streaks, tracked, o);
      LookupIs(s.streaks, o.identity);
      RefreshIs(s.streaks, o.identity, Streak(o.name, count, tracked, o.mark));
      assert count <= Since(l, rounds, o.identity) + Occurs(obs, o.identity);
      if 0 < s.highest && count <= s.highest {
        var id :| s.highest <= Since(l, rounds, id) + Occurs(obs[..n], id);
        assert s.highest <= Since(l, rounds, id) + Occurs(obs, id);
      }
    }
  }

  lemma {:induction false} StreaksBounded(l: Ledger, rounds: seq<Round>)
    requires l.streaks == []
    ensures CountsBounded(After(l, rounds).streaks, l, rounds, [])
  {
    if rounds != [] {
      var n := |rounds| - 1;
      var m, r := After(l, rounds[..n]), rounds[n];
      StreaksBounded(l, rounds[..n]);
      ScanBound(l, rounds[..n], Tracked(m, r), r.observations);
    }
  }

  /** A run is stopped for repetition only if some call was observed four times since the last durable evidence. */
  lemma {:induction false} RepeatedStopIsEarned(l: Ledger, rounds: seq<Round>)
    requires l.streaks == [] && rounds != [] && Verdict(l, rounds, |rounds| - 1).trigger == Some(RepeatedCall)
    ensures exists id :: RepeatedSince(l, rounds, id)
  {
    var n := |rounds| - 1;
    var m, r := After(l, rounds[..n]), rounds[n];
    StreaksBounded(l, rounds[..n]);
    ScanBound(l, rounds[..n], Tracked(m, r), r.observations);
    assert !Durable(m, r);
    var id :| REPEATED_CALL_STOP <= Since(l, rounds[..n], id) + Occurs(r.observations, id);
    assert RepeatedSince(l, rounds, id);
  }
}
