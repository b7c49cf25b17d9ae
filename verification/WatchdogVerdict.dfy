/**
 The verdict on every round, read off the rounds alone: how often a call was repeated, how long the evidence
 has not changed, and how long there has been no durable progress.
 */
module WatchdogVerdict {

  import opened Common
  import opened OrderedMap
  import opened Watchdog
  import opened WatchdogBound

  // ----- what counts as the same -----

  predicate Alike(a: Fingerprint, b: Fingerprint) { Similarity(a, b) >= 0.8 }

  /**
   Identical contents, or long ones of equal progress metric that share four fifths of their shingles, counted
   twice against the sizes of both.
   */
  lemma {:induction false} AlikeIff(a: Fingerprint, b: Fingerprint)
    ensures Alike(a, b) <==>
            || a.exact == b.exact
            || (&& a.metric == b.metric && a.length >= 24 && b.length >= 24
                && a.shingles != {} && b.shingles != {}
                && 10 * |a.shingles * b.shingles| >= 4 * (|a.shingles| + |b.shingles|))
  {
    if a.shingles != {} && b.shingles != {} {
      SharedAtMost(a.shingles, b.shingles);
      RatioAtLeast(|a.shingles * b.shingles|, |a.shingles| + |b.shingles|);
    }
  }

  lemma {:induction false} RatioAtLeast(shared: nat, total: nat)
    requires 2 * shared <= total && 0 < total
    ensures Ratio(shared, total) >= 0.8 <==> 10 * shared >= 4 * total
  {
    QuotientAtLeast((2 * shared) as real, total as real, 0.8);
    FourFifths(2 * shared, total);
  }

  lemma {:induction false} FourFifths(part: nat, whole: nat)
    ensures part as real >= 0.8 * whole as real <==> 5 * part >= 4 * whole
  {
    if 5 * part >= 4 * whole {
      assert (5 * part) as real >= (4 * whole) as real;
    } else {
      assert (5 * part) as real < (4 * whole) as real;
    }
  }

  lemma {:induction false} QuotientAtLeast(x: real, b: real, y: real)
    requires b > 0.0
    ensures x / b >= y <==> x >= y * b
  {
    ScaleKeepsOrder(x / b, y, b);
    assert x / b * b == x;
  }

  lemma {:induction false} ScaleKeepsOrder(x: real, y: real, b: real)
    requires b > 0.0
    ensures x >= y <==> x * b >= y * b
  {
    assert x * b - y * b == (x - y) * b;
  }

  // ----- reading the rounds -----

  predicate BringsEvidence(l: Ledger, before: seq<Round>, r: Round) {
    !(RoundEvidence(r) <= Known(l) + RunEvidence(before))
  }

  lemma {:induction false} EvidenceIs(l: Ledger, before: seq<Round>, r: Round)
    ensures Durable(After(l, before), r) <==> BringsEvidence(l, before, r)
  {
    RunKnows(l, before);
    NextKnows(After(l, before), r);
  }

  /** Substantive rounds since the last with durable evidence. */
  function StaleCount(l: Ledger, rounds: seq<Round>): nat {
    if rounds == [] then 0 else
      var n := |rounds| - 1;
      if !rounds[n].substantive then StaleCount(l, rounds[..n])
      else if BringsEvidence(l, rounds[..n], rounds[n]) then 0
      else StaleCount(l, rounds[..n]) + 1
  }

  /** Substantive rounds since the user last intervened. */
  function AloneCount(rounds: seq<Round>): nat {
    if rounds == [] then 0 else
      var n := |rounds| - 1;
      if rounds[n].userIntervened then 0 else AloneCount(rounds[..n]) + (if rounds[n].substantive then 1 else 0)
  }

  function Observed(rounds: seq<Round>): seq<Observation> {
    if rounds == [] then [] else Observed(rounds[..|rounds| - 1]) + rounds[|rounds| - 1].observations
  }

  function StoredOf(obs: seq<Observation>): seq<Stored> {
    seq(|obs|, i requires 0 <= i < |obs| => Stored(obs[i].name, obs[i].mark))
  }

  /** Some earlier observation of the same tool was alike. */
  predicate SeenBefore(earlier: seq<Stored>, o: Observation) {
    exists i :: 0 <= i < |earlier| && earlier[i].name == o.name && Alike(o.mark, earlier[i].mark)
  }

  /**
   What observation `j` of a round is compared with: the 128 last before the round, and those of the
   round before it.
   */
  function Earlier(before: seq<Round>, r: Round, j: nat): seq<Stored>
    requires j <= |r.observations|
  {
    Newest(StoredOf(Observed(before)), 128) + StoredOf(r.observations[..j])
  }

  predicate Unchanged(before: seq<Round>, r: Round) {
    && r.observations != []
    && forall j :: 0 <= j < |r.observations| ==> SeenBefore(Earlier(before, r, j), r.observations[j])
  }

  /** Substantive rounds in a row in which every observation had been seen before, since the last durable evidence. */
  function SameCount(l: Ledger, rounds: seq<Round>): nat {
    if rounds == [] then 0 else
      var n := |rounds| - 1;
      if BringsEvidence(l, rounds[..n], rounds[n]) then 0
      else if !rounds[n].substantive then SameCount(l, rounds[..n])
      else if Unchanged(rounds[..n], rounds[n]) then SameCount(l, rounds[..n]) + 1
      else 0
  }

  /** An observation of a call: the substantive round it fell in, and what it showed. */
  datatype Seen = Seen(at: nat, mark: Fingerprint)

  function SeenIn(obs: seq<Observation>, id: nat, at: nat): seq<Seen> {
    if obs == [] then [] else
      var n := |obs| - 1;
      SeenIn(obs[..n], id, at) + (if obs[n].identity == id then [Seen(at, obs[n].mark)] else [])
  }

  /** Every observation of the call since the last durable evidence. */
  function SeenSince(l: Ledger, rounds: seq<Round>, id: nat): seq<Seen> {
    if rounds == [] then [] else
      var n := |rounds| - 1;
      if BringsEvidence(l, rounds[..n], rounds[n]) then []
      else SeenSince(l, rounds[..n], id) + SeenIn(rounds[n].observations, id, SubstantiveCount(rounds))
  }

  /** The later repeats the earlier: within eight substantive rounds and alike. */
  predicate Repeats(earlier: Seen, later: Seen) { later.at - earlier.at <= 8 && Alike(later.mark, earlier.mark) }

  /** How many observations at the end form an unbroken row of repetitions. */
  function Row(seen: seq<Seen>): nat {
    if seen == [] then 0 else
      var n := |seen| - 1;
      if n > 0 && Repeats(seen[n - 1], seen[n]) then Row(seen[..n]) + 1 else 1
  }

  /** How often the call of observation `j` of the round has been made in a row. */
  function TimesInRow(l: Ledger, before: seq<Round>, r: Round, j: nat): nat
    requires j < |r.observations|
  {
    var id := r.observations[j].identity;
    Row(SeenSince(l, before, id) + SeenIn(r.observations[..j + 1], id, SubstantiveCount(before + [r])))
  }

  predicate RepeatedTo(l: Ledger, before: seq<Round>, r: Round, times: nat) {
    !BringsEvidence(l, before, r) && exists j: nat :: j < |r.observations| && TimesInRow(l, before, r, j) >= times
  }

  /** The calls observed since the last durable evidence. */
  function CallsSince(l: Ledger, rounds: seq<Round>): set<nat> {
    if rounds == [] then {} else
      var n := |rounds| - 1;
      if BringsEvidence(l, rounds[..n], rounds[n]) then {}
      else CallsSince(l, rounds[..n]) + CallsIn(rounds[n].observations)
  }

  function CallsIn(obs: seq<Observation>): set<nat> { set o | o in obs :: o.identity }

  /** Never more than 128 different calls between durable evidence. */
  predicate FewCalls(l: Ledger, rounds: seq<Round>) {
    forall n :: 0 <= n <= |rounds| ==> |CallsSince(l, rounds[..n])| <= 128
  }

  // ----- the ledger's counters -----

  lemma {:induction false} CountersAre(l: Ledger, rounds: seq<Round>)
    requires l.staleRounds == 0 && l.unattendedRounds == 0 && l.tracked == 0
    ensures var n := After(l, rounds);
            && n.staleRounds == StaleCount(l, rounds) && n.unattendedRounds == AloneCount(rounds)
            && n.tracked == SubstantiveCount(rounds) && n.unattended == l.unattended && n.baseline == l.baseline
  {
    if rounds != [] {
      var n := |rounds| - 1;
      CountersAre(l, rounds[..n]);
      EvidenceIs(l, rounds[..n], rounds[n]);
    }
  }

  // ----- the rolling observations -----

  lemma {:induction false} ScanObservations(l: Ledger, tracked: nat, obs: seq<Observation>)
    ensures ScanAll(l, tracked, obs).observations == l.observations + StoredOf(obs)
  {
    if obs != [] {
      var n := |obs| - 1;
      ScanObservations(l, tracked, obs[..n]);
      StoredStep(l.observations, obs);
    }
  }

  lemma {:induction false} StoredStep(before: seq<Stored>, obs: seq<Observation>)
    requires obs != []
    ensures var n := |obs| - 1;
            before + StoredOf(obs) == before + StoredOf(obs[..n]) + [Stored(obs[n].name, obs[n].mark)]
  {
  }

  lemma {:induction false} NewestTwice<T>(a: seq<T>, b: seq<T>, n: nat)
    ensures Newest(Newest(a, n) + b, n) == Newest(a + b, n)
  {
  }

  lemma {:induction false} StoredConcat(a: seq<Observation>, b: seq<Observation>)
    ensures StoredOf(a + b) == StoredOf(a) + StoredOf(b)
  {
  }

  lemma {:induction false} ObservationsAre(l: Ledger, rounds: seq<Round>)
    requires l.observations == []
    ensures After(l, rounds).observations == Newest(StoredOf(Observed(rounds)), 128)
  {
    if rounds != [] {
      var n := |rounds| - 1;
      var m, r := After(l, rounds[..n]), rounds[n];
      ObservationsAre(l, rounds[..n]);
      ScanObservations(m, Tracked(m, r), r.observations);
      NewestTwice(StoredOf(Observed(rounds[..n])), StoredOf(r.observations), 128);
      StoredConcat(Observed(rounds[..n]), r.observations);
    }
  }

  lemma {:induction false} BestIs(stored: seq<Stored>, o: Observation)
    ensures Best(stored, o.name, o.mark) >= SIMILAR <==> SeenBefore(stored, o)
  {
    if stored != [] {
      var n := |stored| - 1;
      BestIs(stored[..n], o);
      if SeenBefore(stored[..n], o) {
        var i :| 0 <= i < n && stored[..n][i].name == o.name && Alike(o.mark, stored[..n][i].mark);
        assert stored[i].name == o.name && Alike(o.mark, stored[i].mark);
      }
      if SeenBefore(stored, o) {
        var i :| 0 <= i < |stored| && stored[i].name == o.name && Alike(o.mark, stored[i].mark);
        assert i < n ==> stored[..n][i] == stored[i];
      }
    }
  }

  /** Every observation had been seen before: earlier, or earlier in the same round. */
  predicate AllSeen(earlier: seq<Stored>, obs: seq<Observation>) {
    forall j :: 0 <= j < |obs| ==> SeenBefore(earlier + StoredOf(obs[..j]), obs[j])
  }

  lemma {:induction false} AllSeenStep(earlier: seq<Stored>, obs: seq<Observation>)
    requires obs != []
    ensures var n := |obs| - 1;
            AllSeen(earlier, obs) <==> AllSeen(earlier, obs[..n]) && SeenBefore(earlier + StoredOf(obs[..n]), obs[n])
  {
    var n := |obs| - 1;
    forall j | 0 <= j < n
      ensures SeenBefore(earlier + StoredOf(obs[..n][..j]), obs[..n][j])
         <==> SeenBefore(earlier + StoredOf(obs[..j]), obs[j])
    {
      assert obs[..n][..j] == obs[..j];
    }
  }

  lemma {:induction false} ScanAllStale(l: Ledger, tracked: nat, obs: seq<Observation>)
    ensures ScanAll(l, tracked, obs).allStale <==> AllSeen(l.observations, obs)
  {
    if obs != [] {
      var n := |obs| - 1;
      ScanAllStale(l, tracked, obs[..n]);
      AllSeenStep(l.observations, obs);
      LastStale(ScanAll(l, tracked, obs[..n]), tracked, obs[n]);
      ScanObservations(l, tracked, obs[..n]);
    }
  }

  lemma {:induction false} LastStale(s: Scan, tracked: nat, o: Observation)
    ensures Observe(s, tracked, o).allStale <==> s.allStale && SeenBefore(s.observations, o)
  {
    BestIs(s.observations, o);
  }

  lemma {:induction false} UnchangedIs(before: seq<Round>, r: Round)
    ensures Unchanged(before, r) <==>
            r.observations != [] && AllSeen(Newest(StoredOf(Observed(before)), 128), r.observations)
  {
  }

  lemma {:induction false} SameIs(l: Ledger, rounds: seq<Round>)
    requires l.observations == [] && l.similarRounds == 0
    ensures After(l, rounds).similarRounds == SameCount(l, rounds)
  {
    if rounds != [] {
      var n := |rounds| - 1;
      var m, r := After(l, rounds[..n]), rounds[n];
      SameIs(l, rounds[..n]);
      ObservationsAre(l, rounds[..n]);
      EvidenceIs(l, rounds[..n], r);
      ScanAllStale(m, Tracked(m, r), r.observations);
      UnchangedIs(rounds[..n], r);
    }
  }

  // ----- the call streaks -----

  /** The recorded streak is the row of repetitions the call stands in. */
  predicate StreakIs(o: Option<Streak>, seen: seq<Seen>) {
    if seen == [] then o.None?
    else
      && o.Some? && o.value.count == Row(seen)
      && Seen(o.value.round, o.value.mark) == seen[|seen| - 1]
  }

  lemma {:induction false} CountIs(streaks: seq<Entry<nat, Streak>>, seen: seq<Seen>, tracked: nat, o: Observation)
    requires StreakIs(Lookup(streaks, o.identity), seen)
    ensures NextCount(streaks, tracked, o) == Row(seen + [Seen(tracked, o.mark)])
  {
    assert (seen + [Seen(tracked, o.mark)])[..|seen|] == seen;
  }

  /** Before observation `j` every call's streak is its row so far. */
  ghost predicate StreaksAre(streaks: seq<Entry<nat, Streak>>, l: Ledger, before: seq<Round>, obs: seq<Observation>,
      at: nat) {
    && DistinctKeys(streaks)
    && forall id :: StreakIs(Lookup(streaks, id), SeenSince(l, before, id) + SeenIn(obs, id, at))
  }

  lemma {:induction false} ScanStreaks(l: Ledger, before: seq<Round>, obs: seq<Observation>, at: nat)
    requires StreaksAre(After(l, before).streaks, l, before, [], at)
    ensures StreaksAre(ScanAll(After(l, before), at, obs).streaks, l, before, obs, at)
  {
    if obs != [] {
      var n := |obs| - 1;
      var o := obs[n];
      ScanStreaks(l, before, obs[..n], at);
      OneMoreStreak(ScanAll(After(l, before), at, obs[..n]).streaks, l, before, obs, at);
    }
  }

  lemma {:induction false} OneMoreStreak(
      streaks: seq<Entry<nat, Streak>>, l: Ledger, before: seq<Round>, obs: seq<Observation>, at: nat)
    requires obs != [] && StreaksAre(streaks, l, before, obs[..|obs| - 1], at)
    ensures var o := obs[|obs| - 1];
            StreaksAre(Refresh(streaks, o.identity, Streak(o.name, NextCount(streaks, at, o), at, o.mark)), l, before,
                obs, at)
  {
    var n := |obs| - 1;
    var o := obs[n];
    var streak := Streak(o.name, NextCount(streaks, at, o), at, o.mark);
    RefreshIs(streaks, o.identity, streak);
    forall id
      ensures StreakIs(Lookup(Refresh(streaks, o.identity, streak), id), SeenSince(l, before, id) + SeenIn(obs, id, at))
    {
      OneMoreSeen(SeenSince(l, before, id), obs, id, at);
      var seen := SeenSince(l, before, id) + SeenIn(obs[..n], id, at);
      if id == o.identity { CountIs(streaks, seen, at, o); } else { assert seen + [] == seen; }
    }
  }

  lemma {:induction false} OneMoreSeen(seen: seq<Seen>, obs: seq<Observation>, id: nat, at: nat)
    requires obs != []
    ensures var n := |obs| - 1;
            seen + SeenIn(obs, id, at)
              == seen + SeenIn(obs[..n], id, at) + (if obs[n].identity == id then [Seen(at, obs[n].mark)] else [])
  {
    var n := |obs| - 1;
    if obs[n].identity == id {
      assert seen + (SeenIn(obs[..n], id, at) + [Seen(at, obs[n].mark)])
          == seen + SeenIn(obs[..n], id, at) + [Seen(at, obs[n].mark)];
    } else {
      assert SeenIn(obs[..n], id, at) + [] == SeenIn(obs[..n], id, at);
      assert seen + SeenIn(obs[..n], id, at) + [] == seen + SeenIn(obs[..n], id, at);
    }
  }

  lemma {:induction false} SeenInCalls(obs: seq<Observation>, id: nat, at: nat)
    ensures SeenIn(obs, id, at) != [] <==> id in CallsIn(obs)
  {
    if obs != [] {
      var n := |obs| - 1;
      SeenInCalls(obs[..n], id, at);
      assert obs == obs[..n] + [obs[n]];
      assert CallsIn(obs) == CallsIn(obs[..n]) + {obs[n].identity};
    }
  }

  lemma {:induction false} SeenSinceCalls(l: Ledger, rounds: seq<Round>, id: nat)
    ensures SeenSince(l, rounds, id) != [] <==> id in CallsSince(l, rounds)
  {
    if rounds != [] {
      var n := |rounds| - 1;
      SeenSinceCalls(l, rounds[..n], id);
      SeenInCalls(rounds[n].observations, id, SubstantiveCount(rounds));
    }
  }

  /** With at most 128 calls about, no streak is evicted. */
  lemma {:induction false} NoneEvicted(l: Ledger, rounds: seq<Round>, streaks: seq<Entry<nat, Streak>>)
    requires DistinctKeys(streaks) && |CallsSince(l, rounds)| <= 128
    requires forall id :: StreakIs(Lookup(streaks, id), SeenSince(l, rounds, id))
    ensures |streaks| <= 128
  {
    DistinctSize(streaks);
    forall id ensures id in KeySet(streaks) <==> id in CallsSince(l, rounds) {
      KeySetHas(streaks, id);
      LookupIs(streaks, id);
      SeenSinceCalls(l, rounds, id);
    }
    assert KeySet(streaks) == CallsSince(l, rounds);
  }

  lemma {:induction false} NothingSeenYet(l: Ledger, before: seq<Round>, at: nat, streaks: seq<Entry<nat, Streak>>)
    requires DistinctKeys(streaks) && forall id :: StreakIs(Lookup(streaks, id), SeenSince(l, before, id))
    ensures StreaksAre(streaks, l, before, [], at)
  {
    forall id ensures StreakIs(Lookup(streaks, id), SeenSince(l, before, id) + SeenIn([], id, at)) {
      assert SeenSince(l, before, id) + [] == SeenSince(l, before, id);
    }
  }

  lemma {:induction false} RecordedStreaks(l: Ledger, rounds: seq<Round>)
    requires l.streaks == [] && l.staleRounds == 0 && l.unattendedRounds == 0 && l.tracked == 0 && FewCalls(l, rounds)
    ensures var s := After(l, rounds).streaks;
            DistinctKeys(s) && forall id :: StreakIs(Lookup(s, id), SeenSince(l, rounds, id))
  {
    if rounds != [] {
      var n := |rounds| - 1;
      var before, r, at := rounds[..n], rounds[n], SubstantiveCount(rounds);
      FewBefore(l, rounds, n);
      RecordedStreaks(l, before);
      EvidenceIs(l, before, r);
      CountersAre(l, before);
      if !BringsEvidence(l, before, r) {
        var m := After(l, before);
        assert Tracked(m, r) == at;
        NothingSeenYet(l, before, at, m.streaks);
        ScanStreaks(l, before, r.observations, at);
        assert rounds[..|rounds|] == rounds;
        NoneEvicted(l, rounds, ScanAll(m, at, r.observations).streaks);
      }
    }
  }

  lemma {:induction false} FewBefore(l: Ledger, rounds: seq<Round>, n: nat)
    requires FewCalls(l, rounds) && n <= |rounds|
    ensures FewCalls(l, rounds[..n])
  {
    forall i | 0 <= i <= n ensures |CallsSince(l, rounds[..n][..i])| <= 128 { assert rounds[..n][..i] == rounds[..i]; }
  }

  // ----- the highest count of a round -----

  function TimesAt(l: Ledger, before: seq<Round>, obs: seq<Observation>, at: nat, j: nat): nat
    requires j < |obs|
  {
    Row(SeenSince(l, before, obs[j].identity) + SeenIn(obs[..j + 1], obs[j].identity, at))
  }

  function AllTimes(l: Ledger, before: seq<Round>, obs: seq<Observation>, at: nat): seq<nat> {
    seq(|obs|, j requires 0 <= j < |obs| => TimesAt(l, before, obs, at, j))
  }

  function Names(obs: seq<Observation>): seq<nat> { seq(|obs|, j requires 0 <= j < |obs| => obs[j].name) }

  /** The highest of the counts, and the name of the first to reach it. */
  predicate FirstHighest(times: seq<nat>, names: seq<nat>, highest: nat, name: Option<nat>)
    requires |names| == |times|
  {
    && (times == [] ==> highest == 0 && name == None)
    && (forall j :: 0 <= j < |times| ==> times[j] <= highest)
    && (times != [] ==>
          exists j :: && 0 <= j < |times| && times[j] == highest && name == Some(names[j])
                      && forall k :: 0 <= k < j ==> times[k] < highest)
  }

  lemma {:induction false} FirstHighestStep(
      times: seq<nat>, names: seq<nat>, highest: nat, name: Option<nat>, t: nat, x: nat)
    requires |names| == |times| && FirstHighest(times, names, highest, name) && t >= 1
    ensures if t > highest then FirstHighest(times + [t], names + [x], t, Some(x))
            else FirstHighest(times + [t], names + [x], highest, name)
  {
    var all, called := times + [t], names + [x];
    if t > highest {
      assert all[|times|] == t && called[|times|] == x;
    } else {
      var j :| && 0 <= j < |times| && times[j] == highest && name == Some(names[j])
               && forall k :: 0 <= k < j ==> times[k] < highest;
      assert all[j] == highest && called[j] == names[j] && forall k :: 0 <= k < j ==> all[k] < highest;
    }
  }

  /** The count reported is the highest of the round, and the tool is that of the first observation to reach it. */
  predicate HighestIs(l: Ledger, before: seq<Round>, obs: seq<Observation>, at: nat, highest: nat, tool: Option<nat>) {
    FirstHighest(AllTimes(l, before, obs, at), Names(obs), highest, tool)
  }

  lemma {:induction false} TimesAtPrefix(l: Ledger, before: seq<Round>, obs: seq<Observation>, at: nat, n: nat, j: nat)
    requires j < n <= |obs|
    ensures TimesAt(l, before, obs[..n], at, j) == TimesAt(l, before, obs, at, j)
  {
    assert obs[..n][..j + 1] == obs[..j + 1];
  }

  lemma {:induction false} HighestStep(
      l: Ledger, before: seq<Round>, obs: seq<Observation>, at: nat, highest: nat, tool: Option<nat>)
    requires obs != [] && HighestIs(l, before, obs[..|obs| - 1], at, highest, tool)
    requires TimesAt(l, before, obs, at, |obs| - 1) >= 1
    ensures var n, count := |obs| - 1, TimesAt(l, before, obs, at, |obs| - 1);
            HighestIs(l, before, obs, at, if count > highest then count else highest,
                      if count > highest then Some(obs[n].name) else tool)
  {
    var n := |obs| - 1;
    forall j: nat | j < n ensures TimesAt(l, before, obs[..n], at, j) == TimesAt(l, before, obs, at, j) {
      TimesAtPrefix(l, before, obs, at, n, j);
    }
    var times, names := AllTimes(l, before, obs[..n], at), Names(obs[..n]);
    assert AllTimes(l, before, obs, at) == times + [TimesAt(l, before, obs, at, n)]
        && Names(obs) == names + [obs[n].name];
    FirstHighestStep(times, names, highest, tool, TimesAt(l, before, obs, at, n), obs[n].name);
  }

  lemma {:induction false} LastTimes(
      streaks: seq<Entry<nat, Streak>>, l: Ledger, before: seq<Round>, obs: seq<Observation>, at: nat)
    requires obs != [] && StreaksAre(streaks, l, before, obs[..|obs| - 1], at)
    ensures TimesAt(l, before, obs, at, |obs| - 1) == NextCount(streaks, at, obs[|obs| - 1]) >= 1
  {
    var n := |obs| - 1;
    var id := obs[n].identity;
    assert obs[..n + 1] == obs;
    OneMoreSeen(SeenSince(l, before, id), obs, id, at);
    CountIs(streaks, SeenSince(l, before, id) + SeenIn(obs[..n], id, at), at, obs[n]);
  }

  lemma {:induction false} ScanHighest(l: Ledger, before: seq<Round>, obs: seq<Observation>, at: nat)
    requires StreaksAre(After(l, before).streaks, l, before, [], at)
    ensures var s := ScanAll(After(l, before), at, obs); HighestIs(l, before, obs, at, s.highest, s.tool)
  {
    if obs != [] {
      var n := |obs| - 1;
      ScanHighest(l, before, obs[..n], at);
      ScanStreaks(l, before, obs[..n], at);
      var s := ScanAll(After(l, before), at, obs[..n]);
      LastTimes(s.streaks, l, before, obs, at);
      HighestStep(l, before, obs, at, s.highest, s.tool);
    }
  }

  // ----- the verdict -----

  predicate IsNew(l: Ledger) {
    && l.observations == [] && l.streaks == []
    && l.staleRounds == 0 && l.unattendedRounds == 0 && l.similarRounds == 0 && l.tracked == 0
  }

  lemma {:induction false} FreshIsNew(unattended: bool, checkpoint: set<nat>, todos: seq<Todo>, usage: Usage)
    ensures IsNew(Fresh(unattended, checkpoint, todos, usage))
  {
  }

  /** Why the rounds so far call for a stop, if they do. */
  function StopReason(l: Ledger, before: seq<Round>, r: Round): Option<Trigger> {
    var rounds := before + [r];
    if RepeatedTo(l, before, r, 4) then Some(RepeatedCall)
    else if SameCount(l, rounds) >= 6 then Some(SimilarEvidence)
    else if Tokens(l, r) >= 200_000 && StaleCount(l, rounds) >= 2 then Some(TokenBudget)
    else if l.unattended && AloneCount(rounds) >= 8 && StaleCount(l, rounds) >= 8 then Some(NoCheckpoint)
    else None
  }

  /** Why the rounds so far call for a warning, if not for a stop. */
  predicate WarnReason(l: Ledger, before: seq<Round>, r: Round) {
    var rounds := before + [r];
    || RepeatedTo(l, before, r, 2) || SameCount(l, rounds) >= 2
    || ((l.unattended || |r.todos| > DoneCount(r.todos)) && AloneCount(rounds) >= 5 && StaleCount(l, rounds) >= 5)
    || (Tokens(l, r) >= 160_000 && StaleCount(l, rounds) >= 2)
  }

  lemma {:induction false} TrackedIs(l: Ledger, before: seq<Round>, r: Round)
    requires IsNew(l)
    ensures Tracked(After(l, before), r) == SubstantiveCount(before + [r])
  {
    CountersAre(l, before);
    assert (before + [r])[..|before|] == before;
  }

  lemma {:induction false} RoundHighest(l: Ledger, before: seq<Round>, r: Round)
    requires IsNew(l) && FewCalls(l, before)
    ensures var m := After(l, before);
            var s := ScanAll(m, Tracked(m, r), r.observations);
            HighestIs(l, before, r.observations, SubstantiveCount(before + [r]), s.highest, s.tool)
  {
    var at := SubstantiveCount(before + [r]);
    TrackedIs(l, before, r);
    RecordedStreaks(l, before);
    NothingSeenYet(l, before, at, After(l, before).streaks);
    ScanHighest(l, before, r.observations, at);
  }

  lemma {:induction false} HighestRepeats(l: Ledger, before: seq<Round>, r: Round, highest: nat, tool: Option<nat>,
      times: nat)
    requires HighestIs(l, before, r.observations, SubstantiveCount(before + [r]), highest, tool)
    requires !BringsEvidence(l, before, r) && times > 0
    ensures RepeatedTo(l, before, r, times) <==> highest >= times
  {
    var at := SubstantiveCount(before + [r]);
    assert forall j: nat :: j < |r.observations| ==>
             TimesInRow(l, before, r, j) == TimesAt(l, before, r.observations, at, j);
    var counts := AllTimes(l, before, r.observations, at);
    if highest >= times {
      var j: nat :| j < |counts| && counts[j] == highest;
      assert TimesInRow(l, before, r, j) >= times;
    }
    forall j: nat | j < |r.observations| ensures TimesInRow(l, before, r, j) <= highest { assert counts[j] <= highest; }
  }

  /**
   The verdict on every round of every run with at most 128 calls between durable evidence: it stops and warns
   exactly for these reasons, in this order.
   */
  lemma {:induction false} VerdictIs(l: Ledger, before: seq<Round>, r: Round)
    requires IsNew(l) && FewCalls(l, before)
    ensures var d := Decide(After(l, before), r);
            && d.trigger == StopReason(l, before, r)
            && (d.warn <==> d.trigger.Some? || WarnReason(l, before, r))
  {
    var rounds, m := before + [r], After(l, before);
    var s := ScanAll(m, Tracked(m, r), r.observations);
    assert After(l, rounds) == Next(m, r) && m.baseline == l.baseline by { RoundFrame(l, before, r); }
    JudgedBy(m, r, rounds, l);
    RoundRepeats(l, before, r);
    RoundCounters(l, rounds);
  }

  lemma {:induction false} RoundFrame(l: Ledger, before: seq<Round>, r: Round)
    requires IsNew(l)
    ensures After(l, before + [r]) == Next(After(l, before), r) && After(l, before).baseline == l.baseline
  {
    assert (before + [r])[..|before|] == before;
    CountersAre(l, before);
  }

  lemma {:induction false} RoundCounters(l: Ledger, rounds: seq<Round>)
    requires IsNew(l)
    ensures var n := After(l, rounds);
            && n.staleRounds == StaleCount(l, rounds) && n.unattendedRounds == AloneCount(rounds)
            && n.similarRounds == SameCount(l, rounds) && n.unattended == l.unattended
  {
    CountersAre(l, rounds);
    SameIs(l, rounds);
  }

  lemma {:induction false} RoundRepeats(l: Ledger, before: seq<Round>, r: Round)
    requires IsNew(l) && FewCalls(l, before)
    ensures var m := After(l, before);
            var highest := if Durable(m, r) then 0 else ScanAll(m, Tracked(m, r), r.observations).highest;
            && (RepeatedTo(l, before, r, 4) <==> highest >= 4) && (RepeatedTo(l, before, r, 2) <==> highest >= 2)
  {
    EvidenceIs(l, before, r);
    if !BringsEvidence(l, before, r) {
      var m := After(l, before);
      var s := ScanAll(m, Tracked(m, r), r.observations);
      RoundHighest(l, before, r);
      HighestRepeats(l, before, r, s.highest, s.tool, 4);
      HighestRepeats(l, before, r, s.highest, s.tool, 2);
    }
  }

  lemma {:induction false} JudgedBy(m: Ledger, r: Round, rounds: seq<Round>, l: Ledger)
    requires rounds != [] && After(l, rounds) == Next(m, r) && m.baseline == l.baseline
    ensures var d, s := Decide(m, r), ScanAll(m, Tracked(m, r), r.observations);
            var n, highest := After(l, rounds), if Durable(m, r) then 0 else s.highest;
            && d.trigger == TriggerOf(n, highest, Tokens(l, r))
            && d.repeatedCount == highest && d.repeatedTool == (if Durable(m, r) then None else s.tool)
            && (d.warn <==> || d.trigger.Some? || highest >= 2 || n.similarRounds >= 2
                            || ((n.unattended || |r.todos| > DoneCount(r.todos)) && n.unattendedRounds >= 5
                                && n.staleRounds >= 5)
                            || (Tokens(l, r) >= 160_000 && n.staleRounds >= 2))
  {
  }

  /** A repetition stop names the highest count of the round and the tool that reached it first. */
  lemma {:induction false} RepetitionIsNamed(l: Ledger, before: seq<Round>, r: Round)
    requires IsNew(l) && FewCalls(l, before) && !BringsEvidence(l, before, r)
    ensures var d := Decide(After(l, before), r);
            HighestIs(l, before, r.observations, SubstantiveCount(before + [r]), d.repeatedCount, d.repeatedTool)
  {
    RoundHighest(l, before, r);
    EvidenceIs(l, before, r);
  }

  /** Four observations of a call, each repeating the one before, are a row of at least four. */
  lemma {:induction false} FourInRow(seen: seq<Seen>)
    requires |seen| >= 4
    requires var n := |seen|;
             Repeats(seen[n - 4], seen[n - 3]) && Repeats(seen[n - 3], seen[n - 2]) && Repeats(seen[n - 2], seen[n - 1])
    ensures Row(seen) >= 4
  {
    var n := |seen|;
    assert Row(seen) == Row(seen[..n - 1]) + 1;
    assert seen[..n - 1][..n - 2] == seen[..n - 2] && seen[..n - 2][..n - 3] == seen[..n - 3];
    assert Row(seen[..n - 1]) == Row(seen[..n - 2]) + 1;
    assert Row(seen[..n - 2]) == Row(seen[..n - 3]) + 1;
    assert Row(seen[..n - 3]) >= 1;
  }

  lemma {:induction false} StopsWhenRepeated(l: Ledger, before: seq<Round>, r: Round)
    requires IsNew(l) && FewCalls(l, before) && RepeatedTo(l, before, r, 4)
    ensures Decide(After(l, before), r).trigger == Some(RepeatedCall)
  {
    VerdictIs(l, before, r);
  }

  /** A call seen four times in a row, with no durable evidence between, stops the run, attended or not. */
  lemma {:induction false} FourRepeatsStop(l: Ledger, before: seq<Round>, r: Round, j: nat)
    requires IsNew(l) && FewCalls(l, before) && !BringsEvidence(l, before, r) && j < |r.observations|
    requires var id := r.observations[j].identity;
             var seen := SeenSince(l, before, id) + SeenIn(r.observations[..j + 1], id, SubstantiveCount(before + [r]));
             var n := |seen|;
             && n >= 4 && Repeats(seen[n - 4], seen[n - 3])
             && Repeats(seen[n - 3], seen[n - 2]) && Repeats(seen[n - 2], seen[n - 1])
    ensures Decide(After(l, before), r).trigger == Some(RepeatedCall)
  {
    var id := r.observations[j].identity;
    FourInRow(SeenSince(l, before, id) + SeenIn(r.observations[..j + 1], id, SubstantiveCount(before + [r])));
    assert RepeatedTo(l, before, r, 4) by { assert TimesInRow(l, before, r, j) >= 4; }
    StopsWhenRepeated(l, before, r);
  }

  /** The rounds `k` and on of the run were substantive, brought no durable evidence and showed nothing new. */
  predicate NothingNewFrom(l: Ledger, rounds: seq<Round>, k: nat) {
    forall i: nat :: k <= i < |rounds| ==> NothingNewAt(l, rounds, i)
  }

  predicate NothingNewAt(l: Ledger, rounds: seq<Round>, i: nat)
    requires i < |rounds|
  {
    rounds[i].substantive && Unchanged(rounds[..i], rounds[i]) && !BringsEvidence(l, rounds[..i], rounds[i])
  }

  lemma {:induction false} UnchangedAddUp(l: Ledger, rounds: seq<Round>, k: nat)
    requires k <= |rounds| && NothingNewFrom(l, rounds, k)
    ensures SameCount(l, rounds) >= |rounds| - k
    decreases |rounds|
  {
    if k < |rounds| {
      var n := |rounds| - 1;
      assert NothingNewAt(l, rounds, n);
      forall i: nat | k <= i < n ensures NothingNewAt(l, rounds[..n], i) {
        assert NothingNewAt(l, rounds, i);
        assert rounds[..n][..i] == rounds[..i];
      }
      UnchangedAddUp(l, rounds[..n], k);
    }
  }

  /** Six substantive rounds that show nothing new stop the run, attended or not, unless a repetition already does. */
  lemma {:induction false} SixUnchangedRoundsStop(l: Ledger, before: seq<Round>, r: Round)
    requires IsNew(l) && FewCalls(l, before) && |before| >= 5 && NothingNewFrom(l, before + [r], |before| - 5)
    ensures var t := Decide(After(l, before), r).trigger; t == Some(SimilarEvidence) || t == Some(RepeatedCall)
  {
    UnchangedAddUp(l, before + [r], |before| - 5);
    VerdictIs(l, before, r);
  }
}
