/** The bounded ledger against an unbounded count of failures, over every sequence of calls. */
module RepeatGuardLedger {

  import opened Common
  import opened OrderedMap
  import opened RepeatGuard

  // ----- the unbounded count, read off the history -----

  function Occurs(ids: seq<Identity>, k: string): nat {
    if ids == [] then 0 else Occurs(ids[..|ids| - 1], k) + (if ids[|ids| - 1].key == k then 1 else 0)
  }

  /** The kind most recently recorded for the key. */
  function LastKind(ids: seq<Identity>, k: string): Kind
    requires Occurs(ids, k) > 0
  {
    if ids[|ids| - 1].key == k then ids[|ids| - 1].kind else LastKind(ids[..|ids| - 1], k)
  }

  function Bumped(o: Option<Streak>, ids: seq<Identity>, k: string): Option<Streak> {
    if Occurs(ids, k) == 0 then o else Some(Streak(FailsOf(o) + Occurs(ids, k), LastKind(ids, k)))
  }

  /** Failures of the key since the last success that cleared it; nothing is ever evicted. */
  function Tally(calls: seq<Call>, k: string): Option<Streak> {
    if calls == [] then None else
      var n := |calls| - 1;
      var o := Tally(calls[..n], k);
      if calls[n].failed then Bumped(o, calls[n].identities, k)
      else if o.Some? && Survives(o.value, calls[n].intake) then o
      else None
  }

  function Keys(ids: seq<Identity>): set<string> { set id | id in ids :: id.key }

  function AllKeys(calls: seq<Call>): set<string> {
    if calls == [] then {} else AllKeys(calls[..|calls| - 1]) + Keys(calls[|calls| - 1].identities)
  }

  /** The identities with failures on record. */
  function LiveKeys(calls: seq<Call>): set<string> { set k | k in AllKeys(calls) && Tally(calls, k).Some? }

  // ----- one call -----

  lemma {:induction false} OneMoreBump(o: Option<Streak>, ids: seq<Identity>, k: string)
    requires ids != []
    ensures var n := |ids| - 1;
            Bumped(o, ids, k) ==
              if ids[n].key == k then Some(Streak(FailsOf(Bumped(o, ids[..n], k)) + 1, ids[n].kind))
              else Bumped(o, ids[..n], k)
  {
  }

  lemma {:induction false} CountEachIs(m: FailureLedger, ids: seq<Identity>)
    requires DistinctKeys(m)
    ensures DistinctKeys(CountEach(m, ids))
    ensures forall k :: Lookup(CountEach(m, ids), k) == Bumped(Lookup(m, k), ids, k)
  {
    if ids != [] {
      var n := |ids| - 1;
      CountEachIs(m, ids[..n]);
      var e := CountEach(m, ids[..n]);
      RefreshIs(e, ids[n].key, Streak(FailsOf(Lookup(e, ids[n].key)) + 1, ids[n].kind));
      forall k ensures Lookup(CountEach(m, ids), k) == Bumped(Lookup(m, k), ids, k) {
        assert Lookup(e, k) == Bumped(Lookup(m, k), ids[..n], k);
        OneMoreBump(Lookup(m, k), ids, k);
      }
    }
  }

  lemma {:induction false} ClearedIs(m: FailureLedger, intake: bool)
    requires DistinctKeys(m)
    ensures DistinctKeys(Cleared(m, intake)) && |Cleared(m, intake)| <= |m|
    ensures forall i :: 0 <= i < |Cleared(m, intake)| ==> Cleared(m, intake)[i] in m
    ensures forall k :: Lookup(Cleared(m, intake), k)
                     == if Lookup(m, k).Some? && Survives(Lookup(m, k).value, intake) then Lookup(m, k) else None
  {
    if m != [] {
      var n := |m| - 1;
      ClearedIs(m[..n], intake);
      var d := Cleared(m[..n], intake);
      LookupIs(m[..n], m[n].key);
      forall i | 0 <= i < |d| ensures d[i].key != m[n].key && d[i] in m { assert d[i] in m[..n]; }
      LookupIs(d, m[n].key);
      assert (d + [m[n]])[..|d|] == d && d + [] == d;
      assert Lookup(d, m[n].key).None?;
    }
  }

  lemma {:induction false} NewestIs(m: FailureLedger, n: nat, k: string)
    requires DistinctKeys(m)
    ensures DistinctKeys(Newest(m, n))
    ensures Lookup(Newest(m, n), k).Some? ==> Lookup(Newest(m, n), k) == Lookup(m, k)
    ensures |m| <= n ==> Newest(m, n) == m
  {
    LookupIs(m, k);
    LookupIs(Newest(m, n), k);
    if Lookup(Newest(m, n), k).Some? {
      var s := Newest(m, n);
      var i :| 0 <= i < |s| && s[i].key == k;
      assert m[|m| - |s| + i] == s[i];
    }
  }

  lemma {:induction false} AfterDistinct(calls: seq<Call>)
    ensures DistinctKeys(After(calls)) && |After(calls)| <= MAX_IDENTITIES
  {
    if calls != [] {
      var n := |calls| - 1;
      AfterDistinct(calls[..n]);
      if calls[n].failed {
        CountEachIs(After(calls[..n]), calls[n].identities);
        NewestIs(CountEach(After(calls[..n]), calls[n].identities), MAX_IDENTITIES, "");
      } else {
        ClearedIs(After(calls[..n]), calls[n].intake);
      }
    }
  }

  // ----- the ledger never counts too much -----

  predicate AtMost(a: Option<Streak>, b: Option<Streak>) {
    a.Some? ==> b.Some? && a.value.fails <= b.value.fails && a.value.kind == b.value.kind
  }

  /** Eviction can only forget: a recorded count never exceeds the true one, and the kind is the true one. */
  lemma {:induction false} LedgerAtMostTally(calls: seq<Call>, k: string)
    ensures AtMost(Lookup(After(calls), k), Tally(calls, k))
  {
    if calls != [] {
      var n := |calls| - 1;
      var m, c := After(calls[..n]), calls[n];
      LedgerAtMostTally(calls[..n], k);
      AfterDistinct(calls[..n]);
      if c.failed {
        CountEachIs(m, c.identities);
        NewestIs(CountEach(m, c.identities), MAX_IDENTITIES, k);
      } else {
        ClearedIs(m, c.intake);
      }
    }
  }

  // ----- with at most 64 live identities the ledger is exact -----

  predicate FewLive(calls: seq<Call>) {
    forall n :: 0 <= n <= |calls| ==> |LiveKeys(calls[..n])| <= MAX_IDENTITIES
  }

  lemma {:induction false} BumpedLives(o: Option<Streak>, ids: seq<Identity>, k: string)
    ensures Bumped(o, ids, k).Some? <==> o.Some? || k in Keys(ids)
  {
    if ids != [] {
      var n := |ids| - 1;
      BumpedLives(o, ids[..n], k);
      assert ids == ids[..n] + [ids[n]];
      assert Keys(ids) == Keys(ids[..n]) + {ids[n].key};
    }
  }

  lemma {:induction false} TallyKnown(calls: seq<Call>, k: string)
    requires Tally(calls, k).Some?
    ensures k in AllKeys(calls)
  {
    var n := |calls| - 1;
    BumpedLives(Tally(calls[..n], k), calls[n].identities, k);
    if Tally(calls[..n], k).Some? { TallyKnown(calls[..n], k); }
  }

  lemma {:induction false} FewLivePrefix(calls: seq<Call>, n: nat)
    requires FewLive(calls) && n <= |calls|
    ensures FewLive(calls[..n])
  {
    forall i | 0 <= i <= n ensures |LiveKeys(calls[..n][..i])| <= MAX_IDENTITIES {
      assert calls[..n][..i] == calls[..i];
    }
  }

  lemma {:induction false} NothingEvicted(calls: seq<Call>, m: FailureLedger)
    requires DistinctKeys(m) && (forall k :: Lookup(m, k) == Tally(calls, k)) && |LiveKeys(calls)| <= MAX_IDENTITIES
    ensures |m| <= MAX_IDENTITIES
  {
    DistinctSize(m);
    forall k ensures k in KeySet(m) <==> k in LiveKeys(calls) {
      LookupIs(m, k);
      if Tally(calls, k).Some? { TallyKnown(calls, k); }
      if k in KeySet(m) { var e :| e in m && e.key == k; assert HasKey(m, k); }
      if HasKey(m, k) { var i :| 0 <= i < |m| && m[i].key == k; assert m[i] in m; }
    }
    assert KeySet(m) == LiveKeys(calls);
  }

  lemma {:induction false} LedgerIsTally(calls: seq<Call>)
    requires FewLive(calls)
    ensures forall k :: Lookup(After(calls), k) == Tally(calls, k)
  {
    if calls != [] {
      var n := |calls| - 1;
      var m, c := After(calls[..n]), calls[n];
      FewLivePrefix(calls, n);
      LedgerIsTally(calls[..n]);
      AfterDistinct(calls[..n]);
      if c.failed {
        CountEachIs(m, c.identities);
        assert calls[..|calls|] == calls;
        NothingEvicted(calls, CountEach(m, c.identities));
      } else {
        ClearedIs(m, c.intake);
      }
    }
  }

  // ----- stop verdicts -----

  /** The true count of the call's `i`-th identity when it is counted. */
  function CountAt(calls: seq<Call>, i: nat): nat
    requires calls != [] && i < |calls[|calls| - 1].identities|
  {
    var n, ids := |calls| - 1, calls[|calls| - 1].identities;
    FailsOf(Tally(calls[..n], ids[i].key)) + Occurs(ids[..i + 1], ids[i].key)
  }

  predicate ReachesLimit(calls: seq<Call>, i: nat)
    requires calls != [] && i < |calls[|calls| - 1].identities|
  {
    CountAt(calls, i) >= calls[|calls| - 1].identities[i].hardStopAfter
  }

  lemma {:induction false} CountsAre(m: FailureLedger, ids: seq<Identity>, i: nat)
    requires DistinctKeys(m) && i < |ids|
    ensures |Counts(m, ids)| == |ids|
    ensures Counts(m, ids)[i] == Counted(ids[i], FailsOf(Lookup(m, ids[i].key)) + Occurs(ids[..i + 1], ids[i].key))
    decreases |ids|
  {
    var n := |ids| - 1;
    assert n > 0 ==> |Counts(m, ids[..n])| == n by { if n > 0 { CountsAre(m, ids[..n], 0); } }
    if i < n {
      CountsAre(m, ids[..n], i);
      assert ids[..n][..i + 1] == ids[..i + 1];
    } else {
      CountEachIs(m, ids[..n]);
      assert ids[..i + 1] == ids && ids[..n][..] == ids[..n];
    }
  }

  /** Never a premature stop: the identity reported had truly failed that often. */
  lemma {:induction false} StopIsSound(calls: seq<Call>)
    requires calls != [] && Stopped(calls).Some?
    ensures calls[|calls| - 1].failed
    ensures exists i: nat :: && i < |calls[|calls| - 1].identities| && ReachesLimit(calls, i)
                             && Stopped(calls).value.identity == calls[|calls| - 1].identities[i]
                             && Stopped(calls).value.fails <= CountAt(calls, i)
  {
    var n := |calls| - 1;
    var m, ids := After(calls[..n]), calls[n].identities;
    AfterDistinct(calls[..n]);
    var counts := Counts(m, ids);
    var i: nat :| i < |counts| && Stopped(calls).value == counts[i]
        && counts[i].fails >= counts[i].identity.hardStopAfter;
    CountsLength(m, ids);
    CountsAre(m, ids, i);
    LedgerAtMostTally(calls[..n], ids[i].key);
    assert ReachesLimit(calls, i);
  }

  lemma {:induction false} CountsLength(m: FailureLedger, ids: seq<Identity>)
    ensures |Counts(m, ids)| == |ids|
  {
    if ids != [] { CountsLength(m, ids[..|ids| - 1]); }
  }

  /** With few live identities the verdict is exact, reports the first identity at its limit, and its true count. */
  lemma {:induction false} StopIff(calls: seq<Call>)
    requires calls != [] && FewLive(calls[..|calls| - 1]) && calls[|calls| - 1].failed
    ensures Stopped(calls).Some? <==> exists i: nat :: i < |calls[|calls| - 1].identities| && ReachesLimit(calls, i)
    ensures Stopped(calls).Some? ==>
              exists i: nat :: && i < |calls[|calls| - 1].identities| && ReachesLimit(calls, i)
                               && Stopped(calls).value == Counted(calls[|calls| - 1].identities[i], CountAt(calls, i))
                               && forall j: nat :: j < i ==> !ReachesLimit(calls, j)
  {
    var n := |calls| - 1;
    var m, ids := After(calls[..n]), calls[n].identities;
    AfterDistinct(calls[..n]);
    LedgerIsTally(calls[..n]);
    CountsLength(m, ids);
    var counts := Counts(m, ids);
    forall i: nat | i < |ids| ensures counts[i] == Counted(ids[i], CountAt(calls, i)) { CountsAre(m, ids, i); }
    FirstStopIs(calls, counts);
  }

  lemma {:induction false} FirstStopIs(calls: seq<Call>, counts: seq<Counted>)
    requires calls != [] && |counts| == |calls[|calls| - 1].identities|
    requires forall i: nat :: i < |counts| ==> counts[i] == Counted(calls[|calls| - 1].identities[i], CountAt(calls, i))
    ensures FirstStop(counts).Some? <==> exists i: nat :: i < |counts| && ReachesLimit(calls, i)
    ensures FirstStop(counts).Some? ==>
              exists i: nat :: && i < |counts| && ReachesLimit(calls, i)
                               && FirstStop(counts).value.identity == calls[|calls| - 1].identities[i]
                               && FirstStop(counts).value.fails == CountAt(calls, i)
                               && forall j: nat :: j < i ==> !ReachesLimit(calls, j)
  {
    forall i: nat | i < |counts| ensures ReachesLimit(calls, i)
        <==> counts[i].fails >= counts[i].identity.hardStopAfter { }
    if FirstStop(counts).Some? {
      var i: nat :| && i < |counts| && FirstStop(counts).value == counts[i]
                    && counts[i].fails >= counts[i].identity.hardStopAfter
                    && forall j :: 0 <= j < i ==> counts[j].fails < counts[j].identity.hardStopAfter;
      assert ReachesLimit(calls, i);
      forall j: nat | j < i ensures !ReachesLimit(calls, j) {
        assert counts[j].fails < counts[j].identity.hardStopAfter;
      }
    }
  }
}
