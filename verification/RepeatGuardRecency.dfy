/**
 Which identities the bounded ledger forgets: the least recently failed, never one just counted, never
 by a success that cannot help.
 */
module RepeatGuardRecency {

  import opened Common
  import opened OrderedMap
  import opened RepeatGuard
  import opened RepeatGuardLedger

  /** Every failure identity ever counted, in order. */
  function Failures(calls: seq<Call>): seq<string> {
    if calls == [] then [] else
      var n := |calls| - 1;
      Failures(calls[..n]) + (if calls[n].failed then KeySeq(calls[n].identities) else [])
  }

  function KeySeq(ids: seq<Identity>): seq<string> {
    if ids == [] then [] else KeySeq(ids[..|ids| - 1]) + [ids[|ids| - 1].key]
  }

  /** When the key last failed, `-1` if never. */
  function LastAt(h: seq<string>, k: string): int {
    if h == [] then -1 else if h[|h| - 1] == k then |h| - 1 else LastAt(h[..|h| - 1], k)
  }

  predicate ByRecency(m: FailureLedger, h: seq<string>) {
    forall i, j :: 0 <= i < j < |m| ==> LastAt(h, m[i].key) < LastAt(h, m[j].key)
  }

  lemma {:induction false} LastAtRange(h: seq<string>, k: string)
    ensures -1 <= LastAt(h, k) < |h|
  {
    if h != [] && h[|h| - 1] != k { LastAtRange(h[..|h| - 1], k); }
  }

  lemma {:induction false} LastAtSnoc(h: seq<string>, x: string, k: string)
    ensures LastAt(h + [x], k) == if k == x then |h| else LastAt(h, k)
  {
    assert (h + [x])[..|h|] == h;
  }

  /** Deleting entries keeps the order of the rest. */
  lemma {:induction false} DeleteKeepsOrder(m: FailureLedger, h: seq<string>, k: string)
    requires ByRecency(m, h)
    ensures ByRecency(Delete(m, k), h)
  {
    if m != [] {
      var n := |m| - 1;
      DeleteKeepsOrder(m[..n], h, k);
      DeleteIs(m[..n], k);
      var d := Delete(m[..n], k);
      forall i | 0 <= i < |d| ensures LastAt(h, d[i].key) < LastAt(h, m[n].key) {
        var e :| 0 <= e < n && m[..n][e] == d[i];
        assert m[e] == d[i];
      }
    }
  }

  lemma {:induction false} ClearedKeepsOrder(m: FailureLedger, h: seq<string>, intake: bool)
    requires ByRecency(m, h) && DistinctKeys(m)
    ensures ByRecency(Cleared(m, intake), h)
  {
    if m != [] {
      var n := |m| - 1;
      ClearedKeepsOrder(m[..n], h, intake);
      ClearedIs(m[..n], intake);
      var d := Cleared(m[..n], intake);
      forall i | 0 <= i < |d| ensures LastAt(h, d[i].key) < LastAt(h, m[n].key) {
        var e :| 0 <= e < n && m[..n][e] == d[i];
        assert m[e] == d[i];
      }
    }
  }

  lemma {:induction false} CountOneKeepsOrder(m: FailureLedger, h: seq<string>, id: Identity)
    requires ByRecency(m, h)
    ensures ByRecency(CountOne(m, id), h + [id.key])
  {
    DeleteKeepsOrder(m, h, id.key);
    DeleteIs(m, id.key);
    var r, d := CountOne(m, id), Delete(m, id.key);
    forall i, j | 0 <= i < j < |r| ensures LastAt(h + [id.key], r[i].key) < LastAt(h + [id.key], r[j].key) {
      LastAtSnoc(h, id.key, r[i].key);
      LastAtSnoc(h, id.key, r[j].key);
      LastAtRange(h, r[i].key);
      assert r[i] == d[i] && d[i].key != id.key;
    }
  }

  lemma {:induction false} CountEachKeepsOrder(m: FailureLedger, h: seq<string>, ids: seq<Identity>)
    requires ByRecency(m, h)
    ensures ByRecency(CountEach(m, ids), h + KeySeq(ids))
  {
    if ids == [] {
      assert h + KeySeq(ids) == h;
    } else {
      var n := |ids| - 1;
      CountEachKeepsOrder(m, h, ids[..n]);
      CountOneKeepsOrder(CountEach(m, ids[..n]), h + KeySeq(ids[..n]), ids[n]);
      assert h + KeySeq(ids) == (h + KeySeq(ids[..n])) + [ids[n].key];
    }
  }

  /** In every reachable ledger the entries stand in the order of their last failure. */
  lemma {:induction false} LedgerByRecency(calls: seq<Call>)
    ensures ByRecency(After(calls), Failures(calls))
  {
    if calls != [] {
      var n := |calls| - 1;
      LedgerByRecency(calls[..n]);
      AfterDistinct(calls[..n]);
      if calls[n].failed {
        CountEachKeepsOrder(After(calls[..n]), Failures(calls[..n]), calls[n].identities);
      } else {
        ClearedKeepsOrder(After(calls[..n]), Failures(calls[..n]), calls[n].intake);
        assert Failures(calls) == Failures(calls[..n]);
      }
    }
  }

  /** What a failed call evicts failed less recently than everything it keeps. */
  lemma {:induction false} EvictsLeastRecent(calls: seq<Call>, gone: string, kept: string)
    requires calls != [] && calls[|calls| - 1].failed
    requires HasKey(CountEach(After(calls[..|calls| - 1]), calls[|calls| - 1].identities), gone)
    requires !HasKey(After(calls), gone) && HasKey(After(calls), kept)
    ensures LastAt(Failures(calls), gone) < LastAt(Failures(calls), kept)
    ensures |After(calls)| == MAX_IDENTITIES
  {
    var n := |calls| - 1;
    LedgerByRecency(calls[..n]);
    CountEachKeepsOrder(After(calls[..n]), Failures(calls[..n]), calls[n].identities);
    CutIsOldest(CountEach(After(calls[..n]), calls[n].identities), Failures(calls), MAX_IDENTITIES, gone, kept);
  }

  lemma {:induction false} CutIsOldest(m: FailureLedger, h: seq<string>, n: nat, gone: string, kept: string)
    requires ByRecency(m, h)
    requires HasKey(m, gone) && !HasKey(Newest(m, n), gone) && HasKey(Newest(m, n), kept)
    ensures LastAt(h, gone) < LastAt(h, kept) && |Newest(m, n)| == n
  {
    var r := Newest(m, n);
    var cut := |m| - |r|;
    var i :| 0 <= i < |m| && m[i].key == gone;
    var j :| 0 <= j < |r| && r[j].key == kept;
    assert forall x :: cut <= x < |m| ==> m[x] == r[x - cut];
    assert i < cut && m[cut + j] == r[j];
  }

  lemma {:induction false} JustFailed(h: seq<string>, ids: seq<Identity>, k: string)
    ensures LastAt(h + KeySeq(ids), k) >= |h| <==> k in Keys(ids)
  {
    if ids == [] {
      assert h + KeySeq(ids) == h;
      LastAtRange(h, k);
    } else {
      var n := |ids| - 1;
      JustFailed(h, ids[..n], k);
      assert h + KeySeq(ids) == (h + KeySeq(ids[..n])) + [ids[n].key];
      LastAtSnoc(h + KeySeq(ids[..n]), ids[n].key, k);
      assert ids == ids[..n] + [ids[n]];
      assert Keys(ids) == Keys(ids[..n]) + {ids[n].key};
    }
  }

  lemma {:induction false} KeysSize(ids: seq<Identity>)
    ensures |Keys(ids)| <= |ids|
  {
    if ids != [] {
      var n := |ids| - 1;
      KeysSize(ids[..n]);
      assert ids == ids[..n] + [ids[n]];
      assert Keys(ids) == Keys(ids[..n]) + {ids[n].key};
    }
  }

  lemma {:induction false} SubsetSize(a: set<string>, b: set<string>)
    requires a <= b
    ensures |a| <= |b|
  {
    assert b == a + (b - a);
  }

  lemma {:induction false} CountedIsThere(m: FailureLedger, ids: seq<Identity>, k: string)
    requires DistinctKeys(m) && k in Keys(ids)
    ensures HasKey(CountEach(m, ids), k)
  {
    CountEachIs(m, ids);
    BumpedLives(Lookup(m, k), ids, k);
    LookupIs(CountEach(m, ids), k);
  }

  /** An identity is never evicted by the call that counts it. */
  lemma {:induction false} JustCountedStays(calls: seq<Call>, k: string)
    requires calls != [] && calls[|calls| - 1].failed && |calls[|calls| - 1].identities| <= MAX_IDENTITIES
    requires k in Keys(calls[|calls| - 1].identities)
    ensures HasKey(After(calls), k)
  {
    var n := |calls| - 1;
    var ids, h, r := calls[n].identities, Failures(calls[..n]), After(calls);
    AfterDistinct(calls[..n]);
    CountedIsThere(After(calls[..n]), ids, k);
    if !HasKey(r, k) {
      JustFailed(h, ids, k);
      forall x | x in KeySet(r) + {k} ensures x in Keys(ids) {
        if x != k {
          KeySetHas(r, x);
          EvictsLeastRecent(calls, k, x);
          JustFailed(h, ids, x);
        }
      }
      TooMany(calls, k);
      SubsetSize(KeySet(r) + {k}, Keys(ids));
      KeysSize(ids);
      assert false;
    }
  }

  lemma {:induction false} TooMany(calls: seq<Call>, k: string)
    requires calls != [] && calls[|calls| - 1].failed
    requires HasKey(CountEach(After(calls[..|calls| - 1]), calls[|calls| - 1].identities), k)
        && !HasKey(After(calls), k)
    ensures |KeySet(After(calls)) + {k}| == MAX_IDENTITIES + 1
  {
    var r := After(calls);
    AfterDistinct(calls);
    DistinctSize(r);
    KeySetHas(r, k);
    assert |r| == MAX_IDENTITIES;
  }

  // ----- access boundaries survive every success -----

  function TotalFailures(calls: seq<Call>, k: string): nat {
    if calls == [] then 0 else
      var n := |calls| - 1;
      TotalFailures(calls[..n], k) + (if calls[n].failed then Occurs(calls[n].identities, k) else 0)
  }

  predicate OnlyAccess(ids: seq<Identity>, k: string) {
    forall i :: 0 <= i < |ids| && ids[i].key == k ==> ids[i].kind.AccessBoundary?
  }

  lemma {:induction false} AccessKind(ids: seq<Identity>, k: string)
    requires OnlyAccess(ids, k) && Occurs(ids, k) > 0
    ensures LastKind(ids, k).AccessBoundary?
  {
    if ids[|ids| - 1].key != k { AccessKind(ids[..|ids| - 1], k); }
  }

  /** No success ever lowers the count of an access boundary: it is the number of its failures in the whole run. */
  lemma {:induction false} AccessCountsSurvive(calls: seq<Call>, k: string)
    requires forall c :: 0 <= c < |calls| ==> OnlyAccess(calls[c].identities, k)
    ensures FailsOf(Tally(calls, k)) == TotalFailures(calls, k)
    ensures Tally(calls, k).Some? ==> Tally(calls, k).value.kind.AccessBoundary?
    ensures FewLive(calls) ==> FailsOf(Lookup(After(calls), k)) == TotalFailures(calls, k)
  {
    if calls != [] {
      var n := |calls| - 1;
      if FewLive(calls) { FewLivePrefix(calls, n); }
      AccessCountsSurvive(calls[..n], k);
      if calls[n].failed && Occurs(calls[n].identities, k) > 0 { AccessKind(calls[n].identities, k); }
    }
    if FewLive(calls) { LedgerIsTally(calls); }
  }
}
