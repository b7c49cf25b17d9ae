/** Which observations are claimed and answered, and exactly when. */
module ManagedSendEligible {

  import opened Common
  import opened OrderedMap
  import opened ManagedSend
  import opened ManagedSendSafety

  // ----- which stored observations are live -----

  predicate IsLive(e: Entry<nat, Observed>, now: int) { now - SCAN_TTL <= e.value.createdAt }

  function CountLive(scans: seq<Entry<nat, Observed>>, now: int): nat {
    if scans == [] then 0
    else CountLive(scans[..|scans| - 1], now) + (if IsLive(scans[|scans| - 1], now) then 1 else 0)
  }

  /** Stored, not older than five minutes, and among the newest twenty-four that are not. */
  predicate LiveAt(scans: seq<Entry<nat, Observed>>, i: nat, now: int)
    requires i < |scans|
  {
    IsLive(scans[i], now) && CountLive(scans[i + 1..], now) < MAX_RECORDS
  }

  predicate LiveScan(scans: seq<Entry<nat, Observed>>, id: nat, o: Observed, now: int) {
    exists i: nat :: i < |scans| && scans[i] == Entry(id, o) && LiveAt(scans, i, now)
  }

  lemma {:induction false} LiveConcat(a: seq<Entry<nat, Observed>>, b: seq<Entry<nat, Observed>>, now: int)
    ensures LiveScans(a + b, now) == LiveScans(a, now) + LiveScans(b, now)
    decreases |b|
  {
    if b == [] {
      assert a + b == a;
      assert LiveScans(a, now) + [] == LiveScans(a, now);
    } else {
      var n := |b| - 1;
      assert (a + b)[..|a + b| - 1] == a + b[..n];
      LiveConcat(a, b[..n], now);
      var last := if IsLive(b[n], now) then [b[n]] else [];
      assert LiveScans(a, now) + (LiveScans(b[..n], now) + last) == LiveScans(a, now) + LiveScans(b[..n], now) + last;
    }
  }

  lemma {:induction false} LiveScansAre(scans: seq<Entry<nat, Observed>>, now: int)
    ensures |LiveScans(scans, now)| == CountLive(scans, now)
    ensures forall e :: e in LiveScans(scans, now) ==> e in scans && IsLive(e, now)
    ensures DistinctKeys(scans) ==> DistinctKeys(LiveScans(scans, now))
  {
    if scans != [] {
      var n := |scans| - 1;
      LiveScansAre(scans[..n], now);
      assert scans == scans[..n] + [scans[n]];
      var d := LiveScans(scans[..n], now);
      if DistinctKeys(scans) {
        forall i | 0 <= i < |d| ensures d[i].key != scans[n].key { assert d[i] in scans[..n]; }
      }
    }
  }

  /** What pruning keeps of the observations. */
  function KeptScans(scans: seq<Entry<nat, Observed>>, now: int): seq<Entry<nat, Observed>> {
    Newest(LiveScans(scans, now), MAX_RECORDS)
  }

  lemma {:induction false} KeptScansDistinct(scans: seq<Entry<nat, Observed>>, now: int)
    requires DistinctKeys(scans)
    ensures DistinctKeys(KeptScans(scans, now))
    ensures forall e :: e in KeptScans(scans, now) ==> e in scans && IsLive(e, now)
  {
    LiveScansAre(scans, now);
    var all, kept := LiveScans(scans, now), KeptScans(scans, now);
    forall e | e in kept ensures e in all {
      var i :| 0 <= i < |kept| && kept[i] == e;
      assert all[|all| - |kept| + i] == e;
    }
  }

  /** Where a live entry stands among the live ones. */
  lemma {:induction false} LivePosition(scans: seq<Entry<nat, Observed>>, i: nat, now: int)
    requires i < |scans| && IsLive(scans[i], now)
    ensures var all, p := LiveScans(scans, now), CountLive(scans[..i], now);
            p < |all| && all[p] == scans[i] && |all| - p - 1 == CountLive(scans[i + 1..], now)
  {
    var before, after := scans[..i], scans[i + 1..];
    assert scans == before + ([scans[i]] + after);
    LiveConcat(before, [scans[i]] + after, now);
    LiveConcat([scans[i]], after, now);
    assert [scans[i]][..0] == [] && LiveScans([scans[i]], now) == [scans[i]];
    LiveScansAre(before, now);
    LiveScansAre(after, now);
  }

  lemma {:induction false} LookupLive(scans: seq<Entry<nat, Observed>>, id: nat, o: Observed, now: int)
    requires DistinctKeys(scans)
    ensures Lookup(KeptScans(scans, now), id) == Some(o) <==> LiveScan(scans, id, o, now)
  {
    KeptScansDistinct(scans, now);
    var all, kept := LiveScans(scans, now), KeptScans(scans, now);
    LookupIs(kept, id);
    if Lookup(kept, id) == Some(o) {
      assert Entry(id, o) in kept && Entry(id, o) in scans;
      var i: nat :| i < |scans| && scans[i] == Entry(id, o);
      var q :| 0 <= q < |kept| && kept[q] == Entry(id, o);
      LivePosition(scans, i, now);
      LiveScansAre(scans, now);
      assert all[|all| - |kept| + q] == all[CountLive(scans[..i], now)];
      assert LiveAt(scans, i, now);
    }
    if LiveScan(scans, id, o, now) {
      var i: nat :| i < |scans| && scans[i] == Entry(id, o) && LiveAt(scans, i, now);
      LivePosition(scans, i, now);
      var q := CountLive(scans[..i], now) - (|all| - |kept|);
      assert kept[q] == Entry(id, o);
    }
  }

  // ----- the rate, over the replies of the attachment -----

  lemma {:induction false} RecentConcat(a: seq<int>, b: seq<int>, now: int)
    ensures Recent(a + b, now) == Recent(a, now) + Recent(b, now)
    decreases |b|
  {
    if b == [] {
      assert a + b == a;
      assert Recent(a, now) + [] == Recent(a, now);
    } else {
      var n := |b| - 1;
      assert (a + b)[..|a + b| - 1] == a + b[..n];
      RecentConcat(a, b[..n], now);
      var last := if now - b[n] < RATE_WINDOW then [b[n]] else [];
      assert Recent(a, now) + (Recent(b[..n], now) + last) == Recent(a, now) + Recent(b[..n], now) + last;
    }
  }

  lemma {:induction false} RecentCounts(times: seq<int>, now: int)
    requires Past(times, now)
    ensures |Recent(times, now)| == InWindow(times, now - RATE_WINDOW + 1)
  {
    if times != [] { RecentCounts(times[..|times| - 1], now); }
  }

  /** Fewer than six replies in the last ten minutes, and none in the last ten seconds. */
  predicate WithinRate(times: seq<int>, now: int) {
    && InWindow(times, now - RATE_WINDOW + 1) < MAX_SENDS
    && (times != [] ==> now - times[|times| - 1] >= MIN_INTERVAL)
  }

  lemma {:induction false} RateIs(sentAt: seq<int>, times: seq<int>, clock: int, now: int)
    requires Kept(sentAt, times, clock) && Past(times, clock) && Spaced(times) && clock <= now
    ensures OverRate(Recent(sentAt, now), now) <==> !WithinRate(times, now)
  {
    var d := |times| - |sentAt|;
    assert times == times[..d] + sentAt;
    RecentConcat(times[..d], sentAt, now);
    NoneRecent(times[..d], now);
    RecentCounts(times, now);
    ForgetKeepsKept(sentAt, times, clock, now);
    var r := Recent(sentAt, now);
    if r != [] { assert r[|r| - 1] == times[|times| - 1]; }
  }

  // ----- exactly when a claim answers -----

  /** An observation that may be answered, but for the mention and the rate. */
  predicate Answerable(w: World, now: int, scanId: nat, o: Observed, cfg: Settings, baseline: nat) {
    && cfg.managed && LiveScan(w.scene.scans, scanId, o, now)
    && Some(o.conversation) == w.scene.bound && o.newestIncoming
    && o.key != baseline && o.key !in Newest(w.remembered, MAX_DIGESTS) && w.scene.pending != Some(o.key)
  }

  predicate Mentioned(o: Observed, cfg: Settings) { cfg.mentionOnly ==> o.mentioned }

  /** While managed mode is armed, the answer to a claim is decided by the observation, the mention and the rate. */
  lemma {:induction false} ClaimActionIff(w: World, now: int, scanId: nat, o: Observed, cfg: Settings, baseline: nat)
    requires Inv(w, baseline) && w.scene.active && w.scene.armed && w.clock <= now && DistinctKeys(w.scene.scans)
    ensures LiveScan(w.scene.scans, scanId, o, now) ==>
              var a := Claiming(w.scene, now, scanId, cfg).action;
              var able := Answerable(w, now, scanId, o, cfg, baseline);
              && (a.Reply? <==> able && Mentioned(o, cfg) && WithinRate(w.times, now))
              && (a.RateLimited? <==> able && Mentioned(o, cfg) && !WithinRate(w.times, now))
              && (a.Ignore? <==> able && !Mentioned(o, cfg))
    ensures Claiming(w.scene, now, scanId, cfg).action.Reply? ==> exists p :: LiveScan(w.scene.scans, scanId, p, now)
  {
    LookupLive(w.scene.scans, scanId, o, now);
    RateIs(w.scene.sentAt, w.times, w.clock, now);
    var found := Lookup(Pruned(w.scene, now).scans, scanId);
    if found.Some? { LookupLive(w.scene.scans, scanId, found.value, now); }
  }

  /** A claimed reply becomes the pending observation. */
  lemma {:induction false} ReplyIsPending(w: World, now: int, scanId: nat, o: Observed, cfg: Settings)
    requires DistinctKeys(w.scene.scans) && LiveScan(w.scene.scans, scanId, o, now)
    requires Claiming(w.scene, now, scanId, cfg).action.Reply?
    ensures Apply(w, Claims(now, scanId, cfg)).scene.pending == Some(o.key)
  {
    LookupLive(w.scene.scans, scanId, o, now);
  }

  /**
   A send answers exactly when it reaches the bridge and the bridge delivers, and it answers the pending
   observation.
   */
  lemma {:induction false} SendAnswersIff(w: World, e: Event)
    requires e.Sends?
    ensures var t := Apply(w, e);
            if ReachesBridge(w.scene, e.now, e.draftId, e.cfg) && e.bridge.Delivered? then
              && t.times == w.times + [e.done] && |t.answers| == |w.answers| + 1
              && w.scene.pending == Some(t.answers[|w.answers|].key)
            else t.times == w.times && t.answers == w.answers
  {
  }

  /** Attaching arms exactly when managed mode is on and the preflight succeeds; a failed preflight detaches. */
  lemma {:induction false} AttachingArmsIff(s: Scene, now: int, scanId: nat, o: Observed, cfg: Settings, ready: bool)
    ensures var t := Attached(s, now, scanId, o, cfg, ready);
            && (t.armed <==> cfg.managed && ready)
            && (t.armed ==> t.active && t.bound == Some(o.conversation))
            && (cfg.managed && !ready ==> t == DETACHED)
  {
    LastScanLives(s.scans, scanId, o.(createdAt := now), now);
  }

  // ----- where every answer comes from -----

  lemma {:induction false} RunLast(w: World, run: seq<Event>)
    requires run != []
    ensures After(w, run) == Apply(After(w, run[..|run| - 1]), run[|run| - 1])
    ensures ValidRun(w, run) ==> ValidRun(w, run[..|run| - 1]) && Timely(After(w, run[..|run| - 1]), run[|run| - 1])
    decreases |run|
  {
    if |run| == 1 {
      assert run[1..] == [] && run[..0] == [];
    } else {
      RunLast(Apply(w, run[0]), run[1..]);
      assert run[1..][..|run| - 2] == run[..|run| - 1][1..];
    }
  }

  /** The stored observation was made by the run, or was there before it. */
  predicate ComesFrom(w: World, run: seq<Event>, id: nat, o: Observed) {
    || Entry(id, o) in w.scene.scans
    || exists j: nat :: && j < |run| && run[j].Observe? && run[j].scanId == id
                        && o == run[j].observed.(createdAt := run[j].now) && Some(o.conversation) == w.scene.bound
  }

  /** The claim at `k` was of an incoming observation of the bound conversation, live and mentioned if it had to be. */
  ghost predicate GrantedAt(w: World, run: seq<Event>, k: nat, key: nat) {
    && k < |run| && run[k].Claims?
    && exists o :: GrantedFor(w, run, k, o) && o.key == key
  }

  predicate GrantedFor(w: World, run: seq<Event>, k: nat, o: Observed)
    requires k < |run| && run[k].Claims?
  {
    && ComesFrom(w, run[..k], run[k].scanId, o)
    && Some(o.conversation) == w.scene.bound && o.newestIncoming && Mentioned(o, run[k].cfg)
    && o.createdAt >= run[k].now - SCAN_TTL && run[k].cfg.managed
  }

  ghost predicate Granted(w: World, run: seq<Event>, key: nat) { exists k: nat :: GrantedAt(w, run, k, key) }

  lemma {:induction false} GrantedGrows(w: World, run: seq<Event>, e: Event, key: nat)
    requires Granted(w, run, key)
    ensures Granted(w, run + [e], key)
  {
    var k: nat :| GrantedAt(w, run, k, key);
    var o :| GrantedFor(w, run, k, o) && o.key == key;
    assert (run + [e])[..k] == run[..k] && (run + [e])[k] == run[k];
    assert GrantedFor(w, run + [e], k, o);
    assert GrantedAt(w, run + [e], k, key);
  }

  lemma {:induction false} ComesFromGrows(w: World, run: seq<Event>, e: Event, id: nat, o: Observed)
    requires ComesFrom(w, run, id, o)
    ensures ComesFrom(w, run + [e], id, o)
  {
    if Entry(id, o) !in w.scene.scans {
      var j: nat :| && j < |run| && run[j].Observe? && run[j].scanId == id
                    && o == run[j].observed.(createdAt := run[j].now) && Some(o.conversation) == w.scene.bound;
      assert (run + [e])[j] == run[j];
    }
  }

  /** Everything stored has a source, and everything pending or answered was granted. */
  ghost predicate Traced(w: World, run: seq<Event>, x: World) {
    && DistinctKeys(x.scene.scans)
    && (forall i :: 0 <= i < |x.scene.scans| ==> ComesFrom(w, run, x.scene.scans[i].key, x.scene.scans[i].value))
    && (x.scene.active ==> x.scene.bound == w.scene.bound)
    && (x.scene.pending.Some? ==> Granted(w, run, x.scene.pending.value))
    && (forall i :: 0 <= i < |x.answers| ==> Granted(w, run, x.answers[i].key))
  }

  lemma {:induction false} ScansTraced(w: World, run: seq<Event>, x: World, e: Event)
    requires Traced(w, run, x)
    ensures var t := Apply(x, e);
            && DistinctKeys(t.scene.scans)
            && forall i :: 0 <= i < |t.scene.scans| ==>
                 ComesFrom(w, run + [e], t.scene.scans[i].key, t.scene.scans[i].value)
  {
    var t := Apply(x, e);
    if e.Observe? && x.scene.active && x.scene.bound == Some(e.observed.conversation) {
      ObservedTraced(w, run, x, e);
    } else {
      forall i | 0 <= i < |t.scene.scans| ensures t.scene.scans[i] in x.scene.scans && DistinctKeys(t.scene.scans) {
        if t.scene.scans != x.scene.scans { KeptScansDistinct(x.scene.scans, e.now); }
      }
      forall i | 0 <= i < |t.scene.scans|
        ensures ComesFrom(w, run + [e], t.scene.scans[i].key, t.scene.scans[i].value)
      {
        ComesFromGrows(w, run, e, t.scene.scans[i].key, t.scene.scans[i].value);
      }
    }
  }

  lemma {:induction false} ObservedTraced(w: World, run: seq<Event>, x: World, e: Event)
    requires Traced(w, run, x) && e.Observe? && x.scene.active && x.scene.bound == Some(e.observed.conversation)
    ensures var t := Apply(x, e);
            && DistinctKeys(t.scene.scans)
            && forall i :: 0 <= i < |t.scene.scans| ==>
                 ComesFrom(w, run + [e], t.scene.scans[i].key, t.scene.scans[i].value)
  {
    var o := e.observed.(createdAt := e.now);
    var m := Refresh(x.scene.scans, e.scanId, o);
    RefreshIs(x.scene.scans, e.scanId, o);
    KeptScansDistinct(m, e.now);
    var scans := Apply(x, e).scene.scans;
    assert (run + [e])[|run|] == e;
    forall i | 0 <= i < |scans| ensures ComesFrom(w, run + [e], scans[i].key, scans[i].value) {
      assert scans[i] in m;
      var j :| 0 <= j < |m| && m[j] == scans[i];
      if j < |m| - 1 {
        assert m[j] in x.scene.scans;
        var q :| 0 <= q < |x.scene.scans| && x.scene.scans[q] == m[j];
        ComesFromGrows(w, run, e, scans[i].key, scans[i].value);
      }
    }
  }

  lemma {:induction false} ClaimTraced(w: World, run: seq<Event>, x: World, e: Event, baseline: nat)
    requires Traced(w, run, x) && Inv(x, baseline) && Timely(x, e) && e.Claims? && x.scene.active && x.scene.armed
    requires Claiming(x.scene, e.now, e.scanId, e.cfg).action.Reply?
    ensures var k := Apply(x, e).scene.pending; k.Some? && Granted(w, run + [e], k.value)
  {
    var found := Lookup(Pruned(x.scene, e.now).scans, e.scanId);
    var o := found.value;
    LookupLive(x.scene.scans, e.scanId, o, e.now);
    ClaimActionIff(x, e.now, e.scanId, o, e.cfg, baseline);
    var i: nat :| i < |x.scene.scans| && x.scene.scans[i] == Entry(e.scanId, o) && LiveAt(x.scene.scans, i, e.now);
    var all := run + [e];
    assert all[..|run|] == run && all[|run|] == e;
    assert GrantedFor(w, all, |run|, o);
    assert GrantedAt(w, all, |run|, o.key);
  }

  lemma {:induction false} StepTraced(w: World, run: seq<Event>, x: World, e: Event, baseline: nat)
    requires Traced(w, run, x) && Inv(x, baseline) && Timely(x, e)
    ensures Traced(w, run + [e], Apply(x, e))
  {
    var t := Apply(x, e);
    ScansTraced(w, run, x, e);
    if e.Claims? && Claiming(x.scene, e.now, e.scanId, e.cfg).action.Reply? {
      ClaimTraced(w, run, x, e, baseline);
    } else if t.scene.pending.Some? {
      assert t.scene.pending == x.scene.pending;
      GrantedGrows(w, run, e, t.scene.pending.value);
    }
    forall i | 0 <= i < |t.answers| ensures Granted(w, run + [e], t.answers[i].key) {
      if i < |x.answers| {
        assert t.answers[i] == x.answers[i];
        GrantedGrows(w, run, e, t.answers[i].key);
      } else {
        SendAnswersIff(x, e);
        GrantedGrows(w, run, e, t.answers[i].key);
      }
    }
  }

  lemma {:induction false} RunTraced(w: World, run: seq<Event>, baseline: nat)
    requires Begins(w, baseline) && DistinctKeys(w.scene.scans) && ValidRun(w, run)
    ensures Traced(w, run, After(w, run))
    decreases |run|
  {
    if run == [] {
      forall i | 0 <= i < |w.scene.scans| ensures ComesFrom(w, run, w.scene.scans[i].key, w.scene.scans[i].value) {
        assert w.scene.scans[i] in w.scene.scans;
      }
    } else {
      var n := |run| - 1;
      RunLast(w, run);
      RunTraced(w, run[..n], baseline);
      RunKeepsInv(w, run[..n], baseline);
      assert run == run[..n] + [run[n]];
      StepTraced(w, run[..n], After(w, run[..n]), run[n], baseline);
    }
  }

  /**
   Over every run of an attachment, each answer is to an observation claimed while it was live, of the bound
   conversation, with an incoming newest message, and mentioning the Agent if the claim asked for it; the run
   observed it, or it was stored before the run.
   */
  lemma {:induction false} AnsweredWasEligible(w: World, run: seq<Event>, baseline: nat, i: nat)
    requires Begins(w, baseline) && DistinctKeys(w.scene.scans) && ValidRun(w, run)
    requires i < |After(w, run).answers|
    ensures exists k: nat :: GrantedAt(w, run, k, After(w, run).answers[i].key)
  {
    RunTraced(w, run, baseline);
    assert Granted(w, run, After(w, run).answers[i].key);
  }
}
