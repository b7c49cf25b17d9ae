/** Every run of one managed attachment: spacing, the rate window, and which observations are answered. */
module ManagedSendSafety {

  import opened Common
  import opened OrderedMap
  import opened ManagedSend

  datatype Event =
    | Observe(now: int, scanId: nat, observed: Observed)
    | Claims(now: int, scanId: nat, cfg: Settings)
    | Drafts(now: int, draftId: nat, scanId: nat)
    | Sends(now: int, done: int, draftId: nat, cfg: Settings, bridge: Bridge)
    | Pauses(now: int)
    | Stops(now: int)

  /** The observation a reply answered, and its place among the observations remembered as handled. */
  datatype Answer = Answer(key: nat, place: nat)

  /** A bridge call that may have delivered a reply at any moment between its beginning and its end. */
  datatype Attempt = Attempt(began: int, ended: int)

  /** `times[i]` is when the `i`-th verified reply of the attachment was sent; `attempts` has every bridge call. */
  datatype World = World(
    scene: Scene, clock: int, times: seq<int>, answers: seq<Answer>, remembered: seq<nat>, attempts: seq<Attempt>)

  predicate Timely(w: World, e: Event) { w.clock <= e.now && (e.Sends? ==> e.now <= e.done) }

  function Ignored(s: Scene, e: Event): Option<nat> {
    if e.Claims? && Claiming(s, e.now, e.scanId, e.cfg).action.Ignore? && Lookup(Pruned(s, e.now).scans, e.scanId).Some?
    then Some(Lookup(Pruned(s, e.now).scans, e.scanId).value.key)
    else None
  }

  function Apply(w: World, e: Event): World {
    match e
    case Observe(now, id, o) => w.(scene := Observing(w.scene, now, id, o), clock := now)
    case Claims(now, id, cfg) =>
      var k := Ignored(w.scene, e);
      w.(scene := Claiming(w.scene, now, id, cfg).scene, clock := now,
         remembered := if k.Some? then w.remembered + [k.value] else w.remembered)
    case Drafts(now, d, id) => w.(scene := Drafting(w.scene, now, d, id), clock := now)
    case Sends(now, done, d, cfg, bridge) =>
      var r := Sending(w.scene, now, done, d, cfg, bridge);
      var attempts := if ReachesBridge(w.scene, now, d, cfg) then w.attempts + [Attempt(now, done)] else w.attempts;
      (match r.sent
       case None => w.(scene := r.scene, clock := done, attempts := attempts)
       case Some(k) =>
         World(r.scene, done, w.times + [done], w.answers + [Answer(k, |w.remembered|)], w.remembered + [k], attempts))
    case Pauses(now) => w.(scene := Paused(w.scene), clock := now)
    case Stops(now) => w.(scene := DETACHED, clock := now)
  }

  predicate ValidRun(w: World, run: seq<Event>)
    decreases |run|
  {
    run == [] || (Timely(w, run[0]) && ValidRun(Apply(w, run[0]), run[1..]))
  }

  function After(w: World, run: seq<Event>): World
    decreases |run|
  {
    if run == [] then w else After(Apply(w, run[0]), run[1..])
  }

  /** Just attached and armed: nothing sent, and only the baseline observation counts as handled. */
  predicate Begins(w: World, baseline: nat) {
    && w.times == [] && w.answers == [] && w.attempts == [] && w.remembered == [baseline]
    && w.scene.armed && w.scene.baseline == Some(baseline) && w.scene.digests == [baseline]
    && w.scene.pending == None && w.scene.sentAt == []
  }

  lemma {:induction false} AttachingBegins(s: Scene, now: int, scanId: nat, o: Observed, cfg: Settings, ready: bool)
    ensures var t := Attached(s, now, scanId, o, cfg, ready);
            t.armed ==> Begins(World(t, now, [], [], [o.key], []), o.key)
  {
  }

  // ----- the invariant -----

  /** Replies are at least ten seconds apart, and a seventh comes ten minutes after the first. */
  predicate Spaced(times: seq<int>) {
    && (forall i, j :: 0 <= i < j < |times| ==> times[j] - times[i] >= MIN_INTERVAL)
    && (forall i, j :: 0 <= i && i + MAX_SENDS <= j < |times| ==> times[j] - times[i] >= RATE_WINDOW)
  }

  predicate Past(times: seq<int>, clock: int) { forall i :: 0 <= i < |times| ==> times[i] <= clock }

  /** A key comes back only after more than 128 further observations. */
  predicate FarApart(remembered: seq<nat>) {
    forall i, j :: 0 <= i < j < |remembered| && remembered[i] == remembered[j] ==> j - i > MAX_DIGESTS
  }

  predicate Placed(answers: seq<Answer>, remembered: seq<nat>, baseline: nat) {
    && (forall i :: 0 <= i < |answers| ==>
          answers[i].place < |remembered| && remembered[answers[i].place] == answers[i].key
              && answers[i].key != baseline)
    && (forall i, j :: 0 <= i < j < |answers| ==> answers[i].place < answers[j].place)
  }

  /** The timestamps kept are the latest ones; every other reply is outside the window. */
  predicate Kept(sentAt: seq<int>, times: seq<int>, clock: int) {
    && |sentAt| <= |times| && sentAt == times[|times| - |sentAt|..]
    && (forall i :: 0 <= i < |times| - |sentAt| ==> clock - times[i] >= RATE_WINDOW)
  }

  /** A further reply now keeps the spacing. */
  predicate MaySend(sentAt: seq<int>, times: seq<int>, clock: int) {
    |sentAt| < MAX_SENDS && (times != [] ==> clock - times[|times| - 1] >= MIN_INTERVAL)
  }

  predicate PendingOk(w: World, baseline: nat) {
    w.scene.pending.Some? ==>
      && MaySend(w.scene.sentAt, w.times, w.clock)
      && w.scene.pending.value !in w.scene.digests && w.scene.pending.value != baseline
  }

  predicate ArmedOk(w: World, baseline: nat) {
    && w.scene.baseline == Some(baseline)
    && w.scene.digests == Newest(w.remembered, MAX_DIGESTS)
    && Kept(w.scene.sentAt, w.times, w.clock) && PendingOk(w, baseline)
  }

  predicate Inv(w: World, baseline: nat) {
    && Spaced(w.times) && Past(w.times, w.clock) && FarApart(w.remembered) && |w.answers| == |w.times|
    && Placed(w.answers, w.remembered, baseline)
    && (w.scene.armed ==> ArmedOk(w, baseline))
  }

  lemma {:induction false} NoneRecent(s: seq<int>, now: int)
    requires forall i :: 0 <= i < |s| ==> now - s[i] >= RATE_WINDOW
    ensures Recent(s, now) == []
  {
    if s != [] { NoneRecent(s[..|s| - 1], now); }
  }

  lemma {:induction false} RecentIsSuffix(s: seq<int>, now: int)
    requires forall i, j :: 0 <= i < j < |s| ==> s[i] <= s[j]
    ensures var r := Recent(s, now);
            && |r| <= |s| && r == s[|s| - |r|..]
            && (forall i :: 0 <= i < |s| - |r| ==> now - s[i] >= RATE_WINDOW)
            && (forall i :: 0 <= i < |r| ==> now - r[i] < RATE_WINDOW)
  {
    if s != [] {
      var n := |s| - 1;
      RecentIsSuffix(s[..n], now);
      var r := Recent(s[..n], now);
      if now - s[n] < RATE_WINDOW {
        SuffixGrows(s, r);
        assert forall i :: 0 <= i < n - |r| ==> s[i] == s[..n][i];
      } else {
        forall i | 0 <= i < n ensures now - s[..n][i] >= RATE_WINDOW { assert s[i] <= s[n]; }
        NoneRecent(s[..n], now);
      }
    }
  }

  lemma {:induction false} SuffixGrows(s: seq<int>, r: seq<int>)
    requires s != [] && |r| < |s| && r == s[..|s| - 1][|s| - 1 - |r|..]
    ensures r + [s[|s| - 1]] == s[|s| - 1 - |r|..]
  {
  }

  /** Forgetting timestamps outside the window as the clock moves on. */
  lemma {:induction false} ForgetKeepsKept(sentAt: seq<int>, times: seq<int>, clock: int, now: int)
    requires Kept(sentAt, times, clock) && Spaced(times) && clock <= now
    ensures Kept(Recent(sentAt, now), times, now)
  {
    var d := |times| - |sentAt|;
    forall i, j | 0 <= i < j < |sentAt| ensures sentAt[i] <= sentAt[j] {
      assert times[d + j] - times[d + i] >= MIN_INTERVAL;
    }
    RecentIsSuffix(sentAt, now);
    var r := Recent(sentAt, now);
    assert r == times[|times| - |r|..];
    forall i | 0 <= i < |times| - |r| ensures now - times[i] >= RATE_WINDOW {
      if d <= i { assert times[i] == sentAt[i - d]; }
    }
  }

  lemma {:induction false} RememberKeepsFar(remembered: seq<nat>, k: nat)
    requires FarApart(remembered) && k !in Newest(remembered, MAX_DIGESTS)
    ensures FarApart(remembered + [k])
    ensures Remembered(Newest(remembered, MAX_DIGESTS), k) == Newest(remembered + [k], MAX_DIGESTS)
  {
    var n, m := |remembered|, Newest(remembered, MAX_DIGESTS);
    forall i | n - |m| <= i < n ensures remembered[i] != k { assert remembered[i] == m[i - (n - |m|)]; }
  }

  /** Moving the clock keeps everything, and so does pruning the ephemeral records. */
  lemma {:induction false} WaitKeepsInv(w: World, now: int, scans: seq<Entry<nat, Observed>>, 
                                        drafts: seq<Entry<nat, Draft>>, baseline: nat)
    requires Inv(w, baseline) && w.clock <= now
    ensures Inv(w.(scene := w.scene.(scans := scans, drafts := drafts), clock := now), baseline)
  {
  }

  lemma {:induction false} DisarmKeepsInv(w: World, s: Scene, baseline: nat)
    requires Inv(w, baseline) && !s.armed
    ensures Inv(w.(scene := s), baseline)
  {
  }

  lemma {:induction false} IgnoreKeepsInv(w: World, k: nat, baseline: nat)
    requires Inv(w, baseline) && w.scene.armed && k !in w.scene.digests && w.scene.pending != Some(k)
    ensures Inv(w.(scene := w.scene.(digests := Remembered(w.scene.digests, k)),
                   remembered := w.remembered + [k]), baseline)
  {
    RememberKeepsFar(w.remembered, k);
    PlacedGrows(w.answers, w.remembered, k, baseline);
    RememberedMembers(w.scene.digests, k);
  }

  lemma {:induction false} RememberedMembers(digests: seq<nat>, k: nat)
    ensures forall x :: x in Remembered(digests, k) ==> x in digests || x == k
  {
  }

  lemma {:induction false} PlacedGrows(answers: seq<Answer>, remembered: seq<nat>, k: nat, baseline: nat)
    requires Placed(answers, remembered, baseline)
    ensures Placed(answers, remembered + [k], baseline)
  {
  }

  lemma {:induction false} ReplyIsSpaced(sentAt: seq<int>, times: seq<int>, clock: int, now: int)
    requires Kept(sentAt, times, clock) && Spaced(times) && clock <= now && !OverRate(Recent(sentAt, now), now)
    ensures Kept(Recent(sentAt, now), times, now) && MaySend(Recent(sentAt, now), times, now)
  {
    ForgetKeepsKept(sentAt, times, clock, now);
    var r := Recent(sentAt, now);
    if r != [] { assert r[|r| - 1] == times[|times| - 1]; }
  }

  lemma {:induction false} ReplyKeepsInv(w: World, now: int, k: nat, baseline: nat)
    requires Inv(w, baseline) && w.scene.armed && w.clock <= now && !OverRate(Recent(w.scene.sentAt, now), now)
    requires k !in w.scene.digests && k != baseline
    ensures Inv(w.(scene := w.scene.(sentAt := Recent(w.scene.sentAt, now), pending := Some(k)), clock := now),
        baseline)
  {
    ReplyIsSpaced(w.scene.sentAt, w.times, w.clock, now);
  }

  lemma {:induction false} ClaimKeepsInv(w: World, e: Event, baseline: nat)
    requires Inv(w, baseline) && Timely(w, e) && e.Claims? && w.scene.armed
    ensures Inv(Apply(w, e), baseline)
  {
    var p, c := Pruned(w.scene, e.now), Claiming(w.scene, e.now, e.scanId, e.cfg);
    var v := w.(scene := p, clock := e.now);
    WaitKeepsInv(w, e.now, p.scans, p.drafts, baseline);
    match c.action
    case Idle => assert c.scene == p;
    case Ignore => IgnoreKeepsInv(v, Lookup(p.scans, e.scanId).value.key, baseline);
    case RateLimited => DisarmKeepsInv(v, c.scene, baseline);
    case Reply => ReplyKeepsInv(v, e.now, Lookup(p.scans, e.scanId).value.key, baseline);
  }

  lemma {:induction false} SentIsSpaced(sentAt: seq<int>, times: seq<int>, clock: int, done: int)
    requires Kept(sentAt, times, clock) && MaySend(sentAt, times, clock)
    requires Spaced(times) && Past(times, clock) && clock <= done
    ensures Spaced(times + [done]) && Past(times + [done], done) && Kept(sentAt + [done], times + [done], done)
  {
    LastIsSpaced(times, clock, done);
    var n, all := |times|, times + [done];
    forall i | 0 <= i && i + MAX_SENDS <= n ensures done - times[i] >= RATE_WINDOW { assert i < n - |sentAt|; }
    forall i, j | 0 <= i && i + MAX_SENDS <= j < |all| ensures all[j] - all[i] >= RATE_WINDOW {
      if j < n { assert times[j] - times[i] >= RATE_WINDOW; }
    }
    assert sentAt + [done] == all[n - |sentAt|..];
  }

  lemma {:induction false} LastIsSpaced(times: seq<int>, clock: int, done: int)
    requires forall i, j :: 0 <= i < j < |times| ==> times[j] - times[i] >= MIN_INTERVAL
    requires (times != [] ==> clock - times[|times| - 1] >= MIN_INTERVAL) && clock <= done
    ensures var all := times + [done]; forall i, j :: 0 <= i < j < |all| ==> all[j] - all[i] >= MIN_INTERVAL
  {
    var n, all := |times|, times + [done];
    forall i, j | 0 <= i < j < |all| ensures all[j] - all[i] >= MIN_INTERVAL {
      if j == n && i < n - 1 { assert times[n - 1] - times[i] >= MIN_INTERVAL; }
    }
  }

  lemma {:induction false} SentIsPlaced(answers: seq<Answer>, remembered: seq<nat>, key: nat, baseline: nat)
    requires Placed(answers, remembered, baseline) && key != baseline
    ensures Placed(answers + [Answer(key, |remembered|)], remembered + [key], baseline)
  {
  }

  lemma {:induction false} SentKeepsInv(w: World, done: int, key: nat, s: Scene, baseline: nat)
    requires Inv(w, baseline) && w.scene.armed && w.scene.pending == Some(key) && w.clock <= done
    requires s == w.scene.(sentAt := w.scene.sentAt + [done], digests := Remembered(w.scene.digests, key),
                           pending := None, scans := s.scans, drafts := s.drafts)
    ensures Inv(w.(scene := s, clock := done, times := w.times + [done],
                   answers := w.answers + [Answer(key, |w.remembered|)], remembered := w.remembered + [key]), baseline)
  {
    RememberKeepsFar(w.remembered, key);
    SentIsSpaced(w.scene.sentAt, w.times, w.clock, done);
    SentIsPlaced(w.answers, w.remembered, key, baseline);
  }

  lemma {:induction false} SendKeepsInv(w: World, e: Event, baseline: nat)
    requires Inv(w, baseline) && Timely(w, e) && e.Sends?
    ensures Inv(Apply(w, e), baseline)
  {
    var p, r := Pruned(w.scene, e.now), Sending(w.scene, e.now, e.done, e.draftId, e.cfg, e.bridge);
    if r.sent.Some? {
      SentKeepsInv(w, e.done, r.sent.value, r.scene, baseline);
    } else {
      WaitKeepsInv(w, e.done, p.scans, p.drafts, baseline);
      if r.scene != p { DisarmKeepsInv(w.(scene := p, clock := e.done), r.scene, baseline); }
    }
  }

  lemma {:induction false} StepKeepsInv(w: World, e: Event, baseline: nat)
    requires Inv(w, baseline) && Timely(w, e)
    ensures Inv(Apply(w, e), baseline)
  {
    var t := Apply(w, e);
    if e.Sends? { SendKeepsInv(w, e, baseline); }
    else if e.Claims? && w.scene.armed { ClaimKeepsInv(w, e, baseline); }
    else if e.Pauses? || e.Stops? {
      WaitKeepsInv(w, e.now, w.scene.scans, w.scene.drafts, baseline);
      DisarmKeepsInv(w.(clock := e.now), t.scene, baseline);
    } else {
      WaitKeepsInv(w, e.now, t.scene.scans, t.scene.drafts, baseline);
    }
  }

  lemma {:induction false} RunKeepsInv(w: World, run: seq<Event>, baseline: nat)
    requires Inv(w, baseline) && ValidRun(w, run)
    ensures Inv(After(w, run), baseline)
    decreases |run|
  {
    if run != [] {
      StepKeepsInv(w, run[0], baseline);
      RunKeepsInv(Apply(w, run[0]), run[1..], baseline);
    }
  }

  // ----- what it gives -----

  function InWindow(times: seq<int>, start: int): nat {
    if times == [] then 0 else
      var n := |times| - 1;
      InWindow(times[..n], start) + (if start <= times[n] < start + RATE_WINDOW then 1 else 0)
  }

  lemma {:induction false} CountTail(times: seq<int>, start: int, k: nat)
    requires k <= |times| && forall i :: 0 <= i < k ==> times[i] < start
    ensures InWindow(times, start) <= |times| - k
  {
    if times != [] {
      var n := |times| - 1;
      CountTail(times[..n], start, if k <= n then k else n);
    }
  }

  lemma {:induction false} WindowHoldsSix(times: seq<int>, start: int)
    requires Spaced(times)
    ensures InWindow(times, start) <= MAX_SENDS
  {
    if times != [] {
      var n := |times| - 1;
      if start <= times[n] < start + RATE_WINDOW {
        var k := if n < MAX_SENDS then 0 else n + 1 - MAX_SENDS;
        forall i | 0 <= i < k ensures times[i] < start { assert times[n] - times[i] >= RATE_WINDOW; }
        CountTail(times, start, k);
      } else {
        WindowHoldsSix(times[..n], start);
      }
    }
  }

  /** All the promises of one attachment, over every run of it. */
  lemma {:induction false} AttachmentIsSafe(w: World, run: seq<Event>, baseline: nat)
    requires Begins(w, baseline) && ValidRun(w, run)
    ensures var t := After(w, run);
            && |t.answers| == |t.times|
            && (forall start :: InWindow(t.times, start) <= MAX_SENDS)
            && (forall i, j :: 0 <= i < j < |t.times| ==> t.times[j] - t.times[i] >= MIN_INTERVAL)
            && (forall i :: 0 <= i < |t.answers| ==> t.answers[i].key != baseline)
            && (forall i, j :: 0 <= i < j < |t.answers| && t.answers[i].key == t.answers[j].key ==>
                  t.answers[j].place - t.answers[i].place > MAX_DIGESTS)
  {
    RunKeepsInv(w, run, baseline);
    var t := After(w, run);
    forall start ensures InWindow(t.times, start) <= MAX_SENDS { WindowHoldsSix(t.times, start); }
  }

  /** Once managed mode is not armed, nothing is sent for the rest of the attachment. */
  lemma {:induction false} NothingAfterPause(w: World, run: seq<Event>)
    requires !w.scene.armed
    ensures !After(w, run).scene.armed && After(w, run).times == w.times && After(w, run).attempts == w.attempts
    decreases |run|
  {
    if run != [] { NothingAfterPause(Apply(w, run[0]), run[1..]); }
  }

  /** A pause, a rate limit, a changed observation or a delivery the bridge declines disarms. */
  lemma {:induction false} TroubleDisarms(w: World, e: Event)
    requires || e.Pauses? || e.Stops?
             || (e.Claims? && Claiming(w.scene, e.now, e.scanId, e.cfg).action.RateLimited?)
             || (e.Sends? && e.cfg.managed && Lookup(Pruned(w.scene, e.now).drafts, e.draftId).Some?
                 && (e.bridge.Declined? || !ReachesBridge(w.scene, e.now, e.draftId, e.cfg)))
    ensures w.scene.active ==> !Apply(w, e).scene.armed
  {
  }

  // ----- every call of the bridge -----

  predicate Rejects(w: World, e: Event) {
    e.Sends? && e.bridge.Rejected? && ReachesBridge(w.scene, e.now, e.draftId, e.cfg)
  }

  /**
   After a rejected call comes a pause or a stop before the next claim or send.  `open` says that a rejection
   still waits for it; a run may also end there.
   */
  predicate PausesAfterRejection(w: World, run: seq<Event>, open: bool)
    decreases |run|
  {
    run == [] ||
    (var e := run[0];
     && (open ==> !e.Claims? && !e.Sends?)
     && PausesAfterRejection(Apply(w, e), run[1..], Rejects(w, e) || (open && !e.Pauses? && !e.Stops?)))
  }

  /** However late one call delivered and however early the next, the two are spaced. */
  predicate Gapped(attempts: seq<Attempt>) {
    && (forall i :: 0 <= i < |attempts| ==> attempts[i].began <= attempts[i].ended)
    && (forall i, j :: 0 <= i < j < |attempts| ==> attempts[j].began - attempts[i].ended >= MIN_INTERVAL)
    && (forall i, j ::
          0 <= i && i + MAX_SENDS <= j < |attempts| ==> attempts[j].began - attempts[i].ended >= RATE_WINDOW)
  }

  /** While armed and no rejection is open, every bridge call so far was a verified reply. */
  predicate AttemptsOk(w: World, open: bool) {
    && Gapped(w.attempts)
    && (w.scene.armed && !open ==>
          |w.attempts| == |w.times| && forall i :: 0 <= i < |w.times| ==> w.attempts[i].ended == w.times[i])
  }

  lemma {:induction false} AttemptIsGapped(w: World, now: int, done: int, baseline: nat)
    requires Inv(w, baseline) && AttemptsOk(w, false) && w.scene.armed && w.scene.pending.Some?
        && w.clock <= now <= done
    ensures Gapped(w.attempts + [Attempt(now, done)])
  {
    var n, all := |w.attempts|, w.attempts + [Attempt(now, done)];
    SentIsSpaced(w.scene.sentAt, w.times, w.clock, now);
    var t := w.times + [now];
    forall i, j | 0 <= i < j < |all| ensures all[j].began - all[i].ended >= MIN_INTERVAL {
      if j == n { assert t[n] - t[i] >= MIN_INTERVAL && t[i] == all[i].ended; }
    }
    forall i, j | 0 <= i && i + MAX_SENDS <= j < |all| ensures all[j].began - all[i].ended >= RATE_WINDOW {
      if j == n { assert t[n] - t[i] >= RATE_WINDOW && t[i] == all[i].ended; }
    }
  }

  lemma {:induction false} StepKeepsAttempts(w: World, e: Event, open: bool, baseline: nat)
    requires Inv(w, baseline) && AttemptsOk(w, open) && Timely(w, e) && (open ==> !e.Claims? && !e.Sends?)
    ensures AttemptsOk(Apply(w, e), Rejects(w, e) || (open && !e.Pauses? && !e.Stops?))
  {
    if e.Sends? && ReachesBridge(w.scene, e.now, e.draftId, e.cfg) { AttemptIsGapped(w, e.now, e.done, baseline); }
  }

  lemma {:induction false} RunKeepsAttempts(w: World, run: seq<Event>, open: bool, baseline: nat)
    requires Inv(w, baseline) && AttemptsOk(w, open) && ValidRun(w, run) && PausesAfterRejection(w, run, open)
    ensures Gapped(After(w, run).attempts)
    decreases |run|
  {
    if run != [] {
      var e := run[0];
      StepKeepsInv(w, e, baseline);
      StepKeepsAttempts(w, e, open, baseline);
      RunKeepsAttempts(Apply(w, e), run[1..], Rejects(w, e) || (open && !e.Pauses? && !e.Stops?), baseline);
    }
  }

  /** Moments at which the attempts may have delivered. */
  predicate Deliveries(times: seq<int>, attempts: seq<Attempt>) {
    |times| == |attempts| && forall i :: 0 <= i < |times| ==> attempts[i].began <= times[i] <= attempts[i].ended
  }

  /**
   If every rejected call is followed by a pause before the next claim or send, as the step that calls the
   controller does, the bounds hold of everything that may have gone out, verified or not.
   */
  lemma {:induction false} AttemptsAreSafe(w: World, run: seq<Event>, baseline: nat, times: seq<int>)
    requires Begins(w, baseline) && ValidRun(w, run) && PausesAfterRejection(w, run, false)
    requires Deliveries(times, After(w, run).attempts)
    ensures forall start :: InWindow(times, start) <= MAX_SENDS
    ensures forall i, j :: 0 <= i < j < |times| ==> times[j] - times[i] >= MIN_INTERVAL
  {
    RunKeepsAttempts(w, run, false, baseline);
    var a := After(w, run).attempts;
    forall i, j | 0 <= i < j < |times| ensures times[j] - times[i] >= MIN_INTERVAL {
      assert a[j].began - a[i].ended >= MIN_INTERVAL;
    }
    forall i, j | 0 <= i && i + MAX_SENDS <= j < |times| ensures times[j] - times[i] >= RATE_WINDOW {
      assert a[j].began - a[i].ended >= RATE_WINDOW;
    }
    forall start ensures InWindow(times, start) <= MAX_SENDS { WindowHoldsSix(times, start); }
  }

  /**
   The controller itself does not disarm: a rejected call leaves managed mode armed, its observation
   pending and its draft in place.
   */
  lemma {:induction false} RejectionStaysArmed(w: World, e: Event)
    requires Rejects(w, e)
    ensures var s := Apply(w, e).scene;
            && s.armed && s.pending == w.scene.pending && s.sentAt == w.scene.sentAt
            && Lookup(s.drafts, e.draftId).Some?
  {
  }

  /**
   While its draft and observation live, a call of the bridge can be repeated at once exactly when it was
   rejected; the repetition is unspaced.
   */
  lemma {:induction false} RepeatedAttemptIff(w: World, e: Event, later: Event)
    requires e.Sends? && ReachesBridge(w.scene, e.now, e.draftId, e.cfg)
    requires later.Sends? && later.now == e.done && later.draftId == e.draftId && later.cfg == e.cfg
    requires RecordsLive(Apply(w, e).scene, Pruned(w.scene, e.now), e)
    ensures ReachesBridge(Apply(w, e).scene, later.now, later.draftId, later.cfg) <==> e.bridge.Rejected?
    ensures e.bridge.Rejected? ==> !Gapped(Apply(Apply(w, e), later).attempts)
  {
    var v := Apply(w, e);
    if e.bridge.Rejected? {
      var a := Apply(v, later).attempts;
      assert a == w.attempts + [Attempt(e.now, e.done)] + [Attempt(later.now, later.done)];
      assert a[|a| - 1].began - a[|a| - 2].ended == 0;
    }
  }

  /** When the bridge answers, the observation has not expired, nor the draft if it is still kept. */
  predicate RecordsLive(after: Scene, before: Scene, e: Event)
    requires e.Sends?
  {
    && var d := Lookup(before.drafts, e.draftId);
       && d.Some?
       && Lookup(Pruned(after, e.done).scans, d.value.scanId) == Lookup(before.scans, d.value.scanId)
       && Lookup(Pruned(after, e.done).drafts, e.draftId) == Lookup(after.drafts, e.draftId)
  }

  /** A run that observes a new incoming message, claims it, drafts a reply and sends it. */
  function FirstReply(w: World, o: Observed, scanId: nat, draftId: nat, bridge: Bridge): seq<Event> {
    var cfg := Settings(true, false);
    [Observe(w.clock, scanId, o), Claims(w.clock, scanId, cfg), Drafts(w.clock, draftId, scanId),
     Sends(w.clock, w.clock, draftId, cfg, bridge)]
  }

  lemma {:induction false} LastScanLives(scans: seq<Entry<nat, Observed>>, id: nat, o: Observed, now: int)
    requires o.createdAt == now
    ensures var live := Newest(LiveScans(Refresh(scans, id, o), now), MAX_RECORDS);
            live != [] && live[|live| - 1] == Entry(id, o) && Lookup(live, id) == Some(o)
  {
    var m := Refresh(scans, id, o);
    assert m[..|m| - 1] == Delete(scans, id);
    var all := LiveScans(m, now);
    assert all[|all| - 1] == Entry(id, o);
  }

  lemma {:induction false} StaysLast(scans: seq<Entry<nat, Observed>>, now: int)
    requires scans != [] && scans[|scans| - 1].value.createdAt == now
    ensures var live := Newest(LiveScans(scans, now), MAX_RECORDS);
            live != [] && live[|live| - 1] == scans[|scans| - 1]
            && Lookup(live, scans[|scans| - 1].key) == Some(scans[|scans| - 1].value)
  {
    var all := LiveScans(scans, now);
    assert all[|all| - 1] == scans[|scans| - 1];
  }

  lemma {:induction false} LastDraftLives(drafts: seq<Entry<nat, Draft>>, now: int)
    requires drafts != [] && drafts[|drafts| - 1].value.createdAt == now
    ensures var live := Newest(LiveDrafts(drafts, now), MAX_RECORDS);
            live != [] && live[|live| - 1] == drafts[|drafts| - 1]
            && Lookup(live, drafts[|drafts| - 1].key) == Some(drafts[|drafts| - 1].value)
  {
    var all := LiveDrafts(drafts, now);
    assert all[|all| - 1] == drafts[|drafts| - 1];
  }

  /** The newest scan and draft of the scene are of the pending observation. */
  predicate ReadyToSend(s: Scene, o: Observed, scanId: nat, draftId: nat, now: int) {
    && s.active && s.armed && s.pending == Some(o.key)
    && s.scans != [] && s.scans[|s.scans| - 1] == Entry(scanId, o.(createdAt := now))
    && s.drafts != [] && s.drafts[|s.drafts| - 1] == Entry(draftId, Draft(scanId, o.digest, now))
  }

  lemma {:induction false} ObservedScene(w: World, o: Observed, scanId: nat, baseline: nat)
    requires Begins(w, baseline) && w.scene.active && w.scene.bound == Some(o.conversation)
    requires o.newestIncoming && o.key != baseline
    ensures var s := Observing(w.scene, w.clock, scanId, o);
            && s.scans != [] && s.scans[|s.scans| - 1] == Entry(scanId, o.(createdAt := w.clock))
            && Claiming(s, w.clock, scanId, Settings(true, false)).action.Reply?
  {
    LastScanLives(w.scene.scans, scanId, o.(createdAt := w.clock), w.clock);
    StaysLast(Observing(w.scene, w.clock, scanId, o).scans, w.clock);
  }

  lemma {:induction false} DraftedScene(w: World, o: Observed, scanId: nat, draftId: nat, baseline: nat)
    requires Begins(w, baseline) && w.scene.active && w.scene.bound == Some(o.conversation)
    requires o.newestIncoming && o.key != baseline
    ensures var s := Claiming(Observing(w.scene, w.clock, scanId, o), w.clock, scanId, Settings(true, false)).scene;
            ReadyToSend(Drafting(s, w.clock, draftId, scanId), o, scanId, draftId, w.clock)
  {
    var s := Observing(w.scene, w.clock, scanId, o);
    ObservedScene(w, o, scanId, baseline);
    StaysLast(s.scans, w.clock);
    var c := Claiming(s, w.clock, scanId, Settings(true, false)).scene;
    assert Lookup(c.scans, scanId) == Some(o.(createdAt := w.clock));
    StaysLast(c.scans, w.clock);
    LastDraftLives(Refresh(c.drafts, draftId, Draft(scanId, o.digest, w.clock)), w.clock);
  }

  lemma {:induction false} ReadyReaches(s: Scene, o: Observed, scanId: nat, draftId: nat, now: int)
    requires ReadyToSend(s, o, scanId, draftId, now)
    ensures ReachesBridge(s, now, draftId, Settings(true, false))
  {
    StaysLast(s.scans, now);
    LastDraftLives(s.drafts, now);
  }

  /** From the beginning of an attachment the first reply can already be rejected. */
  lemma {:induction false} RejectionIsReachable(w: World, o: Observed, scanId: nat, draftId: nat, baseline: nat)
    requires Begins(w, baseline) && w.scene.active && w.scene.bound == Some(o.conversation)
    requires o.newestIncoming && o.key != baseline
    ensures var run := FirstReply(w, o, scanId, draftId, Rejected);
            && ValidRun(w, run)
            && Rejects(After(w, run[..3]), run[3])
  {
    var cfg := Settings(true, false);
    DraftedWorld(w, o, scanId, draftId, baseline);
    var w3 := Apply(Apply(Apply(w, Observe(w.clock, scanId, o)), Claims(w.clock, scanId, cfg)),
                    Drafts(w.clock, draftId, scanId));
    ReadyReaches(w3.scene, o, scanId, draftId, w.clock);
    var run := FirstReply(w, o, scanId, draftId, Rejected);
    assert run[..3] == [run[0], run[1], run[2]];
    RunOfFour(w, run[0], run[1], run[2], run[3]);
  }

  lemma {:induction false} DraftedWorld(w: World, o: Observed, scanId: nat, draftId: nat, baseline: nat)
    requires Begins(w, baseline) && w.scene.active && w.scene.bound == Some(o.conversation)
    requires o.newestIncoming && o.key != baseline
    ensures var w1 := Apply(w, Observe(w.clock, scanId, o));
            var w2 := Apply(w1, Claims(w.clock, scanId, Settings(true, false)));
            var w3 := Apply(w2, Drafts(w.clock, draftId, scanId));
            && w1.clock == w2.clock == w3.clock == w.clock
            && ReadyToSend(w3.scene, o, scanId, draftId, w.clock)
  {
    DraftedScene(w, o, scanId, draftId, baseline);
  }

  lemma {:induction false} RunOfFour(w: World, a: Event, b: Event, c: Event, d: Event)
    ensures After(w, [a, b, c]) == Apply(Apply(Apply(w, a), b), c)
    ensures ValidRun(w, [a, b, c, d]) <==>
              && Timely(w, a) && Timely(Apply(w, a), b) && Timely(Apply(Apply(w, a), b), c)
              && Timely(Apply(Apply(Apply(w, a), b), c), d)
  {
    var x, y := Apply(w, a), Apply(Apply(w, a), b);
    assert [a, b, c][1..] == [b, c] && [b, c][1..] == [c] && [c][1..] == [];
    assert After(y, [c]) == After(Apply(y, c), []) && After(x, [b, c]) == After(y, [c]);
    assert [a, b, c, d][1..] == [b, c, d] && [b, c, d][1..] == [c, d] && [c, d][1..] == [d] && [d][1..] == [];
    assert ValidRun(Apply(y, c), [d]) == Timely(Apply(y, c), d);
    assert ValidRun(y, [c, d]) == (Timely(y, c) && ValidRun(Apply(y, c), [d]));
    assert ValidRun(x, [b, c, d]) == (Timely(x, b) && ValidRun(y, [c, d]));
  }
}
