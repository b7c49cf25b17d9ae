/**
 Managed mode of the group scene controller: claiming an observation, sending one verified reply to
 it, and pausing.  Times are milliseconds; observation keys, conversations and ids are opaque numbers.
 The bridge call of a send is one step with an outcome; it may also be rejected, by a timeout or a failed
 helper, when nobody knows whether the reply went out.
 */
module ManagedSend {

  import opened Common
  import opened OrderedMap

  const SCAN_TTL: int := 300_000
  const MAX_RECORDS: nat := 24
  const RATE_WINDOW: int := 600_000
  const MIN_INTERVAL: int := 10_000
  const MAX_SENDS: nat := 6
  const MAX_DIGESTS: nat := 128

  datatype Observed = Observed(conversation: nat, key: nat, digest: nat, newestIncoming: bool, mentioned: bool,
      createdAt: int)

  datatype Draft = Draft(scanId: nat, digest: nat, createdAt: int)

  datatype Settings = Settings(managed: bool, mentionOnly: bool)

  datatype Scene = Scene(
    active: bool, bound: Option<nat>, armed: bool, baseline: Option<nat>, pending: Option<nat>, paused: bool,
    sentAt: seq<int>, digests: seq<nat>, scans: seq<Entry<nat, Observed>>, drafts: seq<Entry<nat, Draft>>)

  datatype Claim = Idle | Ignore | RateLimited | Reply

  // ----- what each call does -----

  function LiveScans(scans: seq<Entry<nat, Observed>>, now: int): seq<Entry<nat, Observed>> {
    if scans == [] then [] else
      var n := |scans| - 1;
      LiveScans(scans[..n], now) + (if scans[n].value.createdAt < now - SCAN_TTL then [] else [scans[n]])
  }

  function LiveDrafts(drafts: seq<Entry<nat, Draft>>, now: int): seq<Entry<nat, Draft>> {
    if drafts == [] then [] else
      var n := |drafts| - 1;
      LiveDrafts(drafts[..n], now) + (if drafts[n].value.createdAt < now - SCAN_TTL then [] else [drafts[n]])
  }

  function Pruned(s: Scene, now: int): Scene {
    s.(scans := Newest(LiveScans(s.scans, now), MAX_RECORDS), drafts := Newest(LiveDrafts(s.drafts, now), MAX_RECORDS))
  }

  function Paused(s: Scene): Scene {
    if !s.armed && s.paused then s else s.(armed := false, pending := None, paused := true)
  }

  /** A key already in the set keeps its place. */
  function Remembered(digests: seq<nat>, k: nat): seq<nat> {
    Newest(if k in digests then digests else digests + [k], MAX_DIGESTS)
  }

  function Recent(sentAt: seq<int>, now: int): seq<int> {
    if sentAt == [] then [] else
      var n := |sentAt| - 1;
      Recent(sentAt[..n], now) + (if now - sentAt[n] < RATE_WINDOW then [sentAt[n]] else [])
  }

  predicate OverRate(recent: seq<int>, now: int) {
    |recent| >= MAX_SENDS || (recent != [] && now - recent[|recent| - 1] < MIN_INTERVAL)
  }

  datatype Claimed = Claimed(scene: Scene, action: Claim)

  function Claiming(before: Scene, now: int, scanId: nat, cfg: Settings): Claimed {
    var s := Pruned(before, now);
    if !s.active || !cfg.managed || !s.armed then Claimed(s, Idle) else
      match Lookup(s.scans, scanId)
      case None => Claimed(s, Idle)
      case Some(o) =>
        if Some(o.conversation) != s.bound then Claimed(s, Idle)
        else if Some(o.key) == s.baseline || o.key in s.digests || s.pending == Some(o.key) then Claimed(s, Idle)
        else if !o.newestIncoming then Claimed(s, Idle)
        else if cfg.mentionOnly && !o.mentioned then Claimed(s.(digests := Remembered(s.digests, o.key)), Ignore)
        else
          var t := s.(sentAt := Recent(s.sentAt, now));
          if OverRate(t.sentAt, now) then Claimed(Paused(t), RateLimited)
          else Claimed(t.(pending := Some(o.key)), Reply)
  }

  datatype SendResult = SendResult(scene: Scene, sent: Option<nat>)

  datatype Bridge = Delivered | Declined | Rejected

  /** The managed draft whose observation is the pending one. */
  predicate ReachesBridge(before: Scene, now: int, draftId: nat, cfg: Settings) {
    var s := Pruned(before, now);
    && s.active && cfg.managed && s.armed
    && var d := Lookup(s.drafts, draftId);
       && d.Some?
       && var o := Lookup(s.scans, d.value.scanId);
          o.Some? && o.value.digest == d.value.digest && s.pending == Some(o.value.key)
  }

  /** `done` is the clock when the bridge answers.  A rejected call throws past the bookkeeping. */
  function Sending(before: Scene, now: int, done: int, draftId: nat, cfg: Settings, bridge: Bridge): SendResult {
    var s := Pruned(before, now);
    if !s.active || !cfg.managed || !s.armed then SendResult(s, None) else
      match Lookup(s.drafts, draftId)
      case None => SendResult(s, None)
      case Some(d) =>
        var o := Lookup(s.scans, d.scanId);
        if o.None? || o.value.digest != d.digest || s.pending != Some(o.value.key) then SendResult(Paused(s), None)
        else match bridge
          case Rejected => SendResult(s, None)
          case Declined => SendResult(Paused(s), None)
          case Delivered =>
            SendResult(s.(sentAt := s.sentAt + [done], digests := Remembered(s.digests, o.value.key),
                          pending := None, drafts := Delete(s.drafts, draftId)),
                       Some(o.value.key))
  }

  function Observing(s: Scene, now: int, scanId: nat, o: Observed): Scene {
    if !s.active || s.bound != Some(o.conversation) then s
    else Pruned(s.(scans := Refresh(s.scans, scanId, o.(createdAt := now))), now)
  }

  function Drafting(s: Scene, now: int, draftId: nat, scanId: nat): Scene {
    match Lookup(s.scans, scanId)
    case None => s
    case Some(o) => Pruned(s.(drafts := Refresh(s.drafts, draftId, Draft(scanId, o.digest, now))), now)
  }

  const DETACHED: Scene := Scene(false, None, false, None, None, false, [], [], [], [])

  /** Everything managed is reset before the first observation is read. */
  function Reading(s: Scene, now: int, scanId: nat, o: Observed): Scene {
    Pruned(Scene(true, Some(o.conversation), false, None, None, false, [], [],
                 Refresh(s.scans, scanId, o.(createdAt := now)), s.drafts), now)
  }

  /** The attachment's first observation becomes the baseline; a failed preflight detaches again. */
  function Attached(s: Scene, now: int, scanId: nat, o: Observed, cfg: Settings, ready: bool): Scene {
    var t := Reading(s, now, scanId, o);
    if !cfg.managed || Lookup(t.scans, scanId).None? then t
    else if !ready then DETACHED
    else t.(armed := true, baseline := Some(o.key), digests := [o.key])
  }

  // ----- the class -----

  class GroupSceneController {
    var active: bool
    var bound: Option<nat>
    var armed: bool
    var baseline: Option<nat>
    var pending: Option<nat>
    var paused: bool
    var sentAt: seq<int>
    var digests: seq<nat>
    var scans: seq<Entry<nat, Observed>>
    var drafts: seq<Entry<nat, Draft>>

    function View(): Scene
      reads this
    {
      Scene(active, bound, armed, baseline, pending, paused, sentAt, digests, scans, drafts)
    }

    constructor ()
      ensures View() == DETACHED
    {
      active, bound, armed, baseline, pending, paused := false, None, false, None, None, false;
      sentAt, digests, scans, drafts := [], [], [], [];
    }

    method Prune(now: int)
      modifies this`scans, this`drafts
      ensures View() == Pruned(old(View()), now)
    {
      var keptScans, keptDrafts := [], [];
      for i := 0 to |scans|
        invariant keptScans == LiveScans(scans[..i], now)
      {
        assert scans[..i + 1][..i] == scans[..i];
        if scans[i].value.createdAt >= now - SCAN_TTL { keptScans := keptScans + [scans[i]]; }
      }
      assert scans[..|scans|] == scans;
      for i := 0 to |drafts|
        invariant keptDrafts == LiveDrafts(drafts[..i], now)
      {
        assert drafts[..i + 1][..i] == drafts[..i];
        if drafts[i].value.createdAt >= now - SCAN_TTL { keptDrafts := keptDrafts + [drafts[i]]; }
      }
      assert drafts[..|drafts|] == drafts;
      scans := DropOldest(keptScans, MAX_RECORDS);
      drafts := DropOldest(keptDrafts, MAX_RECORDS);
    }

    method Pause()
      modifies this`armed, this`pending, this`paused
      ensures View() == Paused(old(View()))
    {
      if !armed && paused { return; }
      armed, pending, paused := false, None, true;
    }

    method RememberDigest(k: nat)
      modifies this`digests
      ensures digests == Remembered(old(digests), k)
    {
      if k !in digests { digests := digests + [k]; }
      digests := DropOldest(digests, MAX_DIGESTS);
    }

    method ForgetOldSends(now: int)
      modifies this`sentAt
      ensures sentAt == Recent(old(sentAt), now)
    {
      var recent := [];
      for i := 0 to |sentAt|
        invariant recent == Recent(sentAt[..i], now)
      {
        assert sentAt[..i + 1][..i] == sentAt[..i];
        if now - sentAt[i] < RATE_WINDOW { recent := recent + [sentAt[i]]; }
      }
      assert sentAt[..|sentAt|] == sentAt;
      sentAt := recent;
    }

    method ManagedClaim(now: int, scanId: nat, cfg: Settings) returns (action: Claim)
      modifies this
      ensures Claimed(View(), action) == Claiming(old(View()), now, scanId, cfg)
    {
      Prune(now);
      if !active || !cfg.managed || !armed { return Idle; }
      var scan := Lookup(scans, scanId);
      if scan.None? || Some(scan.value.conversation) != bound { return Idle; }
      var key := scan.value.key;
      if Some(key) == baseline || key in digests || pending == Some(key) { return Idle; }
      if !scan.value.newestIncoming { return Idle; }
      if cfg.mentionOnly && !scan.value.mentioned {
        RememberDigest(key);
        return Ignore;
      }
      ForgetOldSends(now);
      if |sentAt| >= MAX_SENDS || (|sentAt| > 0 && now - sentAt[|sentAt| - 1] < MIN_INTERVAL) {
        Pause();
        return RateLimited;
      }
      pending := Some(key);
      return Reply;
    }

    method SendManaged(now: int, done: int, draftId: nat, cfg: Settings, bridge: Bridge) returns (sent: Option<nat>)
      modifies this
      ensures SendResult(View(), sent) == Sending(old(View()), now, done, draftId, cfg, bridge)
    {
      Prune(now);
      if !active || !cfg.managed || !armed { return None; }
      var draft := Lookup(drafts, draftId);
      if draft.None? { return None; }
      var scan := Lookup(scans, draft.value.scanId);
      if scan.None? || scan.value.digest != draft.value.digest || pending != Some(scan.value.key) {
        Pause();
        return None;
      }
      if bridge.Rejected? { return None; }
      if bridge.Declined? {
        Pause();
        return None;
      }
      sentAt := sentAt + [done];
      RememberDigest(scan.value.key);
      pending := None;
      drafts := Delete(drafts, draftId);
      return Some(scan.value.key);
    }

    method ScanVisible(now: int, scanId: nat, o: Observed) returns (stored: bool)
      modifies this`scans, this`drafts
      ensures View() == Observing(old(View()), now, scanId, o)
    {
      if !active || bound != Some(o.conversation) { return false; }
      scans := Refresh(scans, scanId, o.(createdAt := now));
      Prune(now);
      return true;
    }

    method RememberDraft(now: int, draftId: nat, scanId: nat) returns (stored: bool)
      modifies this`scans, this`drafts
      ensures View() == Drafting(old(View()), now, draftId, scanId)
    {
      var scan := Lookup(scans, scanId);
      if scan.None? { return false; }
      drafts := Refresh(drafts, draftId, Draft(scanId, scan.value.digest, now));
      Prune(now);
      return true;
    }

    method Stop()
      modifies this
      ensures View() == DETACHED
    {
      active, bound, armed, baseline, pending, paused := false, None, false, None, None, false;
      sentAt, digests, scans, drafts := [], [], [], [];
    }

    method Start(now: int, scanId: nat, o: Observed, cfg: Settings, ready: bool)
      modifies this
      ensures View() == Attached(old(View()), now, scanId, o, cfg, ready)
    {
      ReadFirst(now, scanId, o);
      var stored := Lookup(scans, scanId);
      if cfg.managed && stored.Some? {
        if !ready {
          Stop();
          return;
        }
        Arm(o.key);
      }
    }

    method Arm(key: nat)
      modifies this`armed, this`baseline, this`digests
      ensures View() == old(View()).(armed := true, baseline := Some(key), digests := [key])
    {
      armed, baseline, digests := true, Some(key), [key];
    }

    method ReadFirst(now: int, scanId: nat, o: Observed)
      modifies this
      ensures View() == Reading(old(View()), now, scanId, o)
    {
      Reset();
      StoreScan(scanId, o.(createdAt := now));
      Prune(now);
    }

    method Reset()
      modifies this`armed, this`baseline, this`pending, this`paused, this`sentAt, this`digests
      ensures !armed && baseline == None && pending == None && !paused && sentAt == [] && digests == []
    {
      armed, baseline, pending, paused := false, None, None, false;
      sentAt, digests := [], [];
    }

    method StoreScan(scanId: nat, o: Observed)
      modifies this`active, this`bound, this`scans
      ensures active && bound == Some(o.conversation) && scans == Refresh(old(scans), scanId, o)
    {
      active, bound := true, Some(o.conversation);
      scans := Refresh(scans, scanId, o);
    }
  }
}
