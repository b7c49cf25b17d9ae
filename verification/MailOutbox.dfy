/**
 Sending queued mail: claim, journal, one provider attempt, receipt.

 Any number of engines run on any number of disks and may crash between any two durable or remote
 effects.  What an engine was told about a message when it listed the outbox may be arbitrarily
 stale.  The server answers a claim whose key it has seen before as replayed; answers may be lost.
 */
module MailOutbox {

  import opened Common

  type MsgId = nat

  datatype Outcome = Unknown | Sent

  datatype Listed = Queued | Sending | OtherOpen | Closed

  datatype Attempt = Attempt(id: MsgId, accepted: bool)

  datatype Receipt = Receipt(id: MsgId, outcome: Outcome)

  datatype Pc =
    | Idle
    | Picked(id: MsgId, listed: Listed)
    | Claiming(id: MsgId, listed: Listed)
    | Claimed(id: MsgId, listed: Listed, replayed: bool)
    | Journaled(id: MsgId, listed: Listed)
    | Leased(id: MsgId, listed: Listed)
    | Tried(id: MsgId, listed: Listed, confirmed: bool)
    | Reporting(id: MsgId, listed: Listed, outcome: Outcome)

  datatype Engine = Engine(disk: nat, pc: Pc)

  /** Journals are per disk; claims and receipts are the server's; attempts are the provider's. */
  datatype State = State(
    engines: map<nat, Engine>, journals: map<(nat, MsgId), Outcome>,
    claims: set<MsgId>, receipts: seq<Receipt>, attempts: seq<Attempt>)

  datatype Action =
    | Pick(e: nat, id: MsgId, listed: Listed)
    | ReadJournal(e: nat)
    | Claim(e: nat, answered: bool)
    | SaveJournal(e: nat, saved: bool)
    | RenewLease(e: nat, granted: bool)
    | Send(e: nat, accepted: bool, confirmed: bool)
    | SaveOutcome(e: nat, saved: bool)
    | PostReceipt(e: nat, posted: bool)
    | Crash(e: nat)

  predicate Enabled(s: State, a: Action) {
    a.e in s.engines &&
    var pc := s.engines[a.e].pc;
    match a
    case Pick(_, _, _) => pc.Idle?
    case ReadJournal(_) => pc.Picked?
    case Claim(_, _) => pc.Claiming?
    case SaveJournal(_, _) => pc.Claimed?
    case RenewLease(_, _) => pc.Journaled?
    // The engine sees a confirmed receipt only for a message the provider accepted.
    case Send(_, accepted, confirmed) => pc.Leased? && (confirmed ==> accepted)
    case SaveOutcome(_, _) => pc.Tried?
    case PostReceipt(_, _) => pc.Reporting?
    case Crash(_) => true
  }

  function Go(s: State, e: nat, pc: Pc): State
    requires e in s.engines
  {
    s.(engines := s.engines[e := s.engines[e].(pc := pc)])
  }

  function Apply(s: State, a: Action): State
    requires Enabled(s, a)
  {
    var e := a.e;
    var disk, pc := s.engines[e].disk, s.engines[e].pc;
    match a
    case Pick(_, id, listed) => Go(s, e, Picked(id, listed))
    case ReadJournal(_) =>
      Go(s, e,
         if (disk, pc.id) in s.journals then
           (if pc.listed.Closed? then Idle else Reporting(pc.id, pc.listed, s.journals[(disk, pc.id)]))
         else if pc.listed.Queued? then Claiming(pc.id, pc.listed)
         else Idle)
    case Claim(_, answered) =>
      Go(s.(claims := s.claims + {pc.id}), e,
         if answered then Claimed(pc.id, pc.listed, pc.id in s.claims) else Idle)
    // The journal says "unknown" before anything is sent.
    case SaveJournal(_, saved) =>
      if !saved then Go(s, e, Idle) else
        Go(s.(journals := s.journals[(disk, pc.id) := Unknown]), e,
           if pc.replayed then Reporting(pc.id, pc.listed, Unknown) else Journaled(pc.id, pc.listed))
    case RenewLease(_, granted) => Go(s, e, if granted then Leased(pc.id, pc.listed) else Idle)
    case Send(_, accepted, confirmed) =>
      Go(s.(attempts := s.attempts + [Attempt(pc.id, accepted)]), e, Tried(pc.id, pc.listed, confirmed))
    case SaveOutcome(_, saved) =>
      var outcome := if pc.confirmed then Sent else Unknown;
      if !saved then Go(s, e, Idle) else
        Go(s.(journals := s.journals[(disk, pc.id) := outcome]), e, Reporting(pc.id, pc.listed, outcome))
    case PostReceipt(_, posted) =>
      Go(if posted then s.(receipts := s.receipts + [Receipt(pc.id, pc.outcome)]) else s, e, Idle)
    case Crash(_) => Go(s, e, Idle)
  }

  predicate ValidRun(s: State, run: seq<Action>)
    decreases |run|
  {
    run == [] || (Enabled(s, run[0]) && ValidRun(Apply(s, run[0]), run[1..]))
  }

  function After(s: State, run: seq<Action>): State
    requires ValidRun(s, run)
    decreases |run|
  {
    if run == [] then s else After(Apply(s, run[0]), run[1..])
  }

  predicate Fresh(s: State) {
    && (forall e :: e in s.engines ==> s.engines[e].pc.Idle?)
    && s.journals == map[] && s.claims == {} && s.receipts == [] && s.attempts == []
  }

  // ----- the invariant -----

  /** The message for which the engine may still make the one attempt. */
  function Token(pc: Pc): Option<MsgId> {
    if (pc.Claimed? && !pc.replayed) || pc.Journaled? || pc.Leased? then Some(pc.id) else None
  }

  predicate Attempted(s: State, id: MsgId) { exists k :: 0 <= k < |s.attempts| && s.attempts[k].id == id }

  predicate Accepted(s: State, id: MsgId) { Attempt(id, true) in s.attempts }

  predicate AttemptsDistinct(s: State) {
    forall j, k :: 0 <= j < k < |s.attempts| ==> s.attempts[j].id != s.attempts[k].id
  }

  predicate EngineOk(s: State, pc: Pc) {
    && (Token(pc).Some? ==> Token(pc).value in s.claims && !Attempted(s, Token(pc).value))
    && (pc.Tried? && pc.confirmed ==> Accepted(s, pc.id))
    && (pc.Reporting? && pc.outcome == Sent ==> Accepted(s, pc.id))
  }

  predicate TokensDistinct(s: State) {
    forall d, f | d in s.engines && f in s.engines && d != f ::
      Token(s.engines[d].pc).None? || Token(s.engines[d].pc) != Token(s.engines[f].pc)
  }

  predicate SentIsAccepted(s: State) {
    && (forall key :: key in s.journals && s.journals[key] == Sent ==> Accepted(s, key.1))
    && (forall r :: r in s.receipts && r.outcome == Sent ==> Accepted(s, r.id))
  }

  predicate Inv(s: State) {
    && AttemptsDistinct(s)
    && (forall t :: t in s.attempts ==> t.id in s.claims)
    && (forall e :: e in s.engines ==> EngineOk(s, s.engines[e].pc))
    && TokensDistinct(s)
    && SentIsAccepted(s)
  }

  /** A step without an attempt: only one engine, the journals, claims and receipts change. */
  lemma {:induction false} QuietKeepsInv(s: State, t: State, e: nat)
    requires Inv(s) && e in s.engines && t.engines.Keys == s.engines.Keys && t.attempts == s.attempts
        && s.claims <= t.claims
    requires forall f :: f in s.engines && f != e ==> t.engines[f] == s.engines[f]
    requires EngineOk(t, t.engines[e].pc) && SentIsAccepted(t)
    requires Token(t.engines[e].pc).Some? ==>
               Token(t.engines[e].pc) == Token(s.engines[e].pc) || Token(t.engines[e].pc).value !in s.claims
    ensures Inv(t)
  {
    forall f | f in t.engines ensures EngineOk(t, t.engines[f].pc) {
      if f != e { assert EngineOk(s, s.engines[f].pc); }
    }
  }

  lemma {:induction false} SendKeepsInv(s: State, a: Action)
    requires Inv(s) && Enabled(s, a) && a.Send?
    ensures Inv(Apply(s, a))
  {
    var t := Apply(s, a);
    var id := s.engines[a.e].pc.id;
    assert EngineOk(s, s.engines[a.e].pc);
    assert t.attempts[|s.attempts|] == Attempt(id, a.accepted);
    assert forall m :: Accepted(s, m) ==> Accepted(t, m);
    forall f | f in t.engines ensures EngineOk(t, t.engines[f].pc) {
      if f != a.e { assert EngineOk(s, s.engines[f].pc); }
    }
  }

  lemma {:induction false} StepKeepsInv(s: State, a: Action)
    requires Inv(s) && Enabled(s, a)
    ensures Inv(Apply(s, a))
  {
    if a.Send? {
      SendKeepsInv(s, a);
    } else {
      assert EngineOk(s, s.engines[a.e].pc);
      QuietKeepsInv(s, Apply(s, a), a.e);
    }
  }

  lemma {:induction false} RunKeepsInv(s: State, run: seq<Action>)
    requires Inv(s) && ValidRun(s, run)
    ensures Inv(After(s, run))
    decreases |run|
  {
    if run != [] {
      StepKeepsInv(s, run[0]);
      RunKeepsInv(Apply(s, run[0]), run[1..]);
    }
  }

  function Attempts(log: seq<Attempt>, id: MsgId): nat {
    if log == [] then 0 else (if log[0].id == id then 1 else 0) + Attempts(log[1..], id)
  }

  lemma {:induction false} DistinctCountsOnce(log: seq<Attempt>, id: MsgId)
    requires forall j, k :: 0 <= j < k < |log| ==> log[j].id != log[k].id
    ensures Attempts(log, id) <= 1
    ensures Attempts(log, id) == 0 <==> forall t :: t in log ==> t.id != id
  {
    if log != [] {
      DistinctCountsOnce(log[1..], id);
      assert log == [log[0]] + log[1..];
      if log[0].id == id {
        forall t | t in log[1..] ensures t.id != id {
          var k :| 0 <= k < |log[1..]| && log[1..][k] == t;
          assert log[k + 1] == t;
        }
      }
    }
  }

  /** Across all crashes, restarts and hosts the provider is asked to send each message at most once. */
  lemma {:induction false} AtMostOneAttempt(s: State, run: seq<Action>, id: MsgId)
    requires Fresh(s) && ValidRun(s, run)
    ensures Attempts(After(s, run).attempts, id) <= 1
  {
    RunKeepsInv(s, run);
    DistinctCountsOnce(After(s, run).attempts, id);
  }

  /** A "sent" receipt is posted only for a message whose one attempt was accepted. */
  lemma {:induction false} SentReceiptMeansAccepted(s: State, run: seq<Action>, r: Receipt)
    requires Fresh(s) && ValidRun(s, run) && r in After(s, run).receipts && r.outcome == Sent
    ensures Attempts(After(s, run).attempts, r.id) == 1 && Attempt(r.id, true) in After(s, run).attempts
    ensures Attempt(r.id, false) !in After(s, run).attempts
  {
    RunKeepsInv(s, run);
    var t := After(s, run);
    DistinctCountsOnce(t.attempts, r.id);
    assert Accepted(t, r.id);
    var j :| 0 <= j < |t.attempts| && t.attempts[j] == Attempt(r.id, true);
    assert forall k :: 0 <= k < |t.attempts| && k != j ==> t.attempts[k].id != r.id;
  }

  // ----- and an undisturbed engine does send -----

  function Preparing(e: nat, id: MsgId): seq<Action> {
    [Pick(e, id, Queued), ReadJournal(e), Claim(e, true), SaveJournal(e, true)]
  }

  function Delivering(e: nat): seq<Action> {
    [RenewLease(e, true), Send(e, true, true), SaveOutcome(e, true), PostReceipt(e, true)]
  }

  lemma {:induction false} RunFour(s: State, run: seq<Action>, t1: State, t2: State, t3: State)
    requires |run| == 4
    requires Enabled(s, run[0]) && t1 == Apply(s, run[0]) && Enabled(t1, run[1]) && t2 == Apply(t1, run[1])
    requires Enabled(t2, run[2]) && t3 == Apply(t2, run[2]) && Enabled(t3, run[3])
    ensures ValidRun(s, run) && After(s, run) == Apply(t3, run[3])
  {
    var t4 := Apply(t3, run[3]);
    assert run[3..][1..] == [] && run[2..][1..] == run[3..] && run[1..][1..] == run[2..];
    assert ValidRun(t4, []) && After(t4, []) == t4;
    assert ValidRun(t3, run[3..]) && After(t3, run[3..]) == t4;
    assert ValidRun(t2, run[2..]) && After(t2, run[2..]) == t4;
    assert ValidRun(t1, run[1..]) && After(t1, run[1..]) == t4;
  }

  lemma {:induction false} PreparesJournal(s: State, e: nat, id: MsgId)
    requires e in s.engines && s.engines[e].pc.Idle? && id !in s.claims && (s.engines[e].disk, id) !in s.journals
    ensures ValidRun(s, Preparing(e, id))
    ensures var t := After(s, Preparing(e, id));
            && e in t.engines && t.engines[e] == Engine(s.engines[e].disk, Journaled(id, Queued))
            && t.attempts == s.attempts && t.receipts == s.receipts
  {
    var run := Preparing(e, id);
    var t1 := Apply(s, run[0]);
    var t2 := Apply(t1, run[1]);
    var t3 := Apply(t2, run[2]);
    RunFour(s, run, t1, t2, t3);
  }

  lemma {:induction false} DeliversOnce(s: State, e: nat, id: MsgId)
    requires e in s.engines && s.engines[e].pc == Journaled(id, Queued)
    ensures ValidRun(s, Delivering(e))
    ensures var t := After(s, Delivering(e));
            t.attempts == s.attempts + [Attempt(id, true)] && t.receipts == s.receipts + [Receipt(id, Sent)]
  {
    var run := Delivering(e);
    var t1 := Apply(s, run[0]);
    var t2 := Apply(t1, run[1]);
    var t3 := Apply(t2, run[2]);
    RunFour(s, run, t1, t2, t3);
  }

  lemma {:induction false} RunConcat(s: State, first: seq<Action>, second: seq<Action>)
    requires ValidRun(s, first) && ValidRun(After(s, first), second)
    ensures ValidRun(s, first + second) && After(s, first + second) == After(After(s, first), second)
    decreases |first|
  {
    if first == [] {
      assert first + second == second;
    } else {
      assert (first + second)[1..] == first[1..] + second;
      RunConcat(Apply(s, first[0]), first[1..], second);
    }
  }

  /** An engine left alone with an unclaimed message delivers it and reports it as sent. */
  lemma {:induction false} UndisturbedSends(s: State, e: nat, id: MsgId)
    requires e in s.engines && s.engines[e].pc.Idle? && id !in s.claims && (s.engines[e].disk, id) !in s.journals
    ensures var run := Preparing(e, id) + Delivering(e);
            && ValidRun(s, run)
            && After(s, run).attempts == s.attempts + [Attempt(id, true)]
            && After(s, run).receipts == s.receipts + [Receipt(id, Sent)]
  {
    PreparesJournal(s, e, id);
    DeliversOnce(After(s, Preparing(e, id)), e, id);
    RunConcat(s, Preparing(e, id), Delivering(e));
  }
}
