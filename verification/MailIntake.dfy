/**
 Receiving mail: list a page, store every message, queue it, submit it, then move the page cursor.

 The inbox files and the connection record are durable; the engine may crash between any two steps
 and starts again from them.  Steps of a rebind of the same connection, which reads the record, waits
 for the server and later writes it back, may fall anywhere between those of a synchronisation.
 */
module MailIntake {

  import opened Common

  /** A message is known by the 64 hexadecimal digits of the digest of its identity. */
  type Leaf = s: string | |s| == 64 witness seq(64, _ => '0')

  const MAX_PENDING := 1000
  const DRAIN_BATCH := 50

  datatype Filed = Pending | Submitted

  /**
   The durable record.  `settled` holds the messages before its date, `passed` those before its date or
   its page cursor: what no later listing from this record will show again.
   */
  datatype Connection = Connection(
    revision: nat, pending: seq<Leaf>, cursor: Option<nat>, settled: set<Leaf>, passed: set<Leaf>)

  datatype Page = Page(leaves: seq<Leaf>, next: Option<nat>)

  /**
   Where a synchronisation stands.  `behind` is what the record it last read had passed: a page listed
   from that record follows those messages, and moving past the page moves past them.
   */
  datatype Pc =
    | Idle
    | Leasing
    | Drain(todo: seq<Leaf>, page: Option<Page>, behind: set<Leaf>)
    | Posting(leaf: Leaf, todo: seq<Leaf>, page: Option<Page>, behind: set<Leaf>)
    | Posted(leaf: Leaf, todo: seq<Leaf>, page: Option<Page>, behind: set<Leaf>)
    | Filing(leaf: Leaf, todo: seq<Leaf>, page: Option<Page>, behind: set<Leaf>)
    | Listing(behind: set<Leaf>)
    | Store(listed: Page, k: nat, behind: set<Leaf>)
    | Fetching(listed: Page, k: nat, behind: set<Leaf>)
    | Stored(listed: Page, k: nat, behind: set<Leaf>)
    | Committing(done: Page, behind: set<Leaf>)

  datatype Submission = Submission(key: string, message: Leaf)

  /** `moved` outlives the record: every message the cursor has ever moved past. */
  datatype State = State(
    id: string, inbox: map<Leaf, Filed>, conn: Connection, pc: Pc, active: nat, rebind: Option<Connection>,
    submissions: seq<Submission>, moved: set<Leaf>)

  datatype Action =
    | Start
    | Next
    | List(page: Page)
    | Fail
    | Reconfigure
    | RebindRead
    | RebindWrite

  function FileName(leaf: Leaf): string { leaf + ".json" }

  function RequestKey(id: string, file: string): string
    requires |file| >= 64
  {
    "mail:" + id + ":" + file[..64]
  }

  function FirstBatch(pending: seq<Leaf>): seq<Leaf> {
    if |pending| <= DRAIN_BATCH then pending else pending[..DRAIN_BATCH]
  }

  function Without(leaves: seq<Leaf>, leaf: Leaf): seq<Leaf> {
    if leaves == [] then []
    else if leaves[0] == leaf then Without(leaves[1..], leaf)
    else [leaves[0]] + Without(leaves[1..], leaf)
  }

  function Leaves(page: Page): set<Leaf> { set l | l in page.leaves }

  function FirstLeaves(page: Page, k: nat): set<Leaf> { set l | l in page.leaves[..Min(k, |page.leaves|)] }

  predicate Enabled(s: State, a: Action) {
    match a
    case Start => s.pc.Idle?
    case Next => !s.pc.Idle? && !s.pc.Listing? && (s.pc.Fetching? || s.pc.Stored? ==> s.pc.k < |s.pc.listed.leaves|)
    case List(page) => s.pc.Listing?
    case Fail => true
    case Reconfigure => true
    case RebindRead => s.rebind.None?
    case RebindWrite => s.rebind.Some?
  }

  function Go(s: State, pc: Pc): State { s.(pc := pc) }

  function DrainStep(s: State): State
    requires s.pc.Drain?
  {
    var Drain(todo, page, behind) := s.pc;
    if todo == [] then Go(s, if page.None? then Listing(behind) else Committing(page.value, behind))
    else if s.conn.revision != s.active then Go(s, Idle)
    else Go(s, Posting(todo[0], todo[1..], page, behind))
  }

  function PostStep(s: State): State
    requires s.pc.Posting?
  {
    var Posting(leaf, todo, page, behind) := s.pc;
    if s.conn.revision != s.active || leaf !in s.inbox then Go(s, Idle)
    else
      Go(s.(submissions := s.submissions + [Submission(RequestKey(s.id, FileName(leaf)), leaf)]),
         Posted(leaf, todo, page, behind))
  }

  /** The record is read again to take the message off its queue; a page not yet listed will follow it. */
  function FileStep(s: State): State
    requires s.pc.Filing?
  {
    var Filing(leaf, todo, page, behind) := s.pc;
    Go(s.(conn := s.conn.(pending := Without(s.conn.pending, leaf))),
       Drain(todo, page, if page.None? then s.conn.passed else behind))
  }

  function StoredStep(s: State): State
    requires s.pc.Stored? && s.pc.k < |s.pc.listed.leaves|
  {
    var Stored(listed, k, behind) := s.pc;
    var leaf := listed.leaves[k];
    if leaf !in s.conn.pending && leaf in s.inbox && s.inbox[leaf] == Pending then
      if |s.conn.pending| >= MAX_PENDING then Go(s, Idle)
      else Go(s.(conn := s.conn.(pending := s.conn.pending + [leaf])), Store(listed, k + 1, behind))
    else Go(s, Store(listed, k + 1, behind))
  }

  /** Without a further page the date moves too, and everything passed is settled. */
  function CommitStep(s: State): State
    requires s.pc.Committing?
  {
    var passed := s.conn.passed + s.pc.behind + Leaves(s.pc.done);
    var settled := if s.pc.done.next.None? then passed else s.conn.settled;
    var conn := s.conn.(cursor := s.pc.done.next, settled := settled, passed := passed);
    Go(s.(conn := conn, moved := s.moved + passed), Idle)
  }

  function NextStep(s: State): State
    requires Enabled(s, Next)
  {
    match s.pc
    case Leasing => Go(s, Drain(FirstBatch(s.conn.pending), None, s.conn.passed))
    case Drain(_, _, _) => DrainStep(s)
    case Posting(_, _, _, _) => PostStep(s)
    case Posted(leaf, todo, page, behind) =>
      Go(s.(inbox := s.inbox[leaf := Submitted]), Filing(leaf, todo, page, behind))
    case Filing(_, _, _, _) => FileStep(s)
    case Store(listed, k, behind) =>
      if k >= |listed.leaves| then Go(s, Drain(FirstBatch(s.conn.pending), Some(listed), behind))
      else if s.conn.revision != s.active then Go(s, Idle)
      else Go(s, Fetching(listed, k, behind))
    case Fetching(listed, k, behind) =>
      var leaf := listed.leaves[k];
      Go(if leaf in s.inbox then s else s.(inbox := s.inbox[leaf := Pending]), Stored(listed, k, behind))
    case Stored(_, _, _) => StoredStep(s)
    case Committing(_, _) => CommitStep(s)
  }

  /** The older date and queue come back and the page cursor goes; a moved revision refuses the write. */
  function RebindStep(s: State): State
    requires s.rebind.Some?
  {
    var prior := s.rebind.value;
    if s.conn.revision != prior.revision then s.(rebind := None)
    else s.(rebind := None, conn := prior.(revision := prior.revision + 1, cursor := None, passed := prior.settled))
  }

  function Apply(s: State, a: Action): State
    requires Enabled(s, a)
  {
    match a
    case Start => s.(active := s.conn.revision, pc := Leasing)
    case Next => NextStep(s)
    case List(page) => Go(s, Store(page, 0, s.pc.behind))
    // A crash, or an error thrown by any awaited call.
    case Fail => Go(s, Idle)
    // Pause, resume: the record is read and written in one turn.
    case Reconfigure => s.(conn := s.conn.(revision := s.conn.revision + 1))
    case RebindRead => s.(rebind := Some(s.conn))
    case RebindWrite => RebindStep(s)
  }

  predicate ValidRun(s: State, run: seq<Action>)
    decreases |run|
  {
    run == [] || (Enabled(s, run[0]) && ValidRun(Apply(s, run[0]), run[1..]))
  }

  function After(s: State, run: seq<Action>): State
    requires ValidRun(s, run)
    decreases |run|
  {
    if run == [] then s else After(Apply(s, run[0]), run[1..])
  }

  predicate Fresh(s: State) {
    && s.inbox == map[] && s.conn == Connection(1, [], None, {}, {}) && s.pc.Idle? && s.active <= 1
    && s.rebind.None? && s.submissions == [] && s.moved == {}
  }

  // ----- the promise -----

  /** What the server has been given: the messages of the submissions, whatever the inbox says. */
  function AtDesk(submissions: seq<Submission>): set<Leaf> { set sub | sub in submissions :: sub.message }

  /** Durably stored, and either queued or given to the server. */
  predicate Covered(inbox: map<Leaf, Filed>, desk: set<Leaf>, pending: seq<Leaf>, leaf: Leaf) {
    leaf in inbox && (leaf in desk || leaf in pending)
  }

  /** The record's cursor is past no message that is not stored and queued or submitted; the queue is bounded. */
  predicate Promise(s: State) {
    && |s.conn.pending| <= MAX_PENDING
    && forall l :: l in s.conn.passed ==> Covered(s.inbox, AtDesk(s.submissions), s.conn.pending, l)
  }

  // ----- when a rebind's write breaks it -----

  /** The messages the synchronisation will move past if it reaches its commit without reading the record again. */
  function AtStake(pc: Pc): set<Leaf> {
    match pc
    case Idle => {}
    case Leasing => {}
    case Drain(_, page, behind) => behind + PageLeaves(page)
    case Posting(_, _, page, behind) => if page.None? then {} else behind + PageLeaves(page)
    case Posted(_, _, page, behind) => if page.None? then {} else behind + PageLeaves(page)
    case Filing(_, _, page, behind) => if page.None? then {} else behind + PageLeaves(page)
    case Listing(behind) => behind
    case Store(listed, k, behind) => behind + FirstLeaves(listed, k)
    case Fetching(listed, k, behind) => behind + FirstLeaves(listed, k)
    case Stored(listed, k, behind) => behind + FirstLeaves(listed, k)
    case Committing(page, behind) => behind + Leaves(page)
  }

  function PageLeaves(page: Option<Page>): set<Leaf> { if page.Some? then Leaves(page.value) else {} }

  /** With this queue the synchronisation still compares the revision before it can commit. */
  predicate CheckLeft(pc: Pc, inbox: map<Leaf, Filed>, pending: seq<Leaf>) {
    match pc
    case Idle => true
    case Leasing => true
    case Drain(todo, page, _) => todo != [] || (page.None? && pending != [])
    case Posting(_, _, _, _) => true
    case Posted(_, todo, _, _) => todo != []
    case Filing(_, todo, _, _) => todo != []
    case Listing(_) => pending != []
    case Store(listed, k, _) => k < |listed.leaves| || pending != []
    case Fetching(listed, k, _) => k + 1 < |listed.leaves| || pending != [] || !LastSubmitted(listed, inbox)
    case Stored(listed, k, _) => k + 1 < |listed.leaves| || pending != [] || !LastSubmitted(listed, inbox)
    case Committing(_, _) => false
  }

  predicate LastSubmitted(page: Page, inbox: map<Leaf, Filed>) {
    page.leaves != [] && page.leaves[|page.leaves| - 1] in inbox && inbox[page.leaves[|page.leaves| - 1]] == Submitted
  }

  predicate Missing(s: State, pending: seq<Leaf>) {
    exists l :: l in AtStake(s.pc) && !Covered(s.inbox, AtDesk(s.submissions), pending, l)
  }

  /**
   The rebind is about to put back a queue that lacks a message the synchronisation will move past,
   and no comparison of the revision is left to stop it.
   */
  predicate Harmful(s: State)
    requires s.rebind.Some?
  {
    && s.rebind.value.revision == s.conn.revision
    && Missing(s, s.rebind.value.pending)
    && !CheckLeft(s.pc, s.inbox, s.rebind.value.pending)
  }

  predicate HarmlessRebinds(s: State, run: seq<Action>)
    requires ValidRun(s, run)
    decreases |run|
  {
    run != [] ==> (run[0].RebindWrite? ==> !Harmful(s)) && HarmlessRebinds(Apply(s, run[0]), run[1..])
  }

  // ----- the invariant -----

  predicate NoRepeats(leaves: seq<Leaf>) { forall i, j :: 0 <= i < j < |leaves| ==> leaves[i] != leaves[j] }

  predicate RecordOk(conn: Connection, inbox: map<Leaf, Filed>, desk: set<Leaf>) {
    && |conn.pending| <= MAX_PENDING && NoRepeats(conn.pending) && conn.settled <= conn.passed
    && (forall l :: l in conn.pending ==> l in inbox)
    && (forall l :: l in conn.passed ==> Covered(inbox, desk, conn.pending, l))
  }

  predicate PcShape(pc: Pc, inbox: map<Leaf, Filed>, desk: set<Leaf>) {
    && (pc.Posted? ==> pc.leaf in inbox && pc.leaf in desk)
    && (pc.Filing? ==> pc.leaf in inbox && pc.leaf in desk)
    && (pc.Fetching? || pc.Stored? ==> pc.k < |pc.listed.leaves|)
    && (pc.Stored? && pc.k < |pc.listed.leaves| ==> pc.listed.leaves[pc.k] in inbox)
  }

  /** Everything at stake is stored, and queued or submitted. */
  predicate Safe(s: State) { !Missing(s, s.conn.pending) }

  /** Everything at stake is safe, or the synchronisation will be stopped. */
  predicate PcSafe(s: State) {
    || Safe(s)
    || (s.active != s.conn.revision && CheckLeft(s.pc, s.inbox, s.conn.pending))
  }

  predicate SubmissionsOk(s: State) {
    forall sub :: sub in s.submissions ==> sub.message in s.inbox && sub.key == RequestKey(s.id, FileName(sub.message))
  }

  /** The inbox marks as submitted only what the server has been given. */
  predicate FlagsOk(s: State) {
    forall l :: l in s.inbox && s.inbox[l] == Submitted ==> l in AtDesk(s.submissions)
  }

  predicate Inv(s: State) {
    && RecordOk(s.conn, s.inbox, AtDesk(s.submissions))
    && (s.rebind.Some? ==>
          RecordOk(s.rebind.value, s.inbox, AtDesk(s.submissions)) && s.rebind.value.revision <= s.conn.revision)
    && s.active <= s.conn.revision
    && PcShape(s.pc, s.inbox, AtDesk(s.submissions)) && PcSafe(s)
    && SubmissionsOk(s) && FlagsOk(s)
    && (forall l :: l in s.moved ==> l in s.inbox)
  }

  lemma {:induction false} WithoutMembers(leaves: seq<Leaf>, leaf: Leaf)
    ensures |Without(leaves, leaf)| <= |leaves|
    ensures forall l :: l in Without(leaves, leaf) <==> l in leaves && l != leaf
    ensures NoRepeats(leaves) ==> NoRepeats(Without(leaves, leaf))
  {
    if leaves != [] {
      WithoutMembers(leaves[1..], leaf);
      assert leaves == [leaves[0]] + leaves[1..];
      var rest := Without(leaves[1..], leaf);
      if NoRepeats(leaves) { assert forall i :: 0 <= i < |rest| ==> rest[i] in leaves[1..]; }
    }
  }

  lemma {:induction false} FirstLeavesGrow(page: Page, k: nat)
    ensures k < |page.leaves| ==> FirstLeaves(page, k + 1) == FirstLeaves(page, k) + {page.leaves[k]}
    ensures |page.leaves| <= k ==> FirstLeaves(page, k) == Leaves(page)
  {
    if k < |page.leaves| { assert page.leaves[..k + 1] == page.leaves[..k] + [page.leaves[k]]; }
    else { assert page.leaves[..|page.leaves|] == page.leaves; }
  }

  /** Covering only grows with the inbox and the queue. */
  lemma {:induction false} StillSafe(s: State, t: State)
    requires Safe(s)
    requires forall l :: l in AtStake(t.pc) ==>
               l in AtStake(s.pc) || Covered(t.inbox, AtDesk(t.submissions), t.conn.pending, l)
    requires forall l :: Covered(s.inbox, AtDesk(s.submissions), s.conn.pending, l) ==>
               Covered(t.inbox, AtDesk(t.submissions), t.conn.pending, l)
    ensures Safe(t)
  {
  }

  lemma {:induction false} DrainKeepsInv(s: State)
    requires Inv(s) && (s.pc.Leasing? || s.pc.Drain?)
    ensures Inv(NextStep(s))
  {
    var t := NextStep(s);
    if Safe(s) { StillSafe(s, t); }
  }

  lemma {:induction false} PostKeepsInv(s: State)
    requires Inv(s) && s.pc.Posting?
    ensures Inv(NextStep(s))
  {
    var t := NextStep(s);
    if Safe(s) { StillSafe(s, t); }
  }

  lemma {:induction false} PostedKeepsInv(s: State)
    requires Inv(s) && s.pc.Posted?
    ensures Inv(NextStep(s))
  {
    var t := NextStep(s);
    if Safe(s) { StillSafe(s, t); }
  }

  lemma {:induction false} FilingKeepsInv(s: State)
    requires Inv(s) && s.pc.Filing?
    ensures Inv(NextStep(s))
  {
    var t := NextStep(s);
    WithoutMembers(s.conn.pending, s.pc.leaf);
    if Safe(s) { StillSafe(s, t); }
  }

  lemma {:induction false} StoreKeepsInv(s: State)
    requires Inv(s) && s.pc.Store?
    ensures Inv(NextStep(s))
  {
    var t := NextStep(s);
    FirstLeavesGrow(s.pc.listed, s.pc.k);
    if Safe(s) { StillSafe(s, t); }
  }

  lemma {:induction false} FetchingKeepsInv(s: State)
    requires Inv(s) && s.pc.Fetching? && s.pc.k < |s.pc.listed.leaves|
    ensures Inv(NextStep(s))
  {
    var t := NextStep(s);
    if Safe(s) { StillSafe(s, t); }
  }

  lemma {:induction false} StoredKeepsInv(s: State)
    requires Inv(s) && s.pc.Stored? && s.pc.k < |s.pc.listed.leaves|
    ensures Inv(NextStep(s))
  {
    var t := NextStep(s);
    FirstLeavesGrow(s.pc.listed, s.pc.k);
    if t.conn.pending != s.conn.pending {
      LongerQueueOk(s.conn, s.inbox, AtDesk(s.submissions), s.pc.listed.leaves[s.pc.k]);
    }
    if Safe(s) { StillSafe(s, t); }
  }

  lemma {:induction false} LongerQueueOk(conn: Connection, inbox: map<Leaf, Filed>, desk: set<Leaf>, leaf: Leaf)
    requires RecordOk(conn, inbox, desk) && leaf !in conn.pending && leaf in inbox && |conn.pending| < MAX_PENDING
    ensures RecordOk(conn.(pending := conn.pending + [leaf]), inbox, desk)
  {
  }

  lemma {:induction false} CommitKeepsInv(s: State)
    requires Inv(s) && s.pc.Committing?
    ensures Inv(NextStep(s))
  {
  }

  /** A rebind's write keeps the invariant exactly when it is not harmful. */
  lemma {:induction false} RebindKeepsInvIff(s: State)
    requires Inv(s) && s.rebind.Some?
    ensures Inv(RebindStep(s)) <==> !Harmful(s)
  {
  }

  lemma {:induction false} StepKeepsInv(s: State, a: Action)
    requires Inv(s) && Enabled(s, a) && (a.RebindWrite? ==> !Harmful(s))
    ensures Inv(Apply(s, a))
  {
    if a.Next? {
      match s.pc
      case Leasing => DrainKeepsInv(s);
      case Drain(_, _, _) => DrainKeepsInv(s);
      case Posting(_, _, _, _) => PostKeepsInv(s);
      case Posted(_, _, _, _) => PostedKeepsInv(s);
      case Filing(_, _, _, _) => FilingKeepsInv(s);
      case Store(_, _, _) => StoreKeepsInv(s);
      case Fetching(_, _, _) => FetchingKeepsInv(s);
      case Stored(_, _, _) => StoredKeepsInv(s);
      case Committing(_, _) => CommitKeepsInv(s);
    } else if a.RebindWrite? {
      RebindKeepsInvIff(s);
    } else {
      OtherKeepsInv(s, a);
    }
  }

  lemma {:induction false} OtherKeepsInv(s: State, a: Action)
    requires Inv(s) && Enabled(s, a) && !a.Next? && !a.RebindWrite?
    ensures Inv(Apply(s, a))
  {
  }

  lemma {:induction false} RunKeepsInv(s: State, run: seq<Action>)
    requires Inv(s) && ValidRun(s, run) && HarmlessRebinds(s, run)
    ensures Inv(After(s, run)) && After(s, run).id == s.id
    decreases |run|
  {
    if run != [] {
      StepKeepsInv(s, run[0]);
      RunKeepsInv(Apply(s, run[0]), run[1..]);
    }
  }

  /**
   Over every run without a harmful rebind the record's cursor is past a message only if it is stored and
   queued or was given to the server; every message ever moved past is stored, and the inbox calls submitted
   only what the server was given.
   */
  lemma {:induction false} CursorPassesOnlyStoredMail(s: State, run: seq<Action>)
    requires Fresh(s) && ValidRun(s, run) && HarmlessRebinds(s, run)
    ensures var t := After(s, run);
            && Promise(t)
            && (forall l :: l in t.conn.passed ==>
                  l in t.inbox && (l in t.conn.pending || exists sub :: sub in t.submissions && sub.message == l))
            && (forall l :: l in t.moved ==> l in t.inbox)
            && (forall l :: l in t.inbox && t.inbox[l] == Submitted ==> l in AtDesk(t.submissions))
  {
    RunKeepsInv(s, run);
  }

  lemma {:induction false} KeyNamesMessage(id: string, leaf: Leaf, other: Leaf)
    ensures RequestKey(id, FileName(leaf)) == RequestKey(id, FileName(other)) <==> leaf == other
  {
    var front := "mail:" + id + ":";
    assert FileName(leaf)[..64] == leaf && FileName(other)[..64] == other;
    assert (front + leaf)[|front|..] == leaf && (front + other)[|front|..] == other;
  }

  /**
   Every submission of a run is of a stored message, and two carry the same key exactly when they are of
   one message.
   */
  lemma {:induction false} SubmissionsNameStoredMail(s: State, run: seq<Action>, i: nat, j: nat)
    requires Fresh(s) && ValidRun(s, run) && HarmlessRebinds(s, run)
    requires i < |After(s, run).submissions| && j < |After(s, run).submissions|
    ensures var t := After(s, run);
            && t.submissions[i].message in t.inbox
            && t.submissions[i].key == RequestKey(s.id, FileName(t.submissions[i].message))
            && (t.submissions[i].key == t.submissions[j].key <==> t.submissions[i].message == t.submissions[j].message)
  {
    RunKeepsInv(s, run);
    var t := After(s, run);
    assert t.submissions[i] in t.submissions && t.submissions[j] in t.submissions;
    KeyNamesMessage(s.id, t.submissions[i].message, t.submissions[j].message);
  }

  // ----- every harmful write can lose mail -----

  predicate NoRebindWrite(run: seq<Action>) { forall i :: 0 <= i < |run| ==> !run[i].RebindWrite? }

  /** Some continuation without a further rebind breaks the promise. */
  ghost predicate Loses(s: State) { exists run :: ValidRun(s, run) && NoRebindWrite(run) && !Promise(After(s, run)) }

  lemma {:induction false} LosesNow(s: State)
    requires !Promise(s)
    ensures Loses(s)
  {
    assert ValidRun(s, []) && NoRebindWrite([]) && After(s, []) == s;
  }

  lemma {:induction false} LosesLater(s: State, a: Action)
    requires Enabled(s, a) && !a.RebindWrite? && Loses(Apply(s, a))
    ensures Loses(s)
  {
    var rest :| ValidRun(Apply(s, a), rest) && NoRebindWrite(rest) && !Promise(After(Apply(s, a), rest));
    var run := [a] + rest;
    assert run[0] == a && run[1..] == rest;
    assert ValidRun(s, run) && After(s, run) == After(Apply(s, a), rest);
  }

  /** A message at stake is missing and nothing is left to stop the synchronisation. */
  predicate Losing(s: State) {
    PcShape(s.pc, s.inbox, AtDesk(s.submissions)) && FlagsOk(s) && Missing(s, s.conn.pending)
        && !CheckLeft(s.pc, s.inbox, s.conn.pending)
  }

  /** Steps to the commit. */
  function Distance(pc: Pc): nat {
    match pc
    case Committing(_, _) => 1
    case Drain(_, page, _) => if page.Some? then 2 else 5
    case Filing(_, _, _, _) => 6
    case Posted(_, _, _, _) => 7
    case Store(_, _, _) => 3
    case Listing(_) => 4
    case Stored(_, _, _) => 4
    case Fetching(_, _, _) => 5
    case _ => 0
  }

  lemma {:induction false} CommitBreaksPromise(s: State)
    requires Losing(s) && s.pc.Committing?
    ensures !Promise(NextStep(s))
  {
    var l :| l in AtStake(s.pc) && !Covered(s.inbox, AtDesk(s.submissions), s.conn.pending, l);
    assert l in NextStep(s).conn.passed;
  }

  lemma {:induction false} LosingFilesOn(s: State)
    requires Losing(s) && (s.pc.Posted? || s.pc.Filing?)
    ensures Losing(NextStep(s)) && Distance(NextStep(s).pc) < Distance(s.pc)
  {
    var l :| l in AtStake(s.pc) && !Covered(s.inbox, AtDesk(s.submissions), s.conn.pending, l);
    WithoutMembers(s.conn.pending, s.pc.leaf);
    var t := NextStep(s);
    assert l in AtStake(t.pc) && !Covered(t.inbox, AtDesk(t.submissions), t.conn.pending, l);
  }

  lemma {:induction false} LosingStoresOn(s: State)
    requires Losing(s) && (s.pc.Store? || s.pc.Fetching? || s.pc.Stored?)
    ensures Losing(NextStep(s)) && Distance(NextStep(s).pc) < Distance(s.pc)
  {
    var l :| l in AtStake(s.pc) && !Covered(s.inbox, AtDesk(s.submissions), s.conn.pending, l);
    FirstLeavesGrow(s.pc.listed, s.pc.k);
    var t := NextStep(s);
    assert l in AtStake(t.pc) && !Covered(t.inbox, AtDesk(t.submissions), t.conn.pending, l);
  }

  lemma {:induction false} LosingDrainsOn(s: State)
    requires Losing(s) && s.pc.Drain?
    ensures Losing(NextStep(s)) && Distance(NextStep(s).pc) < Distance(s.pc)
  {
    var l :| l in AtStake(s.pc) && !Covered(s.inbox, AtDesk(s.submissions), s.conn.pending, l);
    var t := NextStep(s);
    assert l in AtStake(t.pc) && !Covered(t.inbox, AtDesk(t.submissions), t.conn.pending, l);
  }

  lemma {:induction false} LosingListsOn(s: State)
    requires Losing(s) && s.pc.Listing?
    ensures Losing(Apply(s, List(Page([], None))))
  {
    var l :| l in AtStake(s.pc) && !Covered(s.inbox, AtDesk(s.submissions), s.conn.pending, l);
    var t := Apply(s, List(Page([], None)));
    assert l in AtStake(t.pc) && !Covered(t.inbox, AtDesk(t.submissions), t.conn.pending, l);
  }

  lemma {:induction false} LosingLoses(s: State)
    requires Losing(s)
    ensures Loses(s)
    decreases Distance(s.pc)
  {
    if s.pc.Listing? {
      LosingListsOn(s);
      LosingLoses(Apply(s, List(Page([], None))));
      LosesLater(s, List(Page([], None)));
    } else {
      if s.pc.Committing? {
        CommitBreaksPromise(s);
        LosesNow(NextStep(s));
      } else {
        if s.pc.Drain? { LosingDrainsOn(s); }
        else if s.pc.Posted? || s.pc.Filing? { LosingFilesOn(s); }
        else { LosingStoresOn(s); }
        LosingLoses(NextStep(s));
      }
      LosesLater(s, Next);
    }
  }

  lemma {:induction false} QuietRunsAreHarmless(s: State, run: seq<Action>)
    requires ValidRun(s, run) && NoRebindWrite(run)
    ensures HarmlessRebinds(s, run)
    decreases |run|
  {
    if run != [] { QuietRunsAreHarmless(Apply(s, run[0]), run[1..]); }
  }

  /**
   In any reachable state: some continuation of the rebind's write loses a message if and only if the
   write is harmful.
   */
  lemma {:induction false} RebindLosesIff(s: State)
    requires Inv(s) && s.rebind.Some?
    ensures Loses(Apply(s, RebindWrite)) <==> Harmful(s)
  {
    var t := Apply(s, RebindWrite);
    if Harmful(s) {
      LosingLoses(t);
    } else {
      RebindKeepsInvIff(s);
      forall run | ValidRun(t, run) && NoRebindWrite(run) ensures Promise(After(t, run)) {
        QuietRunsAreHarmless(t, run);
        RunKeepsInv(t, run);
      }
    }
  }

  // ----- a run that reaches one -----

  /** A run of the machine leads from the one state to the other. */
  ghost predicate Leads(s: State, t: State) { exists run :: ValidRun(s, run) && After(s, run) == t }

  lemma {:induction false} LeadsBy(s: State, a: Action, t: State)
    requires Enabled(s, a) && Leads(Apply(s, a), t)
    ensures Leads(s, t)
  {
    var rest :| ValidRun(Apply(s, a), rest) && After(Apply(s, a), rest) == t;
    var run := [a] + rest;
    assert run[0] == a && run[1..] == rest;
    assert ValidRun(s, run) && After(s, run) == t;
  }

  /** A state of the example: the record never leaves its first revision before the rebind writes. */
  function At(s: State, inbox: map<Leaf, Filed>, pending: seq<Leaf>, passed: set<Leaf>, pc: Pc): State {
    s.(inbox := inbox, conn := Connection(1, pending, None, passed, passed), pc := pc, active := 1)
  }

  /** The first synchronisation lists, stores and queues one message. */
  lemma {:induction false} StoresKnown(s: State, known: Leaf, t: State)
    requires Fresh(s)
    requires var p := Page([known], None); Leads(At(s, map[known := Pending], [known], {}, Store(p, 1, {})), t)
    ensures Leads(s, t)
  {
    var p := Page([known], None);
    assert [] + [known] == [known];
    LeadsBy(At(s, map[known := Pending], [], {}, Stored(p, 0, {})), Next, t);
    LeadsBy(At(s, map[], [], {}, Fetching(p, 0, {})), Next, t);
    LeadsBy(At(s, map[], [], {}, Store(p, 0, {})), Next, t);
    LeadsBy(At(s, map[], [], {}, Listing({})), List(p), t);
    LeadsBy(At(s, map[], [], {}, Drain([], None, {})), Next, t);
    LeadsBy(At(s, map[], [], {}, Leasing), Next, t);
    LeadsBy(s, Start, t);
  }

  function Sent(s: State, known: Leaf): State {
    s.(submissions := [Submission(RequestKey(s.id, FileName(known)), known)])
  }

  /** It submits the message. */
  lemma {:induction false} SubmitsKnown(s: State, known: Leaf, t: State)
    requires s.submissions == []
    requires var p := Page([known], None);
             Leads(At(Sent(s, known), map[known := Pending], [known], {}, Posted(known, [], Some(p), {})), t)
    ensures var p := Page([known], None); Leads(At(s, map[known := Pending], [known], {}, Store(p, 1, {})), t)
  {
    var p := Page([known], None);
    var posting := At(s, map[known := Pending], [known], {}, Posting(known, [], Some(p), {}));
    assert s.submissions + Sent(s, known).submissions == Sent(s, known).submissions;
    assert NextStep(posting) == At(Sent(s, known), map[known := Pending], [known], {}, Posted(known, [], Some(p), {}));
    LeadsBy(posting, Next, t);
    assert [known][1..] == [];
    LeadsBy(At(s, map[known := Pending], [known], {}, Drain([known], Some(p), {})), Next, t);
    LeadsBy(At(s, map[known := Pending], [known], {}, Store(p, 1, {})), Next, t);
  }

  /** It takes the message off the queue and moves the cursor past it. */
  lemma {:induction false} FilesKnown(s: State, known: Leaf, t: State)
    requires Leads(Synced(s, known), t) && s.moved == {}
    ensures var p := Page([known], None);
            Leads(At(Sent(s, known), map[known := Pending], [known], {}, Posted(known, [], Some(p), {})), t)
  {
    var p, sent, done := Page([known], None), Sent(s, known), map[known := Submitted];
    assert Without([known], known) == Without([known][1..], known) == [];
    var committing := At(sent, done, [], {}, Committing(p, {}));
    assert {} + {} + Leaves(p) == {known} && s.moved + {known} == {known};
    assert NextStep(committing) == Synced(s, known);
    LeadsBy(committing, Next, t);
    LeadsBy(At(sent, done, [], {}, Drain([], Some(p), {})), Next, t);
    LeadsBy(At(sent, done, [known], {}, Filing(known, [], Some(p), {})), Next, t);
    assert map[known := Pending][known := Submitted] == done;
    LeadsBy(At(sent, map[known := Pending], [known], {}, Posted(known, [], Some(p), {})), Next, t);
  }

  function Synced(s: State, known: Leaf): State {
    At(Sent(s, known).(moved := {known}), map[known := Submitted], [], {known}, Idle)
  }

  /** A rebind has read the record, a new message is stored and queued, and the known one is about to be looked at. */
  function AboutToWrite(s: State, known: Leaf, lost: Leaf): State {
    At(Synced(s, known), map[known := Submitted, lost := Pending], [lost], {known},
       Fetching(Page([lost, known], None), 1, {known})).(rebind := Some(Synced(s, known).conn))
  }

  /** A rebind reads the record, and the next synchronisation lists the new message before the known one. */
  lemma {:induction false} ListsLost(s: State, known: Leaf, lost: Leaf, t: State)
    requires Fresh(s)
    requires var r := Synced(s, known).(rebind := Some(Synced(s, known).conn));
             Leads(At(r, map[known := Submitted], [], {known}, Store(Page([lost, known], None), 0, {known})), t)
    ensures Leads(Synced(s, known), t)
  {
    var r, once := Synced(s, known).(rebind := Some(Synced(s, known).conn)), map[known := Submitted];
    LeadsBy(At(r, once, [], {known}, Listing({known})), List(Page([lost, known], None)), t);
    LeadsBy(At(r, once, [], {known}, Drain([], None, {known})), Next, t);
    LeadsBy(At(r, once, [], {known}, Leasing), Next, t);
    LeadsBy(r, Start, t);
    LeadsBy(Synced(s, known), RebindRead, t);
  }

  lemma {:induction false} StoresLost(s: State, known: Leaf, lost: Leaf)
    requires Fresh(s) && known != lost
    ensures Leads(Synced(s, known), AboutToWrite(s, known, lost))
  {
    var t, p := AboutToWrite(s, known, lost), Page([lost, known], None);
    var r := Synced(s, known).(rebind := Some(Synced(s, known).conn));
    var once, both := map[known := Submitted], map[known := Submitted, lost := Pending];
    assert [] + [lost] == [lost] && once[lost := Pending] == both;
    assert ValidRun(t, []) && After(t, []) == t;
    LeadsBy(At(r, both, [lost], {known}, Store(p, 1, {known})), Next, t);
    LeadsBy(At(r, both, [], {known}, Stored(p, 0, {known})), Next, t);
    LeadsBy(At(r, once, [], {known}, Fetching(p, 0, {known})), Next, t);
    LeadsBy(At(r, once, [], {known}, Store(p, 0, {known})), Next, t);
    ListsLost(s, known, lost, t);
  }

  /** From the start, an ordinary run reaches a harmful write. */
  lemma {:induction false} StaleRebindLosesMail(s: State, known: Leaf, lost: Leaf)
    requires Fresh(s) && known != lost
    ensures Leads(s, AboutToWrite(s, known, lost)) && Harmful(AboutToWrite(s, known, lost))
    ensures Loses(Apply(AboutToWrite(s, known, lost), RebindWrite))
  {
    var t := AboutToWrite(s, known, lost);
    StoresLost(s, known, lost);
    FilesKnown(s, known, t);
    SubmitsKnown(s, known, t);
    StoresKnown(s, known, t);
    HarmfulThere(s, known, lost);
    LosingLoses(Apply(t, RebindWrite));
  }

  lemma {:induction false} HarmfulThere(s: State, known: Leaf, lost: Leaf)
    requires known != lost
    ensures Harmful(AboutToWrite(s, known, lost))
    ensures Losing(Apply(AboutToWrite(s, known, lost), RebindWrite))
  {
    var page := Page([lost, known], None);
    assert page.leaves[..1] == [lost];
    assert lost in FirstLeaves(page, 1);
    var t := AboutToWrite(s, known, lost);
    assert lost in AtStake(t.pc) && !Covered(t.inbox, AtDesk(t.submissions), [], lost);
  }
}
