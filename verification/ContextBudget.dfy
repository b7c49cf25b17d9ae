/**
 The bounded snapshot of a conversation that is sent with each model request.

 Strings are sequences of UTF-16 code units, as the sizes count them.  The context window of the
 model is a parameter.
 */
module ContextBudget {

  import opened Common

  type Unit = u: int | 0 <= u < 0x1_0000

  type Text = seq<Unit>

  function Units(s: string): (t: Text)
    ensures |t| == |s|
  {
    seq(|s|, i requires 0 <= i < |s| => s[i] as int % 0x1_0000)
  }

  // ----- JSON values and the length of their rendering -----

  datatype Json =
    | Null
    | Bool(b: bool)
    | Number(digits: Text)
    | Str(s: Text)
    | Arr(items: seq<Json>)
    | Obj(fields: seq<Field>)

  datatype Field = Field(key: Text, value: Json)

  predicate HighSurrogate(u: Unit) { 0xD800 <= u <= 0xDBFF }

  predicate LowSurrogate(u: Unit) { 0xDC00 <= u <= 0xDFFF }

  function EscapedChars(s: Text): nat {
    if s == [] then 0
    else if |s| >= 2 && HighSurrogate(s[0]) && LowSurrogate(s[1]) then 2 + EscapedChars(s[2..])
    else
      (if s[0] == 0x22 || s[0] == 0x5C || s[0] == 8 || s[0] == 9 || s[0] == 10 || s[0] == 12 || s[0] == 13 then 2
       else if s[0] < 0x20 || HighSurrogate(s[0]) || LowSurrogate(s[0]) then 6
       else 1) + EscapedChars(s[1..])
  }

  function JsonChars(j: Json): nat {
    match j
    case Null => 4
    case Bool(b) => if b then 4 else 5
    case Number(digits) => |digits|
    case Str(s) => 2 + EscapedChars(s)
    case Arr(items) => 2 + ItemsChars(items)
    case Obj(fields) => 2 + FieldsChars(fields)
  }

  function ItemsChars(items: seq<Json>): nat {
    if items == [] then 0
    else JsonChars(items[0]) + (if |items| > 1 then 1 else 0) + ItemsChars(items[1..])
  }

  function FieldsChars(fields: seq<Field>): nat {
    if fields == [] then 0
    else
      2 + EscapedChars(fields[0].key) + 1 + JsonChars(fields[0].value)
      + (if |fields| > 1 then 1 else 0) + FieldsChars(fields[1..])
  }

  // ----- messages -----

  datatype Image = Image(path: Text, mediaType: Text)

  datatype ToolUse = ToolUse(id: Text, name: Text, input: Json)

  datatype ToolResult = ToolResult(id: Text, name: Text, content: Text)

  datatype Msg =
    | User(content: Text, images: seq<Image>)
    | Assistant(text: Text, toolUses: seq<ToolUse>, continuation: Option<Json>)
    | Tool(results: seq<ToolResult>)

  function UseJson(use: ToolUse): Json {
    Obj([Field(Units("id"), Str(use.id)), Field(Units("name"), Str(use.name)), Field(Units("input"), use.input)])
  }

  function UsesJson(uses: seq<ToolUse>): Json { Arr(seq(|uses|, i requires 0 <= i < |uses| => UseJson(uses[i]))) }

  function ImagesChars(images: seq<Image>): nat {
    if images == [] then 0 else |images[0].path| + |images[0].mediaType| + 64 + ImagesChars(images[1..])
  }

  function ResultsChars(results: seq<ToolResult>): nat {
    if results == [] then 0
    else |results[0].content| + |results[0].id| + |results[0].name| + 32 + ResultsChars(results[1..])
  }

  function MsgChars(m: Msg): nat {
    match m
    case User(content, images) => |content| + ImagesChars(images)
    case Assistant(text, uses, continuation) =>
      |text| + JsonChars(UsesJson(uses)) + (if continuation.Some? then JsonChars(continuation.value) else 4)
    case Tool(results) => ResultsChars(results)
  }

  function Chars(history: seq<Msg>): nat {
    if history == [] then 0 else MsgChars(history[0]) + Chars(history[1..])
  }

  method HistoryChars(history: seq<Msg>) returns (total: nat)
    ensures total == Chars(history)
  {
    total := 0;
    for i := 0 to |history|
      invariant total + Chars(history[i..]) == Chars(history)
    {
      assert history[i..][1..] == history[i + 1..];
      total := total + MsgChars(history[i]);
    }
  }

  // ----- budget -----

  const MAX_MODEL_HISTORY_CHARS := 600_000
  const MIN_MODEL_HISTORY_CHARS := 48_000

  datatype Options = Options(
    window: nat, system: Text, tools: Json, maxChars: Option<real>, budgetScale: Option<real>)

  function Clamp(lo: real, hi: real, x: real): real { if x < lo then lo else if x > hi then hi else x }

  function ModelHistoryBudget(o: Options): (budget: int)
    ensures budget >= 2_000
    ensures o.maxChars.None? ==> MIN_MODEL_HISTORY_CHARS <= budget <= MAX_MODEL_HISTORY_CHARS
  {
    if o.maxChars.Some? then Max(2_000, o.maxChars.value.Floor) else
      var gross := Min(MAX_MODEL_HISTORY_CHARS, o.window * 3 / 2);
      var overhead := |o.system| + JsonChars(o.tools);
      var scale := Clamp(0.2, 1.0, if o.budgetScale.Some? then o.budgetScale.value else 1.0);
      var scaled := ((gross - overhead) as real * scale).Floor;
      assert scaled <= MAX_MODEL_HISTORY_CHARS by { ScaledAtMost(gross - overhead, scale); }
      Max(MIN_MODEL_HISTORY_CHARS, scaled)
  }

  lemma {:induction false} ScaledAtMost(room: int, scale: real)
    requires room <= MAX_MODEL_HISTORY_CHARS && 0.2 <= scale <= 1.0
    ensures (room as real * scale).Floor <= MAX_MODEL_HISTORY_CHARS
  {
    var x, slack := room as real, 1.0 - scale;
    assert x * scale == x - x * slack;
    if room >= 0 {
      assert x * slack >= 0.0;
    } else {
      assert x * scale <= 0.0;
    }
  }

  // ----- clipping -----

  function Digits(n: nat): string {
    var last := [('0' as int + n % 10) as char];
    if n < 10 then last else Digits(n / 10) + last
  }

  function Marker(omitted: nat, what: Text): Text {
    [10, 0x2026] + Units("[hara: " + Digits(omitted) + " chars omitted from ") + what + Units("]") + [0x2026, 10]
  }

  function SafeSliceEnd(value: Text, end: nat): (r: Text)
    ensures |r| <= end && r <= value
  {
    var at := Min(|value|, end);
    value[..if at > 0 && HighSurrogate(value[at - 1]) then at - 1 else at]
  }

  function SafeSliceStart(value: Text, start: nat): (r: Text)
    ensures |r| <= Max(0, |value| - start)
  {
    var at := Min(|value|, start);
    value[if at < |value| && LowSurrogate(value[at]) then at + 1 else at..]
  }

  /** Three fifths of what the marker leaves go to the head, the rest to the tail. */
  function Around(value: Text, marker: Text, cap: nat): (r: Text)
    requires |marker| < cap < |value|
    ensures |r| <= cap
  {
    AroundAt(value, marker, HeadRoom(cap - |marker|), cap - |marker|)
  }

  function AroundAt(value: Text, marker: Text, head: nat, room: nat): (r: Text)
    requires head <= room <= |value|
    ensures |r| <= |marker| + room
  {
    SafeSliceEnd(value, head) + marker + SafeSliceStart(value, |value| - (room - head))
  }

  function HeadRoom(room: nat): (head: nat)
    ensures head <= room
  {
    room * 3 / 5
  }

  /** Head and tail around a marker; never longer than the cap, and the value itself when it fits. */
  function Clip(value: Text, max: int, what: Text): (r: Text)
    ensures |r| <= Max(0, max)
    ensures |value| <= max ==> r == value
  {
    var cap := Max(0, max);
    if |value| <= cap then value else ClipWith(value, cap, Marker(|value| - cap, what))
  }

  function ClipWith(value: Text, cap: nat, marker: Text): (r: Text)
    requires cap < |value|
    ensures |r| <= cap
  {
    if |marker| >= cap then marker[..cap] else Around(value, marker, cap)
  }

  function BoundValue(value: Json, stringCap: int, depth: nat): Json
    decreases value
  {
    match value
    case Str(s) => Str(Clip(s, stringCap, Units("historical tool input")))
    case Null => value
    case Bool(_) => value
    case Number(_) => value
    case Arr(items) =>
      if depth >= 8 then Str(Units("[hara: nested historical tool input omitted]")) else
        var kept := Min(80, |items|);
        Arr(seq(kept, i requires 0 <= i < kept => BoundValue(items[i], stringCap, depth + 1))
            + (if |items| > 80 then [Str(Units("[hara: " + Digits(|items| - 80) + " array items omitted]"))] else []))
    case Obj(fields) =>
      if depth >= 8 then Str(Units("[hara: nested historical tool input omitted]")) else
        var kept := Min(80, |fields|);
        var out := seq(kept, i requires 0 <= i < kept =>
                       Field(fields[i].key, BoundValue(fields[i].value, stringCap, depth + 1)));
        Obj(if |fields| > 80 then SetField(out, Units("_hara_omitted_keys"), Number(Units(Digits(|fields| - 80))))
            else out)
  }

  function SetField(fields: seq<Field>, key: Text, value: Json): seq<Field> {
    if fields == [] then [Field(key, value)]
    else if fields[0].key == key then [Field(key, value)] + fields[1..]
    else [fields[0]] + SetField(fields[1..], key, value)
  }

  function BoundToolUses(uses: seq<ToolUse>, stringCap: int): (r: seq<ToolUse>)
    ensures |r| == |uses|
    ensures forall i :: 0 <= i < |uses| ==> r[i].id == uses[i].id && r[i].name == uses[i].name
  {
    seq(|uses|, i requires 0 <= i < |uses| => uses[i].(input := BoundValue(uses[i].input, stringCap, 0)))
  }

  // ----- the passes -----

  const GUARD_TEXT: string :=
    "[Hara context guard: older/oversized context was bounded for this model request. The durable transcript is unchanged, " +
    "and the newest tool round is retained preferentially. A truncation marker is not a tool outage or a human dependency. " +
    "Use a narrow grep/read_file offset+limit request or the tool_result_read id when an exact omitted value is still needed; " +
    "do not ask the user to rerun a command or paste Hara's tool output.]"

  const GUARD_CHARS := 425

  const GUARD: Msg := User(Units(GUARD_TEXT), [])

  lemma {:induction false} GuardLength()
    ensures MsgChars(GUARD) == GUARD_CHARS == |GUARD.content|
  {
    assert |GUARD_TEXT| == GUARD_CHARS;
  }

  /** How many user (tool) messages stand after position `i`. */
  function UsersAfter(h: seq<Msg>, i: nat): nat
    decreases |h| - i
  {
    if i + 1 >= |h| then 0 else (if h[i + 1].User? then 1 else 0) + UsersAfter(h, i + 1)
  }

  function ToolsAfter(h: seq<Msg>, i: nat): nat
    decreases |h| - i
  {
    if i + 1 >= |h| then 0 else (if h[i + 1].Tool? then 1 else 0) + ToolsAfter(h, i + 1)
  }

  function LatestToolResultCap(h: seq<Msg>, budget: int): int {
    var round := Max(1_500, Min(24_000, budget / 4));
    Max(128, round / LatestToolResultCount(h))
  }

  function LatestToolResultCount(h: seq<Msg>): (n: nat)
    ensures n >= 1
    decreases |h|
  {
    if h == [] then 1
    else if h[|h| - 1].Tool? then Max(1, |h[|h| - 1].results|)
    else LatestToolResultCount(h[..|h| - 1])
  }

  function ClipResults(results: seq<ToolResult>, cap: int, what: Text): (r: seq<ToolResult>)
    ensures |r| == |results| && forall i :: 0 <= i < |r| ==> r[i].id == results[i].id && r[i].name == results[i].name
  {
    seq(|results|, i requires 0 <= i < |results| => results[i].(content := Clip(results[i].content, cap, what)))
  }

  function FirstPassMsg(h: seq<Msg>, i: nat): Msg
    requires i < |h|
  {
    match h[i]
    case User(content, images) =>
      var cap := if UsersAfter(h, i) == 0 then 64_000 else if UsersAfter(h, i) < 3 then 40_000 else 20_000;
      var clipped := Clip(content, cap, Units("user message"));
      if images != [] && UsersAfter(h, i) >= 2 then User(clipped + ImagesNote(|images|), []) else User(clipped, images)
    case Assistant(text, uses, continuation) =>
      Assistant(Clip(text, 24_000, Units("assistant message")), BoundToolUses(uses, 12_000), continuation)
    case Tool(results) =>
      var latest := ToolsAfter(h, i) == 0;
      Tool(seq(|results|, k requires 0 <= k < |results| =>
               results[k].(content := Clip(results[k].content, 24_000, ResultLabel(latest, results[k].name)))))
  }

  function ImagesNote(n: nat): Text {
    [10, 10] + Units("[hara: " + Digits(n) + " older image attachment(s) omitted from this model round; reattach if needed]")
  }

  function ResultLabel(latest: bool, name: Text): Text {
    Units(if latest then "latest tool result " else "historical tool result ") + name
  }

  /** Whether the first pass counts message `i` as changed. */
  predicate FirstPassChanges(h: seq<Msg>, i: nat)
    requires i < |h|
  {
    var after := FirstPassMsg(h, i);
    match h[i]
    case User(content, images) => after != h[i]
    case Assistant(text, uses, _) =>
      after.Assistant? && (after.text != text || JsonChars(UsesJson(after.toolUses)) != JsonChars(UsesJson(uses)))
    case Tool(results) => after != h[i]
  }

  datatype Caps = Caps(tool: int, assistant: int, oldUser: int, recentUser: int, input: int)

  function ReduceMsg(h: seq<Msg>, m: Msg, i: nat, caps: Caps, latestCap: int): Msg
    requires i < |h|
  {
    match m
    case Tool(results) =>
      var latest := ToolsAfter(h, i) == 0;
      Tool(ClipResults(results, if latest then Max(caps.tool, latestCap) else caps.tool,
                       Units(if latest then "latest tool output" else "historical tool output")))
    case Assistant(text, uses, continuation) =>
      Assistant(Clip(text, caps.assistant, Units("assistant message")), BoundToolUses(uses, caps.input), continuation)
    case User(content, images) =>
      var cap :=
        if UsersAfter(h, i) == 0 then Max(caps.recentUser, 24_000)
        else if UsersAfter(h, i) < 3 then caps.recentUser
        else caps.oldUser;
      User(Clip(content, cap, Units("user message")), images)
  }

  /** A snapshot as long as the history, and whether it differs from it. */
  datatype Draft = Draft(snapshot: seq<Msg>, changed: bool)

  function FirstPass(h: seq<Msg>): (d: Draft)
    ensures |d.snapshot| == |h|
  {
    Draft(seq(|h|, i requires 0 <= i < |h| => FirstPassMsg(h, i)),
          exists i :: 0 <= i < |h| && FirstPassChanges(h, i))
  }

  function Tighten(h: seq<Msg>, d: Draft, caps: Caps, budget: int): (r: Draft)
    requires |d.snapshot| == |h|
    ensures |r.snapshot| == |h|
  {
    if Chars(d.snapshot) + GUARD_CHARS <= budget then d else
      Draft(seq(|h|, i requires 0 <= i < |h| => ReduceMsg(h, d.snapshot[i], i, caps, LatestToolResultCap(h, budget))),
          true)
  }

  const CAPS_1 := Caps(2_000, 4_000, 6_000, 16_000, 2_000)
  const CAPS_2 := Caps(512, 1_500, 1_500, 8_000, 768)
  const CAPS_3 := Caps(128, 512, 512, 4_000, 256)

  /** The snapshot after the first pass and up to three reductions. */
  function Reduced(h: seq<Msg>, budget: int): (d: Draft)
    ensures |d.snapshot| == |h|
  {
    Tighten(h, Tighten(h, Tighten(h, FirstPass(h), CAPS_1, budget), CAPS_2, budget), CAPS_3, budget)
  }

  function AddGuard(h: seq<Msg>): seq<Msg> { [GUARD] + h }

  function Guarded(d: Draft): seq<Msg> { if d.changed then AddGuard(d.snapshot) else d.snapshot }

  // ----- sizes -----

  lemma {:induction false} CharsConcat(a: seq<Msg>, b: seq<Msg>)
    ensures Chars(a + b) == Chars(a) + Chars(b)
  {
    if a == [] {
      assert a + b == b;
    } else {
      assert (a + b)[1..] == a[1..] + b;
      CharsConcat(a[1..], b);
    }
  }

  lemma {:induction false} CharsGuarded(h: seq<Msg>)
    ensures Chars(AddGuard(h)) == GUARD_CHARS + Chars(h)
  {
    GuardLength();
    assert ([GUARD] + h)[1..] == h;
  }

  lemma {:induction false} SuffixesShrink(h: seq<Msg>, i: nat, j: nat)
    requires i <= j <= |h|
    ensures Chars(h[j..]) <= Chars(h[i..])
  {
    assert h[i..] == h[i..j] + h[j..];
    CharsConcat(h[i..j], h[j..]);
  }

  // ----- the suffix cut -----

  predicate Fits(g: seq<Msg>, budget: int, start: nat) {
    start < |g| && g[start].User? && Chars(g[start..]) + GUARD_CHARS <= budget
  }

  predicate LongestFit(g: seq<Msg>, budget: int, start: nat) {
    Fits(g, budget, start) && forall other :: Fits(g, budget, other) ==> start <= other
  }

  function WithoutLeadingGuard(suffix: seq<Msg>): seq<Msg> {
    if suffix != [] && suffix[0].User? && suffix[0].content == GUARD.content then suffix[1..] else suffix
  }

  /** The starts are tried from the last user message backwards, stopping after the first that no longer fits. */
  method FindSuffix(g: seq<Msg>, budget: int) returns (start: int)
    ensures -1 <= start < |g|
    ensures start < 0 ==> forall other :: !Fits(g, budget, other)
    ensures start >= 0 ==> LongestFit(g, budget, start)
  {
    start := -1;
    var i := |g|;
    while i > 0
      invariant 0 <= i <= |g| && -1 <= start < |g|
      invariant start < 0 ==> forall other :: i <= other ==> !Fits(g, budget, other)
      invariant start >= 0 ==>
                  && i <= start && Fits(g, budget, start)
                  && forall other :: i <= other && Fits(g, budget, other) ==> start <= other
    {
      i := i - 1;
      if g[i].User? {
        var size := HistoryChars(g[i..]);
        if size + GUARD_CHARS <= budget {
          start := i;
        } else if start >= 0 {
          forall other: nat | Fits(g, budget, other) ensures start <= other {
            if other <= i { SuffixesShrink(g, other, i); }
          }
          break;
        }
      }
    }
  }

  function LastUser(g: seq<Msg>): Option<Msg> {
    if g == [] then None else if g[|g| - 1].User? then Some(g[|g| - 1]) else LastUser(g[..|g| - 1])
  }

  function Fallback(g: seq<Msg>, budget: int): Msg {
    var latest := LastUser(g);
    User(GUARD.content + [10, 10]
         + (if latest.Some? && latest.value.User? then
              Clip(latest.value.content, Max(1_000, budget - GUARD_CHARS - 8), Units("latest user message"))
            else Units("Continue the active task from durable task state.")), [])
  }

  lemma {:induction false} FallbackFits(g: seq<Msg>, budget: int)
    requires budget >= 2_000
    ensures Chars([Fallback(g, budget)]) <= budget
  {
    GuardLength();
    assert [Fallback(g, budget)][1..] == [];
  }

  datatype PreparedHistory = PreparedHistory(
    history: seq<Msg>, changed: bool, originalChars: nat, preparedChars: nat, budgetChars: int)

  /** What the snapshot may be, given the drafted one. */
  ghost predicate Prepared(g: seq<Msg>, budget: int, out: seq<Msg>) {
    if Chars(g) <= budget then out == g
    else if exists start :: Fits(g, budget, start) then
      exists start: nat :: LongestFit(g, budget, start) && out == AddGuard(WithoutLeadingGuard(g[start..]))
    else out == [Fallback(g, budget)]
  }

  /**
   For every history and option set the snapshot fits the budget, and a cut keeps the longest suffix.  A history
   that fits and whose texts, inputs and images are within their caps is sent as it is.
   */
  method PrepareHistoryForModel(history: seq<Msg>, options: Options) returns (r: PreparedHistory)
    ensures r.budgetChars == ModelHistoryBudget(options)
    ensures r.originalChars == Chars(history) && r.preparedChars == Chars(r.history)
    ensures r.preparedChars <= r.budgetChars
    ensures Prepared(Guarded(Reduced(history, r.budgetChars)), r.budgetChars, r.history)
    ensures !r.changed ==> r.history == FirstPass(history).snapshot
    ensures WithinCaps(history) && Chars(history) + GUARD_CHARS <= r.budgetChars ==> r.history == history && !r.changed
  {
    var originalChars := HistoryChars(history);
    var budget := ModelHistoryBudget(options);
    var draft := FirstPass(history);
    draft := Tighten(history, draft, CAPS_1, budget);
    draft := Tighten(history, draft, CAPS_2, budget);
    draft := Tighten(history, draft, CAPS_3, budget);
    var changed := draft.changed;
    var snapshot := if changed then AddGuard(draft.snapshot) else draft.snapshot;
    var g := snapshot;
    var size := HistoryChars(snapshot);
    if size > budget {
      var start := FindSuffix(snapshot, budget);
      if start >= 0 {
        CharsGuarded(WithoutLeadingGuard(g[start..]));
        DropKeepsSize(g[start..]);
        snapshot := AddGuard(WithoutLeadingGuard(snapshot[start..]));
      } else {
        FallbackFits(snapshot, budget);
        snapshot := [Fallback(snapshot, budget)];
      }
      changed := true;
    }
    var preparedChars := HistoryChars(snapshot);
    r := PreparedHistory(snapshot, changed, originalChars, preparedChars, budget);
    UnchangedIsFirstPass(history, budget);
    if WithinCaps(history) { FittingIsUntouched(history, budget); }
  }

  lemma {:induction false} DropKeepsSize(suffix: seq<Msg>)
    ensures Chars(WithoutLeadingGuard(suffix)) <= Chars(suffix)
  {
  }

  lemma {:induction false} UnchangedIsFirstPass(h: seq<Msg>, budget: int)
    ensures !Reduced(h, budget).changed ==> Reduced(h, budget) == FirstPass(h)
  {
  }

  // ----- what is within the caps is left alone -----

  /** The user messages that come later. */
  function LaterUsers(h: seq<Msg>, i: nat): set<int> { set j | i < j < |h| && h[j].User? }

  lemma {:induction false} UsersAfterCounts(h: seq<Msg>, i: nat)
    ensures UsersAfter(h, i) == |LaterUsers(h, i)|
    decreases |h| - i
  {
    if i + 1 >= |h| {
      assert LaterUsers(h, i) == {};
    } else {
      UsersAfterCounts(h, i + 1);
      assert LaterUsers(h, i) == LaterUsers(h, i + 1) + (if h[i + 1].User? then {i + 1} else {});
    }
  }

  /** No text, no array, no object and no nesting over its cap. */
  predicate InputWithinCaps(j: Json, depth: nat) {
    match j
    case Str(s) => |s| <= 12_000
    case Null => true
    case Bool(_) => true
    case Number(_) => true
    case Arr(items) =>
      depth < 8 && |items| <= 80 && forall i :: 0 <= i < |items| ==> InputWithinCaps(items[i], depth + 1)
    case Obj(fields) =>
      depth < 8 && |fields| <= 80 && forall i :: 0 <= i < |fields| ==> InputWithinCaps(fields[i].value, depth + 1)
  }

  predicate MessageWithinCaps(m: Msg, laterUsers: nat) {
    match m
    case User(content, images) =>
      && |content| <= (if laterUsers == 0 then 64_000 else if laterUsers < 3 then 40_000 else 20_000)
      && (images == [] || laterUsers < 2)
    case Assistant(text, uses, _) =>
      |text| <= 24_000 && forall k :: 0 <= k < |uses| ==> InputWithinCaps(uses[k].input, 0)
    case Tool(results) => forall k :: 0 <= k < |results| ==> |results[k].content| <= 24_000
  }

  predicate WithinCaps(h: seq<Msg>) {
    forall i :: 0 <= i < |h| ==> MessageWithinCaps(h[i], |LaterUsers(h, i)|)
  }

  lemma {:induction false} InputUntouched(j: Json, depth: nat)
    requires InputWithinCaps(j, depth)
    ensures BoundValue(j, 12_000, depth) == j
    decreases j
  {
    match j
    case Arr(items) =>
      forall i | 0 <= i < |items| ensures BoundValue(items[i], 12_000, depth + 1) == items[i] {
        InputUntouched(items[i], depth + 1);
      }
      assert BoundValue(j, 12_000, depth).items == items;
    case Obj(fields) =>
      forall i | 0 <= i < |fields| ensures BoundValue(fields[i].value, 12_000, depth + 1) == fields[i].value {
        InputUntouched(fields[i].value, depth + 1);
      }
      assert BoundValue(j, 12_000, depth).fields == fields;
    case _ =>
  }

  lemma {:induction false} MessageUntouched(h: seq<Msg>, i: nat)
    requires i < |h| && MessageWithinCaps(h[i], |LaterUsers(h, i)|)
    ensures FirstPassMsg(h, i) == h[i] && !FirstPassChanges(h, i)
  {
    match h[i]
    case User(_, _) => UsersAfterCounts(h, i);
    case Assistant(_, uses, _) =>
      forall k | 0 <= k < |uses| ensures BoundValue(uses[k].input, 12_000, 0) == uses[k].input {
        InputUntouched(uses[k].input, 0);
      }
      assert BoundToolUses(uses, 12_000) == uses;
    case Tool(results) => assert FirstPassMsg(h, i).results == results;
  }

  lemma {:induction false} FittingIsUntouched(h: seq<Msg>, budget: int)
    requires WithinCaps(h)
    ensures FirstPass(h) == Draft(h, false)
    ensures Chars(h) + GUARD_CHARS <= budget ==> Reduced(h, budget) == Draft(h, false)
  {
    forall i | 0 <= i < |h| ensures FirstPassMsg(h, i) == h[i] && !FirstPassChanges(h, i) { MessageUntouched(h, i); }
    assert FirstPass(h).snapshot == h;
  }

  // ----- calls and results stay paired -----

  datatype Outline = AUser | AnAssistant(calls: seq<Text>) | ToolRound(answers: seq<Text>)

  function OutlineOf(m: Msg): Outline {
    match m
    case User(_, _) => AUser
    case Assistant(_, uses, _) => AnAssistant(seq(|uses|, i requires 0 <= i < |uses| => uses[i].id))
    case Tool(results) => ToolRound(seq(|results|, i requires 0 <= i < |results| => results[i].id))
  }

  function Outlines(h: seq<Msg>): (o: seq<Outline>)
    ensures |o| == |h| && forall i :: 0 <= i < |h| ==> o[i] == OutlineOf(h[i])
  {
    seq(|h|, i requires 0 <= i < |h| => OutlineOf(h[i]))
  }

  /** Every tool round directly follows the assistant message that made exactly its calls. */
  predicate ResultsFollowCalls(o: seq<Outline>) {
    forall i :: 0 <= i < |o| && o[i].ToolRound? ==> i > 0 && o[i - 1] == AnAssistant(o[i].answers)
  }

  /** Every assistant message with calls, unless it is the last, is directly followed by their results. */
  predicate CallsAreAnswered(o: seq<Outline>) {
    forall i :: 0 <= i < |o| - 1 && o[i].AnAssistant? && o[i].calls != [] ==> o[i + 1] == ToolRound(o[i].calls)
  }

  lemma {:induction false} FirstPassOutline(h: seq<Msg>, i: nat)
    requires i < |h|
    ensures OutlineOf(FirstPassMsg(h, i)) == OutlineOf(h[i])
  {
  }

  lemma {:induction false} ReduceOutline(h: seq<Msg>, m: Msg, i: nat, caps: Caps, latestCap: int)
    requires i < |h|
    ensures OutlineOf(ReduceMsg(h, m, i, caps, latestCap)) == OutlineOf(m)
  {
  }

  lemma {:induction false} TightenOutlines(h: seq<Msg>, d: Draft, caps: Caps, budget: int)
    requires |d.snapshot| == |h|
    ensures Outlines(Tighten(h, d, caps, budget).snapshot) == Outlines(d.snapshot)
  {
    forall i | 0 <= i < |h| ensures OutlineOf(Tighten(h, d, caps, budget).snapshot[i]) == OutlineOf(d.snapshot[i]) {
      ReduceOutline(h, d.snapshot[i], i, caps, LatestToolResultCap(h, budget));
    }
  }

  lemma {:induction false} ReducedOutlines(h: seq<Msg>, budget: int)
    ensures Outlines(Reduced(h, budget).snapshot) == Outlines(h)
  {
    var d := FirstPass(h);
    forall i | 0 <= i < |h| ensures OutlineOf(d.snapshot[i]) == OutlineOf(h[i]) { FirstPassOutline(h, i); }
    assert Outlines(d.snapshot) == Outlines(h);
    var d1 := Tighten(h, d, CAPS_1, budget);
    var d2 := Tighten(h, d1, CAPS_2, budget);
    TightenOutlines(h, d, CAPS_1, budget);
    TightenOutlines(h, d1, CAPS_2, budget);
    TightenOutlines(h, d2, CAPS_3, budget);
  }

  /** The history's own outline, or a user note before a suffix of it that starts or follows a user message. */
  predicate IsOutlineOf(out: seq<Outline>, h: seq<Outline>) {
    || out == h
    || exists k :: 0 <= k <= |h| && out == [AUser] + h[k..]
                   && (0 < k < |h| ==> h[k].AUser? || h[k - 1].AUser?)
  }

  lemma {:induction false} SuffixOutlines(h: seq<Msg>, k: nat)
    requires k <= |h|
    ensures Outlines(AddGuard(h[k..])) == [AUser] + Outlines(h)[k..]
  {
  }

  lemma {:induction false} GuardedOutline(d: Draft)
    ensures IsOutlineOf(Outlines(Guarded(d)), Outlines(d.snapshot))
  {
    if d.changed {
      SuffixOutlines(d.snapshot, 0);
      assert d.snapshot[0..] == d.snapshot;
    }
  }

  lemma {:induction false} LoneUserOutline(m: Msg, h: seq<Outline>)
    requires m.User?
    ensures IsOutlineOf(Outlines([m]), h)
  {
    assert h[|h|..] == [];
    assert Outlines([m]) == [AUser] + h[|h|..];
  }

  lemma {:induction false} CutOutline(d: Draft, g: seq<Msg>, start: nat)
    requires g == Guarded(d) && start < |g| && g[start].User?
    ensures IsOutlineOf(Outlines(AddGuard(WithoutLeadingGuard(g[start..]))), Outlines(d.snapshot))
  {
    var offset := if d.changed then 1 else 0;
    var dropped := |g[start..]| - |WithoutLeadingGuard(g[start..])|;
    assert d.changed && start == 0 ==> g[start..][0] == GUARD && dropped == 1;
    var k := start + dropped - offset;
    assert WithoutLeadingGuard(g[start..]) == d.snapshot[k..];
    SuffixOutlines(d.snapshot, k);
    assert 0 < k < |d.snapshot| ==> d.snapshot[k].User? || d.snapshot[k - 1].User?;
  }

  lemma {:induction false} SnapshotOutline(h: seq<Msg>, budget: int, out: seq<Msg>)
    requires Prepared(Guarded(Reduced(h, budget)), budget, out)
    ensures IsOutlineOf(Outlines(out), Outlines(h))
  {
    var d := Reduced(h, budget);
    ReducedOutlines(h, budget);
    DraftOutline(d, Guarded(d), budget, out);
  }

  lemma {:induction false} DraftOutline(d: Draft, g: seq<Msg>, budget: int, out: seq<Msg>)
    requires g == Guarded(d) && Prepared(g, budget, out)
    ensures IsOutlineOf(Outlines(out), Outlines(d.snapshot))
  {
    if Chars(g) <= budget {
      GuardedOutline(d);
    } else if exists start :: Fits(g, budget, start) {
      var start: nat :| LongestFit(g, budget, start) && out == AddGuard(WithoutLeadingGuard(g[start..]));
      CutOutline(d, g, start);
    } else {
      LoneUserOutline(Fallback(g, budget), Outlines(d.snapshot));
    }
  }

  lemma {:induction false} OutlineKeepsPairing(out: seq<Outline>, h: seq<Outline>)
    requires IsOutlineOf(out, h)
    ensures ResultsFollowCalls(h) ==> ResultsFollowCalls(out)
    ensures CallsAreAnswered(h) ==> CallsAreAnswered(out)
  {
    if out != h {
      var k :| 0 <= k <= |h| && out == [AUser] + h[k..] && (0 < k < |h| ==> h[k].AUser? || h[k - 1].AUser?);
      forall i | 1 <= i < |out| ensures out[i] == h[k + i - 1] {}
      if ResultsFollowCalls(h) {
        forall i | 0 <= i < |out| && out[i].ToolRound? ensures i > 0 && out[i - 1] == AnAssistant(out[i].answers) {
          assert h[k + i - 1].ToolRound?;
        }
      }
      if CallsAreAnswered(h) {
        forall i | 0 <= i < |out| - 1 && out[i].AnAssistant? && out[i].calls != []
          ensures out[i + 1] == ToolRound(out[i].calls)
        {
          assert h[k + i - 1].AnAssistant?;
        }
      }
    }
  }

  /** Preparation never separates a tool round from its calls, whatever it clips or cuts. */
  lemma {:induction false} PreparedKeepsPairing(h: seq<Msg>, options: Options, out: seq<Msg>)
    requires var b := ModelHistoryBudget(options); Prepared(Guarded(Reduced(h, b)), b, out)
    ensures ResultsFollowCalls(Outlines(h)) ==> ResultsFollowCalls(Outlines(out))
    ensures CallsAreAnswered(Outlines(h)) ==> CallsAreAnswered(Outlines(out))
  {
    SnapshotOutline(h, ModelHistoryBudget(options), out);
    OutlineKeepsPairing(Outlines(out), Outlines(h));
  }
}
