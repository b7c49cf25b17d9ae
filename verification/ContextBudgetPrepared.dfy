/**
 The whole snapshot, message by message, after any number of reductions, and what of it the model is shown.
 */
module ContextBudgetPrepared {

  import opened Common
  import opened ContextBudget
  import opened ContextBudgetClip
  import opened ContextBudgetTexts
  import opened ContextBudgetKept

  // ----- the caps -----

  /** The value that holds after so many reductions. */
  function AtLevel(level: nat, none: nat, one: nat, two: nat, three: nat): nat {
    if level == 0 then none else if level == 1 then one else if level == 2 then two else three
  }

  function UserCap(later: nat, level: nat): nat {
    if later == 0 then AtLevel(level, 64_000, 24_000, 24_000, 24_000)
    else if later < 3 then AtLevel(level, 40_000, 16_000, 8_000, 4_000)
    else AtLevel(level, 20_000, 6_000, 1_500, 512)
  }

  function AssistantCap(level: nat): nat { AtLevel(level, 24_000, 4_000, 1_500, 512) }

  function InputCap(level: nat): nat { AtLevel(level, 12_000, 2_000, 768, 256) }

  /** What each result of the newest round may have of a quarter of the budget. */
  function Share(budget: nat, results: nat): (s: nat)
    ensures 128 <= s <= 24_000
  {
    var round := Max(1_500, Min(24_000, budget / 4));
    if results <= 1 then round else Max(128, round / results)
  }

  function ToolCap(newest: bool, share: nat, level: nat): nat {
    if newest && level > 0 then Max(AtLevel(level, 0, 2_000, 512, 128), share)
        else AtLevel(level, 24_000, 2_000, 512, 128)
  }

  function ToolLabels(newest: bool, name: Text): set<Text> {
    if newest then {Units("latest tool result ") + name, Units("latest tool output")}
    else {Units("historical tool result ") + name, Units("historical tool output")}
  }

  /** What the last cut of a result that was cut at all left beside its notice. */
  function ToolRoom(newest: bool, share: nat, name: Text, level: nat): int {
    if level == 0 then 23_929 - |name|
    else if ToolCap(newest, share, level) == ToolCap(newest, share, level - 1)
        then ToolRoom(newest, share, name, level - 1)
    else ToolCap(newest, share, level) - 100
  }

  /** Every cut leaves room enough beside its notice and comes far enough below the last. */
  predicate Apart(newest: bool, share: nat, name: Text, level: nat) {
    if level == 0 then |name| < 23_929 else
      && Apart(newest, share, name, level - 1)
      && FarEnough(ToolCap(newest, share, level - 1), ToolRoom(newest, share, name, level - 1),
                   ToolCap(newest, share, level))
  }

  /** Short names suffice in older rounds; in the newest its share must not be just below one of the caps. */
  lemma {:induction false} ApartIff(newest: bool, share: nat, name: Text)
    requires 128 <= share <= 24_000
    ensures Apart(false, share, name, 3) <==> |name| <= 21_929
    ensures Apart(true, share, name, 3) <==>
              && (if share == 24_000 then |name| < 23_929 else share <= 23_929 - |name| && 2_000 <= 23_929 - |name|)
              && !(1_900 < share < 2_000) && !(412 < share < 512)
  {
    assert Apart(newest, share, name, 3) ==> Apart(newest, share, name, 2);
    ApartSteps(true, share, name);
    ApartSteps(false, share, name);
  }

  lemma {:induction false} ApartSteps(newest: bool, share: nat, name: Text)
    ensures Apart(newest, share, name, 3) <==>
              && |name| < 23_929
              && FarEnough(24_000, 23_929 - |name|, ToolCap(newest, share, 1))
              && FarEnough(ToolCap(newest, share, 1), ToolRoom(newest, share, name, 1), ToolCap(newest, share, 2))
              && FarEnough(ToolCap(newest, share, 2), ToolRoom(newest, share, name, 2), ToolCap(newest, share, 3))
  {
    assert Apart(newest, share, name, 1) <==>
             |name| < 23_929 && FarEnough(24_000, 23_929 - |name|, ToolCap(newest, share, 1));
    assert Apart(newest, share, name, 2) <==>
             && Apart(newest, share, name, 1)
             && FarEnough(ToolCap(newest, share, 1), ToolRoom(newest, share, name, 1), ToolCap(newest, share, 2));
  }

  // ----- one message -----

  const USER_LABELS: set<Text> := {Units("user message")}

  const ASSISTANT_LABELS: set<Text> := {Units("assistant message")}

  predicate NewestRound(h: seq<Msg>, i: nat) { forall j :: i < j < |h| ==> !h[j].Tool? }

  predicate DropsImages(h: seq<Msg>, i: nat)
    requires i < |h| && h[i].User?
  {
    h[i].images != [] && |LaterUsers(h, i)| >= 2
  }

  /** What is added to a user message for the images it loses. */
  function NoteFor(h: seq<Msg>, i: nat): Text
    requires i < |h| && h[i].User?
  {
    if DropsImages(h, i) then ImagesNote(|h[i].images|) else []
  }

  /** A user message with its images or a note in their place. */
  ghost predicate UserKept(h: seq<Msg>, i: nat, m: Msg, level: nat)
    requires i < |h| && h[i].User?
  {
    var cap, note := UserCap(|LaterUsers(h, i)|, level), NoteFor(h, i);
    && m.User? && m.images == (if DropsImages(h, i) then [] else h[i].images)
    && Kept(h[i].content + note, m.content, if level == 0 then cap + |note| else cap, level + 1, USER_LABELS, true,
            cap - 100)
  }

  ghost predicate AssistantKept(a: Msg, m: Msg, level: nat)
    requires a.Assistant?
  {
    && m.Assistant? && m.continuation == a.continuation && |m.toolUses| == |a.toolUses|
    && Kept(a.text, m.text, AssistantCap(level), level + 1, ASSISTANT_LABELS, true, AssistantCap(level) - 100)
    && forall k :: 0 <= k < |a.toolUses| ==> CallKept(a.toolUses[k], m.toolUses[k], level)
  }

  ghost predicate CallKept(use: ToolUse, kept: ToolUse, level: nat) {
    && kept.id == use.id && kept.name == use.name
    && InputKept(use.input, kept.input, InputCap(level), level + 1, 0)
  }

  ghost predicate RoundKept(t: Msg, m: Msg, newest: bool, share: nat, level: nat)
    requires t.Tool?
  {
    && m.Tool? && |m.results| == |t.results|
    && forall k :: 0 <= k < |t.results| ==> ResultKept(t.results[k], m.results[k], newest, share, level)
  }

  ghost predicate ResultKept(r: ToolResult, kept: ToolResult, newest: bool, share: nat, level: nat) {
    && kept.id == r.id && kept.name == r.name
    && Kept(r.content, kept.content, ToolCap(newest, share, level), level + 1, ToolLabels(newest, r.name),
            Apart(newest, share, r.name, level), ToolRoom(newest, share, r.name, level))
  }

  ghost predicate MessageKept(h: seq<Msg>, i: nat, m: Msg, budget: nat, level: nat)
    requires i < |h|
  {
    match h[i]
    case User(_, _) => UserKept(h, i, m, level)
    case Assistant(_, _, _) => AssistantKept(h[i], m, level)
    case Tool(results) => RoundKept(h[i], m, NewestRound(h, i), Share(budget, |results|), level)
  }

  /** Every message is kept as far as so many reductions allow. */
  ghost predicate AllKept(h: seq<Msg>, snapshot: seq<Msg>, budget: nat, level: nat) {
    |snapshot| == |h| && forall i :: 0 <= i < |h| ==> MessageKept(h, i, snapshot[i], budget, level)
  }

  // ----- the first pass -----

  lemma {:induction false} ToolsAfterNone(h: seq<Msg>, i: nat)
    ensures ToolsAfter(h, i) == 0 <==> NewestRound(h, i)
    decreases |h| - i
  {
    if i + 1 < |h| { ToolsAfterNone(h, i + 1); }
  }

  lemma {:induction false} FirstUserText(text: Text, cap: nat, note: Text)
    requires 100 < cap
    ensures Kept(text + note, Clip(text, cap, Units("user message")) + note, cap
        + |note|, 1, USER_LABELS, true, cap - 100)
  {
    KeptFirst(text, cap, Units("user message"), USER_LABELS, true, cap - 100);
    KeptWithNote(text, Clip(text, cap, Units("user message")), cap, USER_LABELS, true, cap - 100, note);
  }

  lemma {:induction false} FirstUserIs(h: seq<Msg>, i: nat)
    requires i < |h| && h[i].User?
    ensures var m, cap := FirstPassMsg(h, i), UserCap(|LaterUsers(h, i)|, 0);
            && m.User? && m.images == (if DropsImages(h, i) then [] else h[i].images)
            && m.content == Clip(h[i].content, cap, Units("user message")) + NoteFor(h, i)
  {
    UsersAfterCounts(h, i);
    var text := Clip(h[i].content, UserCap(|LaterUsers(h, i)|, 0), Units("user message"));
    assert text + [] == text;
  }

  lemma {:induction false} FirstUserKept(h: seq<Msg>, i: nat)
    requires i < |h| && h[i].User?
    ensures UserKept(h, i, FirstPassMsg(h, i), 0)
  {
    FirstUserIs(h, i);
    FirstUserText(h[i].content, UserCap(|LaterUsers(h, i)|, 0), NoteFor(h, i));
  }

  lemma {:induction false} FirstAssistantKept(h: seq<Msg>, i: nat)
    requires i < |h| && h[i].Assistant?
    ensures AssistantKept(h[i], FirstPassMsg(h, i), 0)
  {
    var uses, m := h[i].toolUses, FirstPassMsg(h, i);
    KeptFirst(h[i].text, 24_000, Units("assistant message"), ASSISTANT_LABELS, true, 23_900);
    forall k | 0 <= k < |uses| ensures CallKept(uses[k], m.toolUses[k], 0) { InputFirst(uses[k].input, 12_000, 0); }
  }

  lemma {:induction false} LabelLengths(newest: bool, name: Text)
    ensures |ResultLabel(newest, name)| <= 23 + |name| && ResultLabel(newest, name) in ToolLabels(newest, name)
    ensures OutputLabel(newest) in ToolLabels(newest, name) && |OutputLabel(newest)| <= 22
  {
  }

  lemma {:induction false} FirstResultText(text: Text, name: Text, newest: bool)
    ensures Kept(text, Clip(text, 24_000, ResultLabel(newest, name)), 24_000, 1, ToolLabels(newest, name),
                 |name| < 23_929, 23_929 - |name|)
  {
    LabelLengths(newest, name);
    KeptFirst(text, 24_000, ResultLabel(newest, name), ToolLabels(newest, name), |name| < 23_929, 23_929 - |name|);
  }

  lemma {:induction false} FirstResultKept(r: ToolResult, newest: bool, share: nat)
    ensures ResultKept(r, r.(content := Clip(r.content, 24_000, ResultLabel(newest, r.name))), newest, share, 0)
  {
    FirstResultText(r.content, r.name, newest);
    ResultAtFirst(r, Clip(r.content, 24_000, ResultLabel(newest, r.name)), newest, share);
  }

  lemma {:induction false} ResultAtFirst(r: ToolResult, text: Text, newest: bool, share: nat)
    requires Kept(r.content, text, 24_000, 1, ToolLabels(newest, r.name), |r.name| < 23_929, 23_929 - |r.name|)
    ensures ResultKept(r, r.(content := text), newest, share, 0)
  {
    BeforeReductions(newest, share, r.name);
  }

  lemma {:induction false} BeforeReductions(newest: bool, share: nat, name: Text)
    ensures ToolCap(newest, share, 0) == 24_000 && ToolRoom(newest, share, name, 0) == 23_929 - |name|
    ensures Apart(newest, share, name, 0) == (|name| < 23_929)
  {
  }

  lemma {:induction false} FirstRoundKept(h: seq<Msg>, i: nat, share: nat)
    requires i < |h| && h[i].Tool?
    ensures RoundKept(h[i], FirstPassMsg(h, i), NewestRound(h, i), share, 0)
  {
    ToolsAfterNone(h, i);
    var results, m := h[i].results, FirstPassMsg(h, i);
    forall k | 0 <= k < |results| ensures ResultKept(results[k], m.results[k], NewestRound(h, i), share, 0) {
      FirstResultKept(results[k], NewestRound(h, i), share);
    }
  }

  lemma {:induction false} FirstAllKept(h: seq<Msg>, budget: nat)
    ensures AllKept(h, FirstPass(h).snapshot, budget, 0)
  {
    forall i | 0 <= i < |h| ensures MessageKept(h, i, FirstPassMsg(h, i), budget, 0) {
      match h[i]
      case User(_, _) => FirstUserKept(h, i);
      case Assistant(_, _, _) => FirstAssistantKept(h, i);
      case Tool(results) => FirstRoundKept(h, i, Share(budget, |results|));
    }
  }

  // ----- one reduction -----

  function CapsAt(level: nat): Caps { if level == 1 then CAPS_1 else if level == 2 then CAPS_2 else CAPS_3 }

  lemma {:induction false} ReducedUserText(
      text: Text, mid: Text, cap: nat, least: int, level: nat, next: nat)
    requires Kept(text, mid, cap, level + 1, USER_LABELS, true, least - 100)
    requires 100 < next <= least <= cap && (next == cap || next + 100 <= least)
    ensures Kept(text, Clip(mid, next, Units("user message")), next, level + 2, USER_LABELS, true, next - 100)
  {
    KeptAgain(text, mid, cap, level + 1, USER_LABELS, true, least - 100, next, Units("user message"), next - 100);
  }

  lemma {:induction false} ReducedUserIs(h: seq<Msg>, i: nat, m: Msg, level: nat, latestCap: int)
    requires i < |h| && m.User? && level < 3
    ensures ReduceMsg(h, m, i, CapsAt(level + 1), latestCap)
         == User(Clip(m.content, UserCap(|LaterUsers(h, i)|, level + 1), Units("user message")), m.images)
  {
    UsersAfterCounts(h, i);
  }

  lemma {:induction false} UserCapsFall(later: nat, level: nat)
    requires level < 3
    ensures var cap, next := UserCap(later, level), UserCap(later, level + 1);
            100 < next <= cap && (next == cap || next + 100 <= cap) && (level == 0 ==> next < cap)
  {
  }

  lemma {:induction false} ReducedUserKept(h: seq<Msg>, i: nat, m: Msg, level: nat, latestCap: int)
    requires i < |h| && h[i].User? && UserKept(h, i, m, level) && level < 3
    ensures UserKept(h, i, ReduceMsg(h, m, i, CapsAt(level + 1), latestCap), level + 1)
  {
    ReducedUserIs(h, i, m, level, latestCap);
    UserAtNext(h, i, m, level);
  }

  lemma {:induction false} UserAtNext(h: seq<Msg>, i: nat, m: Msg, level: nat)
    requires i < |h| && h[i].User? && UserKept(h, i, m, level) && level < 3
    ensures var text := Clip(m.content, UserCap(|LaterUsers(h, i)|, level + 1), Units("user message"));
            UserKept(h, i, User(text, m.images), level + 1)
  {
    var later, note := |LaterUsers(h, i)|, NoteFor(h, i);
    var cap, next := UserCap(later, level), UserCap(later, level + 1);
    UserCapsFall(later, level);
    ReducedUserText(h[i].content + note, m.content, if level == 0 then cap + |note| else cap, cap, level, next);
  }

  lemma {:induction false} ReducedAssistantText(text: Text, mid: Text, level: nat)
    requires Kept(text, mid, AssistantCap(level), level + 1, ASSISTANT_LABELS, true, AssistantCap(level) - 100)
    requires level < 3
    ensures var next := AssistantCap(level + 1);
            Kept(text, Clip(mid, next, Units("assistant message")), next, level + 2, ASSISTANT_LABELS, true, next - 100)
  {
    KeptAgain(text, mid, AssistantCap(level), level + 1, ASSISTANT_LABELS, true,
              AssistantCap(level) - 100, AssistantCap(level + 1), Units("assistant message"), AssistantCap(level
                  + 1) - 100);
  }

  lemma {:induction false} ReducedCallKept(use: ToolUse, mid: ToolUse, level: nat)
    requires CallKept(use, mid, level) && level < 3
    ensures CallKept(use, mid.(input := BoundValue(mid.input, InputCap(level + 1), 0)), level + 1)
  {
    InputAgain(use.input, mid.input, InputCap(level), level + 1, InputCap(level + 1), 0);
  }

  lemma {:induction false} ReducedAssistantKept(h: seq<Msg>, i: nat, m: Msg, level: nat, latestCap: int)
    requires i < |h| && h[i].Assistant? && AssistantKept(h[i], m, level) && level < 3
    ensures AssistantKept(h[i], ReduceMsg(h, m, i, CapsAt(level + 1), latestCap), level + 1)
  {
    var uses, out := h[i].toolUses, ReduceMsg(h, m, i, CapsAt(level + 1), latestCap);
    ReducedAssistantText(h[i].text, m.text, level);
    forall k | 0 <= k < |uses| ensures CallKept(uses[k], out.toolUses[k], level + 1) {
      ReducedCallKept(uses[k], m.toolUses[k], level);
    }
  }

  function OutputLabel(newest: bool): Text {
    Units(if newest then "latest tool output" else "historical tool output")
  }

  lemma {:induction false} ReducedResultText(text: Text, mid: Text, newest: bool, share: nat, name: Text, level: nat)
    requires Kept(text, mid, ToolCap(newest, share, level), level + 1, ToolLabels(newest, name),
                  Apart(newest, share, name, level), ToolRoom(newest, share, name, level))
    requires level < 3 && 128 <= share <= 24_000
    ensures var next := ToolCap(newest, share, level + 1);
            Kept(text, Clip(mid, next, OutputLabel(newest)), next, level + 2, ToolLabels(newest, name),
                 Apart(newest, share, name, level + 1), ToolRoom(newest, share, name, level + 1))
  {
    LabelLengths(newest, name);
    KeptAgain(text, mid, ToolCap(newest, share, level), level + 1, ToolLabels(newest, name),
              Apart(newest, share, name, level + 1), ToolRoom(newest, share, name, level),
              ToolCap(newest, share, level + 1), OutputLabel(newest), ToolRoom(newest, share, name, level + 1));
  }

  lemma {:induction false} ReducedResultKept(r: ToolResult, mid: ToolResult, newest: bool, share: nat, level: nat)
    requires ResultKept(r, mid, newest, share, level) && level < 3 && 128 <= share <= 24_000
    ensures ResultKept(r, mid.(content := Clip(mid.content, ToolCap(newest, share, level + 1), OutputLabel(newest))),
                       newest, share, level + 1)
  {
    ReducedResultText(r.content, mid.content, newest, share, r.name, level);
  }

  lemma {:induction false} ShareIs(h: seq<Msg>, i: nat, budget: nat)
    requires i < |h| && h[i].Tool? && NewestRound(h, i)
    ensures LatestToolResultCap(h, budget) == Share(budget, |h[i].results|)
  {
    CountIs(h, i);
  }

  lemma {:induction false} CountIs(h: seq<Msg>, i: nat)
    requires i < |h| && h[i].Tool? && NewestRound(h, i)
    ensures LatestToolResultCount(h) == Max(1, |h[i].results|)
    decreases |h|
  {
    if i < |h| - 1 { CountIs(h[..|h| - 1], i); }
  }

  lemma {:induction false} ReducedRoundKept(h: seq<Msg>, i: nat, m: Msg, budget: nat, level: nat)
    requires i < |h| && h[i].Tool? && level < 3
    requires RoundKept(h[i], m, NewestRound(h, i), Share(budget, |h[i].results|), level)
    ensures RoundKept(h[i], ReduceMsg(h, m, i, CapsAt(level + 1), LatestToolResultCap(h, budget)), NewestRound(h, i),
                      Share(budget, |h[i].results|), level + 1)
  {
    ToolsAfterNone(h, i);
    var newest, share := NewestRound(h, i), Share(budget, |h[i].results|);
    if newest { ShareIs(h, i, budget); }
    var results, out := h[i].results, ReduceMsg(h, m, i, CapsAt(level + 1), LatestToolResultCap(h, budget));
    forall k | 0 <= k < |results| ensures ResultKept(results[k], out.results[k], newest, share, level + 1) {
      assert ResultKept(results[k], m.results[k], newest, share, level);
      ReducedResultKept(results[k], m.results[k], newest, share, level);
    }
  }

  lemma {:induction false} ReducedAllKept(h: seq<Msg>, d: Draft, budget: nat, level: nat)
    requires AllKept(h, d.snapshot, budget, level) && level < 3 && Chars(d.snapshot) + GUARD_CHARS > budget
    ensures AllKept(h, Tighten(h, d, CapsAt(level + 1), budget).snapshot, budget, level + 1)
  {
    var out := Tighten(h, d, CapsAt(level + 1), budget).snapshot;
    forall i | 0 <= i < |h| ensures MessageKept(h, i, out[i], budget, level + 1) {
      assert MessageKept(h, i, d.snapshot[i], budget, level);
      match h[i]
      case User(_, _) => ReducedUserKept(h, i, d.snapshot[i], level, LatestToolResultCap(h, budget));
      case Assistant(_, _, _) => ReducedAssistantKept(h, i, d.snapshot[i], level, LatestToolResultCap(h, budget));
      case Tool(_) => ReducedRoundKept(h, i, d.snapshot[i], budget, level);
    }
  }

  // ----- the snapshot and what is shown of it -----

  /** As few reductions as make the snapshot fit, three at most. */
  ghost predicate Drafted(h: seq<Msg>, snapshot: seq<Msg>, budget: nat, level: nat) {
    && level <= 3 && AllKept(h, snapshot, budget, level)
    && (level > 0 ==>
          exists fuller :: AllKept(h, fuller, budget, level - 1) && Chars(fuller) + GUARD_CHARS > budget)
    && (level < 3 ==> Chars(snapshot) + GUARD_CHARS <= budget)
  }

  /** The drafting is over, with the note called for when anything was reduced. */
  ghost predicate IsFinal(h: seq<Msg>, d: Draft, budget: nat) {
    exists level: nat :: Drafted(h, d.snapshot, budget, level) && (level > 0 ==> d.changed)
  }

  /** The reductions still to come after so many. */
  function Rest(h: seq<Msg>, d: Draft, budget: nat, level: nat): Draft
    requires |d.snapshot| == |h| && level <= 3
    decreases 3 - level
  {
    if level == 3 then d else Rest(h, Tighten(h, d, CapsAt(level + 1), budget), budget, level + 1)
  }

  lemma {:induction false} RestIsReduced(h: seq<Msg>, budget: nat)
    ensures Rest(h, FirstPass(h), budget, 0) == Reduced(h, budget)
  {
    var d1 := Tighten(h, FirstPass(h), CAPS_1, budget);
    var d2 := Tighten(h, d1, CAPS_2, budget);
    assert Rest(h, d2, budget, 2) == Rest(h, Tighten(h, d2, CAPS_3, budget), budget, 3);
    assert Rest(h, d1, budget, 1) == Rest(h, d2, budget, 2);
  }

  lemma {:induction false} RestOfFitting(h: seq<Msg>, d: Draft, budget: nat, level: nat)
    requires |d.snapshot| == |h| && level <= 3 && (level == 3 || Chars(d.snapshot) + GUARD_CHARS <= budget)
    ensures Rest(h, d, budget, level) == d
    decreases 3 - level
  {
    if level < 3 { RestOfFitting(h, d, budget, level + 1); }
  }

  lemma {:induction false} RestIsFinal(h: seq<Msg>, d: Draft, budget: nat, level: nat)
    requires level <= 3 && AllKept(h, d.snapshot, budget, level)
    requires level > 0 ==>
               && d.changed
               && exists fuller :: AllKept(h, fuller, budget, level - 1) && Chars(fuller) + GUARD_CHARS > budget
    ensures IsFinal(h, Rest(h, d, budget, level), budget)
    decreases 3 - level
  {
    if level == 3 || Chars(d.snapshot) + GUARD_CHARS <= budget {
      RestOfFitting(h, d, budget, level);
      assert Drafted(h, d.snapshot, budget, level);
    } else {
      var next := Tighten(h, d, CapsAt(level + 1), budget);
      ReducedAllKept(h, d, budget, level);
      assert next.changed;
      RestIsFinal(h, next, budget, level + 1);
    }
  }

  lemma {:induction false} ReducedIsFinal(h: seq<Msg>, budget: nat)
    ensures IsFinal(h, Reduced(h, budget), budget)
  {
    FirstAllKept(h, budget);
    RestIsFinal(h, FirstPass(h), budget, 0);
    RestIsReduced(h, budget);
  }

  /**
   The model is shown the snapshot, after the guard note when it was bounded; its longest fitting suffix from a
   user message on; or the guard note with the newest user message.
   */
  ghost predicate Shown(snapshot: seq<Msg>, budget: nat, bounded: bool, out: seq<Msg>) {
    if !bounded && Chars(snapshot) <= budget then out == snapshot
    else if Chars(snapshot) + GUARD_CHARS <= budget then out == [GUARD] + snapshot
    else if exists start :: Fits(snapshot, budget, start) then
      exists start: nat ::
        LongestFit(snapshot, budget, start) && out == [GUARD] + WithoutLeadingGuard(snapshot[start..])
    else exists text: Text :: NewestShown(snapshot, budget, text) && out == [User(GUARD.content + [10, 10] + text, [])]
  }

  const FALLBACK_LABELS: set<Text> := {Units("latest user message")}

  /** The newest user message within what the guard note leaves of the budget. */
  ghost predicate NewestShown(snapshot: seq<Msg>, budget: nat, text: Text) {
    forall i: nat :: i < |snapshot| && snapshot[i].User? && |LaterUsers(snapshot, i)| == 0 ==>
      var cap := Max(1_000, budget - GUARD_CHARS - 8);
      Kept(snapshot[i].content, text, cap, 1, FALLBACK_LABELS, true, cap - 100)
  }

  lemma {:induction false} GuardedFits(snapshot: seq<Msg>, budget: nat, start: nat)
    requires Chars(snapshot) + GUARD_CHARS > budget
    ensures Fits([GUARD] + snapshot, budget, start) <==> start > 0 && Fits(snapshot, budget, start - 1)
  {
    var g := [GUARD] + snapshot;
    if start == 0 {
      CharsGuarded(snapshot);
      assert g[0..] == g;
    } else if start <= |snapshot| {
      assert g[start..] == snapshot[start - 1..];
    }
  }

  lemma {:induction false} GuardedLongest(snapshot: seq<Msg>, budget: nat, start: nat)
    requires Chars(snapshot) + GUARD_CHARS > budget && LongestFit([GUARD] + snapshot, budget, start)
    ensures start > 0 && LongestFit(snapshot, budget, start - 1)
  {
    GuardedFits(snapshot, budget, start);
    forall other: nat | Fits(snapshot, budget, other) ensures start - 1 <= other {
      GuardedFits(snapshot, budget, other + 1);
    }
  }

  lemma {:induction false} LastUserIs(h: seq<Msg>, i: nat)
    requires i < |h| && h[i].User? && |LaterUsers(h, i)| == 0
    ensures LastUser(h) == Some(h[i])
    decreases |h|
  {
    var n := |h| - 1;
    if i < n {
      assert n !in LaterUsers(h, i);
      assert LaterUsers(h[..n], i) == {};
      LastUserIs(h[..n], i);
    }
  }

  lemma {:induction false} FallbackShown(snapshot: seq<Msg>, budget: nat)
    requires budget >= 2_000
    ensures exists text: Text ::
              && NewestShown(snapshot, budget, text)
              && [Fallback([GUARD] + snapshot, budget)] == [User(GUARD.content + [10, 10] + text, [])]
  {
    var g, cap := [GUARD] + snapshot, Max(1_000, budget - GUARD_CHARS - 8);
    var shown := LastUser(g);
    var text := if shown.Some? && shown.value.User? then Clip(shown.value.content, cap, Units("latest user message"))
                else Units("Continue the active task from durable task state.");
    FallbackText(snapshot, shown, cap, text);
    assert NewestShown(snapshot, budget, text);
  }

  lemma {:induction false} FallbackText(snapshot: seq<Msg>, shown: Option<Msg>, cap: nat, text: Text)
    requires cap >= 1_000 && shown == LastUser([GUARD] + snapshot)
    requires shown.Some? && shown.value.User? ==> text == Clip(shown.value.content, cap, Units("latest user message"))
    ensures forall i: nat :: i < |snapshot| && snapshot[i].User? && |LaterUsers(snapshot, i)| == 0 ==>
              Kept(snapshot[i].content, text, cap, 1, FALLBACK_LABELS, true, cap - 100)
  {
    forall i: nat | i < |snapshot| && snapshot[i].User? && |LaterUsers(snapshot, i)| == 0
      ensures Kept(snapshot[i].content, text, cap, 1, FALLBACK_LABELS, true, cap - 100)
    {
      LaterBehindGuard(snapshot, i);
      LastUserIs([GUARD] + snapshot, i + 1);
      KeptFirst(snapshot[i].content, cap, Units("latest user message"), FALLBACK_LABELS, true, cap - 100);
    }
  }

  lemma {:induction false} LaterBehindGuard(snapshot: seq<Msg>, i: nat)
    requires i < |snapshot| && |LaterUsers(snapshot, i)| == 0
    ensures |LaterUsers([GUARD] + snapshot, i + 1)| == 0
  {
    forall j | i < j < |snapshot| ensures !snapshot[j].User? { assert j !in LaterUsers(snapshot, i); }
    assert LaterUsers([GUARD] + snapshot, i + 1) == {};
  }

  lemma {:induction false} DraftIsShown(d: Draft, budget: nat, out: seq<Msg>)
    requires budget >= 2_000 && Prepared(Guarded(d), budget, out)
    requires !d.changed ==> Chars(d.snapshot) + GUARD_CHARS <= budget
    ensures Shown(d.snapshot, budget, d.changed, out)
  {
    if d.changed {
      CharsGuarded(d.snapshot);
      if Chars(d.snapshot) + GUARD_CHARS > budget { CutIsShown(d.snapshot, budget, out); }
    }
  }

  lemma {:induction false} CutIsShown(snapshot: seq<Msg>, budget: nat, out: seq<Msg>)
    requires budget >= 2_000 && Prepared([GUARD] + snapshot, budget, out)
    requires Chars(snapshot) + GUARD_CHARS > budget
    ensures Shown(snapshot, budget, true, out)
  {
    CharsGuarded(snapshot);
    var g := [GUARD] + snapshot;
    if exists start :: Fits(g, budget, start) {
      var start: nat :| LongestFit(g, budget, start) && out == AddGuard(WithoutLeadingGuard(g[start..]));
      SuffixIsShown(snapshot, budget, start, out);
    } else {
      NothingFits(snapshot, budget);
      FallbackShown(snapshot, budget);
    }
  }

  lemma {:induction false} SuffixIsShown(snapshot: seq<Msg>, budget: nat, start: nat, out: seq<Msg>)
    requires Chars(snapshot) + GUARD_CHARS > budget
    requires var g := [GUARD] + snapshot;
             LongestFit(g, budget, start) && out == AddGuard(WithoutLeadingGuard(g[start..]))
    ensures Shown(snapshot, budget, true, out)
  {
    GuardedLongest(snapshot, budget, start);
    assert ([GUARD] + snapshot)[start..] == snapshot[start - 1..];
    assert Fits(snapshot, budget, start - 1);
  }

  lemma {:induction false} NothingFits(snapshot: seq<Msg>, budget: nat)
    requires Chars(snapshot) + GUARD_CHARS > budget && forall start :: !Fits([GUARD] + snapshot, budget, start)
    ensures forall start :: !Fits(snapshot, budget, start)
  {
    forall start: nat ensures !Fits(snapshot, budget, start) { GuardedFits(snapshot, budget, start + 1); }
  }

  /**
   Every prepared history shows a snapshot in which every message is kept as far as the fewest reductions that make
   it fit allow, whole, or cut to its longest fitting suffix, or down to its newest user message.
   */
  lemma {:induction false} PreparedShowsTexts(h: seq<Msg>, options: Options, out: seq<Msg>)
    requires var b := ModelHistoryBudget(options); Prepared(Guarded(Reduced(h, b)), b, out)
    ensures var b := ModelHistoryBudget(options);
            exists level: nat, snapshot, bounded ::
              Drafted(h, snapshot, b, level) && (level > 0 ==> bounded) && Shown(snapshot, b, bounded, out)
  {
    var b := ModelHistoryBudget(options);
    var d := Reduced(h, b);
    ReducedIsFinal(h, b);
    var level: nat :| Drafted(h, d.snapshot, b, level) && (level > 0 ==> d.changed);
    DraftIsShown(d, b, out);
  }

  // ----- the newest messages -----

  /** The guard note and the newest user message alone. */
  ghost predicate IsFallback(h: seq<Msg>, i: nat, budget: nat, out: seq<Msg>)
    requires i < |h| && h[i].User?
  {
    exists text: Text ::
      && out == [User(GUARD.content + [10, 10] + text, [])]
      && (|h[i].content| <= Max(1_000, budget - GUARD_CHARS - 8) ==> text == h[i].content)
  }

  lemma {:induction false} NewestUserKept(h: seq<Msg>, i: nat, m: Msg, level: nat)
    requires i < |h| && h[i].User? && |LaterUsers(h, i)| == 0 && UserKept(h, i, m, level) && level <= 3
    requires |h[i].content| <= 24_000
    ensures m == h[i]
  {
    assert h[i].content + [] == h[i].content;
  }

  /**
   However long the history, a newest user message of at most 24,000 characters reaches the model whole with its
   images; only when no suffix fits it comes without them behind the guard note.
   */
  lemma {:induction false} NewestUserIsWhole(h: seq<Msg>, i: nat, options: Options, out: seq<Msg>)
    requires var b := ModelHistoryBudget(options); Prepared(Guarded(Reduced(h, b)), b, out)
    requires i < |h| && h[i].User? && |LaterUsers(h, i)| == 0
    requires |h[i].content| <= 24_000 && h[i].content != GUARD.content
    ensures h[i] in out || IsFallback(h, i, ModelHistoryBudget(options), out)
  {
    var b := ModelHistoryBudget(options);
    PreparedShowsTexts(h, options, out);
    var level: nat, snapshot, bounded :|
      Drafted(h, snapshot, b, level) && (level > 0 ==> bounded) && Shown(snapshot, b, bounded, out);
    NewestUserShown(h, i, b, level, snapshot, bounded, out);
  }

  lemma {:induction false} NewestUserShown(
      h: seq<Msg>, i: nat, b: nat, level: nat, snapshot: seq<Msg>, bounded: bool, out: seq<Msg>)
    requires level <= 3 && AllKept(h, snapshot, b, level) && Shown(snapshot, b, bounded, out)
    requires i < |h| && h[i].User? && |LaterUsers(h, i)| == 0
    requires |h[i].content| <= 24_000 && h[i].content != GUARD.content
    ensures h[i] in out || IsFallback(h, i, b, out)
  {
    assert MessageKept(h, i, snapshot[i], b, level);
    NewestUserKept(h, i, snapshot[i], level);
    SameUsers(h, snapshot, b, level, i);
    LastIsShown(snapshot, i, b, bounded, out);
  }

  lemma {:induction false} SameUsers(h: seq<Msg>, snapshot: seq<Msg>, budget: nat, level: nat, i: nat)
    requires AllKept(h, snapshot, budget, level)
    ensures LaterUsers(snapshot, i) == LaterUsers(h, i)
  {
    forall j | i < j < |h| ensures snapshot[j].User? <==> h[j].User? {
      assert MessageKept(h, j, snapshot[j], budget, level);
    }
  }

  lemma {:induction false} LastIsShown(snapshot: seq<Msg>, i: nat, budget: nat, bounded: bool, out: seq<Msg>)
    requires Shown(snapshot, budget, bounded, out) && i < |snapshot| && snapshot[i].User?
    requires |LaterUsers(snapshot, i)| == 0 && snapshot[i].content != GUARD.content
    ensures snapshot[i] in out || IsFallback(snapshot, i, budget, out)
  {
    if Chars(snapshot) + GUARD_CHARS > budget && (bounded || Chars(snapshot) > budget)
       && exists start :: Fits(snapshot, budget, start)
    {
      var start: nat :|
        LongestFit(snapshot, budget, start) && out == [GUARD] + WithoutLeadingGuard(snapshot[start..]);
      NoUserLater(snapshot, i, start);
      StaysInSuffix(snapshot, i, start);
    }
  }

  lemma {:induction false} NoUserLater(h: seq<Msg>, i: nat, start: nat)
    requires |LaterUsers(h, i)| == 0 && start < |h| && h[start].User?
    ensures start <= i
  {
    assert start !in LaterUsers(h, i);
  }

  lemma {:induction false} StaysInSuffix(h: seq<Msg>, i: nat, start: nat)
    requires start <= i < |h| && (h[i].User? ==> h[i].content != GUARD.content)
    ensures h[i] in WithoutLeadingGuard(h[start..])
  {
    assert h[start..][i - start] == h[i];
    if WithoutLeadingGuard(h[start..]) != h[start..] { assert h[start..][1..][i - start - 1] == h[i]; }
  }

  /** A single user message that begins with the guard note. */
  ghost predicate IsLoneNote(out: seq<Msg>) {
    exists text: Text :: out == [User(GUARD.content + [10, 10] + text, [])]
  }

  /** The round with every result of at most the cap whole. */
  predicate HasWholeResults(t: Msg, m: Msg, cap: nat)
    requires t.Tool?
  {
    && m.Tool? && |m.results| == |t.results|
    && forall k :: 0 <= k < |t.results| && |t.results[k].content| <= cap ==> m.results[k] == t.results[k]
  }

  /**
   The newest round of tool results, when no user message follows it, reaches the model with every result of at
   most its share of a quarter of the budget whole, unless only the newest user message is shown.
   */
  lemma {:induction false} NewestRoundIsWhole(h: seq<Msg>, u: nat, i: nat, options: Options, out: seq<Msg>)
    requires var b := ModelHistoryBudget(options); Prepared(Guarded(Reduced(h, b)), b, out)
    requires u < i < |h| && h[u].User? && |LaterUsers(h, u)| == 0 && h[i].Tool? && NewestRound(h, i)
    ensures var b := ModelHistoryBudget(options);
            || (exists m :: m in out && HasWholeResults(h[i], m, Share(b, |h[i].results|)))
            || IsLoneNote(out)
  {
    var b := ModelHistoryBudget(options);
    PreparedShowsTexts(h, options, out);
    var level: nat, snapshot, bounded :|
      Drafted(h, snapshot, b, level) && (level > 0 ==> bounded) && Shown(snapshot, b, bounded, out);
    assert MessageKept(h, i, snapshot[i], b, level);
    ShareIsWhole(h[i], snapshot[i], b, level);
    SameUsers(h, snapshot, b, level, u);
    assert MessageKept(h, u, snapshot[u], b, level);
    RoundIsShown(snapshot, u, i, b, bounded, out);
  }

  lemma {:induction false} ShareIsWhole(t: Msg, m: Msg, budget: nat, level: nat)
    requires t.Tool? && level <= 3 && RoundKept(t, m, true, Share(budget, |t.results|), level)
    ensures HasWholeResults(t, m, Share(budget, |t.results|))
  {
    var share := Share(budget, |t.results|);
    forall k | 0 <= k < |t.results| && |t.results[k].content| <= share ensures m.results[k] == t.results[k] {
      assert ResultKept(t.results[k], m.results[k], true, share, level);
    }
  }

  lemma {:induction false} RoundIsShown(snapshot: seq<Msg>, u: nat, i: nat, budget: nat, bounded: bool, out: seq<Msg>)
    requires Shown(snapshot, budget, bounded, out) && u < i < |snapshot| && snapshot[u].User? && snapshot[i].Tool?
    requires |LaterUsers(snapshot, u)| == 0
    ensures snapshot[i] in out || IsLoneNote(out)
  {
    if Chars(snapshot) + GUARD_CHARS > budget && (bounded || Chars(snapshot) > budget)
       && exists start :: Fits(snapshot, budget, start)
    {
      var start: nat :|
        LongestFit(snapshot, budget, start) && out == [GUARD] + WithoutLeadingGuard(snapshot[start..]);
      NoUserLater(snapshot, u, start);
      StaysInSuffix(snapshot, i, start);
    }
  }

  // ----- a share just below the first cap -----

  lemma {:induction false} ResultWordsPlain()
    ensures PlainText(Units("latest tool result "))
  {
  }

  lemma {:induction false} OutputWordsPlain()
    ensures PlainText(Units("latest tool output"))
  {
  }

  lemma {:induction false} PlainToolLabels(name: Text)
    requires PlainText(name)
    ensures PlainLabels(ToolLabels(true, name))
  {
    ResultWordsPlain();
    OutputWordsPlain();
    PlainConcat(Units("latest tool result "), name);
  }

  lemma {:induction false} FewDigits()
    ensures |Digits(6_000)| == 4 && |Digits(1)| == 1
  {
    assert |Digits(6)| == 1 && |Digits(60)| == 2 && |Digits(600)| == 3;
  }

  lemma {:induction false} FirstCutOf(text: Text, notice: Text, cap: nat)
    requires PlainText(text) && |notice| < cap < |text|
    ensures var room, mid := cap - |notice|, Around(text, notice, cap);
            CutAt(text, mid, notice, HeadRoom(room), room - HeadRoom(room)) && |mid| == cap
  {
    ExactParts(text, notice, cap - |notice|);
  }

  lemma {:induction false} TwoNoticesOf(text: Text, mid: Text, first: Text, second: Text, labels: set<Text>)
    requires PlainText(text) && |text| == 30_000 && |first| == 59 && |second| == 51
    requires PlainLabels(labels) && NoticeIn(first, labels) && NoticeIn(second, labels)
    requires mid == Around(text, first, 24_000) && |mid| == 24_000
    ensures !CutWith(text, Around(mid, second, 23_999), labels)
  {
    FirstCutOf(text, first, 24_000);
    SecondNoticeIff(text, mid, first, 23_941, 23_999, second, labels);
  }

  lemma {:induction false} ClipAround(text: Text, cap: nat, what: Text, notice: Text)
    requires cap < |text| && notice == Marker(|text| - cap, what) && |notice| < cap
    ensures Clip(text, cap, what) == Around(text, notice, cap)
  {
    ClipIsClipWith(text, cap, what);
  }

  /**
   A newest result of 30,000 plain characters with a share of 23,999 keeps an end of its first notice
   beside the second.
   */
  lemma {:induction false} NoticesCanMeet(text: Text, name: Text)
    requires PlainText(text) && |text| == 30_000 && PlainText(name) && |name| == 4
    ensures !Apart(true, 23_999, name, 1)
    ensures !CutWith(text, Clip(Clip(text, 24_000, ResultLabel(true, name)), 23_999, OutputLabel(true)),
                     ToolLabels(true, name))
  {
    PlainToolLabels(name);
    FewDigits();
    var first, second := Marker(6_000, ResultLabel(true, name)), Marker(1, OutputLabel(true));
    MarkerLength(6_000, ResultLabel(true, name));
    MarkerLength(1, OutputLabel(true));
    FirstCutOf(text, first, 24_000);
    ClipAround(text, 24_000, ResultLabel(true, name), first);
    ClipAround(Around(text, first, 24_000), 23_999, OutputLabel(true), second);
    MarkersIn(name);
    TwoNoticesOf(text, Around(text, first, 24_000), first, second, ToolLabels(true, name));
  }

  lemma {:induction false} MarkersIn(name: Text)
    ensures NoticeIn(Marker(6_000, ResultLabel(true, name)), ToolLabels(true, name))
    ensures NoticeIn(Marker(1, OutputLabel(true)), ToolLabels(true, name))
  {
    LabelLengths(true, name);
  }
}
