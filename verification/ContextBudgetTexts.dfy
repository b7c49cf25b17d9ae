/**
 What becomes of every text on its way to the model: which texts stay whole, how much of a longer one is left,
 and that what is missing was replaced by a notice.
 */
module ContextBudgetTexts {

  import opened Common
  import opened ContextBudget
  import opened ContextBudgetClip

  // ----- cuts -----

  /** `out` is `text` with a piece replaced by the notice. */
  predicate CutAt(text: Text, out: Text, notice: Text, a: nat, b: nat) {
    a + b <= |text| && out == text[..a] + notice + text[|text| - b..]
  }

  /**
   One piece was replaced by a notice, or all up to the kept end by the beginning of a notice too long
   for the cap.
   */
  ghost predicate CutOnce(text: Text, out: Text, labels: set<Text>) {
    exists omitted: nat, what :: what in labels && CutBy(text, out, Marker(omitted, what))
  }

  ghost predicate CutBy(text: Text, out: Text, notice: Text) {
    exists n, a: nat, b: nat ::
      CutAt(text, out, n, a, b) && n != [] && n <= notice && (n == notice || a == 0)
  }

  /** At most so many cuts, one after the other. */
  ghost predicate AfterCuts(text: Text, out: Text, cuts: nat, labels: set<Text>)
    decreases cuts
  {
    || out == text
    || (cuts > 0 && exists between: Text :: AfterCuts(text, between, cuts - 1, labels) && CutOnce(between, out, labels))
  }

  lemma {:induction false} MoreCuts(text: Text, out: Text, cuts: nat, more: nat, labels: set<Text>)
    requires AfterCuts(text, out, cuts, labels) && cuts <= more
    ensures AfterCuts(text, out, more, labels)
    decreases cuts
  {
    if out != text {
      var between: Text :| AfterCuts(text, between, cuts - 1, labels) && CutOnce(between, out, labels);
      MoreCuts(text, between, cuts - 1, more - 1, labels);
    }
  }

  /** A text within the cap is whole; of a longer one at most two units less than the cap are left. */
  predicate SizeKept(text: Text, out: Text, cap: nat) {
    if |text| <= cap then out == text else cap - 2 <= |out| <= cap
  }

  ghost predicate TextKept(text: Text, out: Text, cap: nat, cuts: nat, labels: set<Text>) {
    SizeKept(text, out, cap) && AfterCuts(text, out, cuts, labels)
  }

  // ----- one clip -----

  lemma {:induction false} MarkerLength(omitted: nat, what: Text)
    ensures |Marker(omitted, what)| == 32 + |Digits(omitted)| + |what|
  {
  }

  /** No string of the source language is as long. */
  const LONGEST: nat := 10_000_000_000_000_000

  lemma {:induction false} SixteenDigits(n: nat)
    requires n < LONGEST
    ensures 1 <= |Digits(n)| <= 16
  {
    DigitsPlain(n);
    assert Pow10(16) == LONGEST by {
      assert Pow10(4) == 10_000;
      assert Pow10(8) == 100_000_000;
      assert Pow10(12) == 1_000_000_000_000;
    }
    DigitsShort(n, 16);
  }

  lemma {:induction false} ShortMarker(omitted: nat, what: Text)
    requires omitted < LONGEST
    ensures 32 + |what| < |Marker(omitted, what)| <= 48 + |what|
  {
    MarkerLength(omitted, what);
    SixteenDigits(omitted);
  }

  /** How much of the text stands before and after the notice. */
  predicate Parts(text: Text, out: Text, notice: Text, room: nat, a: nat, b: nat) {
    && CutAt(text, out, notice, a, b)
    && room * 3 / 5 - 1 <= a <= room * 3 / 5
    && room - room * 3 / 5 - 1 <= b <= room - room * 3 / 5
  }

  ghost predicate HasParts(text: Text, out: Text, notice: Text, room: nat) {
    exists a: nat, b: nat :: Parts(text, out, notice, room, a, b)
  }

  lemma {:induction false} ClipParts(text: Text, cap: nat, what: Text)
    requires cap < |text|
    ensures var notice, out := Marker(|text| - cap, what), Clip(text, cap, what);
            if |notice| < cap then HasParts(text, out, notice, cap - |notice|) else out == notice[..cap]
  {
    ClipIsClipWith(text, cap, what);
    if |Marker(|text| - cap, what)| < cap { AroundParts(text, Marker(|text| - cap, what), cap); }
  }

  lemma {:induction false} AroundParts(text: Text, notice: Text, cap: nat)
    requires |notice| < cap < |text|
    ensures HasParts(text, Around(text, notice, cap), notice, cap - |notice|)
  {
    SliceParts(text, notice, HeadRoom(cap - |notice|), cap - |notice|);
  }

  lemma {:induction false} SliceParts(text: Text, notice: Text, head: nat, room: nat)
    requires head == HeadRoom(room) && room <= |text|
    ensures HasParts(text, AroundAt(text, notice, head, room), notice, room)
  {
    var left, right := SafeSliceEnd(text, head), SafeSliceStart(text, |text| - (room - head));
    CutsAreClean(text, head, room);
    SliceSizes(text, head, room - head);
    assert CutAt(text, AroundAt(text, notice, head, room), notice, |left|, |right|);
    assert Parts(text, AroundAt(text, notice, head, room), notice, room, |left|, |right|);
  }

  /** At most one unit of a surrogate pair is left out at either end. */
  lemma {:induction false} SliceSizes(text: Text, head: nat, tail: nat)
    requires head <= |text| && tail <= |text|
    ensures head - 1 <= |SafeSliceEnd(text, head)| <= head
    ensures tail - 1 <= |SafeSliceStart(text, |text| - tail)| <= tail
  {
  }

  lemma {:induction false} ClipCuts(text: Text, cap: nat, what: Text, labels: set<Text>)
    requires 0 < cap && what in labels
    ensures SizeKept(text, Clip(text, cap, what), cap)
    ensures cap < |text| ==> CutOnce(text, Clip(text, cap, what), labels)
  {
    if cap < |text| {
      ClipParts(text, cap, what);
      NoticeCuts(text, Clip(text, cap, what), Marker(|text| - cap, what), cap);
    }
  }

  lemma {:induction false} NoticeCuts(text: Text, out: Text, notice: Text, cap: nat)
    requires 0 < cap && notice != []
    requires if |notice| < cap then HasParts(text, out, notice, cap - |notice|) else out == notice[..cap]
    ensures CutBy(text, out, notice)
    ensures cap - 2 <= |out| <= cap
  {
    if |notice| < cap {
      var a: nat, b: nat :| Parts(text, out, notice, cap - |notice|, a, b);
      assert CutAt(text, out, notice, a, b);
    } else {
      assert CutAt(text, out, notice[..cap], 0, 0);
    }
  }

  /** Clipping once more to a cap not above the last keeps the account. */
  lemma {:induction false} ClipAgain(text: Text, mid: Text, cap: nat, next: nat, cuts: nat, what: Text,
      labels: set<Text>)
    requires TextKept(text, mid, cap, cuts, labels) && 0 < next <= cap && what in labels
    ensures TextKept(text, Clip(mid, next, what), next, cuts + 1, labels)
  {
    var out := Clip(mid, next, what);
    ClipCuts(mid, next, what, labels);
    if next < |mid| {
      assert AfterCuts(text, mid, cuts, labels) && CutOnce(mid, out, labels);
    } else {
      MoreCuts(text, mid, cuts, cuts + 1, labels);
    }
  }

  lemma {:induction false} ClipFirst(text: Text, cap: nat, what: Text, labels: set<Text>)
    requires 0 < cap && what in labels
    ensures TextKept(text, Clip(text, cap, what), cap, 1, labels)
  {
    assert AfterCuts(text, text, 0, labels);
    ClipCuts(text, cap, what, labels);
  }

  // ----- a single notice -----

  /**
   The text itself, or a beginning of it, one whole notice and an end of it: three fifths of the room before
   the notice and two fifths after it, less two units at most.
   */
  ghost predicate OneNotice(text: Text, out: Text, labels: set<Text>, room: int) {
    out == text || exists omitted: nat, what :: what in labels && HasNotice(text, out, Marker(omitted, what), room)
  }

  ghost predicate HasNotice(text: Text, out: Text, notice: Text, room: int) {
    exists a: nat, b: nat :: NoticeAt(text, out, notice, room, a, b)
  }

  predicate NoticeAt(text: Text, out: Text, notice: Text, room: int, a: nat, b: nat) {
    CutAt(text, out, notice, a, b) && 5 * (a + 2) >= 3 * room && 5 * (b + 2) >= 2 * room
  }

  lemma {:induction false} LessRoom(text: Text, out: Text, labels: set<Text>, room: int, less: int)
    requires OneNotice(text, out, labels, room) && less <= room
    ensures OneNotice(text, out, labels, less)
  {
    if out != text {
      var omitted: nat, what :| what in labels && HasNotice(text, out, Marker(omitted, what), room);
      var a: nat, b: nat :| NoticeAt(text, out, Marker(omitted, what), room, a, b);
      assert NoticeAt(text, out, Marker(omitted, what), less, a, b);
    }
  }

  lemma {:induction false} OneClip(text: Text, cap: nat, what: Text, labels: set<Text>)
    requires what in labels && |text| < LONGEST && 48 + |what| < cap
    ensures OneNotice(text, Clip(text, cap, what), labels, cap - 48 - |what|)
  {
    if cap < |text| {
      WholeNotice(text, cap, what);
      OneCut(text, Clip(text, cap, what), what, cap, 48 + |what|, labels);
    }
  }

  lemma {:induction false} OneCut(text: Text, out: Text, what: Text, cap: nat, most: nat, labels: set<Text>)
    requires CutAroundNotice(text, out, what, cap, most) && what in labels
    ensures OneNotice(text, out, labels, cap - most)
  {
    var omitted: nat :| CutAround(text, out, Marker(omitted, what), cap, most);
    PartsOfText(text, out, Marker(omitted, what), cap, most);
  }

  /** The text is cut around the whole notice, which has at most so many units. */
  ghost predicate CutAround(text: Text, out: Text, notice: Text, cap: nat, most: nat) {
    32 < |notice| <= most < cap && HasParts(text, out, notice, cap - |notice|)
  }

  ghost predicate CutAroundNotice(text: Text, out: Text, what: Text, cap: nat, most: nat) {
    exists omitted: nat :: CutAround(text, out, Marker(omitted, what), cap, most)
  }

  /** A cap above the length of any notice leaves room beside it. */
  lemma {:induction false} WholeNotice(text: Text, cap: nat, what: Text)
    requires cap < |text| < LONGEST && 48 + |what| < cap
    ensures CutAroundNotice(text, Clip(text, cap, what), what, cap, 48 + |what|)
  {
    ShortMarker(|text| - cap, what);
    ClipParts(text, cap, what);
    assert CutAround(text, Clip(text, cap, what), Marker(|text| - cap, what), cap, 48 + |what|);
  }

  lemma {:induction false} PartsOfText(text: Text, out: Text, notice: Text, cap: nat, most: nat)
    requires CutAround(text, out, notice, cap, most)
    ensures HasNotice(text, out, notice, cap - most)
  {
    var a: nat, b: nat :| Parts(text, out, notice, cap - |notice|, a, b);
    EnoughRoom(cap - |notice|, cap - most, a, b);
    assert NoticeAt(text, out, notice, cap - most, a, b);
  }

  lemma {:induction false} EnoughRoom(room: nat, less: int, a: nat, b: nat)
    requires less <= room && room * 3 / 5 - 1 <= a && room - room * 3 / 5 - 1 <= b
    ensures 5 * (a + 2) >= 3 * less && 5 * (b + 2) >= 2 * less
  {
  }

  lemma {:induction false} NoMoreRoom(later: nat, room: int, a: nat, b: nat, c: nat, d: nat)
    requires later + 32 <= room && 5 * (a + 2) >= 3 * room && 5 * (b + 2) >= 2 * room
    requires c <= later * 3 / 5 && d <= later - later * 3 / 5
    ensures c <= a && d <= b
  {
  }

  /** A later cut that leaves less room takes the earlier notice away with it. */
  lemma {:induction false} OneClipAgain(text: Text, mid: Text, room: int, cap: nat, what: Text, labels: set<Text>)
    requires OneNotice(text, mid, labels, room) && what in labels && |text| < LONGEST && |mid| <= |text|
    requires 48 + |what| < cap <= room
    ensures OneNotice(text, Clip(mid, cap, what), labels, cap - 48 - |what|)
  {
    if |mid| <= cap {
      LessRoom(text, mid, labels, room, cap - 48 - |what|);
    } else if mid == text {
      OneClip(text, cap, what, labels);
    } else {
      WholeNotice(mid, cap, what);
      OneCutAgain(text, mid, room, Clip(mid, cap, what), what, cap, 48 + |what|, labels);
    }
  }

  lemma {:induction false} OneCutAgain(
      text: Text, mid: Text, room: int, out: Text, what: Text, cap: nat, most: nat, labels: set<Text>)
    requires OneNotice(text, mid, labels, room) && mid != text && what in labels && cap <= room
    requires CutAroundNotice(mid, out, what, cap, most)
    ensures OneNotice(text, out, labels, cap - most)
  {
    var o: nat, w :| w in labels && HasNotice(text, mid, Marker(o, w), room);
    var omitted: nat :| CutAround(mid, out, Marker(omitted, what), cap, most);
    SecondCut(text, mid, Marker(o, w), room, out, Marker(omitted, what), cap, most);
  }

  lemma {:induction false} SecondCut(
      text: Text, mid: Text, first: Text, room: int, out: Text, notice: Text, cap: nat, most: nat)
    requires HasNotice(text, mid, first, room) && CutAround(mid, out, notice, cap, most) && cap <= room
    ensures HasNotice(text, out, notice, cap - most)
  {
    var later := cap - |notice|;
    var a: nat, b: nat :| NoticeAt(text, mid, first, room, a, b);
    var c: nat, d: nat :| Parts(mid, out, notice, later, c, d);
    NoMoreRoom(later, room, a, b, c, d);
    EnoughRoom(later, cap - most, c, d);
    CutWithin(text, mid, first, a, b, out, notice, c, d);
    assert NoticeAt(text, out, notice, cap - most, c, d);
  }

  lemma {:induction false} CutWithin(
      text: Text, mid: Text, first: Text, a: nat, b: nat, out: Text, notice: Text, c: nat, d: nat)
    requires CutAt(text, mid, first, a, b) && CutAt(mid, out, notice, c, d) && c <= a && d <= b
    ensures CutAt(text, out, notice, c, d)
  {
    assert mid[..c] == text[..c];
    assert mid[|mid| - d..] == text[|text| - d..];
  }

  // ----- when a second notice joins the first -----

  ghost predicate CutWith(text: Text, out: Text, labels: set<Text>) {
    exists omitted: nat, what :: what in labels && IsCut(text, out, Marker(omitted, what))
  }

  ghost predicate IsCut(text: Text, out: Text, notice: Text) { exists a: nat, b: nat :: CutAt(text, out, notice, a, b) }

  function LineBreaks(t: Text): nat { multiset(t)[10] }

  lemma {:induction false} MarkerBreaks(omitted: nat, what: Text)
    requires PlainText(what)
    ensures LineBreaks(Marker(omitted, what)) == 2
    ensures forall u :: u in Marker(omitted, what) ==> u == 10 || Plain(u)
    ensures Marker(omitted, what)[0] == 10 && Marker(omitted, what)[|Marker(omitted, what)| - 1] == 10
  {
    MiddlePlain(omitted, what);
    assert 10 !in MarkerMiddle(omitted, what);
  }

  lemma {:induction false} PartOf(text: Text, i: nat, j: nat)
    requires i <= j <= |text|
    ensures forall u :: u in text[i..j] ==> u in text
  {
    forall u | u in text[i..j] ensures u in text {
      var k :| 0 <= k < j - i && text[i..j][k] == u;
      assert text[i + k] == u;
    }
  }

  lemma {:induction false} CutBreaks(text: Text, out: Text, notice: Text, a: nat, b: nat)
    requires PlainText(text) && CutAt(text, out, notice, a, b)
    ensures LineBreaks(out) == LineBreaks(notice)
  {
    PartOf(text, 0, a);
    PartOf(text, |text| - b, |text|);
    assert text[..a] == text[0..a] && text[|text| - b..] == text[|text| - b..|text|];
    assert 10 !in text[..a] && 10 !in text[|text| - b..];
  }

  /** No unit of the text is half of a surrogate pair. */
  predicate NoSurrogates(t: Text) { forall u :: u in t ==> !HighSurrogate(u) && !LowSurrogate(u) }

  lemma {:induction false} ExactParts(text: Text, notice: Text, room: nat)
    requires NoSurrogates(text) && room <= |text|
    ensures CutAt(text, AroundAt(text, notice, HeadRoom(room), room), notice, HeadRoom(room), room - HeadRoom(room))
  {
    var head := HeadRoom(room);
    assert head > 0 ==> text[head - 1] in text;
    assert room > head ==> text[|text| - (room - head)] in text;
  }

  lemma {:induction false} MoreRoom(room: nat, later: nat)
    requires later > room
    ensures HeadRoom(later) > HeadRoom(room) || later - HeadRoom(later) > room - HeadRoom(room)
  {
  }

  /** A later cut that keeps more at either end keeps a line break of the first notice. */
  lemma {:induction false} MoreKeepsBreak(
      text: Text, mid: Text, first: Text, a: nat, b: nat, out: Text, notice: Text, c: nat, d: nat)
    requires first != [] && first[0] == 10 && first[|first| - 1] == 10 && (c > a || d > b)
    requires CutAt(text, mid, first, a, b) && CutAt(mid, out, notice, c, d)
    ensures LineBreaks(out) > LineBreaks(notice)
  {
    var head, tail := mid[..c], mid[|mid| - d..];
    if c > a {
      assert head[a] == mid[a] == 10;
      assert 10 in head;
    } else {
      assert tail[d - b - 1] == mid[|mid| - b - 1] == 10;
      assert 10 in tail;
    }
    assert multiset(out) == multiset(head) + multiset(notice) + multiset(tail);
  }

  ghost predicate NoticeIn(notice: Text, labels: set<Text>) {
    exists omitted: nat, what :: what in labels && notice == Marker(omitted, what)
  }

  predicate PlainLabels(labels: set<Text>) { forall what :: what in labels ==> PlainText(what) }

  lemma {:induction false} NoticeBreaks(notice: Text, labels: set<Text>)
    requires NoticeIn(notice, labels) && PlainLabels(labels)
    ensures notice != [] && notice[0] == 10 && notice[|notice| - 1] == 10 && LineBreaks(notice) == 2
    ensures forall u :: u in notice ==> u == 10 || Plain(u)
  {
    var omitted: nat, what :| what in labels && notice == Marker(omitted, what);
    MarkerBreaks(omitted, what);
  }

  /**
   A second cut of a plain text leaves a beginning, one notice and an end exactly when it leaves no more room than the
   first; otherwise an end of the first notice stays beside the second.
   */
  lemma {:induction false} SecondNoticeIff(
      text: Text, mid: Text, first: Text, room: nat, cap: nat, notice: Text, labels: set<Text>)
    requires PlainText(text) && PlainLabels(labels) && NoticeIn(first, labels) && NoticeIn(notice, labels)
    requires room <= |text| && CutAt(text, mid, first, HeadRoom(room), room - HeadRoom(room)) && |notice| < cap < |mid|
    ensures CutWith(text, Around(mid, notice, cap), labels) <==> cap - |notice| <= room
  {
    NoticeBreaks(first, labels);
    NoticeBreaks(notice, labels);
    MidIsFlat(text, mid, first, HeadRoom(room), room - HeadRoom(room));
    SecondNoticeAt(text, mid, first, room, cap, Around(mid, notice, cap), notice, labels);
    if cap - |notice| <= room {
      var omitted: nat, what :| what in labels && notice == Marker(omitted, what);
      assert IsCut(text, Around(mid, notice, cap), Marker(omitted, what));
    }
  }

  lemma {:induction false} SecondNoticeAt(
      text: Text, mid: Text, first: Text, room: nat, cap: nat, out: Text, notice: Text, labels: set<Text>)
    requires PlainText(text) && NoSurrogates(mid) && PlainLabels(labels)
    requires first != [] && first[0] == 10 && first[|first| - 1] == 10 && LineBreaks(notice) == 2
    requires room <= |text| && CutAt(text, mid, first, HeadRoom(room), room - HeadRoom(room))
    requires |notice| < cap < |mid| && out == Around(mid, notice, cap)
    ensures if cap - |notice| <= room then IsCut(text, out, notice) else !CutWith(text, out, labels)
  {
    var later := cap - |notice|;
    ExactParts(mid, notice, later);
    if later <= room {
      CutWithin(text, mid, first, HeadRoom(room), room - HeadRoom(room), out, notice, HeadRoom(later),
                later - HeadRoom(later));
    } else {
      MoreRoom(room, later);
      MoreKeepsBreak(text, mid, first, HeadRoom(room), room - HeadRoom(room), out, notice, HeadRoom(later),
                     later - HeadRoom(later));
      NotCutWith(text, out, labels);
    }
  }

  lemma {:induction false} MidIsFlat(text: Text, mid: Text, notice: Text, a: nat, b: nat)
    requires PlainText(text) && CutAt(text, mid, notice, a, b) && forall u :: u in notice ==> u == 10 || Plain(u)
    ensures NoSurrogates(mid)
  {
    PartOf(text, 0, a);
    PartOf(text, |text| - b, |text|);
    assert text[..a] == text[0..a] && text[|text| - b..] == text[|text| - b..|text|];
    forall u | u in mid ensures u == 10 || Plain(u) {
      assert u in text[..a] || u in notice || u in text[|text| - b..];
    }
  }

  lemma {:induction false} NotCutWith(text: Text, out: Text, labels: set<Text>)
    requires PlainText(text) && LineBreaks(out) > 2 && PlainLabels(labels)
    ensures !CutWith(text, out, labels)
  {
    forall o: nat, w | w in labels ensures !IsCut(text, out, Marker(o, w)) {
      MarkerBreaks(o, w);
      forall a: nat, b: nat ensures !CutAt(text, out, Marker(o, w), a, b) {
        if CutAt(text, out, Marker(o, w), a, b) { CutBreaks(text, out, Marker(o, w), a, b); }
      }
    }
  }
}
