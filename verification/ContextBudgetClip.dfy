/**
 What clipping does to the length of a text's JSON rendering: it trades the rendering of the text dropped
 for that of the marker, and never cuts a surrogate pair in two.
 */
module ContextBudgetClip {

  import opened Common
  import opened ContextBudget

  const INPUT_CAP := 12_000

  /** A unit that JSON renders as itself. */
  predicate Plain(u: Unit) {
    0x20 <= u && u != 0x22 && u != 0x5C && !HighSurrogate(u) && !LowSurrogate(u)
  }

  predicate PlainText(t: Text) { forall u :: u in t ==> Plain(u) }

  /** No surrogate pair lies across the seam. */
  predicate CleanSeam(a: Text, b: Text) {
    a == [] || b == [] || !(HighSurrogate(a[|a| - 1]) && LowSurrogate(b[0]))
  }

  lemma {:induction false} EscapedConcat(a: Text, b: Text)
    requires CleanSeam(a, b)
    ensures EscapedChars(a + b) == EscapedChars(a) + EscapedChars(b)
  {
    if a == [] {
      assert a + b == b;
    } else if |a| >= 2 && HighSurrogate(a[0]) && LowSurrogate(a[1]) {
      assert (a + b)[2..] == a[2..] + b;
      EscapedConcat(a[2..], b);
    } else {
      assert (a + b)[1..] == a[1..] + b;
      EscapedConcat(a[1..], b);
    }
  }

  lemma {:induction false} EscapedPlain(t: Text)
    requires PlainText(t)
    ensures EscapedChars(t) == |t|
  {
    if t != [] {
      assert t[0] in t;
      EscapedPlain(t[1..]);
    }
  }

  lemma {:induction false} DigitsPlain(n: nat)
    ensures PlainText(Units(Digits(n)))
    ensures |Digits(n)| >= 1
  {
    var last := [('0' as int + n % 10) as char];
    if n >= 10 {
      DigitsPlain(n / 10);
      assert Digits(n) == Digits(n / 10) + last;
      UnitsConcat(Digits(n / 10), last);
    }
  }

  lemma {:induction false} UnitsConcat(a: string, b: string)
    ensures Units(a + b) == Units(a) + Units(b)
  {
  }

  lemma {:induction false} PlainConcat(a: Text, b: Text)
    requires PlainText(a) && PlainText(b)
    ensures PlainText(a + b)
  {
  }

  function MarkerMiddle(omitted: nat, what: Text): Text {
    [0x2026] + Units("[hara: " + Digits(omitted) + " chars omitted from ") + what + Units("]") + [0x2026]
  }

  lemma {:induction false} MarkerStart()
    ensures PlainText(Units("[hara: "))
  {
  }

  lemma {:induction false} MarkerEnd()
    ensures PlainText(Units(" chars omitted from "))
  {
    UnitsConcat(" chars omit", "ted from ");
    assert " chars omit" + "ted from " == " chars omitted from ";
    MarkerEndFirst();
    MarkerEndSecond();
    PlainConcat(Units(" chars omit"), Units("ted from "));
  }

  lemma {:induction false} MarkerEndFirst()
    ensures PlainText(Units(" chars omit"))
  {
  }

  lemma {:induction false} MarkerEndSecond()
    ensures PlainText(Units("ted from "))
  {
  }

  lemma {:induction false} MarkerWords(omitted: nat)
    ensures PlainText(Units("[hara: " + Digits(omitted) + " chars omitted from "))
  {
    MarkerStart();
    MarkerEnd();
    DigitsPlain(omitted);
    UnitsConcat("[hara: ", Digits(omitted));
    UnitsConcat("[hara: " + Digits(omitted), " chars omitted from ");
    PlainConcat(Units("[hara: "), Units(Digits(omitted)));
    PlainConcat(Units("[hara: " + Digits(omitted)), Units(" chars omitted from "));
  }

  lemma {:induction false} MiddlePlain(omitted: nat, what: Text)
    requires PlainText(what)
    ensures PlainText(MarkerMiddle(omitted, what))
    ensures Marker(omitted, what) == [10] + (MarkerMiddle(omitted, what) + [10])
  {
    MarkerWords(omitted);
    var words := Units("[hara: " + Digits(omitted) + " chars omitted from ");
    FivePlain([0x2026], words, what, Units("]"), [0x2026]);
    MarkerSplit(words, what);
  }

  lemma {:induction false} FivePlain(a: Text, b: Text, c: Text, d: Text, e: Text)
    requires PlainText(a) && PlainText(b) && PlainText(c) && PlainText(d) && PlainText(e)
    ensures PlainText(a + b + c + d + e)
  {
    PlainConcat(a, b);
    PlainConcat(a + b, c);
    PlainConcat(a + b + c, d);
    PlainConcat(a + b + c + d, e);
  }

  lemma {:induction false} MarkerSplit(words: Text, what: Text)
    ensures [10, 0x2026] + words + what + Units("]") + [0x2026, 10]
         == [10] + (([0x2026] + words + what + Units("]") + [0x2026]) + [10])
  {
  }

  lemma {:induction false} MarkerEscapes(omitted: nat, what: Text)
    requires PlainText(what)
    ensures EscapedChars(Marker(omitted, what)) == |Marker(omitted, what)| + 2
    ensures Marker(omitted, what) != [] && Marker(omitted, what)[0] == 10
    ensures Marker(omitted, what)[|Marker(omitted, what)| - 1] == 10
  {
    var middle := MarkerMiddle(omitted, what);
    MiddlePlain(omitted, what);
    EscapedPlain(middle);
    EscapedConcat([10], middle + [10]);
    EscapedConcat(middle, [10]);
    LineBreakEscapes();
  }

  lemma {:induction false} LineBreakEscapes()
    ensures EscapedChars([10]) == 2
  {
    assert [10][1..] == [];
    assert EscapedChars([]) == 0;
  }

  // ----- what a clip drops -----

  /** The text between the head and the tail that `Around` keeps. */
  function Dropped(v: Text, marker: Text, cap: nat): Text
    requires |marker| < cap < |v|
  {
    DroppedAt(v, HeadRoom(cap - |marker|), cap - |marker|)
  }

  function DroppedAt(v: Text, head: nat, room: nat): Text
    requires head <= room <= |v|
  {
    CutsAreClean(v, head, room);
    v[|SafeSliceEnd(v, head)|..|v| - |SafeSliceStart(v, |v| - (room - head))|]
  }

  /** A head and a tail of the text that do not overlap and split no surrogate pair. */
  predicate CleanParts(v: Text, a: Text, b: Text) {
    && |a| + |b| <= |v| && a == v[..|a|] && b == v[|v| - |b|..]
    && CleanSeam(a, v[|a|..]) && CleanSeam(v[|a|..|v| - |b|], b)
  }

  lemma {:induction false} CutsAreClean(v: Text, head: nat, room: nat)
    requires head <= room <= |v|
    ensures CleanParts(v, SafeSliceEnd(v, head), SafeSliceStart(v, |v| - (room - head)))
  {
    CleanCuts(v, head, room - head);
  }

  lemma {:induction false} CleanCuts(v: Text, head: nat, tail: nat)
    requires head + tail <= |v|
    ensures CleanParts(v, SafeSliceEnd(v, head), SafeSliceStart(v, |v| - tail))
  {
  }

  lemma {:induction false} EscapedThree(v: Text, a: nat, b: nat)
    requires a <= b <= |v| && CleanSeam(v[..a], v[a..]) && CleanSeam(v[a..b], v[b..])
    ensures EscapedChars(v) == EscapedChars(v[..a]) + EscapedChars(v[a..b]) + EscapedChars(v[b..])
  {
    assert v == v[..a] + v[a..] && v[a..] == v[a..b] + v[b..];
    EscapedConcat(v[..a], v[a..]);
    EscapedConcat(v[a..b], v[b..]);
  }

  lemma {:induction false} EscapedAround(left: Text, marker: Text, right: Text)
    requires marker != [] && marker[0] == 10 && marker[|marker| - 1] == 10
    ensures EscapedChars(left + marker + right) == EscapedChars(left) + EscapedChars(marker) + EscapedChars(right)
  {
    assert left + marker + right == left + (marker + right);
    EscapedConcat(left, marker + right);
    EscapedConcat(marker, right);
  }

  /** Clipping trades the rendering of the dropped text for that of the marker, whatever the text holds. */
  lemma {:induction false} ClipTrades(v: Text, marker: Text, cap: nat)
    requires |marker| < cap < |v| && marker != [] && marker[0] == 10 && marker[|marker| - 1] == 10
    ensures EscapedChars(Around(v, marker, cap)) + EscapedChars(Dropped(v, marker, cap))
         == EscapedChars(v) + EscapedChars(marker)
  {
    TradesCut(v, marker, HeadRoom(cap - |marker|), cap - |marker|);
  }

  lemma {:induction false} TradesCut(v: Text, marker: Text, head: nat, room: nat)
    requires head <= room <= |v| && marker != [] && marker[0] == 10 && marker[|marker| - 1] == 10
    ensures EscapedChars(AroundAt(v, marker, head, room)) + EscapedChars(DroppedAt(v, head, room))
         == EscapedChars(v) + EscapedChars(marker)
  {
    CutsAreClean(v, head, room);
    TradesAt(v, marker, SafeSliceEnd(v, head), SafeSliceStart(v, |v| - (room - head)));
  }

  lemma {:induction false} TradesAt(v: Text, marker: Text, a: Text, b: Text)
    requires CleanParts(v, a, b)
    requires marker != [] && marker[0] == 10 && marker[|marker| - 1] == 10
    ensures EscapedChars(a + marker + b) + EscapedChars(v[|a|..|v| - |b|]) == EscapedChars(v) + EscapedChars(marker)
  {
    EscapedThree(v, |a|, |v| - |b|);
    EscapedAround(a, marker, b);
  }

  lemma {:induction false} PlainDropped(v: Text, marker: Text, cap: nat)
    requires PlainText(v) && |marker| < cap < |v|
    ensures PlainText(Dropped(v, marker, cap)) && |Dropped(v, marker, cap)| == |v| - cap + |marker|
  {
    PlainDroppedAt(v, HeadRoom(cap - |marker|), cap - |marker|);
  }

  lemma {:induction false} PlainDroppedAt(v: Text, head: nat, room: nat)
    requires PlainText(v) && head <= room <= |v|
    ensures PlainText(DroppedAt(v, head, room)) && |DroppedAt(v, head, room)| == |v| - room
  {
    assert head > 0 ==> v[head - 1] in v;
    assert room - head > 0 ==> v[|v| - (room - head)] in v;
  }

  lemma {:induction false} ClipIsClipWith(v: Text, cap: nat, what: Text)
    requires cap < |v|
    ensures Clip(v, cap, what) == ClipWith(v, cap, Marker(|v| - cap, what))
  {
  }

  lemma {:induction false} WhatIsPlain()
    ensures PlainText(Units("historical tool input"))
  {
  }

  function Pow10(k: nat): nat { if k == 0 then 1 else 10 * Pow10(k - 1) }

  lemma {:induction false} DigitsShort(n: nat, k: nat)
    requires k >= 1 && n < Pow10(k)
    ensures |Digits(n)| <= k
    decreases k
  {
    if n >= 10 {
      assert Pow10(1) == 10 * Pow10(0);
      DigitsShort(n / 10, k - 1);
    }
  }

  lemma {:induction false} MarkerIsShort(omitted: nat)
    requires omitted < Pow10(16)
    ensures |Marker(omitted, Units("historical tool input"))| < 100
  {
    DigitsShort(omitted, 16);
  }
}
