/**
 When the first pass reports that it changed an assistant message: by how much bounding a tool input
 changes the length of its rendering, and when the changes of a whole message cancel.
 */
module ContextBudgetNotice {

  import opened Common
  import opened ContextBudget
  import opened ContextBudgetClip

  const TEXT_CAP := 24_000

  // ----- the gain of one input -----

  function InputMarker(s: Text, cap: nat): Text
    requires cap < |s|
  {
    Marker(|s| - cap, Units("historical tool input"))
  }

  /** A text over the cap trades what is dropped for the marker; a cap too small for the marker leaves its beginning. */
  function TextGain(s: Text, cap: nat): int {
    if |s| <= cap then 0
    else if |InputMarker(s, cap)| < cap then
      EscapedChars(InputMarker(s, cap)) - EscapedChars(Dropped(s, InputMarker(s, cap), cap))
    else EscapedChars(InputMarker(s, cap)[..cap]) - EscapedChars(s)
  }

  const NESTED_NOTE: Json := Str(Units("[hara: nested historical tool input omitted]"))

  function ItemsNote(omitted: nat): Json { Str(Units("[hara: " + Digits(omitted) + " array items omitted]")) }

  function KeysNote(omitted: nat): Field { Field(Units("_hara_omitted_keys"), Number(Units(Digits(omitted)))) }

  /** What bounding adds to the length of a value's rendering. */
  function Gain(j: Json, cap: nat, depth: nat): int
    decreases j
  {
    match j
    case Str(s) => TextGain(s, cap)
    case Null => 0
    case Bool(_) => 0
    case Number(_) => 0
    case Arr(items) =>
      if depth >= 8 then JsonChars(NESTED_NOTE) - JsonChars(j)
      else if |items| <= 80 then ItemsGain(items, cap, depth + 1)
      else ItemsGain(items[..80], cap, depth + 1) + JsonChars(ItemsNote(|items| - 80)) - ItemsChars(items[80..])
    case Obj(fields) =>
      if depth >= 8 then JsonChars(NESTED_NOTE) - JsonChars(j)
      else if |fields| <= 80 then FieldsGain(fields, cap, depth + 1)
      else
        FieldsGain(fields[..80], cap, depth + 1) + NoteGain(fields[..80], KeysNote(|fields| - 80), cap, depth + 1)
        - 1 - FieldsChars(fields[80..])
  }

  function ItemsGain(items: seq<Json>, cap: nat, depth: nat): int
    decreases items
  {
    if items == [] then 0 else Gain(items[0], cap, depth) + ItemsGain(items[1..], cap, depth)
  }

  function FieldsGain(fields: seq<Field>, cap: nat, depth: nat): int
    decreases fields
  {
    if fields == [] then 0 else Gain(fields[0].value, cap, depth) + FieldsGain(fields[1..], cap, depth)
  }

  /** The note on omitted keys comes last, or takes the place of a field of the same name. */
  function NoteGain(fields: seq<Field>, note: Field, cap: nat, depth: nat): int
    decreases fields
  {
    if fields == [] then FieldsChars([note])
    else if fields[0].key == note.key then
      JsonChars(note.value) - JsonChars(fields[0].value) - Gain(fields[0].value, cap, depth)
    else NoteGain(fields[1..], note, cap, depth) + (if |fields| == 1 then 1 else 0)
  }

  function UsesGain(uses: seq<ToolUse>): int {
    if uses == [] then 0 else Gain(uses[0].input, INPUT_CAP, 0) + UsesGain(uses[1..])
  }

  // ----- rendering sequences -----

  lemma {:induction false} ItemsConcat(a: seq<Json>, b: seq<Json>)
    requires a != [] && b != []
    ensures ItemsChars(a + b) == ItemsChars(a) + 1 + ItemsChars(b)
  {
    assert (a + b)[1..] == a[1..] + b;
    if |a| > 1 { ItemsConcat(a[1..], b); } else { assert a[1..] == [] && a[1..] + b == b; }
  }

  lemma {:induction false} FieldsConcat(a: seq<Field>, b: seq<Field>)
    requires a != [] && b != []
    ensures FieldsChars(a + b) == FieldsChars(a) + 1 + FieldsChars(b)
  {
    assert (a + b)[1..] == a[1..] + b;
    if |a| > 1 { FieldsConcat(a[1..], b); } else { assert a[1..] == [] && a[1..] + b == b; }
  }

  lemma {:induction false} LoneItem(j: Json)
    ensures ItemsChars([j]) == JsonChars(j)
  {
    assert [j][1..] == [];
  }

  lemma {:induction false} ClipGain(s: Text, cap: nat)
    ensures EscapedChars(Clip(s, cap, Units("historical tool input"))) == EscapedChars(s) + TextGain(s, cap)
  {
    if cap < |s| {
      ClipIsClipWith(s, cap, Units("historical tool input"));
      if |InputMarker(s, cap)| < cap {
        WhatIsPlain();
        MarkerEscapes(|s| - cap, Units("historical tool input"));
        ClipTrades(s, InputMarker(s, cap), cap);
      }
    }
  }

  // ----- bounding adds exactly the gain -----

  /** Each item is the bounded one. */
  predicate ItemsBounded(items: seq<Json>, bounded: seq<Json>, cap: nat, depth: nat) {
    |bounded| == |items| && forall i :: 0 <= i < |items| ==> bounded[i] == BoundValue(items[i], cap, depth)
  }

  predicate FieldsBounded(fields: seq<Field>, bounded: seq<Field>, cap: nat, depth: nat) {
    && |bounded| == |fields|
    && forall i :: 0 <= i < |fields| ==> bounded[i] == Field(fields[i].key, BoundValue(fields[i].value, cap, depth))
  }

  lemma {:induction false} BoundGain(j: Json, cap: nat, depth: nat)
    ensures JsonChars(BoundValue(j, cap, depth)) == JsonChars(j) + Gain(j, cap, depth)
    decreases j, 1
  {
    match j
    case Str(s) => ClipGain(s, cap);
    case Null =>
    case Bool(_) =>
    case Number(_) =>
    case Arr(items) => if depth < 8 { ArrayGain(items, cap, depth); }
    case Obj(fields) => if depth < 8 { ObjectGain(fields, cap, depth); }
  }

  lemma {:induction false} ArrayGain(items: seq<Json>, cap: nat, depth: nat)
    requires depth < 8
    ensures JsonChars(BoundValue(Arr(items), cap, depth)) == JsonChars(Arr(items)) + Gain(Arr(items), cap, depth)
    decreases Arr(items), 0
  {
    var out := BoundValue(Arr(items), cap, depth).items;
    if |items| <= 80 {
      assert ItemsBounded(items, out, cap, depth + 1);
      ItemsBoundGain(items, out, cap, depth + 1);
    } else {
      var note := ItemsNote(|items| - 80);
      assert out == out[..80] + [note] && items == items[..80] + items[80..];
      assert ItemsBounded(items[..80], out[..80], cap, depth + 1);
      ItemsBoundGain(items[..80], out[..80], cap, depth + 1);
      ItemsConcat(items[..80], items[80..]);
      ItemsConcat(out[..80], [note]);
      LoneItem(note);
    }
  }

  lemma {:induction false} ItemsBoundGain(items: seq<Json>, bounded: seq<Json>, cap: nat, depth: nat)
    requires ItemsBounded(items, bounded, cap, depth)
    ensures ItemsChars(bounded) == ItemsChars(items) + ItemsGain(items, cap, depth)
    decreases items, 0
  {
    if items != [] {
      BoundGain(items[0], cap, depth);
      ItemsBoundGain(items[1..], bounded[1..], cap, depth);
    }
  }

  lemma {:induction false} ObjectGain(fields: seq<Field>, cap: nat, depth: nat)
    requires depth < 8
    ensures JsonChars(BoundValue(Obj(fields), cap, depth)) == JsonChars(Obj(fields)) + Gain(Obj(fields), cap, depth)
    decreases Obj(fields), 0
  {
    var kept := if |fields| <= 80 then fields else fields[..80];
    var bounded := BoundFields(kept, cap, depth + 1);
    if |fields| <= 80 {
      assert BoundValue(Obj(fields), cap, depth) == Obj(bounded);
      FieldsBoundGain(kept, bounded, cap, depth + 1);
    } else {
      ManyFields(fields, cap, depth);
      KeptGain(fields[..80], fields[80..], KeysNote(|fields| - 80), cap, depth + 1);
      assert fields == fields[..80] + fields[80..];
    }
  }

  function BoundFields(fields: seq<Field>, cap: nat, depth: nat): (r: seq<Field>)
    ensures FieldsBounded(fields, r, cap, depth)
  {
    seq(|fields|, i requires 0 <= i < |fields| => Field(fields[i].key, BoundValue(fields[i].value, cap, depth)))
  }

  lemma {:induction false} ManyFields(fields: seq<Field>, cap: nat, depth: nat)
    requires depth < 8 && |fields| > 80
    ensures var note := KeysNote(|fields| - 80);
            BoundValue(Obj(fields), cap, depth)
              == Obj(SetField(BoundFields(fields[..80], cap, depth + 1), note.key, note.value))
  {
    assert BoundFields(fields[..80], cap, depth + 1)
        == seq(80, i requires 0 <= i < 80 => Field(fields[i].key, BoundValue(fields[i].value, cap, depth + 1)));
  }

  /** Eighty fields bounded and the note put in, against the fields kept and the fields omitted. */
  lemma {:induction false} KeptGain(kept: seq<Field>, omitted: seq<Field>, note: Field, cap: nat, depth: nat)
    requires kept != [] && omitted != []
    ensures FieldsChars(SetField(BoundFields(kept, cap, depth), note.key, note.value))
         == FieldsChars(kept + omitted)
            + FieldsGain(kept, cap, depth) + NoteGain(kept, note, cap, depth) - 1 - FieldsChars(omitted)
    decreases kept, 1
  {
    FieldsBoundGain(kept, BoundFields(kept, cap, depth), cap, depth);
    SetFieldGain(kept, BoundFields(kept, cap, depth), note, cap, depth);
    FieldsConcat(kept, omitted);
  }

  lemma {:induction false} FieldsBoundGain(fields: seq<Field>, bounded: seq<Field>, cap: nat, depth: nat)
    requires FieldsBounded(fields, bounded, cap, depth)
    ensures FieldsChars(bounded) == FieldsChars(fields) + FieldsGain(fields, cap, depth)
    decreases fields, 0
  {
    if fields != [] {
      BoundGain(fields[0].value, cap, depth);
      FieldsBoundGain(fields[1..], bounded[1..], cap, depth);
    }
  }

  lemma {:induction false} SetFieldGain(fields: seq<Field>, bounded: seq<Field>, note: Field, cap: nat, depth: nat)
    requires FieldsBounded(fields, bounded, cap, depth)
    ensures FieldsChars(SetField(bounded, note.key, note.value))
        == FieldsChars(bounded) + NoteGain(fields, note, cap,
            depth)
    decreases fields, 0
  {
    if fields != [] {
      if fields[0].key == note.key {
        BoundGain(fields[0].value, cap, depth);
        assert ([note] + bounded[1..])[1..] == bounded[1..];
      } else {
        SetFieldGain(fields[1..], bounded[1..], note, cap, depth);
        var rest := SetField(bounded[1..], note.key, note.value);
        assert ([bounded[0]] + rest)[1..] == rest;
      }
    }
  }

  // ----- one assistant message -----

  lemma {:induction false} UseGain(use: ToolUse)
    ensures JsonChars(UseJson(use.(input := BoundValue(use.input, INPUT_CAP, 0))))
         == JsonChars(UseJson(use)) + Gain(use.input, INPUT_CAP, 0)
  {
    BoundGain(use.input, INPUT_CAP, 0);
    UseLength(use);
    UseLength(use.(input := BoundValue(use.input, INPUT_CAP, 0)));
  }

  /** All of a call's rendering but its input. */
  function Envelope(id: Text, name: Text): nat {
    3 + FieldsChars([Field(Units("id"), Str(id)), Field(Units("name"), Str(name))])
    + FieldsChars([Field(Units("input"), Str([]))]) - 2
  }

  lemma {:induction false} UseLength(use: ToolUse)
    ensures JsonChars(UseJson(use)) == Envelope(use.id, use.name) + JsonChars(use.input)
  {
    var front := [Field(Units("id"), Str(use.id)), Field(Units("name"), Str(use.name))];
    var last, empty := Field(Units("input"), use.input), Field(Units("input"), Str([]));
    assert UseJson(use).fields == front + [last];
    FieldsConcat(front, [last]);
    assert [last][1..] == [] && [empty][1..] == [];
  }

  lemma {:induction false} UsesItems(uses: seq<ToolUse>, before: seq<Json>, after: seq<Json>)
    requires |before| == |after| == |uses|
    requires forall i :: 0 <= i < |uses| ==> before[i] == UseJson(uses[i])
    requires forall i :: 0 <= i < |uses| ==>
               after[i] == UseJson(uses[i].(input := BoundValue(uses[i].input, INPUT_CAP, 0)))
    ensures ItemsChars(after) == ItemsChars(before) + UsesGain(uses)
  {
    if uses != [] {
      UseGain(uses[0]);
      UsesItems(uses[1..], before[1..], after[1..]);
    }
  }

  lemma {:induction false} BoundUsesGain(uses: seq<ToolUse>)
    ensures JsonChars(UsesJson(BoundToolUses(uses, INPUT_CAP))) == JsonChars(UsesJson(uses)) + UsesGain(uses)
  {
    UsesItems(uses, UsesJson(uses).items, UsesJson(BoundToolUses(uses, INPUT_CAP)).items);
  }

  /**
   In any history the first pass reports a change of an assistant message exactly when its text is over its
   cap or the gains of all its tool inputs together are not zero.
   */
  lemma {:induction false} AssistantChangeNoticed(h: seq<Msg>, i: nat)
    requires i < |h| && h[i].Assistant?
    ensures FirstPassChanges(h, i) <==> |h[i].text| > TEXT_CAP || UsesGain(h[i].toolUses) != 0
  {
    BoundUsesGain(h[i].toolUses);
  }

  // ----- inputs that are single texts -----

  function TextCall(id: Text, name: Text, input: Text): ToolUse { ToolUse(id, name, Str(input)) }

  lemma {:induction false} MarkerFits(input: Text)
    requires INPUT_CAP < |input| < Pow10(16)
    ensures |InputMarker(input, INPUT_CAP)| < INPUT_CAP
  {
    MarkerIsShort(|input| - INPUT_CAP);
  }

  /**
   A lone text input is clipped exactly when it exceeds the cap, and the clip is reported exactly when moreover
   the dropped text does not render to the length of the marker.
   (No string of the source language is as long as the bound.)
   */
  lemma {:induction false} InputClipNoticed(id: Text, name: Text, input: Text)
    requires |input| < Pow10(16)
    ensures INPUT_CAP < |input| ==> |InputMarker(input, INPUT_CAP)| < INPUT_CAP
    ensures var h := [Assistant([], [TextCall(id, name, input)], None)];
            && (FirstPassMsg(h, 0) != h[0] <==> INPUT_CAP < |input|)
            && (FirstPassChanges(h, 0) <==>
                  && INPUT_CAP < |input|
                  && EscapedChars(Dropped(input, InputMarker(input, INPUT_CAP), INPUT_CAP))
                       != EscapedChars(InputMarker(input, INPUT_CAP)))
  {
    var use := TextCall(id, name, input);
    var h := [Assistant([], [use], None)];
    if INPUT_CAP < |input| { MarkerFits(input); }
    AssistantChangeNoticed(h, 0);
    assert [use][1..] == [];
    assert UsesGain([use]) == TextGain(input, INPUT_CAP);
    var bounded := BoundToolUses([use], INPUT_CAP);
    assert bounded[0].input == Str(Clip(input, INPUT_CAP, Units("historical tool input")));
    assert |input| <= INPUT_CAP ==> bounded == [use];
  }

  /** A plain text over the cap gains the cap's distance plus the two escaped line breaks of the marker. */
  lemma {:induction false} PlainGain(input: Text)
    requires PlainText(input) && |input| < Pow10(16)
    ensures TextGain(input, INPUT_CAP) == if |input| <= INPUT_CAP then 0 else INPUT_CAP + 2 - |input|
  {
    if INPUT_CAP < |input| {
      MarkerFits(input);
      assert EscapedChars(InputMarker(input, INPUT_CAP)) == |InputMarker(input, INPUT_CAP)| + 2 by {
        WhatIsPlain();
        MarkerEscapes(|input| - INPUT_CAP, Units("historical tool input"));
      }
      PlainDropped(input, InputMarker(input, INPUT_CAP), INPUT_CAP);
      EscapedPlain(Dropped(input, InputMarker(input, INPUT_CAP), INPUT_CAP));
    }
  }

  /** For a lone plain input the one unnoticed length is two more than the cap. */
  lemma {:induction false} PlainClipNoticed(id: Text, name: Text, input: Text)
    requires PlainText(input) && |input| < Pow10(16)
    ensures FirstPassChanges([Assistant([], [TextCall(id, name, input)], None)], 0)
       <==> INPUT_CAP < |input| && |input| != INPUT_CAP + 2
  {
    var use := TextCall(id, name, input);
    AssistantChangeNoticed([Assistant([], [use], None)], 0);
    assert [use][1..] == [];
    assert UsesGain([use]) == TextGain(input, INPUT_CAP);
    PlainGain(input);
  }

  /** Two clips in one message, each of which alone would be noticed, go unnoticed together. */
  lemma {:induction false} TwoClipsCancel(id: Text, name: Text, a: Text, b: Text)
    requires PlainText(a) && PlainText(b) && |a| == 12_001 && |b| == 12_003
    ensures var h := [Assistant([], [TextCall(id, name, a), TextCall(id, name, b)], None)];
            FirstPassMsg(h, 0) != h[0] && !FirstPassChanges(h, 0)
  {
    var uses := [TextCall(id, name, a), TextCall(id, name, b)];
    var h := [Assistant([], uses, None)];
    HugeBound();
    PlainGain(a);
    PlainGain(b);
    assert uses[1..] == [uses[1]] && uses[1..][1..] == [];
    assert UsesGain(uses[1..]) == TextGain(b, INPUT_CAP);
    assert UsesGain(uses) == TextGain(a, INPUT_CAP) + TextGain(b, INPUT_CAP);
    AssistantChangeNoticed(h, 0);
    assert BoundToolUses(uses, INPUT_CAP)[0].input == Str(Clip(a, INPUT_CAP, Units("historical tool input")));
  }

  lemma {:induction false} HugeBound()
    ensures 12_003 < Pow10(16)
  {
    assert Pow10(5) == 100_000;
    Pow10Grows(5, 16);
  }

  lemma {:induction false} Pow10Grows(a: nat, b: nat)
    requires a <= b
    ensures Pow10(a) <= Pow10(b)
  {
    if a < b { Pow10Grows(a, b - 1); }
  }
}
