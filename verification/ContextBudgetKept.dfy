/**
 What the model is shown of every message: each text whole up to a cap that depends on its place and on how
 often the snapshot had to be reduced, and otherwise a beginning and an end of it around a notice.
 */
module ContextBudgetKept {

  import opened Common
  import opened ContextBudget
  import opened ContextBudgetNotice
  import opened ContextBudgetTexts

  // ----- one text -----

  /**
   Whole up to the cap and cut no shorter; and of a text whose cuts are far enough apart a beginning and an
   end around one notice are left.
   */
  ghost predicate Kept(text: Text, out: Text, cap: nat, cuts: nat, labels: set<Text>, apart: bool, room: int) {
    TextKept(text, out, cap, cuts, labels) && (apart && |text| < LONGEST ==> OneNotice(text, out, labels, room))
  }

  lemma {:induction false} KeptFirst(text: Text, cap: nat, what: Text, labels: set<Text>, apart: bool, room: int)
    requires 0 < cap && what in labels && (apart ==> 48 + |what| < cap && room <= cap - 48 - |what|)
    ensures Kept(text, Clip(text, cap, what), cap, 1, labels, apart, room)
  {
    ClipFirst(text, cap, what, labels);
    if apart && |text| < LONGEST {
      OneClip(text, cap, what, labels);
      LessRoom(text, Clip(text, cap, what), labels, cap - 48 - |what|, room);
    }
  }

  /** The cut to `next` comes far enough below the last, or changes nothing. */
  predicate FarEnough(cap: nat, room: int, next: nat) { next == cap || next <= room }

  lemma {:induction false} KeptAgain(text: Text, mid: Text, cap: nat, cuts: nat, labels: set<Text>, apart: bool,
      room: int, next: nat, what: Text, room': int)
    requires Kept(text, mid, cap, cuts, labels, apart, room) && what in labels
    requires 100 < next <= cap && |what| <= 52 && (apart ==> FarEnough(cap, room, next))
    requires room' == if next == cap then room else next - 100
    ensures Kept(text, Clip(mid, next, what), next, cuts + 1, labels, apart, room')
  {
    ClipAgain(text, mid, cap, next, cuts, what, labels);
    if apart && |text| < LONGEST && next < cap { NoticeAgain(text, mid, room, next, what, labels); }
  }

  lemma {:induction false} NoticeAgain(text: Text, mid: Text, room: int, next: nat, what: Text, labels: set<Text>)
    requires OneNotice(text, mid, labels, room) && what in labels && |text| < LONGEST && |mid| <= |text|
    requires 100 < next <= room && |what| <= 52
    ensures OneNotice(text, Clip(mid, next, what), labels, next - 100)
  {
    OneClipAgain(text, mid, room, next, what, labels);
    LessRoom(text, Clip(mid, next, what), labels, next - 48 - |what|, next - 100);
  }

  /** A note added at the end is part of the end that is kept. */
  lemma {:induction false} KeptWithNote(
      text: Text, out: Text, cap: nat, labels: set<Text>, apart: bool, room: int, note: Text)
    requires Kept(text, out, cap, 1, labels, apart, room)
    ensures Kept(text + note, out + note, cap + |note|, 1, labels, apart, room)
  {
    if out != text {
      assert AfterCuts(text, text, 0, labels);
      OnceCut(text, out, labels);
      CutWithNote(text, out, labels, note);
      assert AfterCuts(text + note, text + note, 0, labels);
      if apart && |text| < LONGEST { NoticeWithNote(text, out, labels, room, note); }
    }
  }

  lemma {:induction false} OnceCut(text: Text, out: Text, labels: set<Text>)
    requires AfterCuts(text, out, 1, labels) && out != text
    ensures CutOnce(text, out, labels)
  {
    var between: Text :| AfterCuts(text, between, 0, labels) && CutOnce(between, out, labels);
  }

  lemma {:induction false} CutWithNote(text: Text, out: Text, labels: set<Text>, note: Text)
    requires CutOnce(text, out, labels)
    ensures CutOnce(text + note, out + note, labels)
  {
    var omitted: nat, what :| what in labels && CutBy(text, out, Marker(omitted, what));
    CutByWithNote(text, out, Marker(omitted, what), note);
  }

  lemma {:induction false} CutByWithNote(text: Text, out: Text, notice: Text, note: Text)
    requires CutBy(text, out, notice)
    ensures CutBy(text + note, out + note, notice)
  {
    var n, a: nat, b: nat :| CutAt(text, out, n, a, b) && n != [] && n <= notice && (n == notice || a == 0);
    PartsWithNote(text, out, n, a, b, note);
  }

  lemma {:induction false} PartsWithNote(text: Text, out: Text, notice: Text, a: nat, b: nat, note: Text)
    requires CutAt(text, out, notice, a, b)
    ensures CutAt(text + note, out + note, notice, a, b + |note|)
  {
    assert (text + note)[..a] == text[..a];
    assert (text + note)[|text| - b..] == text[|text| - b..] + note;
  }

  lemma {:induction false} NoticeWithNote(text: Text, out: Text, labels: set<Text>, room: int, note: Text)
    requires OneNotice(text, out, labels, room)
    ensures OneNotice(text + note, out + note, labels, room)
  {
    if out != text {
      var omitted: nat, what :| what in labels && HasNotice(text, out, Marker(omitted, what), room);
      var a: nat, b: nat :| NoticeAt(text, out, Marker(omitted, what), room, a, b);
      PartsWithNote(text, out, Marker(omitted, what), a, b, note);
      assert NoticeAt(text + note, out + note, Marker(omitted, what), room, a, b + |note|);
    }
  }

  // ----- tool inputs -----

  const INPUT_LABELS: set<Text> := {Units("historical tool input")}

  /**
   The shape is kept down to depth eight: eighty items of an array and eighty fields of an object, with a note
   on those left out, and every text in them as a text is kept.  The note counts what was left out of the
   original only after a single cut: every further one counts the note itself.
   */
  ghost predicate InputKept(j: Json, out: Json, cap: nat, cuts: nat, depth: nat)
    decreases j
  {
    match j
    case Str(s) => out.Str? && Kept(s, out.s, cap, cuts, INPUT_LABELS, true, cap - 100)
    case Null => out == j
    case Bool(_) => out == j
    case Number(_) => out == j
    case Arr(items) =>
      if depth >= 8 then out == NESTED_NOTE else
        && out.Arr? && |out.items| == Min(|items|, 81)
        && (forall i :: 0 <= i < |items| && i < 80 ==> InputKept(items[i], out.items[i], cap, cuts, depth + 1))
        && (|items| > 80 ==> out.items[80] == ItemsNote(if cuts <= 1 then |items| - 80 else 1))
    case Obj(fields) =>
      if depth >= 8 then out == NESTED_NOTE else
        && out.Obj? && |out.fields| == KeptFields(fields)
        && (forall i :: 0 <= i < |fields| && i < 80 ==>
              && out.fields[i].key == fields[i].key
              && (|fields| <= 80 || fields[i].key != KEYS_NOTE ==>
                    InputKept(fields[i].value, out.fields[i].value, cap, cuts, depth + 1)))
        && (|fields| > 80 ==> KeysNoted(out.fields, if cuts <= 1 || NamesNote(fields) then |fields| - 80 else 1))
  }

  const KEYS_NOTE: Text := Units("_hara_omitted_keys")

  /** One of the eighty fields kept has the name of the note, which then takes its place. */
  predicate NamesNote(fields: seq<Field>) { exists i :: 0 <= i < |fields| && i < 80 && fields[i].key == KEYS_NOTE }

  function KeptFields(fields: seq<Field>): nat {
    if |fields| <= 80 then |fields| else if NamesNote(fields) then 80 else 81
  }

  predicate KeysNoted(fields: seq<Field>, omitted: nat) {
    exists i :: 0 <= i < |fields| && fields[i] == KeysNote(omitted)
  }

  lemma {:induction false} InputFirst(j: Json, cap: nat, depth: nat)
    requires 100 < cap
    ensures InputKept(j, BoundValue(j, cap, depth), cap, 1, depth)
    decreases j
  {
    match j
    case Str(s) => KeptFirst(s, cap, Units("historical tool input"), INPUT_LABELS, true, cap - 100);
    case Null =>
    case Bool(_) =>
    case Number(_) =>
    case Arr(items) =>
      if depth < 8 {
        forall i | 0 <= i < |items| && i < 80
          ensures InputKept(items[i], BoundValue(items[i], cap, depth + 1), cap, 1, depth + 1)
        {
          InputFirst(items[i], cap, depth + 1);
        }
        BoundedArray(items, cap, depth);
      }
    case Obj(fields) =>
      if depth < 8 {
        forall i | 0 <= i < |fields| && i < 80
          ensures InputKept(fields[i].value, BoundValue(fields[i].value, cap, depth + 1), cap, 1, depth + 1)
        {
          InputFirst(fields[i].value, cap, depth + 1);
        }
        BoundedObject(fields, cap, depth);
      }
  }

  lemma {:induction false} BoundedArray(items: seq<Json>, cap: nat, depth: nat)
    requires depth < 8
    ensures var out := BoundValue(Arr(items), cap, depth);
            && out.Arr? && |out.items| == Min(|items|, 81)
            && (forall i :: 0 <= i < |items| && i < 80 ==> out.items[i] == BoundValue(items[i], cap, depth + 1))
            && (|items| > 80 ==> out.items[80] == ItemsNote(|items| - 80))
  {
  }

  lemma {:induction false} BoundedObject(fields: seq<Field>, cap: nat, depth: nat)
    requires depth < 8
    ensures var out := BoundValue(Obj(fields), cap, depth);
            && out.Obj? && |out.fields| == KeptFields(fields)
            && (forall i :: 0 <= i < |fields| && i < 80 ==>
                  && out.fields[i].key == fields[i].key
                  && (|fields| <= 80 || fields[i].key != KEYS_NOTE ==>
                        out.fields[i].value == BoundValue(fields[i].value, cap, depth + 1)))
            && (|fields| > 80 ==> KeysNoted(out.fields, |fields| - 80))
  {
    if |fields| > 80 {
      ManyFields(fields, cap, depth);
      var kept := BoundFields(fields[..80], cap, depth + 1);
      SetFieldKeeps(kept, KeysNote(|fields| - 80));
      assert NamesNote(fields) <==> NamesNote(kept) by {
        forall i | 0 <= i < 80 ensures kept[i].key == fields[i].key {}
      }
    }
  }

  /** Putting a field in changes the first of its name, or adds it at the end. */
  lemma {:induction false} SetFieldKeeps(fields: seq<Field>, note: Field)
    ensures var out := SetField(fields, note.key, note.value);
            && |out| == |fields| + (if exists i :: 0 <= i < |fields| && fields[i].key == note.key then 0 else 1)
            && (forall i :: 0 <= i < |fields| ==> out[i] == fields[i] || (fields[i].key == note.key && out[i] == note))
            && exists i :: 0 <= i < |out| && out[i] == note
  {
    if fields == [] {
      assert SetField(fields, note.key, note.value)[0] == note;
    } else if fields[0].key == note.key {
      assert SetField(fields, note.key, note.value)[0] == note;
    } else {
      SetFieldKeeps(fields[1..], note);
      var rest := SetField(fields[1..], note.key, note.value);
      var i :| 0 <= i < |rest| && rest[i] == note;
      assert SetField(fields, note.key, note.value)[i + 1] == note;
      if k :| 0 <= k < |fields| && fields[k].key == note.key { assert fields[1..][k - 1].key == note.key; }
    }
  }

  lemma {:induction false} InputAgain(j: Json, mid: Json, cap: nat, cuts: nat, next: nat, depth: nat)
    requires InputKept(j, mid, cap, cuts, depth) && cuts >= 1 && 100 < next && next + 100 <= cap
    ensures InputKept(j, BoundValue(mid, next, depth), next, cuts + 1, depth)
    decreases j
  {
    match j
    case Str(s) =>
      KeptAgain(s, mid.s, cap, cuts, INPUT_LABELS, true, cap - 100, next, Units("historical tool input"), next - 100);
    case Null =>
    case Bool(_) =>
    case Number(_) =>
    case Arr(items) => if depth < 8 { ItemsAgain(items, mid.items, cap, cuts, next, depth); }
        else { NoteStays(next, depth); }
    case Obj(fields) =>
      if depth < 8 { FieldsAgain(fields, mid.fields, cap, cuts, next, depth); } else { NoteStays(next, depth); }
  }

  lemma {:induction false} NoteStays(next: nat, depth: nat)
    requires 100 < next
    ensures BoundValue(NESTED_NOTE, next, depth) == NESTED_NOTE
  {
  }

  lemma {:induction false} ItemsAgain(
      items: seq<Json>, mid: seq<Json>, cap: nat, cuts: nat, next: nat, depth: nat)
    requires InputKept(Arr(items), Arr(mid), cap, cuts, depth) && 100 < next && next + 100 <= cap && depth < 8
    requires cuts >= 1
    ensures InputKept(Arr(items), BoundValue(Arr(mid), next, depth), next, cuts + 1, depth)
    decreases items, 0
  {
    forall i | 0 <= i < |items| && i < 80
      ensures InputKept(items[i], BoundValue(mid[i], next, depth + 1), next, cuts + 1, depth + 1)
    {
      InputAgain(items[i], mid[i], cap, cuts, next, depth + 1);
    }
    BoundedArray(mid, next, depth);
  }

  lemma {:induction false} FieldsAgain(
      fields: seq<Field>, mid: seq<Field>, cap: nat, cuts: nat, next: nat, depth: nat)
    requires InputKept(Obj(fields), Obj(mid), cap, cuts, depth) && 100 < next && next + 100 <= cap && depth < 8
    requires cuts >= 1
    ensures InputKept(Obj(fields), BoundValue(Obj(mid), next, depth), next, cuts + 1, depth)
    decreases fields, 0
  {
    forall i | 0 <= i < |fields| && i < 80 && (|fields| <= 80 || fields[i].key != KEYS_NOTE)
      ensures InputKept(fields[i].value, BoundValue(mid[i].value, next, depth + 1), next, cuts + 1, depth + 1)
    {
      InputAgain(fields[i].value, mid[i].value, cap, cuts, next, depth + 1);
    }
    BoundedObject(mid, next, depth);
    if |fields| > 80 {
      SameNames(fields, mid);
      if NamesNote(fields) { NoteBounded(mid, |fields| - 80, next, depth); }
    }
  }

  lemma {:induction false} SameNames(fields: seq<Field>, mid: seq<Field>)
    requires |fields| > 80 && |mid| >= 80 && forall i :: 0 <= i < 80 ==> mid[i].key == fields[i].key
    ensures NamesNote(mid) <==> NamesNote(fields)
  {
  }

  /** A note among eighty fields is kept. */
  lemma {:induction false} NoteBounded(mid: seq<Field>, omitted: nat, next: nat, depth: nat)
    requires |mid| == 80 && KeysNoted(mid, omitted) && depth < 8
    ensures KeysNoted(BoundValue(Obj(mid), next, depth).fields, omitted)
  {
    BoundedObject(mid, next, depth);
    var i :| 0 <= i < |mid| && mid[i] == KeysNote(omitted);
    assert BoundValue(Obj(mid), next, depth).fields[i] == KeysNote(omitted);
  }
}
