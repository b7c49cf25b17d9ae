/**
 What the sanitizer removes, said without reference to how it scans.

 A text is cut into single characters, reasoning tags at a boundary, and possibly one unterminated
 tag beginning at the very end.  The output is the characters standing at hidden depth zero.
 */
module SanitizerSpec {

  import opened Common
  import opened Sanitizer

  datatype Token = Char(c: char) | ReasoningTag(text: string, closing: bool) | Tail(text: string)

  function Spelling(t: Token): string { if t.Char? then [t.c] else t.text }

  function Spell(tokens: seq<Token>): string {
    if tokens == [] then "" else Spelling(tokens[0]) + Spell(tokens[1..])
  }

  /** Hidden depth after the tokens: orphan closers do not go below zero. */
  function Depth(tokens: seq<Token>): nat {
    if tokens == [] then 0 else
      var d, t := Depth(tokens[..|tokens| - 1]), tokens[|tokens| - 1];
      if !t.ReasoningTag? then d else if !t.closing then d + 1 else if d == 0 then 0 else d - 1
  }

  /** The characters at depth zero. */
  function Shown(tokens: seq<Token>): string {
    if tokens == [] then "" else
      var front, t := tokens[..|tokens| - 1], tokens[|tokens| - 1];
      Shown(front) + (if t.Char? && Depth(front) == 0 then [t.c] else "")
  }

  /** The last visible line carries something other than white space. */
  predicate LineHasContent(out: string) {
    out != "" && !IsNewline(out[|out| - 1]) && (!IsSpace(out[|out| - 1]) || LineHasContent(out[..|out| - 1]))
  }

  /** A tag counts only inside hidden text or at the start of a visible line. */
  predicate Boundary(before: seq<Token>) { Depth(before) > 0 || !LineHasContent(Shown(before)) }

  predicate BeginsWithTag(text: string) { exists n: nat :: n <= |text| && TagOf(text[..n]).Some? }

  predicate Unterminated(text: string) { '>' !in text && CouldBecomeReasoningTag(text) }

  /** `rest` is everything from the token on. */
  predicate TokenOk(before: seq<Token>, t: Token, rest: string) {
    match t
    case Char(c) => c == '<' && Boundary(before) ==> !BeginsWithTag(rest) && !Unterminated(rest)
    case ReasoningTag(text, closing) => Boundary(before) && TagOf(text) == Some(closing)
    case Tail(text) => Boundary(before) && text != "" && text[0] == '<' && text == rest && Unterminated(text)
  }

  predicate WellLexed(before: seq<Token>, tokens: seq<Token>)
    decreases |tokens|
  {
    tokens == [] ||
    (TokenOk(before, tokens[0], Spell(tokens)) && WellLexed(before + [tokens[0]], tokens[1..]))
  }

  // ----- the scanner meets the specification -----

  function ModeAfter(before: seq<Token>): Mode { Mode(Depth(before), LineHasContent(Shown(before))) }

  lemma {:induction false} CompactKeeps(s: string, c: char)
    requires c in s && !IsSpace(c)
    ensures Lower(c) in Compact(s)
  {
    if s[0] != c {
      assert s == [s[0]] + s[1..];
      CompactKeeps(s[1..], c);
    }
  }

  lemma {:induction false} FormsBracket(s: string)
    requires s in FORMS
    ensures s != "" && '>' !in s[..|s| - 1]
  {
    FormsListed(s);
  }

  lemma {:induction false} FrontHasNoBracket(front: string)
    requires Compact(front + ">") in FORMS
    ensures '>' !in front
  {
    CompactConcat(front, ">");
    assert Compact(">") == ">";
    FormsBracket(Compact(front) + ">");
    assert (Compact(front) + ">")[..|Compact(front)|] == Compact(front);
    if '>' in front { CompactKeeps(front, '>'); }
  }

  /** A tag contains one closing bracket, its last character. */
  lemma {:induction false} TagEndsAtBracket(text: string)
    requires TagOf(text).Some?
    ensures IndexOf(text, '>') == |text| - 1
  {
    var front := text[..|text| - 1];
    assert text == front + ">";
    TagCompacts(text);
    FrontHasNoBracket(front);
    BracketLast(front);
  }

  lemma {:induction false} BracketLast(front: string)
    requires '>' !in front
    ensures IndexOf(front + ">", '>') == |front|
  {
    if front == "" {
      assert front + ">" == ">";
    } else {
      assert (front + ">")[1..] == front[1..] + ">";
      BracketLast(front[1..]);
    }
  }

  /** The tag a text begins with, if any, is the one ending at the first closing bracket. */
  lemma {:induction false} BeginsWithTagAt(rest: string)
    ensures var end := IndexOf(rest, '>');
            BeginsWithTag(rest) <==> end >= 0 && TagOf(rest[..end + 1]).Some?
    ensures '>' in rest <==> IndexOf(rest, '>') >= 0
  {
    IndexOfFirst(rest, '>');
    if BeginsWithTag(rest) {
      var n: nat :| n <= |rest| && TagOf(rest[..n]).Some?;
      TagEndsAtBracket(rest[..n]);
      IndexOfConcat(rest[..n], rest[n..], '>');
      assert rest == rest[..n] + rest[n..];
    }
  }

  lemma {:induction false} TagPrefixIsFirst(text: string, later: string)
    requires TagOf(text).Some?
    ensures text != "" && text[0] == '<' && IndexOf(text + later, '>') == |text| - 1 && (text + later)[..|text|] == text
  {
    TagEndsAtBracket(text);
    IndexOfConcat(text, later, '>');
  }

  lemma {:induction false} AfterToken(before: seq<Token>, t: Token)
    ensures Depth(before + [t]) == (if t.ReasoningTag? then Crossed(ModeAfter(before), t.closing).depth
        else Depth(before))
    ensures Shown(before + [t]) == Shown(before) + (if t.Char? then Visible(ModeAfter(before), [t.c]) else "")
  {
    var all := before + [t];
    assert all[..|all| - 1] == before && all[|all| - 1] == t;
  }

  lemma {:induction false} AfterChar(before: seq<Token>, c: char)
    ensures ModeAfter(before + [Char(c)]) == Consumed(ModeAfter(before), [c])
  {
    AfterToken(before, Char(c));
    var m, out := ModeAfter(before), Shown(before);
    assert [c][1..] == "";
    var next := if IsNewline(c) then false else m.content || !IsSpace(c);
    assert ContentAfter(m.content, [c]) == ContentAfter(next, "") == next;
    assert out + "" == out;
    assert (out + [c])[..|out|] == out && (out + [c])[|out|] == c;
  }

  lemma {:induction false} AfterTag(before: seq<Token>, text: string, closing: bool)
    ensures ModeAfter(before + [ReasoningTag(text, closing)]) == Crossed(ModeAfter(before), closing)
  {
    AfterToken(before, ReasoningTag(text, closing));
    assert Shown(before) + "" == Shown(before);
  }

  /** Every admissible cut of a text shows exactly what the scanner emits for it. */
  lemma {:induction false} ShownIsScanned(before: seq<Token>, tokens: seq<Token>)
    requires WellLexed(before, tokens)
    ensures Shown(before + tokens) == Shown(before) + Scan(Spell(tokens), ModeAfter(before), true).out
    decreases |tokens|
  {
    if tokens == [] {
      assert before + tokens == before;
    } else {
      var t := tokens[0];
      ShownIsScanned(before + [t], tokens[1..]);
      assert (before + [t]) + tokens[1..] == before + tokens;
      StepIsScanned(before, t, Spell(tokens[1..]));
    }
  }

  lemma {:induction false} StepIsScanned(before: seq<Token>, t: Token, later: string)
    requires TokenOk(before, t, Spelling(t) + later)
    ensures Shown(before) + Scan(Spelling(t) + later, ModeAfter(before), true).out
         == Shown(before + [t]) + Scan(later, ModeAfter(before + [t]), true).out
  {
    match t {
      case Char(c) => CharIsScanned(before, c, later);
      case ReasoningTag(text, closing) => TagIsScanned(before, text, closing, later);
      case Tail(text) => TailIsScanned(before, text, later);
    }
  }

  lemma {:induction false} CharIsScanned(before: seq<Token>, c: char, later: string)
    requires TokenOk(before, Char(c), [c] + later)
    ensures Shown(before) + Scan([c] + later, ModeAfter(before), true).out
         == Shown(before + [Char(c)]) + Scan(later, ModeAfter(before + [Char(c)]), true).out
  {
    var m := ModeAfter(before);
    CharIsPlain(before, c, later);
    ScanChar(c, later, m);
    AfterChar(before, c);
    AfterToken(before, Char(c));
    Associate(Shown(before), Visible(m, [c]), Scan(later, Consumed(m, [c]), true).out);
  }

  lemma {:induction false} ScanChar(c: char, later: string, m: Mode)
    requires PlainStart([c] + later, m)
    ensures Scan([c] + later, m, true).out == Visible(m, [c]) + Scan(later, Consumed(m, [c]), true).out
  {
    var rest := [c] + later;
    assert rest[..1] == [c] && rest[1..] == later;
    ScanPlain(rest, m, true);
  }

  lemma {:induction false} Associate(a: string, b: string, c: string)
    ensures a + (b + c) == (a + b) + c
  {
  }

  lemma {:induction false} CharIsPlain(before: seq<Token>, c: char, later: string)
    requires TokenOk(before, Char(c), [c] + later)
    ensures PlainStart([c] + later, ModeAfter(before))
  {
    var rest := [c] + later;
    BeginsWithTagAt(rest);
    if c == '<' && Boundary(before) { ClassifyLiteral(rest, ModeAfter(before)); }
  }

  lemma {:induction false} TagIsScanned(before: seq<Token>, text: string, closing: bool, later: string)
    requires Boundary(before) && TagOf(text) == Some(closing)
    ensures Shown(before) + Scan(text + later, ModeAfter(before), true).out
         == Shown(before + [ReasoningTag(text, closing)])
            + Scan(later, ModeAfter(before + [ReasoningTag(text, closing)]), true).out
  {
    ScanTag(text, later, ModeAfter(before), closing);
    AfterTag(before, text, closing);
    AfterToken(before, ReasoningTag(text, closing));
    assert Shown(before) + "" == Shown(before);
  }

  lemma {:induction false} ScanTag(text: string, later: string, m: Mode, closing: bool)
    requires AtBoundary(m) && TagOf(text) == Some(closing)
    ensures Scan(text + later, m, true) == Scan(later, Crossed(m, closing), true)
  {
    TagPrefixIsFirst(text, later);
    ScanFirstTag(text + later, m, |text|, closing);
    assert (text + later)[|text|..] == later;
  }

  lemma {:induction false} ScanFirstTag(rest: string, m: Mode, n: nat, closing: bool)
    requires rest != "" && rest[0] == '<' && 0 < n <= |rest| && AtBoundary(m)
    requires IndexOf(rest, '>') == n - 1 && TagOf(rest[..n]) == Some(closing)
    ensures Scan(rest, m, true) == Scan(rest[n..], Crossed(m, closing), true)
  {
  }

  lemma {:induction false} TailIsScanned(before: seq<Token>, text: string, later: string)
    requires TokenOk(before, Tail(text), text + later)
    ensures Shown(before) + Scan(text + later, ModeAfter(before), true).out
         == Shown(before + [Tail(text)]) + Scan(later, ModeAfter(before + [Tail(text)]), true).out
  {
    assert later == "" && text + later == text;
    AfterToken(before, Tail(text));
    IndexOfFirst(text, '>');
    ScanTail(text, ModeAfter(before));
  }

  lemma {:induction false} ScanTail(rest: string, m: Mode)
    requires rest != "" && rest[0] == '<' && AtBoundary(m)
    requires IndexOf(rest, '>') < 0 && CouldBecomeReasoningTag(rest)
    ensures Scan(rest, m, true).out == ""
  {
  }

  // ----- and every text has such a cut -----

  function FirstToken(rest: string, m: Mode): (t: Token)
    requires rest != ""
    ensures Spelling(t) != "" && |Spelling(t)| <= |rest|
  {
    if PlainStart(rest, m) then Char(rest[0])
    else match Classify(rest, m)
      case Tag(n, closing) => ReasoningTag(rest[..n], closing)
      case _ => Tail(rest)
  }

  function ModeStep(m: Mode, t: Token): Mode {
    match t
    case Char(c) => Consumed(m, [c])
    case ReasoningTag(_, closing) => Crossed(m, closing)
    case Tail(_) => m
  }

  function Lex(rest: string, m: Mode): seq<Token>
    decreases |rest|
  {
    if rest == "" then [] else
      var t := FirstToken(rest, m);
      [t] + Lex(rest[|Spelling(t)|..], ModeStep(m, t))
  }

  lemma {:induction false} FirstTokenOk(before: seq<Token>, rest: string)
    requires rest != ""
    ensures var t := FirstToken(rest, ModeAfter(before));
            && TokenOk(before, t, rest) && Spelling(t) == rest[..|Spelling(t)|]
            && ModeAfter(before + [t]) == ModeStep(ModeAfter(before), t)
  {
    var m := ModeAfter(before);
    if PlainStart(rest, m) {
      PlainCharOk(before, rest);
      AfterChar(before, rest[0]);
    } else {
      IndexOfFirst(rest, '>');
      match FirstToken(rest, m) {
        case ReasoningTag(text, closing) => AfterTag(before, text, closing);
        case Tail(text) => AfterTail(before, text);
      }
    }
  }

  lemma {:induction false} AfterTail(before: seq<Token>, text: string)
    ensures ModeAfter(before + [Tail(text)]) == ModeAfter(before)
  {
    AfterToken(before, Tail(text));
    assert Shown(before) + "" == Shown(before);
  }

  lemma {:induction false} LexIsAdmissible(before: seq<Token>, rest: string)
    ensures var tokens := Lex(rest, ModeAfter(before)); Spell(tokens) == rest && WellLexed(before, tokens)
    decreases |rest|
  {
    if rest != "" {
      var m := ModeAfter(before);
      var t := FirstToken(rest, m);
      var n := |Spelling(t)|;
      FirstTokenOk(before, rest);
      assert rest == Spelling(t) + rest[n..];
      LexIsAdmissible(before + [t], rest[n..]);
      LexStep(before, t, rest[n..]);
    }
  }

  lemma {:induction false} PlainCharOk(before: seq<Token>, rest: string)
    requires PlainStart(rest, ModeAfter(before))
    ensures TokenOk(before, Char(rest[0]), rest)
  {
    BeginsWithTagAt(rest);
  }

  lemma {:induction false} LexStep(before: seq<Token>, t: Token, later: string)
    requires var tail := Lex(later, ModeAfter(before + [t])); Spell(tail) == later && WellLexed(before + [t], tail)
    requires TokenOk(before, t, Spelling(t) + later)
    ensures var tokens := [t] + Lex(later, ModeAfter(before + [t]));
            Spell(tokens) == Spelling(t) + later && WellLexed(before, tokens)
  {
    var tail := Lex(later, ModeAfter(before + [t]));
    assert ([t] + tail)[1..] == tail;
  }

  /**
   The sanitized text is the input minus exactly the boundary tags, the characters at hidden depth
   above zero and a trailing unterminated tag; such a cut exists and every one of them agrees.
   */
  lemma {:induction false} SanitizedIsShown(input: string, tokens: seq<Token>)
    requires WellLexed([], tokens) && Spell(tokens) == input
    ensures Shown(tokens) == Scan(input, START, true).out
    ensures Spell(Lex(input, START)) == input && WellLexed([], Lex(input, START))
  {
    ShownIsScanned([], tokens);
    assert [] + tokens == tokens;
    LexIsAdmissible([], input);
  }
}
