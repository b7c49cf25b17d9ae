/**
 The incremental remover of private reasoning tags from assistant text.

 Characters are compared with ASCII lower-casing and ASCII white space.
 */
module Sanitizer {

  import opened Common

  predicate IsSpace(c: char) {
    c == ' ' || c == '\t' || c == '\n' || c == '\r' || c as int == 11 || c as int == 12
  }

  predicate IsNewline(c: char) { c == '\n' || c == '\r' }

  function Lower(c: char): char { if 'A' <= c <= 'Z' then (c as int + 32) as char else c }

  function LowerAll(s: string): (r: string)
    ensures |r| == |s|
  {
    if s == "" then "" else [Lower(s[0])] + LowerAll(s[1..])
  }

  /** Lower-cased with all white space removed. */
  function Compact(s: string): string {
    if s == "" then ""
    else if IsSpace(s[0]) then Compact(s[1..])
    else [Lower(s[0])] + Compact(s[1..])
  }

  const FORMS := ["<think>", "</think>", "<thinking>", "</thinking>"]

  predicate CouldBecomeReasoningTag(value: string) {
    var compact := Compact(value);
    |compact| > 0 && (compact <= FORMS[0] || compact <= FORMS[1] || compact <= FORMS[2] || compact <= FORMS[3])
  }

  function SkipSpaces(s: string): string {
    if s != "" && IsSpace(s[0]) then SkipSpaces(s[1..]) else s
  }

  function DropTrailingSpaces(s: string): string {
    if s != "" && IsSpace(s[|s| - 1]) then DropTrailingSpaces(s[..|s| - 1]) else s
  }

  predicate Closing(body: string) { SkipSpaces(body) != "" && SkipSpaces(body)[0] == '/' }

  /** The tag name between the optional slash and the closing bracket. */
  function TagName(body: string): string {
    DropTrailingSpaces(if Closing(body) then SkipSpaces(SkipSpaces(body)[1..]) else SkipSpaces(body))
  }

  /** Whether a candidate is a whole reasoning tag and, if so, a closing one. */
  function TagOf(candidate: string): Option<bool> {
    if |candidate| < 2 || candidate[0] != '<' || candidate[|candidate| - 1] != '>' then None else
      var body := candidate[1..|candidate| - 1];
      var name := LowerAll(TagName(body));
      if name == "think" || name == "thinking" then Some(Closing(body)) else None
  }

  // ----- how a tag is spelled -----

  predicate Spaces(s: string) { forall c :: c in s ==> IsSpace(c) }

  /** The bracket, an optional slash and the name, in any case and with any white space around the slash and name. */
  predicate Spelled(candidate: string, closing: bool, before: string, between: string, name: string, after: string) {
    && Spaces(before) && Spaces(between) && Spaces(after)
    && (LowerAll(name) == "think" || LowerAll(name) == "thinking")
    && candidate == "<" + before + (if closing then "/" else "") + between + name + after + ">"
  }

  ghost predicate IsTag(candidate: string, closing: bool) {
    exists before, between, name, after :: Spelled(candidate, closing, before, between, name, after)
  }

  lemma {:induction false} Spells(
      candidate: string, closing: bool, before: string, between: string, name: string, after: string)
    requires Spelled(candidate, closing, before, between, name, after)
    ensures IsTag(candidate, closing)
  {
  }

  lemma {:induction false} SkipSplits(s: string) returns (spaces: string)
    ensures Spaces(spaces) && s == spaces + SkipSpaces(s)
    ensures SkipSpaces(s) == "" || !IsSpace(SkipSpaces(s)[0])
  {
    spaces := "";
    if s != "" && IsSpace(s[0]) {
      var rest := SkipSplits(s[1..]);
      spaces := [s[0]] + rest;
      assert s == [s[0]] + s[1..];
    }
  }

  lemma {:induction false} SkipAll(spaces: string, rest: string)
    requires Spaces(spaces) && (rest == "" || !IsSpace(rest[0]))
    ensures SkipSpaces(spaces + rest) == rest
  {
    if spaces == "" {
      assert spaces + rest == rest;
    } else {
      assert spaces[0] in spaces;
      assert (spaces + rest)[1..] == spaces[1..] + rest;
      SkipAll(spaces[1..], rest);
    }
  }

  lemma {:induction false} DropSplits(s: string) returns (spaces: string)
    ensures Spaces(spaces) && s == DropTrailingSpaces(s) + spaces
  {
    spaces := "";
    var n := |s| - 1;
    if s != "" && IsSpace(s[n]) {
      var rest := DropSplits(s[..n]);
      spaces := rest + [s[n]];
      assert s == s[..n] + [s[n]];
      assert DropTrailingSpaces(s) + spaces == DropTrailingSpaces(s[..n]) + rest + [s[n]];
    }
  }

  lemma {:induction false} DropAll(rest: string, spaces: string)
    requires Spaces(spaces) && (rest == "" || !IsSpace(rest[|rest| - 1]))
    ensures DropTrailingSpaces(rest + spaces) == rest
  {
    if spaces == "" {
      assert rest + spaces == rest;
    } else {
      var n := |spaces| - 1;
      assert spaces[n] in spaces;
      assert (rest + spaces)[..|rest| + n] == rest + spaces[..n];
      DropAll(rest, spaces[..n]);
    }
  }

  lemma {:induction false} LowerAt(s: string, i: nat)
    requires i < |s|
    ensures LowerAll(s)[i] == Lower(s[i])
  {
    if i > 0 { LowerAt(s[1..], i - 1); }
  }

  /** A tag name neither begins nor ends with white space, nor with a slash. */
  lemma {:induction false} NameEnds(name: string)
    requires LowerAll(name) == "think" || LowerAll(name) == "thinking"
    ensures name != "" && !IsSpace(name[0]) && name[0] != '/' && !IsSpace(name[|name| - 1])
  {
    LowerAt(name, 0);
    LowerAt(name, |name| - 1);
  }

  /** Exactly these spellings are reasoning tags, and the slash tells which close. */
  lemma {:induction false} TagIffSpelled(candidate: string, closing: bool)
    ensures TagOf(candidate) == Some(closing) <==> IsTag(candidate, closing)
  {
    if TagOf(candidate) == Some(closing) { TagIsSpelled(candidate, closing); }
    if IsTag(candidate, closing) {
      var before, between, name, after :| Spelled(candidate, closing, before, between, name, after);
      SpelledIsTag(candidate, closing, before, between, name, after);
    }
  }

  lemma {:induction false} TagIsSpelled(candidate: string, closing: bool)
    requires TagOf(candidate) == Some(closing)
    ensures IsTag(candidate, closing)
  {
    var body := candidate[1..|candidate| - 1];
    assert candidate == "<" + body + ">";
    var before, between, after := BodyParts(body);
    var slash := if closing then "/" else "";
    assert "<" + (before + slash + between + TagName(body) + after) + ">"
        == "<" + before + slash + between + TagName(body) + after + ">";
    Spells(candidate, closing, before, between, TagName(body), after);
  }

  lemma {:induction false} BodyParts(body: string) returns (before: string, between: string, after: string)
    ensures Spaces(before) && Spaces(between) && Spaces(after)
    ensures body == before + (if Closing(body) then "/" else "") + between + TagName(body) + after
  {
    before := SkipSplits(body);
    var inner := SkipSpaces(body);
    if Closing(body) {
      between := SkipSplits(inner[1..]);
      after := DropSplits(SkipSpaces(inner[1..]));
      JoinFive(before, "/", between, TagName(body), after, inner[1..]);
      assert inner == "/" + inner[1..];
    } else {
      between := "";
      after := DropSplits(inner);
      JoinFive(before, "", "", TagName(body), after, inner);
    }
  }

  lemma {:induction false} JoinFive(a: string, b: string, c: string, d: string, e: string, rest: string)
    requires rest == c + (d + e)
    ensures a + (b + rest) == a + b + c + d + e
  {
  }

  lemma {:induction false} SpelledIsTag(
      candidate: string, closing: bool, before: string, between: string, name: string, after: string)
    requires Spelled(candidate, closing, before, between, name, after)
    ensures TagOf(candidate) == Some(closing)
  {
    var slash := if closing then "/" else "";
    var body := before + slash + between + name + after;
    assert candidate == "<" + body + ">";
    assert candidate[1..|candidate| - 1] == body;
    NameEnds(name);
    JoinFive(before, slash, between, name, after, between + (name + after));
    NameFound(before, closing, between, name, after);
  }

  lemma {:induction false} NameFound(before: string, closing: bool, between: string, name: string, after: string)
    requires Spaces(before) && Spaces(between) && Spaces(after)
    requires name != "" && !IsSpace(name[0]) && name[0] != '/' && !IsSpace(name[|name| - 1])
    ensures var body := before + ((if closing then "/" else "") + (between + (name + after)));
            Closing(body) == closing && TagName(body) == name
  {
    var tail := name + after;
    DropAll(name, after);
    SkipAll(between, tail);
    if closing {
      var inner := "/" + (between + tail);
      assert inner[1..] == between + tail;
      SkipAll(before, inner);
    } else {
      assert "" + (between + tail) == between + tail;
      assert before + (between + tail) == (before + between) + tail;
      SkipAll(before + between, tail);
    }
  }

  function IndexOf(s: string, c: char): (k: int)
    ensures -1 <= k < |s|
  {
    if s == "" then -1
    else if s[0] == c then 0
    else var k := IndexOf(s[1..], c); if k < 0 then -1 else k + 1
  }

  lemma {:induction false} IndexOfFirst(s: string, c: char)
    ensures var k := IndexOf(s, c); if k < 0 then c !in s else s[k] == c && c !in s[..k]
  {
    if s != "" && s[0] != c {
      IndexOfFirst(s[1..], c);
      var k := IndexOf(s, c);
      assert s == [s[0]] + s[1..];
      if k >= 0 { assert s[..k] == [s[0]] + s[1..][..k - 1]; }
    }
  }

  // ----- the batch form -----

  /** Hidden depth, and whether the current visible line already carries text. */
  datatype Mode = Mode(depth: nat, content: bool)

  datatype Scanned = Scanned(out: string, pending: string, mode: Mode)

  datatype Verdict = Hold | Tag(length: nat, closing: bool) | Literal

  predicate AtBoundary(m: Mode) { m.depth > 0 || !m.content }

  function Classify(rest: string, m: Mode): (v: Verdict)
    requires rest != "" && rest[0] == '<'
    ensures v.Tag? ==> 0 < v.length <= |rest|
  {
    var end := IndexOf(rest, '>');
    if end < 0 then
      if AtBoundary(m) && CouldBecomeReasoningTag(rest) then Hold else Literal
    else
      match (if AtBoundary(m) then TagOf(rest[..end + 1]) else None)
      case Some(closing) => Tag(end + 1, closing)
      case None => Literal
  }

  function ContentAfter(content: bool, value: string): bool
    decreases |value|
  {
    if value == "" then content else
      ContentAfter(if IsNewline(value[0]) then false else content || !IsSpace(value[0]), value[1..])
  }

  function Consumed(m: Mode, value: string): Mode {
    if m.depth == 0 then m.(content := ContentAfter(m.content, value)) else m
  }

  function Visible(m: Mode, value: string): string { if m.depth == 0 then value else "" }

  function Crossed(m: Mode, closing: bool): Mode {
    m.(depth := if closing then (if m.depth == 0 then 0 else m.depth - 1) else m.depth + 1)
  }

  function Prepend(prefix: string, r: Scanned): Scanned { r.(out := prefix + r.out) }

  function Scan(rest: string, m: Mode, final: bool): Scanned
    decreases |rest|
  {
    if rest == "" then Scanned("", "", m)
    else if rest[0] != '<' then Prepend(Visible(m, rest[..1]), Scan(rest[1..], Consumed(m, rest[..1]), final))
    else match Classify(rest, m)
      case Hold => Scanned("", if final then "" else rest, m)
      case Tag(length, closing) => Scan(rest[length..], Crossed(m, closing), final)
      case Literal => Prepend(Visible(m, "<"), Scan(rest[1..], Consumed(m, "<"), final))
  }

  const START := Mode(0, false)

  // ----- tag prefixes are always held back -----

  lemma {:induction false} CompactConcat(a: string, b: string)
    ensures Compact(a + b) == Compact(a) + Compact(b)
  {
    if a == "" {
      assert a + b == b;
    } else {
      assert (a + b)[1..] == a[1..] + b;
      CompactConcat(a[1..], b);
    }
  }

  lemma {:induction false} CompactSkip(s: string)
    ensures Compact(SkipSpaces(s)) == Compact(s)
  {
    if s != "" && IsSpace(s[0]) { CompactSkip(s[1..]); }
  }

  lemma {:induction false} CompactDrop(s: string)
    ensures Compact(DropTrailingSpaces(s)) == Compact(s)
  {
    if s != "" && IsSpace(s[|s| - 1]) {
      assert s == s[..|s| - 1] + s[|s| - 1..];
      CompactConcat(s[..|s| - 1], s[|s| - 1..]);
      CompactDrop(s[..|s| - 1]);
    }
  }

  lemma {:induction false} CompactWord(s: string)
    requires forall c :: c in LowerAll(s) ==> !IsSpace(c)
    ensures Compact(s) == LowerAll(s)
  {
    if s != "" {
      assert LowerAll(s)[0] in LowerAll(s);
      assert forall c :: c in LowerAll(s[1..]) ==> c in LowerAll(s);
      CompactWord(s[1..]);
    }
  }

  lemma {:induction false} BodyCompacts(body: string)
    requires forall c :: c in LowerAll(TagName(body)) ==> !IsSpace(c)
    ensures Compact(body) == (if Closing(body) then "/" else "") + LowerAll(TagName(body))
  {
    var inner := SkipSpaces(body);
    var tail := if Closing(body) then SkipSpaces(inner[1..]) else inner;
    CompactSkip(body);
    CompactDrop(tail);
    CompactWord(TagName(body));
    if Closing(body) { CompactSkip(inner[1..]); }
  }

  lemma {:induction false} Bracketed(body: string)
    ensures Compact("<" + (body + ">")) == "<" + (Compact(body) + ">")
  {
    CompactConcat("<", body + ">");
    CompactConcat(body, ">");
    assert Compact("<") == "<" && Compact(">") == ">";
  }

  lemma {:induction false} FormSpelled(closing: bool, name: string)
    requires name == "think" || name == "thinking"
    ensures "<" + (((if closing then "/" else "") + name) + ">") in FORMS
  {
    var spelled := "<" + (((if closing then "/" else "") + name) + ">");
    if closing {
      assert spelled == if name == "think" then FORMS[1] else FORMS[3];
    } else {
      assert spelled == if name == "think" then FORMS[0] else FORMS[2];
    }
  }

  lemma {:induction false} TagCompacts(c: string)
    requires TagOf(c).Some?
    ensures Compact(c) in FORMS
  {
    var body := c[1..|c| - 1];
    assert c == "<" + (body + ">");
    BodyCompacts(body);
    Bracketed(body);
    FormSpelled(Closing(body), LowerAll(TagName(body)));
  }

  lemma {:induction false} FormsListed(s: string)
    requires s in FORMS
    ensures s == FORMS[0] || s == FORMS[1] || s == FORMS[2] || s == FORMS[3]
  {
  }

  /** Every proper beginning of a reasoning tag may still become one. */
  lemma {:induction false} TagPrefixCouldBecome(p: string, q: string)
    requires p != "" && p[0] == '<' && TagOf(p + q).Some?
    ensures CouldBecomeReasoningTag(p)
  {
    TagCompacts(p + q);
    FormsListed(Compact(p + q));
    CompactConcat(p, q);
  }

  lemma {:induction false} CouldBecomePrefix(p: string, q: string)
    requires p != "" && p[0] == '<' && CouldBecomeReasoningTag(p + q)
    ensures CouldBecomeReasoningTag(p)
  {
    CompactConcat(p, q);
  }

  // ----- exactly what is held back -----

  function Squeezed(s: string): string {
    if s == "" then "" else (if IsSpace(s[0]) then "" else [s[0]]) + Squeezed(s[1..])
  }

  ghost predicate BeginsTag(t: string) { exists q, closing :: IsTag(t + q, closing) }

  lemma {:induction false} SqueezedCompacts(s: string)
    ensures LowerAll(Squeezed(s)) == Compact(s) == Compact(Squeezed(s))
  {
    if s != "" {
      SqueezedCompacts(s[1..]);
      if !IsSpace(s[0]) {
        assert Squeezed(s)[1..] == Squeezed(s[1..]);
      } else {
        assert Squeezed(s) == Squeezed(s[1..]);
      }
    }
  }

  lemma {:induction false} LowerSlice(s: string, i: nat, j: nat)
    requires i <= j <= |s|
    ensures LowerAll(s[i..j]) == LowerAll(s)[i..j]
  {
    forall k | 0 <= k < j - i ensures LowerAll(s[i..j])[k] == LowerAll(s)[i + k] {
      LowerAt(s[i..j], k);
      LowerAt(s, i + k);
    }
  }

  lemma {:induction false} LowerIsForm(s: string, closing: bool, name: string)
    requires name == "think" || name == "thinking"
    requires LowerAll(s) == "<" + (if closing then "/" else "") + name + ">"
    ensures IsTag(s, closing)
  {
    var slash := if closing then "/" else "";
    var from, to := 1 + |slash|, |s| - 1;
    LowerSlice(s, from, to);
    assert LowerAll(s)[from..to] == name;
    LowerAt(s, 0);
    LowerAt(s, to);
    if closing { LowerAt(s, 1); }
    assert s == "<" + "" + slash + "" + s[from..to] + "" + ">";
    Spells(s, closing, "", "", s[from..to], "");
  }

  lemma {:induction false} PrefixCompletes(t: string, form: string)
    requires LowerAll(t) <= form && forall i :: 0 <= i < |form| ==> Lower(form[i]) == form[i]
    ensures LowerAll(t + form[|t|..]) == form
  {
    var whole := t + form[|t|..];
    forall i | 0 <= i < |form| ensures LowerAll(whole)[i] == form[i] {
      LowerAt(whole, i);
      if i < |t| { LowerAt(t, i); }
    }
  }

  /** Text is held back exactly when, white space aside, it is a beginning of a tag. */
  lemma {:induction false} HeldIffBeginsTag(p: string)
    requires p != "" && p[0] == '<'
    ensures CouldBecomeReasoningTag(p) <==> BeginsTag(Squeezed(p))
  {
    SqueezedCompacts(p);
    var t := Squeezed(p);
    assert t != "" && t[0] == '<';
    if CouldBecomeReasoningTag(p) { FormBegins(t); }
    if BeginsTag(t) {
      var q, closing :| IsTag(t + q, closing);
      TagIffSpelled(t + q, closing);
      TagPrefixCouldBecome(t, q);
    }
  }

  lemma {:induction false} FormBegins(t: string)
    requires LowerAll(t) <= FORMS[0] || LowerAll(t) <= FORMS[1] || LowerAll(t) <= FORMS[2] || LowerAll(t) <= FORMS[3]
    ensures BeginsTag(t)
  {
    if LowerAll(t) <= FORMS[0] {
      FormCompletes(t, false, "think");
    } else if LowerAll(t) <= FORMS[1] {
      FormCompletes(t, true, "think");
    } else if LowerAll(t) <= FORMS[2] {
      FormCompletes(t, false, "thinking");
    } else {
      FormCompletes(t, true, "thinking");
    }
  }

  lemma {:induction false} FormCompletes(t: string, closing: bool, name: string)
    requires name == "think" || name == "thinking"
    requires LowerAll(t) <= "<" + (if closing then "/" else "") + name + ">"
    ensures BeginsTag(t)
  {
    var form := "<" + (if closing then "/" else "") + name + ">";
    PrefixCompletes(t, form);
    LowerIsForm(t + form[|t|..], closing, name);
  }

  /** So some text is held that no tag begins with, and at the end of the stream it is dropped. */
  lemma {:induction false} HeldThoughNoTag()
    ensures CouldBecomeReasoningTag("<th ink") && !BeginsTag("<th ink")
    ensures Scan("<th ink", START, true).out == ""
  {
    SpacedOutIsHeld();
    forall q, closing ensures !IsTag("<th ink" + q, closing) { SpacedOutIsNoTag("<th ink" + q, closing); }
  }

  lemma {:induction false} SpacedOutIsNoTag(candidate: string, closing: bool)
    requires |candidate| > 3 && candidate[1] == 't' && candidate[3] == ' '
    ensures !IsTag(candidate, closing)
  {
    forall before, between, name, after ensures !Spelled(candidate, closing, before, between, name, after) {
      if Spelled(candidate, closing, before, between, name, after) {
        NameFollows(candidate, closing, before, between, name, after);
      }
    }
  }

  /** A name that directly follows the bracket has its third letter three places on. */
  lemma {:induction false} NameFollows(
      candidate: string, closing: bool, before: string, between: string, name: string, after: string)
    requires Spelled(candidate, closing, before, between, name, after)
    requires |candidate| > 3 && candidate[1] == 't'
    ensures Lower(candidate[3]) == 'i'
  {
    WhatFollows(candidate, closing, before, between, name, after);
    assert before == between == "" && !closing;
    NameThird(candidate, name, after + ">");
  }

  lemma {:induction false} WhatFollows(
      candidate: string, closing: bool, before: string, between: string, name: string, after: string)
    requires Spelled(candidate, closing, before, between, name, after)
    ensures |candidate| > 2 && (before != "" ==> IsSpace(candidate[1]))
    ensures before == "" && closing ==> candidate[1] == '/'
    ensures before == "" && !closing && between != "" ==> IsSpace(candidate[1])
    ensures before == between == "" && !closing ==> candidate == "<" + (name + (after + ">"))
  {
    var slash := if closing then "/" else "";
    assert candidate == "<" + (before + (slash + (between + (name + (after + ">")))));
    if before != "" {
      assert before[0] in before;
    } else if between != "" && !closing {
      assert between[0] in between;
    }
  }

  lemma {:induction false} NameThird(candidate: string, name: string, rest: string)
    requires LowerAll(name) == "think" || LowerAll(name) == "thinking"
    requires candidate == "<" + (name + rest)
    ensures |candidate| > 3 && Lower(candidate[3]) == 'i'
  {
    LowerAt(name, 2);
  }

  lemma {:induction false} SpacedOutIsHeld()
    ensures CouldBecomeReasoningTag("<th ink") && Scan("<th ink", START, true).out == ""
  {
    SpacedOutCompacts();
    assert "<think" <= FORMS[0];
    assert '>' !in "<th ink";
    IndexOfFirst("<th ink", '>');
  }

  lemma {:induction false} SpacedOutCompacts()
    ensures Compact("<th ink") == "<think"
  {
    assert Compact("ink") == "ink" && Compact(" ink") == "ink" && Compact("h ink") == "hink";
    assert Compact("th ink") == "think";
  }

  // ----- streaming equals batch -----

  lemma {:induction false} IndexOfConcat(a: string, b: string, c: char)
    ensures IndexOf(a, c) >= 0 ==> IndexOf(a + b, c) == IndexOf(a, c)
    ensures IndexOf(a, c) < 0 && IndexOf(a + b, c) >= 0 ==> IndexOf(a + b, c) >= |a|
  {
    if a != "" {
      assert (a + b)[1..] == a[1..] + b;
      IndexOfConcat(a[1..], b, c);
    }
  }

  /** Text that cannot become a tag cannot do so later either. */
  lemma {:induction false} NeverBecomes(a: string, q: string)
    requires a != "" && a[0] == '<' && !CouldBecomeReasoningTag(a)
    ensures TagOf(a + q).None? && !CouldBecomeReasoningTag(a + q)
  {
    if TagOf(a + q).Some? { TagPrefixCouldBecome(a, q); }
    if CouldBecomeReasoningTag(a + q) { CouldBecomePrefix(a, q); }
  }

  lemma {:induction false} NoTagAcross(a: string, b: string, n: nat)
    requires a != "" && a[0] == '<' && !CouldBecomeReasoningTag(a) && |a| <= n <= |a + b|
    ensures TagOf((a + b)[..n]).None?
  {
    NeverBecomes(a, b[..n - |a|]);
    assert (a + b)[..n] == a + b[..n - |a|];
  }

  lemma {:induction false} ClassifyLiteral(rest: string, m: Mode)
    requires rest != "" && rest[0] == '<'
    requires var end := IndexOf(rest, '>');
             if end < 0 then !CouldBecomeReasoningTag(rest) else TagOf(rest[..end + 1]).None?
    ensures Classify(rest, m) == Literal
  {
  }

  lemma {:induction false} LiteralStable(a: string, b: string, m: Mode)
    requires a != "" && a[0] == '<' && !CouldBecomeReasoningTag(a)
    requires IndexOf(a, '>') < 0
    ensures Classify(a + b, m) == Literal
  {
    IndexOfConcat(a, b, '>');
    var end := IndexOf(a + b, '>');
    if end < 0 {
      NeverBecomes(a, b);
    } else {
      NoTagAcross(a, b, end + 1);
    }
    ClassifyLiteral(a + b, m);
  }

  /** What arrives later never changes a decision already taken. */
  lemma {:induction false} ClassifyStable(a: string, b: string, m: Mode)
    requires a != "" && a[0] == '<' && !Classify(a, m).Hold?
    ensures Classify(a + b, m) == Classify(a, m)
  {
    IndexOfConcat(a, b, '>');
    var end := IndexOf(a, '>');
    if end >= 0 {
      assert (a + b)[..end + 1] == a[..end + 1];
    } else if AtBoundary(m) {
      LiteralStable(a, b, m);
    }
  }

  lemma {:induction false} PrependTwice(p: string, q: string, r: Scanned)
    ensures Prepend(p, Prepend(q, r)) == Prepend(p + q, r)
  {
    assert p + (q + r.out) == (p + q) + r.out;
  }

  /** One character leaves the tail as plain text. */
  predicate PlainStart(rest: string, m: Mode) {
    rest != "" && (rest[0] == '<' ==> Classify(rest, m).Literal?)
  }

  lemma {:induction false} ScanPlain(rest: string, m: Mode, final: bool)
    requires PlainStart(rest, m)
    ensures Scan(rest, m, final) == Prepend(Visible(m, rest[..1]), Scan(rest[1..], Consumed(m, rest[..1]), final))
  {
    assert rest[0] == '<' ==> rest[..1] == "<";
  }

  lemma {:induction false} ScanSplit(a: string, b: string, m: Mode, final: bool)
    ensures var r := Scan(a, m, false);
            Scan(a + b, m, final) == Prepend(r.out, Scan(r.pending + b, r.mode, final))
    decreases |a|
  {
    if a == "" {
      assert a + b == b;
    } else if PlainStart(a, m) {
      if a[0] == '<' { ClassifyStable(a, b, m); }
      PlainSplit(a, b, m, final);
    } else if Classify(a, m).Tag? {
      ClassifyStable(a, b, m);
      TagSplit(a, b, m, final);
    } else {
      var r := Scan(a, m, false);
      assert r == Scanned("", a, m);
    }
  }

  lemma {:induction false} PlainSplit(a: string, b: string, m: Mode, final: bool)
    requires PlainStart(a, m) && PlainStart(a + b, m)
    ensures var r := Scan(a, m, false);
            Scan(a + b, m, final) == Prepend(r.out, Scan(r.pending + b, r.mode, final))
    decreases |a|, 0
  {
    var m' := Consumed(m, a[..1]);
    assert (a + b)[..1] == a[..1] && (a + b)[1..] == a[1..] + b;
    ScanPlain(a, m, false);
    ScanPlain(a + b, m, final);
    ScanSplit(a[1..], b, m', final);
    var r := Scan(a[1..], m', false);
    PrependTwice(Visible(m, a[..1]), r.out, Scan(r.pending + b, r.mode, final));
  }

  lemma {:induction false} TagSplit(a: string, b: string, m: Mode, final: bool)
    requires a != "" && a[0] == '<' && Classify(a, m).Tag? && Classify(a + b, m) == Classify(a, m)
    ensures var r := Scan(a, m, false);
            Scan(a + b, m, final) == Prepend(r.out, Scan(r.pending + b, r.mode, final))
    decreases |a|, 0
  {
    var v := Classify(a, m);
    assert (a + b)[v.length..] == a[v.length..] + b;
    ScanSplit(a[v.length..], b, Crossed(m, v.closing), final);
  }

  function Flatten(chunks: seq<string>): string {
    if chunks == [] then "" else chunks[0] + Flatten(chunks[1..])
  }

  /** The chunks pushed one after the other onto a held-back tail. */
  function PushAll(pending: string, m: Mode, chunks: seq<string>): Scanned
    decreases |chunks|
  {
    if chunks == [] then Scanned("", pending, m) else
      var r := if chunks[0] == "" then Scanned("", pending, m) else Scan(pending + chunks[0], m, false);
      Prepend(r.out, PushAll(r.pending, r.mode, chunks[1..]))
  }

  predicate Held(pending: string, m: Mode) { Scan(pending, m, false) == Scanned("", pending, m) }

  lemma {:induction false} ScanHolds(rest: string, m: Mode)
    ensures var r := Scan(rest, m, false); Held(r.pending, r.mode)
  {
    var r := Scan(rest, m, false);
    ScanSplit(rest, "", m, false);
    assert rest + "" == rest && r.pending + "" == r.pending;
    ScanLength(rest, m);
    ScanLength(r.pending, r.mode);
    var again := Scan(r.pending, r.mode, false);
    assert |r.out + again.out| == |r.out|;
  }

  lemma {:induction false} ScanLength(rest: string, m: Mode)
    ensures |Scan(rest, m, false).pending| <= |rest|
    decreases |rest|
  {
    if PlainStart(rest, m) { ScanLength(rest[1..], Consumed(m, rest[..1])); ScanPlain(rest, m, false); }
    else if rest != "" && Classify(rest, m).Tag? {
      var c := Classify(rest, m);
      ScanLength(rest[c.length..], Crossed(m, c.closing));
    }
  }

  lemma {:induction false} PushStep(pending: string, m: Mode, chunk: string, later: string)
    ensures var r := Scan(pending + chunk, m, false);
            Scan(pending + (chunk + later), m, false) == Prepend(r.out, Scan(r.pending + later, r.mode, false))
  {
    ScanSplit(pending + chunk, later, m, false);
    assert pending + (chunk + later) == (pending + chunk) + later;
  }

  /** Any way of cutting a text into chunks gives the output, the tail and the state of a single push. */
  lemma {:induction false} ChunkingIrrelevant(pending: string, m: Mode, chunks: seq<string>)
    requires Held(pending, m)
    ensures PushAll(pending, m, chunks) == Scan(pending + Flatten(chunks), m, false)
    decreases |chunks|
  {
    if chunks == [] {
      assert pending + Flatten(chunks) == pending;
    } else {
      var r := Scan(pending + chunks[0], m, false);
      assert chunks[0] == "" ==> pending + chunks[0] == pending;
      ScanHolds(pending + chunks[0], m);
      ChunkingIrrelevant(r.pending, r.mode, chunks[1..]);
      PushStep(pending, m, chunks[0], Flatten(chunks[1..]));
    }
  }

  lemma {:induction false} FinishIrrelevant(chunks: seq<string>)
    ensures var r := PushAll("", START, chunks);
            Prepend(r.out, Scan(r.pending, r.mode, true)) == Scan(Flatten(chunks), START, true)
  {
    ChunkingIrrelevant("", START, chunks);
    var whole := Flatten(chunks);
    assert "" + whole == whole;
    ScanSplit(whole, "", START, true);
    var r := Scan(whole, START, false);
    assert whole + "" == whole && r.pending + "" == r.pending;
  }

  // ----- the streaming object -----

  lemma {:induction false} ScanRun(p: string, rest: string, m: Mode, final: bool)
    requires '<' !in p
    ensures Scan(p + rest, m, final) == Prepend(Visible(m, p), Scan(rest, Consumed(m, p), final))
    decreases |p|
  {
    if p == "" {
      assert p + rest == rest;
      assert Prepend("", Scan(rest, m, final)) == Scan(rest, m, final);
    } else {
      assert (p + rest)[..1] == p[..1] && (p + rest)[1..] == p[1..] + rest;
      assert p[0] in p;
      ScanPlain(p + rest, m, final);
      var m' := Consumed(m, p[..1]);
      ScanRun(p[1..], rest, m', final);
      PrependTwice(Visible(m, p[..1]), Visible(m', p[1..]), Scan(rest, Consumed(m', p[1..]), final));
      assert p == p[..1] + p[1..];
      ConsumedCons(m, p);
    }
  }

  lemma {:induction false} ConsumedCons(m: Mode, p: string)
    requires p != ""
    ensures Consumed(Consumed(m, p[..1]), p[1..]) == Consumed(m, p)
  {
    var next := if IsNewline(p[0]) then false else m.content || !IsSpace(p[0]);
    assert p[..1][0] == p[0] && p[..1][1..] == "";
    assert ContentAfter(m.content, p[..1]) == ContentAfter(next, "") == next;
  }

  lemma {:induction false} ScanTag(rest: string, m: Mode, final: bool, length: nat, closing: bool)
    requires rest != "" && rest[0] == '<' && Classify(rest, m) == Tag(length, closing)
    ensures Scan(rest, m, final) == Scan(rest[length..], Crossed(m, closing), final)
  {
  }

  class AssistantTextSanitizer {
    var pending: string
    var hiddenDepth: nat
    var lineHasContent: bool
    var safeText: string

    function CurrentMode(): Mode
      reads this
    {
      Mode(hiddenDepth, lineHasContent)
    }

    /** What is pending is exactly what still has to be held back. */
    ghost predicate Valid()
      reads this
    {
      Held(pending, CurrentMode())
    }

    constructor ()
      ensures Valid() && pending == "" && CurrentMode() == START && safeText == ""
    {
      pending, hiddenDepth, lineHasContent, safeText := "", 0, false, "";
    }

    method Push(delta: string) returns (emitted: string)
      requires Valid()
      modifies this
      ensures Valid()
      ensures Scanned(emitted, pending, CurrentMode()) == Scan(old(pending) + delta, old(CurrentMode()), false)
      ensures safeText == old(safeText) + emitted
    {
      if delta == "" {
        assert pending + delta == pending;
        return "";
      }
      ScanHolds(pending + delta, CurrentMode());
      pending := pending + delta;
      emitted := Drain(false);
    }

    method Finish() returns (emitted: string)
      modifies this
      ensures Valid()
      ensures Scanned(emitted, pending, CurrentMode()) == Scan(old(pending), old(CurrentMode()), true)
      ensures pending == "" && safeText == old(safeText) + emitted
    {
      FinalScanEmpties(pending, CurrentMode());
      emitted := Drain(true);
    }

    method Consume(value: string) returns (visible: string)
      modifies this`lineHasContent
      ensures visible == Visible(old(CurrentMode()), value)
      ensures CurrentMode() == Consumed(old(CurrentMode()), value)
    {
      visible := if hiddenDepth == 0 then value else "";
      if visible != "" {
        for i := 0 to |value|
          invariant ContentAfter(lineHasContent, value[i..]) == ContentAfter(old(lineHasContent), value)
        {
          assert value[i..][1..] == value[i + 1..];
          if IsNewline(value[i]) {
            lineHasContent := false;
          } else if !IsSpace(value[i]) {
            lineHasContent := true;
          }
        }
      }
    }

    method Drain(final: bool) returns (emitted: string)
      modifies this
      ensures Scanned(emitted, pending, CurrentMode()) == Scan(old(pending), old(CurrentMode()), final)
      ensures safeText == old(safeText) + emitted
    {
      emitted := "";
      ghost var whole := Scan(pending, CurrentMode(), final);
      while pending != ""
        invariant whole == Prepend(emitted, Scan(pending, CurrentMode(), final))
        invariant safeText == old(safeText)
        decreases |pending|
      {
        var tagStart := IndexOf(pending, '<');
        IndexOfFirst(pending, '<');
        if tagStart < 0 {
          emitted := EmitText(emitted, |pending|, final);
          break;
        }
        if tagStart > 0 {
          emitted := EmitText(emitted, tagStart, final);
          continue;
        }
        var mayBeBoundaryTag := hiddenDepth > 0 || !lineHasContent;
        var tagEnd := IndexOf(pending, '>');
        if tagEnd < 0 {
          var potentialTag := mayBeBoundaryTag && CouldBecomeReasoningTag(pending);
          if !potentialTag {
            emitted := EmitBracket(emitted, final);
            continue;
          }
          if final { pending := ""; }
          break;
        }
        var candidate := pending[..tagEnd + 1];
        var tag := if mayBeBoundaryTag then TagOf(candidate) else None;
        if tag.Some? {
          CrossTag(tagEnd + 1, tag.value, final);
          continue;
        }
        emitted := EmitBracket(emitted, final);
      }
      safeText := safeText + emitted;
    }

    /** A whole tag is taken off the text and opens or closes a hidden stretch. */
    method CrossTag(length: nat, closing: bool, ghost final: bool)
      requires pending != "" && pending[0] == '<' && Classify(pending, CurrentMode()) == Tag(length, closing)
      modifies this`hiddenDepth, this`pending
      ensures pending == old(pending)[length..]
      ensures Scan(pending, CurrentMode(), final) == Scan(old(pending), old(CurrentMode()), final)
    {
      ScanTag(pending, CurrentMode(), final, length, closing);
      if closing {
        hiddenDepth := if hiddenDepth == 0 then 0 else hiddenDepth - 1;
      } else {
        hiddenDepth := hiddenDepth + 1;
      }
      pending := pending[length..];
    }

    /** A stretch without an opening bracket is ordinary text. */
    method EmitText(sent: string, count: nat, ghost final: bool) returns (emitted: string)
      requires count <= |pending| && '<' !in pending[..count]
      modifies this`lineHasContent, this`pending
      ensures pending == old(pending)[count..]
      ensures Prepend(emitted, Scan(pending, CurrentMode(), final))
           == Prepend(sent, Scan(old(pending), old(CurrentMode()), final))
    {
      ghost var mode, rest := CurrentMode(), pending;
      var visible := Consume(pending[..count]);
      emitted := sent + visible;
      pending := pending[count..];
      assert rest == rest[..count] + pending;
      ScanRun(rest[..count], pending, mode, final);
      PrependTwice(sent, visible, Scan(pending, CurrentMode(), final));
    }

    /** An opening bracket that starts no tag is ordinary text. */
    method EmitBracket(sent: string, ghost final: bool) returns (emitted: string)
      requires pending != "" && pending[0] == '<' && Classify(pending, CurrentMode()).Literal?
      modifies this`lineHasContent, this`pending
      ensures pending == old(pending)[1..]
      ensures Prepend(emitted, Scan(pending, CurrentMode(), final))
           == Prepend(sent, Scan(old(pending), old(CurrentMode()), final))
    {
      ScanPlain(pending, CurrentMode(), final);
      assert pending[..1] == "<";
      var visible := Consume("<");
      emitted := sent + visible;
      pending := pending[1..];
      PrependTwice(sent, visible, Scan(pending, CurrentMode(), final));
    }
  }

  lemma {:induction false} FinalScanEmpties(rest: string, m: Mode)
    ensures Scan(rest, m, true).pending == ""
    decreases |rest|
  {
    if PlainStart(rest, m) { FinalScanEmpties(rest[1..], Consumed(m, rest[..1])); ScanPlain(rest, m, true); }
    else if rest != "" && Classify(rest, m).Tag? {
      var c := Classify(rest, m);
      FinalScanEmpties(rest[c.length..], Crossed(m, c.closing));
    }
  }

  lemma {:induction false} FlattenSnoc(chunks: seq<string>, last: string)
    ensures Flatten(chunks + [last]) == Flatten(chunks) + last
  {
    if chunks == [] {
      assert chunks + [last] == [last] && [last][1..] == [];
      assert Flatten([last]) == last + Flatten([]);
    } else {
      assert (chunks + [last])[1..] == chunks[1..] + [last];
      FlattenSnoc(chunks[1..], last);
    }
  }

  lemma {:induction false} FlattenNext(chunks: seq<string>, i: nat)
    requires i < |chunks|
    ensures Flatten(chunks[..i + 1]) == Flatten(chunks[..i]) + chunks[i]
  {
    FlattenSnoc(chunks[..i], chunks[i]);
    assert chunks[..i + 1] == chunks[..i] + [chunks[i]];
  }

  lemma {:induction false} FlushSplit(a: string, m: Mode)
    ensures var r := Scan(a, m, false);
            Scan(a, m, true) == Prepend(r.out, Scan(r.pending, r.mode, true))
  {
    ScanSplit(a, "", m, true);
    var r := Scan(a, m, false);
    assert a + "" == a && r.pending + "" == r.pending;
  }

  /** A whole stream: every chunk pushed, then the end.  Only the concatenated text matters. */
  method SanitizeChunks(chunks: seq<string>) returns (text: string)
    ensures text == Scan(Flatten(chunks), START, true).out
  {
    var sanitizer := new AssistantTextSanitizer();
    text := "";
    ghost var fed := "";
    for i := 0 to |chunks|
      invariant sanitizer.Valid() && fed == Flatten(chunks[..i])
      invariant Scanned(text, sanitizer.pending, sanitizer.CurrentMode()) == Scan(fed, START, false)
    {
      ScanSplit(fed, chunks[i], START, false);
      FlattenNext(chunks, i);
      var emitted := sanitizer.Push(chunks[i]);
      text := text + emitted;
      fed := fed + chunks[i];
    }
    assert chunks[..|chunks|] == chunks;
    FlushSplit(fed, START);
    var last := sanitizer.Finish();
    text := text + last;
  }

  method SanitizeAssistantText(value: string) returns (text: string)
    ensures text == Scan(value, START, true).out
  {
    var sanitizer := new AssistantTextSanitizer();
    var first := sanitizer.Push(value);
    FlushSplit(value, START);
    assert "" + value == value;
    var last := sanitizer.Finish();
    text := first + last;
  }
}
