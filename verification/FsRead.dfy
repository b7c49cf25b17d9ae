/**
 The bounded line reader behind `read_file`.

 The file is a fixed text, one character per byte; each read returns an arbitrary positive number of
 characters up to what was asked for and what is left.  Detection of binary content is left out.
 */
module FsRead {

  import opened Common

  // ----- what a file's lines are -----

  /** The pieces between line feeds; a text without any is one piece. */
  function Split(t: string): (pieces: seq<string>)
    ensures pieces != []
  {
    if t == "" then [""] else
      var front, c := Split(t[..|t| - 1]), t[|t| - 1];
      if c == '\n' then front + [""] else front[|front| - 1 := front[|front| - 1] + [c]]
  }

  /** A trailing line feed ends the last line; it does not begin another. */
  function Lines(t: string): (lines: seq<string>)
    ensures lines != []
  {
    var pieces := Split(t);
    if |pieces| > 1 && pieces[|pieces| - 1] == "" then pieces[..|pieces| - 1] else pieces
  }

  predicate EndsWithCr(s: string) { s != "" && s[|s| - 1] == '\r' }

  function WithoutCr(s: string): string { if EndsWithCr(s) then s[..|s| - 1] else s }

  datatype Tail = Whole | Omitted(chars: nat) | Continues(scanned: nat)

  datatype Row = Row(number: nat, shown: string, tail: Tail)

  function Take(s: string, n: nat): string { if |s| <= n then s else s[..n] }

  /** The rendering of one raw line. */
  function RowOf(raw: string, number: nat, cap: nat): Row {
    var prefix := Take(raw, cap);
    var shown := if EndsWithCr(raw) then WithoutCr(prefix) else prefix;
    var chars := if EndsWithCr(raw) then |raw| - 1 else |raw|;
    Row(number, shown, if chars > |shown| then Omitted(chars - |shown|) else Whole)
  }

  /** The rows of the lines numbered `first..last`, in order. */
  function RowsOf(lines: seq<string>, first: nat, last: int, cap: nat): (rows: seq<Row>)
    requires 1 <= first && last <= |lines|
    ensures |rows| == Max(0, last - first + 1)
    decreases last - first
  {
    if last < first then [] else RowsOf(lines, first, last - 1, cap) + [RowOf(lines[last - 1], last, cap)]
  }

  /** What is shown and what is reported omitted add up to the line, and what is shown begins it. */
  lemma {:induction false} RowAddsUp(raw: string, number: nat, cap: nat)
    ensures var row, line := RowOf(raw, number, cap), WithoutCr(raw);
            && row.number == number && row.shown <= line && |row.shown| <= cap && !row.tail.Continues?
            && |row.shown| + (if row.tail.Omitted? then row.tail.chars else 0) == |line|
  {
  }

  /** A line loses one more character than its cap requires exactly when a carriage return sits at the cap. */
  lemma {:induction false} RowShowsUpToCap(raw: string, number: nat, cap: nat)
    requires cap >= 1
    ensures RowOf(raw, number, cap).shown == Take(WithoutCr(raw), cap)
       <==> !(EndsWithCr(raw) && |raw| > cap && raw[cap - 1] == '\r')
  {
  }

  lemma {:induction false} CarriageReturnAtCap()
    ensures RowOf("ab\rcd\r", 1, 3) == Row(1, "ab", Omitted(3))
    ensures Take(WithoutCr("ab\rcd\r"), 3) == "ab\r"
  {
    assert "ab\rcd\r"[..3] == "ab\r" && "ab\r"[..2] == "ab";
    assert "ab\rcd\r"[..5] == "ab\rcd" && "ab\rcd"[..3] == "ab\r";
  }

  // ----- splitting as text arrives -----

  /** The last piece continued. */
  function Grow(pieces: seq<string>, part: string): seq<string>
    requires pieces != []
  {
    pieces[|pieces| - 1 := pieces[|pieces| - 1] + part]
  }

  lemma {:induction false} GrowTwice(pieces: seq<string>, a: string, b: string)
    requires pieces != []
    ensures Grow(Grow(pieces, a), b) == Grow(pieces, a + b)
  {
    assert (pieces[|pieces| - 1] + a) + b == pieces[|pieces| - 1] + (a + b);
  }

  lemma {:induction false} SplitChar(t: string, c: char)
    ensures Split(t + [c]) == if c == '\n' then Split(t) + [""] else Grow(Split(t), [c])
  {
    assert (t + [c])[..|t|] == t;
  }

  lemma {:induction false} SplitPart(t: string, part: string)
    requires '\n' !in part
    ensures Split(t + part) == Grow(Split(t), part)
    decreases |part|
  {
    if part == "" {
      assert t + part == t;
      assert Split(t)[|Split(t)| - 1] + part == Split(t)[|Split(t)| - 1];
    } else {
      var front, c := part[..|part| - 1], part[|part| - 1];
      assert part == front + [c] && c in part;
      SplitPart(t, front);
      assert t + part == (t + front) + [c];
      SplitChar(t + front, c);
      GrowTwice(Split(t), front, [c]);
    }
  }

  /** Finished pieces never change as more text arrives; the last one may grow. */
  lemma {:induction false} SplitGrows(t: string, more: string)
    ensures var n := |Split(t)|;
            && n <= |Split(t + more)| && Split(t)[..n - 1] == Split(t + more)[..n - 1]
            && Split(t)[n - 1] <= Split(t + more)[n - 1]
    decreases |more|
  {
    if more == "" {
      assert t + more == t;
    } else {
      var front, c := more[..|more| - 1], more[|more| - 1];
      SplitGrows(t, front);
      assert t + more == (t + front) + [c];
      SplitChar(t + front, c);
    }
  }

  lemma {:induction false} EndsWithLineFeed(t: string)
    ensures var pieces := Split(t);
            pieces[|pieces| - 1] == "" <==> t == "" || t[|t| - 1] == '\n'
  {
    if t != "" {
      assert t == t[..|t| - 1] + [t[|t| - 1]];
      SplitChar(t[..|t| - 1], t[|t| - 1]);
    }
  }

  lemma {:induction false} RowsSame(a: seq<string>, b: seq<string>, first: nat, last: int, cap: nat)
    requires 1 <= first && last <= |a| && last <= |b|
    requires forall k :: 0 <= k < last ==> a[k] == b[k]
    ensures RowsOf(a, first, last, cap) == RowsOf(b, first, last, cap)
    decreases last - first
  {
    if first <= last { RowsSame(a, b, first, last - 1, cap); }
  }

  // ----- the reader's state as a function of the text taken in -----

  /** The requested lines and the cap on what is shown of each. */
  datatype Window = Window(start: nat, end: nat, cap: nat)

  predicate WindowOk(w: Window) { 1 <= w.start <= w.end && w.cap >= 1 }

  predicate Inside(w: Window, n: nat) { w.start <= n <= w.end }

  datatype View = View(lineNo: nat, prefix: string, chars: nat, cr: bool, rows: seq<Row>, more: bool)

  function Last(pieces: seq<string>): string
    requires pieces != []
  {
    pieces[|pieces| - 1]
  }

  function ViewOf(w: Window, t: string): View
    requires WindowOk(w)
  {
    ViewFrom(w, Split(t))
  }

  function ViewFrom(w: Window, pieces: seq<string>): View
    requires WindowOk(w) && pieces != []
  {
    var n, line := |pieces|, Last(pieces);
    View(n,
         if Inside(w, n) then Take(line, w.cap) else "",
         if Inside(w, n) then |line| else 0,
         Inside(w, n) && EndsWithCr(line),
         RowsOf(pieces, w.start, Min(n - 1, w.end), w.cap),
         n > w.end && (n > w.end + 1 || line != ""))
  }

  function Appended(w: Window, v: View, part: string): View {
    if v.lineNo > w.end then v.(more := true)
    else if v.lineNo >= w.start then
      v.(chars := v.chars + |part|,
         prefix := if |v.prefix| < w.cap then v.prefix + Take(part, w.cap - |v.prefix|) else v.prefix,
         cr := EndsWithCr(part))
    else v
  }

  function FinishedRow(v: View): Row {
    var chars := if v.cr then Max(0, v.chars - 1) else v.chars;
    var prefix := if v.cr then WithoutCr(v.prefix) else v.prefix;
    Row(v.lineNo, prefix, if chars > |prefix| then Omitted(chars - |prefix|) else Whole)
  }

  function Finished(w: Window, v: View): View {
    View(v.lineNo + 1, "", 0, false,
         if Inside(w, v.lineNo) then v.rows + [FinishedRow(v)] else v.rows,
         v.more || v.lineNo > w.end)
  }

  lemma {:induction false} TakeConcat(line: string, part: string, cap: nat)
    ensures Take(line + part, cap) ==
            var p := Take(line, cap); if |p| < cap then p + Take(part, cap - |p|) else p
  {
  }

  lemma {:induction false} AppendedPieces(w: Window, pieces: seq<string>, part: string)
    requires WindowOk(w) && pieces != [] && part != ""
    ensures ViewFrom(w, Grow(pieces, part)) == Appended(w, ViewFrom(w, pieces), part)
  {
    var more := Grow(pieces, part);
    RowsSame(pieces, more, w.start, Min(|pieces| - 1, w.end), w.cap);
    TakeConcat(Last(pieces), part, w.cap);
    assert EndsWithCr(Last(pieces) + part) == EndsWithCr(part);
  }

  lemma {:induction false} AppendedIsView(w: Window, t: string, part: string)
    requires WindowOk(w) && part != "" && '\n' !in part
    ensures ViewOf(w, t + part) == Appended(w, ViewOf(w, t), part)
    ensures Last(Split(t + part)) != ""
  {
    SplitPart(t, part);
    AppendedPieces(w, Split(t), part);
  }

  lemma {:induction false} FinishedRowIsRow(line: string, n: nat, cap: nat, rows: seq<Row>, more: bool)
    ensures FinishedRow(View(n, Take(line, cap), |line|, EndsWithCr(line), rows, more)) == RowOf(line, n, cap)
  {
  }

  lemma {:induction false} RowsGrow(pieces: seq<string>, w: Window)
    requires WindowOk(w) && pieces != []
    ensures RowsOf(pieces + [""], w.start, Min(|pieces|, w.end), w.cap)
         == RowsOf(pieces, w.start, Min(|pieces| - 1, w.end), w.cap)
            + (if Inside(w, |pieces|) then [RowOf(Last(pieces), |pieces|, w.cap)] else [])
  {
    var n, more := |pieces|, pieces + [""];
    RowsSame(pieces, more, w.start, Min(n - 1, w.end), w.cap);
    var before := RowsOf(pieces, w.start, Min(n - 1, w.end), w.cap);
    assert before + [] == before;
  }

  lemma {:induction false} FinishedPieces(w: Window, pieces: seq<string>)
    requires WindowOk(w) && pieces != []
    ensures ViewFrom(w, pieces + [""]) == Finished(w, ViewFrom(w, pieces))
  {
    var v := ViewFrom(w, pieces);
    RowsGrow(pieces, w);
    assert v.rows + [] == v.rows;
    if Inside(w, |pieces|) { FinishedRowIsRow(Last(pieces), |pieces|, w.cap, v.rows, v.more); }
  }

  lemma {:induction false} FinishedIsView(w: Window, t: string)
    requires WindowOk(w)
    ensures ViewOf(w, t + "\n") == Finished(w, ViewOf(w, t))
    ensures Last(Split(t + "\n")) == ""
  {
    SplitChar(t, '\n');
    FinishedPieces(w, Split(t));
  }

  lemma {:induction false} Extends(front: string, chunk: string, at: nat, to: nat)
    requires at <= to <= |chunk|
    ensures (front + chunk[..at]) + chunk[at..to] == front + chunk[..to]
    ensures front + chunk[..at] <= front + chunk
  {
    assert chunk[..to] == chunk[..at] + chunk[at..to];
  }

  // ----- the reader -----

  class LineSlicer {
    const window: Window
    var rendered: seq<Row>
    var lineNo: nat
    var linePrefix: string
    var lineChars: nat
    var lineEndsWithCr: bool
    var sawData: bool
    var endedWithNewline: bool
    var scanned: nat
    var hasMore: bool

    /** The text taken in so far. */
    ghost var seen: string

    function Fields(): View
      reads this
    {
      View(lineNo, linePrefix, lineChars, lineEndsWithCr, rendered, hasMore)
    }

    ghost predicate Valid()
      reads this
    {
      WindowOk(window) && Fields() == ViewOf(window, seen)
    }

    ghost predicate FlagsOk()
      reads this
    {
      sawData == (seen != "") && endedWithNewline == (seen != "" && Last(Split(seen)) == "")
    }

    constructor (window: Window)
      requires WindowOk(window)
      ensures Valid() && FlagsOk() && seen == "" && !hasMore && this.window == window && scanned == 0
    {
      this.window := window;
      rendered, lineNo, linePrefix, lineChars, lineEndsWithCr := [], 1, "", 0, false;
      sawData, endedWithNewline, scanned, hasMore := false, false, 0, false;
      seen := "";
    }

    method AppendPart(part: string)
      requires part != ""
      modifies this`sawData, this`endedWithNewline, this`hasMore, this`lineChars, this`linePrefix, this`lineEndsWithCr
      ensures Fields() == Appended(window, old(Fields()), part)
      ensures sawData && !endedWithNewline
    {
      sawData := true;
      endedWithNewline := false;
      if lineNo > window.end {
        hasMore := true;
        return;
      }
      if lineNo >= window.start {
        lineChars := lineChars + |part|;
        if |linePrefix| < window.cap {
          linePrefix := linePrefix + Take(part, window.cap - |linePrefix|);
        }
        lineEndsWithCr := EndsWithCr(part);
      }
    }

    /** The current line ends here, at a line feed or at the end of the file. */
    method FinishLine()
      modifies this`rendered, this`lineNo, this`linePrefix, this`lineChars, this`lineEndsWithCr, this`hasMore
      ensures Fields() == Finished(window, old(Fields()))
    {
      var current := lineNo;
      if window.start <= current <= window.end {
        var chars, prefix := lineChars, linePrefix;
        if lineEndsWithCr {
          chars := Max(0, chars - 1);
          prefix := WithoutCr(prefix);
        }
        rendered := rendered + [Row(current, prefix, if chars > |prefix| then Omitted(chars - |prefix|) else Whole)];
      }
      lineNo := lineNo + 1;
      linePrefix, lineChars, lineEndsWithCr := "", 0, false;
      if current > window.end { hasMore := true; }
    }

    method Append(part: string)
      requires Valid() && FlagsOk() && '\n' !in part
      modifies this
      ensures Valid() && FlagsOk() && seen == old(seen) + part && scanned == old(scanned)
    {
      if part == "" {
        assert seen + part == seen;
        return;
      }
      AppendedIsView(window, seen, part);
      AppendPart(part);
      seen := seen + part;
    }

    /** A line feed: the line ends and the text ends with it. */
    method EndLine()
      requires Valid()
      modifies this
      ensures Valid() && seen == old(seen) + "\n" && scanned == old(scanned)
      ensures endedWithNewline && Last(Split(seen)) == "" && sawData == old(sawData)
    {
      FinishedIsView(window, seen);
      FinishLine();
      endedWithNewline := true;
      seen := seen + "\n";
    }

    /** The chunk up to its next line feed, or to its end. */
    method ConsumeLine(chunk: string, at: nat) returns (next: nat)
      requires Valid() && FlagsOk() && at < |chunk|
      modifies this
      ensures Valid() && FlagsOk() && scanned == old(scanned)
      ensures at < next <= |chunk| && seen == old(seen) + chunk[at..next]
      ensures next < |chunk| ==> Last(Split(seen)) == ""
    {
      var newline := IndexFrom(chunk, '\n', at);
      if newline < 0 {
        assert chunk[at..|chunk|] == chunk[at..];
        Append(chunk[at..]);
        next := |chunk|;
      } else {
        WithLineFeed(seen, chunk, at, newline);
        Append(chunk[at..newline]);
        sawData := true;
        EndLine();
        next := newline + 1;
      }
    }

    /** Takes in a chunk, stopping early once a line beyond the window has shown itself. */
    method Consume(chunk: string)
      requires Valid() && FlagsOk() && !hasMore
      modifies this
      ensures Valid() && FlagsOk() && scanned == old(scanned) + |chunk|
      ensures seen <= old(seen) + chunk && (!hasMore ==> seen == old(seen) + chunk)
    {
      scanned := scanned + |chunk|;
      var at := 0;
      Extends(seen, chunk, 0, 0);
      assert seen + chunk[..0] == seen;
      while at < |chunk| && !hasMore
        invariant 0 <= at <= |chunk| && Valid() && FlagsOk() && scanned == old(scanned) + |chunk|
        invariant seen == old(seen) + chunk[..at]
        decreases |chunk| - at
      {
        var next := ConsumeLine(chunk, at);
        Extends(old(seen), chunk, at, next);
        at := next;
      }
      Extends(old(seen), chunk, at, at);
      assert chunk[..|chunk|] == chunk;
    }
  }

  lemma {:induction false} WithLineFeed(before: string, chunk: string, at: nat, newline: nat)
    requires at <= newline < |chunk| && chunk[newline] == '\n'
    ensures before + chunk[at..newline] + "\n" == before + chunk[at..newline + 1] != ""
  {
    assert chunk[at..newline + 1] == chunk[at..newline] + "\n";
  }

  function IndexFrom(s: string, c: char, at: nat): (k: int)
    requires at <= |s|
    ensures k < 0 ==> k == -1 && c !in s[at..]
    ensures k >= 0 ==> at <= k < |s| && s[k] == c && c !in s[at..k]
    decreases |s| - at
  {
    if at == |s| then -1
    else if s[at] == c then at
    else
      var k := IndexFrom(s, c, at + 1);
      assert s[at..] == [s[at]] + s[at + 1..];
      assert k >= 0 ==> s[at..k] == [s[at]] + s[at + 1..k];
      k
  }

  // ----- the whole read -----

  const MAX_SLICE_LINES := 2_000
  const DEFAULT_LINE_CAP := 2_000
  const DEFAULT_MAX_SCAN := 64 * 1024 * 1024
  const READ_CHUNK := 64 * 1024

  function WindowFor(offset: int, limit: int, lineCap: int): (w: Window)
    ensures WindowOk(w) && w.end - w.start < MAX_SLICE_LINES
  {
    var start := Max(1, offset);
    Window(start, start + Min(MAX_SLICE_LINES, Max(1, limit)) - 1, Min(DEFAULT_LINE_CAP, Max(1, lineCap)))
  }

  function ScanLimit(w: Window, maxScan: int): (n: int)
    requires WindowOk(w)
    ensures w.cap <= DEFAULT_MAX_SCAN ==> n >= 1
  {
    Min(DEFAULT_MAX_SCAN, Max(w.cap, maxScan))
  }

  datatype Slice =
    | PastEnd(lineCount: nat, start: nat)
    | Rows(first: nat, last: nat, rows: seq<Row>, total: Option<nat>, next: Option<nat>)
    | ScanStopped(scanned: nat, rows: seq<Row>)

  /** The requested window of the lines, said directly. */
  predicate ShowsWindow(r: Slice, lines: seq<string>, w: Window)
    requires WindowOk(w)
  {
    var n := |lines|;
    if w.start > n then r == PastEnd(n, w.start) else
      var last := Min(n, w.end);
      && r.Rows? && r.first == w.start && r.last == last
      && r.rows == RowsOf(lines, w.start, last, w.cap)
      && r.next == (if last < n then Some(last + 1) else None)
      && (r.total.Some? ==> r.total.value == n)
  }

  /** All that the scan limit let the reader see: whole lines, and the beginning of one more. */
  predicate ShowsScanned(r: Slice, t: string, w: Window)
    requires WindowOk(w)
  {
    var v := ViewOf(w, t);
    r == ScanStopped(|t|, v.rows + (if Inside(w, v.lineNo) then [Row(v.lineNo, v.prefix, Continues(|t|))] else []))
  }

  /** The text as it reads once its last line has been ended. */
  function Ended(file: string): string {
    if file != "" && Last(Split(file)) == "" then file else file + "\n"
  }

  lemma {:induction false} EndedLines(file: string)
    ensures Split(Ended(file)) == Lines(file) + [""]
  {
    SplitChar(file, '\n');
    var pieces := Split(file);
    if file != "" && Last(pieces) == "" {
      EndsWithLineFeed(file);
      assert |pieces| > 1 by {
        assert file == file[..|file| - 1] + ['\n'];
        SplitChar(file[..|file| - 1], '\n');
      }
      assert pieces == pieces[..|pieces| - 1] + [""];
    }
  }

  lemma {:induction false} AllLinesSeen(file: string, w: Window)
    requires WindowOk(w) && !ViewOf(w, file).more
    ensures var v := ViewOf(w, Ended(file));
            && v.lineNo == |Lines(file)| + 1 && |Lines(file)| <= w.end
            && v.rows == RowsOf(Lines(file), w.start, |Lines(file)|, w.cap)
  {
    EndedLines(file);
    var lines := Lines(file);
    RowsSame(lines + [""], lines, w.start, Min(|lines|, w.end), w.cap);
  }

  lemma {:induction false} MoreLinesFollow(seen: string, file: string, w: Window)
    requires WindowOk(w) && seen <= file && ViewOf(w, seen).more
    ensures |Lines(file)| > w.end
    ensures ViewOf(w, seen).rows == RowsOf(Lines(file), w.start, w.end, w.cap)
  {
    SplitGrows(seen, file[|seen|..]);
    assert file == seen + file[|seen|..];
    var n, pieces, all, lines := |Split(seen)|, Split(seen), Split(file), Lines(file);
    assert Last(pieces) != "" ==> all[n - 1] != "";
    assert |lines| > w.end;
    forall k | 0 <= k < w.end ensures pieces[k] == lines[k] {
      assert pieces[..n - 1][k] == all[..n - 1][k];
    }
    RowsSame(pieces, lines, w.start, w.end, w.cap);
  }

  /** Reads until a line beyond the window shows itself, the file ends, or the scan limit is reached. */
  method ReadLoop(slicer: LineSlicer, file: string, scan: nat, readSize: nat -> nat) returns (readBytes: nat)
    requires slicer.Valid() && slicer.FlagsOk() && !slicer.hasMore && slicer.seen == "" && slicer.scanned == 0
    modifies slicer
    ensures slicer.Valid() && slicer.FlagsOk() && slicer.scanned == readBytes <= |file| && readBytes <= scan
    ensures slicer.seen <= file[..readBytes] && (!slicer.hasMore ==> slicer.seen == file[..readBytes])
    ensures slicer.hasMore || readBytes == Min(|file|, scan)
  {
    readBytes := 0;
    var calls := 0;
    while readBytes < scan && readBytes < |file| && !slicer.hasMore
      invariant 0 <= readBytes <= |file| && readBytes <= scan
      invariant slicer.Valid() && slicer.FlagsOk() && slicer.scanned == readBytes
      invariant slicer.seen <= file[..readBytes] && (!slicer.hasMore ==> slicer.seen == file[..readBytes])
      decreases scan - readBytes
    {
      var got := Min(Min(READ_CHUNK, scan - readBytes), Min(|file| - readBytes, Max(1, readSize(calls))));
      calls := calls + 1;
      var chunk := file[readBytes..readBytes + got];
      assert file[..readBytes] + chunk == file[..readBytes + got];
      readBytes := readBytes + got;
      slicer.Consume(chunk);
    }
  }

  /** The file goes on past the scan limit, and nothing before the limit lies beyond the window. */
  predicate StopsScan(file: string, w: Window, maxScan: int)
    requires WindowOk(w)
  {
    var scan := ScanLimit(w, maxScan);
    0 <= scan < |file| && !ViewOf(w, file[..scan]).more
  }

  lemma {:induction false} MoreGrows(seen: string, text: string, w: Window)
    requires WindowOk(w) && seen <= text && ViewOf(w, seen).more
    ensures ViewOf(w, text).more
  {
    SplitGrows(seen, text[|seen|..]);
    assert text == seen + text[|seen|..];
  }

  method StreamFileSlice(file: string, offset: int, limit: int, lineCap: int, maxScan: int, readSize: nat -> nat)
    returns (r: Slice)
    ensures var w := WindowFor(offset, limit, lineCap);
            && (r.ScanStopped? <==> StopsScan(file, w, maxScan))
            && if r.ScanStopped? then ShowsScanned(r, file[..ScanLimit(w, maxScan)], w)
               else ShowsWindow(r, Lines(file), w)
  {
    var w := WindowFor(offset, limit, lineCap);
    var scan := ScanLimit(w, maxScan);
    var slicer := new LineSlicer(w);
    var readBytes := ReadLoop(slicer, file, scan, readSize);
    if slicer.hasMore {
      if scan < |file| {
        assert file[..readBytes] <= file[..scan];
        MoreGrows(slicer.seen, file[..scan], w);
      }
      r := StoppedEarly(slicer, file);
    } else if readBytes >= scan && |file| > readBytes {
      r := ScanLimited(slicer);
    } else {
      assert file[..readBytes] == file;
      r := AtEnd(slicer, file);
    }
  }

  method StoppedEarly(slicer: LineSlicer, ghost file: string) returns (r: Slice)
    requires slicer.Valid() && slicer.hasMore && slicer.seen <= file
    ensures ShowsWindow(r, Lines(file), slicer.window) && !r.ScanStopped?
  {
    var w := slicer.window;
    MoreLinesFollow(slicer.seen, file, w);
    var last := w.start + Max(0, |slicer.rendered| - 1);
    r := Rows(w.start, last, slicer.rendered, None, Some(last + 1));
  }

  method ScanLimited(slicer: LineSlicer) returns (r: Slice)
    requires slicer.Valid() && slicer.scanned == |slicer.seen|
    ensures ShowsScanned(r, slicer.seen, slicer.window) && r.ScanStopped?
  {
    var rows := slicer.rendered;
    if slicer.window.start <= slicer.lineNo <= slicer.window.end {
      rows := rows + [Row(slicer.lineNo, slicer.linePrefix, Continues(slicer.scanned))];
    }
    r := ScanStopped(slicer.scanned, rows);
  }

  method AtEnd(slicer: LineSlicer, ghost file: string) returns (r: Slice)
    requires slicer.Valid() && slicer.FlagsOk() && !slicer.hasMore && slicer.seen == file
    modifies slicer
    ensures ShowsWindow(r, Lines(file), slicer.window) && !r.ScanStopped?
  {
    var w := slicer.window;
    AllLinesSeen(file, w);
    FinishedIsView(w, file);
    if !slicer.endedWithNewline || !slicer.sawData { slicer.FinishLine(); }
    var total := slicer.lineNo - 1;
    if w.start > total { return PastEnd(total, w.start); }
    var last := w.start + |slicer.rendered| - 1;
    r := Rows(w.start, last, slicer.rendered, Some(total), if last < total then Some(last + 1) else None);
  }

  // ----- following the suggested offsets -----

  lemma {:induction false} RowsJoin(lines: seq<string>, first: nat, middle: nat, last: nat, cap: nat)
    requires 1 <= first <= middle + 1 && middle <= last <= |lines|
    ensures RowsOf(lines, first, middle, cap) + RowsOf(lines, middle + 1, last, cap) == RowsOf(lines, first, last, cap)
    decreases last
  {
    if middle < last {
      RowsJoin(lines, first, middle, last - 1, cap);
      var a, b := RowsOf(lines, first, middle, cap), RowsOf(lines, middle + 1, last - 1, cap);
      assert a + (b + [RowOf(lines[last - 1], last, cap)]) == (a + b) + [RowOf(lines[last - 1], last, cap)];
    } else {
      assert RowsOf(lines, first, middle, cap) + [] == RowsOf(lines, first, middle, cap);
    }
  }

  // ----- what the caller asked for -----

  lemma {:induction false} RowAt(lines: seq<string>, first: nat, last: nat, cap: nat, k: nat)
    requires 1 <= first && last <= |lines| && first + k <= last
    ensures RowsOf(lines, first, last, cap)[k] == RowOf(lines[first + k - 1], first + k, cap)
    decreases last
  {
    if first + k < last { RowAt(lines, first, last - 1, cap, k); }
  }

  /**
   A read shows as many lines as were asked for, 2,000 at most, from the offset on; fewer only at the end of the
   file.  The caps on a line and on the characters scanned are those asked for as far as they are in range.
   */
  lemma {:induction false} ShowsWhatWasAsked(
      r: Slice, lines: seq<string>, offset: int, limit: int, lineCap: int, maxScan: int)
    requires ShowsWindow(r, lines, WindowFor(offset, limit, lineCap))
    ensures var first, many := if offset < 1 then 1 else offset, if limit < 1 then 1 else limit;
            if first > |lines| then r == PastEnd(|lines|, first) else
              && r.Rows? && r.first == first
              && |r.rows| == Min(Min(many, 2_000), |lines| - first + 1)
              && (forall k :: 0 <= k < |r.rows| ==>
                    RowShows(r.rows[k], lines, first + k, if lineCap < 1 then 1 else lineCap))
              && r.next == (if first + |r.rows| <= |lines| then Some(first + |r.rows|) else None)
    ensures 1 <= lineCap <= maxScan <= 64 * 1024 * 1024
        ==> ScanLimit(WindowFor(offset, limit, lineCap), maxScan)
            == maxScan
  {
    var w := WindowFor(offset, limit, lineCap);
    if w.start <= |lines| {
      forall k | 0 <= k < |r.rows| ensures RowShows(r.rows[k], lines, w.start + k, w.cap) {
        RowIsLine(r.rows, lines, w.start, Min(|lines|, w.end), w.cap, k);
      }
    }
  }

  /** The row has the number of the line and shows a beginning of it within the cap. */
  predicate RowShows(row: Row, lines: seq<string>, number: int, cap: int) {
    1 <= number <= |lines| && row.number == number && row.shown <= lines[number - 1] && |row.shown| <= cap
  }

  lemma {:induction false} RowIsLine(rows: seq<Row>, lines: seq<string>, first: nat, last: nat, cap: nat, k: nat)
    requires 1 <= first && last <= |lines| && first + k <= last && rows == RowsOf(lines, first, last, cap)
    ensures RowShows(rows[k], lines, first + k, cap)
  {
    RowAt(lines, first, last, cap, k);
    RowAddsUp(lines[first + k - 1], first + k, cap);
  }

  /** A read cut short by the scan limit shows no more lines than were asked for. */
  lemma {:induction false} ScannedWithinLimit(r: Slice, t: string, offset: int, limit: int, lineCap: int)
    requires ShowsScanned(r, t, WindowFor(offset, limit, lineCap))
    ensures r.ScanStopped? && |r.rows| <= Min(2_000, if limit < 1 then 1 else limit)
  {
  }


  /** Reads that follow each other: each slice shows its window, and the next one starts where it says to continue. */
  predicate Follows(slices: seq<Slice>, lines: seq<string>, offset: nat, limit: int, lineCap: int)
    decreases |slices|
  {
    && slices != [] && ShowsWindow(slices[0], lines, WindowFor(offset, limit, lineCap))
    && (if slices[0].Rows? && slices[0].next.Some? then
          Follows(slices[1..], lines, slices[0].next.value, limit, lineCap)
        else |slices| == 1)
  }

  function AllRows(slices: seq<Slice>): seq<Row> {
    if slices == [] then [] else (if slices[0].PastEnd? then [] else slices[0].rows) + AllRows(slices[1..])
  }

  /** Following the suggested offsets to the end shows every line from the first one on exactly once, in order. */
  lemma {:induction false} PagesVisitEveryLine(slices: seq<Slice>, lines: seq<string>, offset: nat, limit: int,
      lineCap: int)
    requires 1 <= offset <= |lines| && Follows(slices, lines, offset, limit, lineCap)
    ensures AllRows(slices) == RowsOf(lines, offset, |lines|, WindowFor(offset, limit, lineCap).cap)
    decreases |slices|
  {
    var w := WindowFor(offset, limit, lineCap);
    var last := Min(|lines|, w.end);
    var page := RowsOf(lines, offset, last, w.cap);
    assert slices[0].rows == page;
    if last < |lines| {
      PagesVisitEveryLine(slices[1..], lines, last + 1, limit, lineCap);
      assert WindowFor(last + 1, limit, lineCap).cap == w.cap;
      RowsJoin(lines, offset, last, |lines|, w.cap);
    } else {
      assert slices[1..] == [];
      assert page + [] == page;
    }
  }

  /** Such a sequence of reads always exists and takes no more reads than there are lines left. */
  lemma {:induction false} FollowingEnds(lines: seq<string>, offset: nat, limit: int, lineCap: int)
    returns (slices: seq<Slice>)
    requires 1 <= offset <= |lines|
    ensures Follows(slices, lines, offset, limit, lineCap) && |slices| <= |lines| - offset + 1
    decreases |lines| - offset
  {
    var w := WindowFor(offset, limit, lineCap);
    var last := Min(|lines|, w.end);
    var rows := RowsOf(lines, w.start, last, w.cap);
    if last < |lines| {
      var rest := FollowingEnds(lines, last + 1, limit, lineCap);
      slices := [Rows(w.start, last, rows, None, Some(last + 1))] + rest;
      assert slices[1..] == rest;
    } else {
      slices := [Rows(w.start, last, rows, Some(|lines|), None)];
    }
  }
}
