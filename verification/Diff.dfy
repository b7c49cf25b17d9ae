/** The line diff: a longest-common-subsequence table filled backwards, then traced into an edit script. */
module Diff {

  import opened Common

  type Line = string

  datatype Op = Keep(s: Line) | Add(s: Line) | Del(s: Line)

  // ----- what an edit script means -----

  /** The kept and deleted lines. */
  function OldText(ops: seq<Op>): seq<Line> {
    if ops == [] then [] else
      OldText(ops[..|ops| - 1]) + (if ops[|ops| - 1].Add? then [] else [ops[|ops| - 1].s])
  }

  /** The kept and added lines. */
  function NewText(ops: seq<Op>): seq<Line> {
    if ops == [] then [] else
      NewText(ops[..|ops| - 1]) + (if ops[|ops| - 1].Del? then [] else [ops[|ops| - 1].s])
  }

  function KeptText(ops: seq<Op>): seq<Line> {
    if ops == [] then [] else
      KeptText(ops[..|ops| - 1]) + (if ops[|ops| - 1].Keep? then [ops[|ops| - 1].s] else [])
  }

  /** Lines added plus lines deleted. */
  function Changes(ops: seq<Op>): nat {
    if ops == [] then 0 else Changes(ops[..|ops| - 1]) + (if ops[|ops| - 1].Keep? then 0 else 1)
  }

  predicate IsSubsequence(c: seq<Line>, x: seq<Line>)
    decreases |x|
  {
    c == [] || (x != [] && ((c[0] == x[0] && IsSubsequence(c[1..], x[1..])) || IsSubsequence(c, x[1..])))
  }

  predicate Shared(c: seq<Line>, a: seq<Line>, b: seq<Line>) { IsSubsequence(c, a) && IsSubsequence(c, b) }

  predicate Turns(ops: seq<Op>, a: seq<Line>, b: seq<Line>) { OldText(ops) == a && NewText(ops) == b }

  // ----- the recurrence and its optimality -----

  function Lcs(x: seq<Line>, y: seq<Line>): nat
    decreases |x| + |y|
  {
    if x == [] || y == [] then 0
    else if x[0] == y[0] then Lcs(x[1..], y[1..]) + 1
    else Max(Lcs(x[1..], y), Lcs(x, y[1..]))
  }

  lemma {:induction false} TailOfSubsequence(c: seq<Line>, x: seq<Line>)
    requires c != [] && IsSubsequence(c, x)
    ensures x != [] && IsSubsequence(c[1..], x[1..])
    decreases |x|
  {
    if !(c[0] == x[0] && IsSubsequence(c[1..], x[1..])) {
      TailOfSubsequence(c, x[1..]);
      LongerText(c[1..], x[1..]);
    }
  }

  lemma {:induction false} LongerText(c: seq<Line>, x: seq<Line>)
    requires x != [] && IsSubsequence(c, x[1..])
    ensures IsSubsequence(c, x)
  {
  }

  lemma {:induction false} CommonAtMostLcs(c: seq<Line>, x: seq<Line>, y: seq<Line>)
    requires Shared(c, x, y)
    ensures |c| <= Lcs(x, y)
    decreases |x| + |y|
  {
    if c != [] {
      if x[0] == y[0] {
        TailOfSubsequence(c, x);
        TailOfSubsequence(c, y);
        CommonAtMostLcs(c[1..], x[1..], y[1..]);
      } else if c[0] != x[0] {
        CommonAtMostLcs(c, x[1..], y);
      } else {
        CommonAtMostLcs(c, x, y[1..]);
      }
    }
  }

  lemma {:induction false} AppendSubsequence(c: seq<Line>, x: seq<Line>, s: Line)
    requires IsSubsequence(c, x)
    ensures IsSubsequence(c, x + [s]) && IsSubsequence(c + [s], x + [s])
    decreases |x|
  {
    if x != [] {
      assert (x + [s])[1..] == x[1..] + [s];
      if c != [] && c[0] == x[0] && IsSubsequence(c[1..], x[1..]) {
        AppendSubsequence(c[1..], x[1..], s);
        assert (c + [s])[1..] == c[1..] + [s];
      } else if c == [] {
        AppendSubsequence([], x[1..], s);
      } else {
        AppendSubsequence(c, x[1..], s);
      }
    } else {
      assert c + [s] == [s] && x + [s] == [s] && [s][1..] == [];
    }
  }

  lemma {:induction false} KeptIsCommon(ops: seq<Op>)
    ensures Shared(KeptText(ops), OldText(ops), NewText(ops))
    ensures Changes(ops) + 2 * |KeptText(ops)| == |OldText(ops)| + |NewText(ops)|
    decreases |ops|
  {
    if ops != [] {
      var front := ops[..|ops| - 1];
      var s := ops[|ops| - 1].s;
      KeptIsCommon(front);
      AppendSubsequence(KeptText(front), OldText(front), s);
      AppendSubsequence(KeptText(front), NewText(front), s);
      assert KeptText(front) + [] == KeptText(front);
      assert OldText(front) + [] == OldText(front);
      assert NewText(front) + [] == NewText(front);
    }
  }

  /** A script that keeps as many lines as the recurrence promises keeps the most and changes the fewest. */
  lemma {:induction false} KeepingLcsIsOptimal(ops: seq<Op>, a: seq<Line>, b: seq<Line>)
    requires Turns(ops, a, b) && |KeptText(ops)| == Lcs(a, b)
    ensures Shared(KeptText(ops), a, b)
    ensures forall c :: Shared(c, a, b) ==> |c| <= |KeptText(ops)|
    ensures forall other :: Turns(other, a, b) ==> Changes(ops) <= Changes(other)
  {
    KeptIsCommon(ops);
    forall c | Shared(c, a, b) ensures |c| <= |KeptText(ops)| { CommonAtMostLcs(c, a, b); }
    forall other | Turns(other, a, b) ensures Changes(ops) <= Changes(other) {
      KeptIsCommon(other);
      CommonAtMostLcs(KeptText(other), a, b);
    }
  }

  // ----- the table and the trace -----

  /** What the recurrence gives for the two suffixes. */
  function LcsFrom(a: seq<Line>, b: seq<Line>, i: nat, j: nat): nat
    requires i <= |a| && j <= |b|
  {
    Lcs(a[i..], b[j..])
  }

  lemma {:induction false} Recurrence(a: seq<Line>, b: seq<Line>, i: nat, j: nat)
    requires i <= |a| && j <= |b|
    ensures LcsFrom(a, b, i, j) ==
            if i == |a| || j == |b| then 0
            else if a[i] == b[j] then LcsFrom(a, b, i + 1, j + 1) + 1
            else Max(LcsFrom(a, b, i + 1, j), LcsFrom(a, b, i, j + 1))
  {
    if i < |a| && j < |b| {
      assert a[i..][1..] == a[i + 1..] && b[j..][1..] == b[j + 1..];
    }
  }

  ghost predicate RowIs(dp: array2<int>, a: seq<Line>, b: seq<Line>, i: nat)
    reads dp
    requires dp.Length0 == |a| + 1 && dp.Length1 == |b| + 1 && i <= |a|
  {
    forall j {:trigger dp[i, j]} :: 0 <= j <= |b| ==> dp[i, j] == LcsFrom(a, b, i, j)
  }

  method FillRow(dp: array2<int>, a: seq<Line>, b: seq<Line>, i: nat)
    requires dp.Length0 == |a| + 1 && dp.Length1 == |b| + 1 && i < |a|
    requires RowIs(dp, a, b, i + 1) && dp[i, |b|] == 0
    modifies dp
    ensures RowIs(dp, a, b, i)
    ensures forall k, j {:trigger dp[k, j]} :: 0 <= k <= |a| && k != i && 0 <= j <= |b| ==> dp[k, j] == old(dp[k, j])
  {
    Recurrence(a, b, i, |b|);
    for j := |b| downto 0
      invariant forall k, l {:trigger dp[k, l]} ::
                  0 <= k <= |a| && k != i && 0 <= l <= |b| ==> dp[k, l] == old(dp[k, l])
      invariant forall l {:trigger dp[i, l]} :: j <= l <= |b| ==> dp[i, l] == LcsFrom(a, b, i, l)
    {
      Recurrence(a, b, i, j);
      dp[i, j] := if a[i] == b[j] then dp[i + 1, j + 1] + 1 else Max(dp[i + 1, j], dp[i, j + 1]);
    }
  }

  method FillTable(a: seq<Line>, b: seq<Line>) returns (dp: array2<int>)
    ensures fresh(dp) && dp.Length0 == |a| + 1 && dp.Length1 == |b| + 1
    ensures forall i :: 0 <= i <= |a| ==> RowIs(dp, a, b, i)
  {
    var n, m := |a|, |b|;
    dp := new int[n + 1, m + 1]((i, j) => 0);
    forall j | 0 <= j <= m ensures LcsFrom(a, b, n, j) == 0 { Recurrence(a, b, n, j); }
    for i := n downto 0
      invariant forall k :: i <= k <= n ==> RowIs(dp, a, b, k)
      invariant forall k {:trigger dp[k, m]} :: 0 <= k < i ==> dp[k, m] == 0
    {
      label before:
      FillRow(dp, a, b, i);
      forall k | i < k <= n ensures RowIs(dp, a, b, k) {
        assert old@before(RowIs(dp, a, b, k));
      }
    }
  }

  /** How far a trace has come: it has spelled both prefixes and lost nothing it could still keep. */
  ghost predicate Traced(ops: seq<Op>, a: seq<Line>, b: seq<Line>, i: nat, j: nat) {
    && i <= |a| && j <= |b|
    && Turns(ops, a[..i], b[..j])
    && |KeptText(ops)| + LcsFrom(a, b, i, j) == Lcs(a, b)
  }

  lemma {:induction false} TraceKeep(ops: seq<Op>, a: seq<Line>, b: seq<Line>, i: nat, j: nat)
    requires Traced(ops, a, b, i, j) && i < |a| && j < |b| && a[i] == b[j]
    ensures Traced(ops + [Keep(a[i])], a, b, i + 1, j + 1)
  {
    Recurrence(a, b, i, j);
    LastOp(ops, Keep(a[i]));
    assert a[..i] + [a[i]] == a[..i + 1] && b[..j] + [b[j]] == b[..j + 1];
  }

  lemma {:induction false} TraceDel(ops: seq<Op>, a: seq<Line>, b: seq<Line>, i: nat, j: nat)
    requires Traced(ops, a, b, i, j) && i < |a|
    requires j < |b| ==> a[i] != b[j] && LcsFrom(a, b, i + 1, j) >= LcsFrom(a, b, i, j + 1)
    ensures Traced(ops + [Del(a[i])], a, b, i + 1, j)
  {
    Recurrence(a, b, i, j);
    Recurrence(a, b, i + 1, j);
    LastOp(ops, Del(a[i]));
    assert a[..i] + [a[i]] == a[..i + 1] && b[..j] + [] == b[..j];
    assert KeptText(ops) + [] == KeptText(ops);
  }

  lemma {:induction false} TraceAdd(ops: seq<Op>, a: seq<Line>, b: seq<Line>, i: nat, j: nat)
    requires Traced(ops, a, b, i, j) && j < |b|
    requires i < |a| ==> a[i] != b[j] && LcsFrom(a, b, i + 1, j) < LcsFrom(a, b, i, j + 1)
    ensures Traced(ops + [Add(b[j])], a, b, i, j + 1)
  {
    Recurrence(a, b, i, j);
    Recurrence(a, b, i, j + 1);
    LastOp(ops, Add(b[j]));
    assert b[..j] + [b[j]] == b[..j + 1] && a[..i] + [] == a[..i];
    assert KeptText(ops) + [] == KeptText(ops);
  }

  lemma {:induction false} TraceStart(a: seq<Line>, b: seq<Line>)
    ensures Traced([], a, b, 0, 0)
  {
    assert a[..0] == [] && b[..0] == [] && a[0..] == a && b[0..] == b;
  }

  lemma {:induction false} TraceEnd(ops: seq<Op>, a: seq<Line>, b: seq<Line>)
    requires Traced(ops, a, b, |a|, |b|)
    ensures Turns(ops, a, b) && |KeptText(ops)| == Lcs(a, b)
  {
    Recurrence(a, b, |a|, |b|);
    assert a[..|a|] == a && b[..|b|] == b;
  }

  lemma {:induction false} LastOp(ops: seq<Op>, op: Op)
    ensures OldText(ops + [op]) == OldText(ops) + (if op.Add? then [] else [op.s])
    ensures NewText(ops + [op]) == NewText(ops) + (if op.Del? then [] else [op.s])
    ensures KeptText(ops + [op]) == KeptText(ops) + (if op.Keep? then [op.s] else [])
  {
    assert (ops + [op])[..|ops|] == ops;
  }

  method Trace(dp: array2<int>, a: seq<Line>, b: seq<Line>) returns (out: seq<Op>)
    requires dp.Length0 == |a| + 1 && dp.Length1 == |b| + 1
    requires forall i :: 0 <= i <= |a| ==> RowIs(dp, a, b, i)
    ensures Turns(out, a, b) && |KeptText(out)| == Lcs(a, b)
  {
    var n, m := |a|, |b|;
    out := [];
    var i, j := 0, 0;
    TraceStart(a, b);
    while i < n && j < m
      invariant Traced(out, a, b, i, j)
    {
      assert RowIs(dp, a, b, i) && RowIs(dp, a, b, i + 1);
      if a[i] == b[j] {
        TraceKeep(out, a, b, i, j);
        out := out + [Keep(a[i])];
        i, j := i + 1, j + 1;
      } else if dp[i + 1, j] >= dp[i, j + 1] {
        TraceDel(out, a, b, i, j);
        out := out + [Del(a[i])];
        i := i + 1;
      } else {
        TraceAdd(out, a, b, i, j);
        out := out + [Add(b[j])];
        j := j + 1;
      }
    }
    while i < n
      invariant Traced(out, a, b, i, j) && (i == n || j == m)
    {
      TraceDel(out, a, b, i, j);
      out := out + [Del(a[i])];
      i := i + 1;
    }
    while j < m
      invariant Traced(out, a, b, i, j) && i == n
    {
      TraceAdd(out, a, b, i, j);
      out := out + [Add(b[j])];
      j := j + 1;
    }
    TraceEnd(out, a, b);
  }

  /** The script spells both texts, keeps a longest common subsequence and changes as little as possible. */
  method LcsDiff(a: seq<Line>, b: seq<Line>) returns (out: seq<Op>)
    ensures Turns(out, a, b)
    ensures Shared(KeptText(out), a, b)
    ensures forall c :: Shared(c, a, b) ==> |c| <= |KeptText(out)|
    ensures forall other :: Turns(other, a, b) ==> Changes(out) <= Changes(other)
  {
    var dp := FillTable(a, b);
    out := Trace(dp, a, b);
    KeepingLcsIsOptimal(out, a, b);
  }
}
