/**
 Bounded-concurrency map.  Workers share one counter and one result array; between two awaits a worker
 runs alone, so taking an index and storing a result are single steps, interleaved in any order.
 */
module MapLimit {

  import opened Common

  datatype Worker = Ready | Running(index: nat) | Done | Failed

  datatype Pool<T, R> = Pool(items: seq<T>, next: nat, workers: seq<Worker>, results: seq<Option<R>>, started: seq<nat>)

  datatype Event = Take(w: nat) | Return(w: nat) | Throw(w: nat)

  function Width(limit: int, size: nat): nat { Min(Max(1, limit), size) }

  function Start<T, R>(items: seq<T>, limit: int): Pool<T, R> {
    Pool(items, 0, seq(Width(limit, |items|), _ => Ready), seq(|items|, _ => None), [])
  }

  predicate Enabled<T, R>(p: Pool<T, R>, e: Event) {
    && e.w < |p.workers|
    && (if e.Take? then p.workers[e.w].Ready? else p.workers[e.w].Running? && p.workers[e.w].index < |p.items|)
    && |p.results| == |p.items|
  }

  function Apply<T, R>(p: Pool<T, R>, e: Event, f: (T, nat) -> R): Pool<T, R>
    requires Enabled(p, e)
  {
    match e
    case Take(w) =>
      if p.next >= |p.items| then p.(next := p.next + 1, workers := p.workers[w := Done])
      else p.(next := p.next + 1, workers := p.workers[w := Running(p.next)], started := p.started + [p.next])
    case Return(w) =>
      var i := p.workers[w].index;
      p.(workers := p.workers[w := Ready], results := p.results[i := Some(f(p.items[i], i))])
    case Throw(w) => p.(workers := p.workers[w := Failed])
  }

  predicate ValidRun<T, R>(p: Pool<T, R>, run: seq<Event>, f: (T, nat) -> R)
    decreases |run|
  {
    run == [] || (Enabled(p, run[0]) && ValidRun(Apply(p, run[0], f), run[1..], f))
  }

  function After<T, R>(p: Pool<T, R>, run: seq<Event>, f: (T, nat) -> R): Pool<T, R>
    requires ValidRun(p, run, f)
    decreases |run|
  {
    if run == [] then p else After(Apply(p, run[0], f), run[1..], f)
  }

  function InFlight(workers: seq<Worker>): nat {
    if workers == [] then 0 else InFlight(workers[..|workers| - 1]) + (if workers[|workers| - 1].Running? then 1 else 0)
  }

  predicate AnyFailed(workers: seq<Worker>) { exists w :: 0 <= w < |workers| && workers[w].Failed? }

  predicate AllEnded(workers: seq<Worker>) { forall w :: 0 <= w < |workers| ==> workers[w].Done? || workers[w].Failed? }

  // ----- the invariant -----

  /** Index `i` is being worked on. */
  predicate Held(workers: seq<Worker>, i: nat) { exists w :: 0 <= w < |workers| && workers[w] == Running(i) }

  predicate WorkerOk<T, R>(p: Pool<T, R>, w: nat)
    requires w < |p.workers|
  {
    match p.workers[w]
    case Running(i) => i < |p.items| && i < p.next && |p.results| == |p.items| && p.results[i].None?
    case Done => |p.items| <= p.next
    case _ => true
  }

  ghost predicate ResultOk<T, R>(p: Pool<T, R>, i: nat, f: (T, nat) -> R)
    requires |p.results| == |p.items| && i < |p.items|
  {
    if p.next <= i then p.results[i].None?
    else if p.results[i].Some? then p.results[i].value == f(p.items[i], i)
    else Held(p.workers, i) || AnyFailed(p.workers)
  }

  ghost predicate Inv<T, R>(p: Pool<T, R>, f: (T, nat) -> R) {
    && |p.results| == |p.items|
    && (forall w: nat :: w < |p.workers| ==> WorkerOk(p, w))
    && (forall v, w :: 0 <= v < w < |p.workers| && p.workers[v].Running? && p.workers[w].Running? ==>
          p.workers[v].index != p.workers[w].index)
    && (forall i: nat :: i < |p.items| ==> ResultOk(p, i, f))
    && |p.started| == Min(p.next, |p.items|) && (forall k :: 0 <= k < |p.started| ==> p.started[k] == k)
    && (|p.items| > 0 ==> |p.workers| > 0)
  }

  lemma {:induction false} StartInv<T, R>(items: seq<T>, limit: int, f: (T, nat) -> R)
    ensures Inv(Start<T, R>(items, limit), f)
  {
  }

  lemma {:induction false} TakeKeepsInv<T, R>(p: Pool<T, R>, w: nat, f: (T, nat) -> R)
    requires Inv(p, f) && Enabled(p, Take(w))
    ensures Inv(Apply(p, Take(w), f), f)
  {
    var q := Apply(p, Take(w), f);
    forall i: nat | i < |q.items| ensures ResultOk(q, i, f) {
      assert ResultOk(p, i, f);
      if Held(p.workers, i) {
        var v :| 0 <= v < |p.workers| && p.workers[v] == Running(i);
        assert q.workers[v] == Running(i);
      }
      if AnyFailed(p.workers) { var v :| 0 <= v < |p.workers| && p.workers[v].Failed?; assert q.workers[v].Failed?; }
      if i == p.next { assert q.workers[w] == Running(i); }
    }
    assert p.next < |p.items| ==> ResultOk(p, p.next, f);
    forall v: nat | v < |q.workers| ensures WorkerOk(q, v) && (q.workers[v].Running? && v != w
        ==> q.workers[v].index < p.next) {
      assert WorkerOk(p, v);
    }
  }

  lemma {:induction false} SettleKeepsInv<T, R>(p: Pool<T, R>, e: Event, f: (T, nat) -> R)
    requires Inv(p, f) && Enabled(p, e) && !e.Take?
    ensures Inv(Apply(p, e, f), f)
  {
    var q, j := Apply(p, e, f), p.workers[e.w].index;
    assert WorkerOk(p, e.w);
    forall i: nat | i < |q.items| ensures ResultOk(q, i, f) {
      assert ResultOk(p, i, f);
      if Held(p.workers, i) && i != j {
        var v :| 0 <= v < |p.workers| && p.workers[v] == Running(i);
        assert q.workers[v] == Running(i);
      }
      if AnyFailed(p.workers) { var v :| 0 <= v < |p.workers| && p.workers[v].Failed?; assert q.workers[v].Failed?; }
      if e.Throw? { assert q.workers[e.w].Failed?; }
    }
    forall v: nat | v < |q.workers| ensures WorkerOk(q, v) { assert WorkerOk(p, v); }
  }

  lemma {:induction false} RunKeepsInv<T, R>(p: Pool<T, R>, run: seq<Event>, f: (T, nat) -> R)
    requires Inv(p, f) && ValidRun(p, run, f)
    ensures Inv(After(p, run, f), f) && |After(p, run, f).workers| == |p.workers| && After(p, run, f).items == p.items
    decreases |run|
  {
    if run != [] {
      if run[0].Take? { TakeKeepsInv(p, run[0].w, f); } else { SettleKeepsInv(p, run[0], f); }
      RunKeepsInv(Apply(p, run[0], f), run[1..], f);
    }
  }

  lemma {:induction false} InFlightAtMost(workers: seq<Worker>)
    ensures InFlight(workers) <= |workers|
  {
    if workers != [] { InFlightAtMost(workers[..|workers| - 1]); }
  }

  /**
   In every interleaving: at most the limit in flight, indices started once each and in order, and a
   run that ended without a failure has the function of every item at its position.
   */
  lemma {:induction false} MapLimitIsSafe<T, R>(items: seq<T>, limit: int, run: seq<Event>, f: (T, nat) -> R)
    requires ValidRun(Start<T, R>(items, limit), run, f)
    ensures var p := After(Start<T, R>(items, limit), run, f);
            && InFlight(p.workers) <= Max(1, limit)
            && |p.started| <= |items| && (forall k :: 0 <= k < |p.started| ==> p.started[k] == k)
            && (AllEnded(p.workers) && !AnyFailed(p.workers) ==>
                  && |p.started| == |items| && |p.results| == |items|
                  && forall i: nat :: i < |items| ==> p.results[i] == Some(f(items[i], i)))
  {
    StartInv<T, R>(items, limit, f);
    RunKeepsInv(Start<T, R>(items, limit), run, f);
    var p := After(Start<T, R>(items, limit), run, f);
    InFlightAtMost(p.workers);
    if AllEnded(p.workers) && !AnyFailed(p.workers) { EndedIsComplete(p, f); }
  }

  lemma {:induction false} EndedIsComplete<T, R>(p: Pool<T, R>, f: (T, nat) -> R)
    requires Inv(p, f) && AllEnded(p.workers) && !AnyFailed(p.workers)
    ensures |p.started| == |p.items|
    ensures forall i: nat :: i < |p.items| ==> p.results[i] == Some(f(p.items[i], i))
  {
    if |p.items| > 0 { assert WorkerOk(p, 0) && p.workers[0].Done?; }
    forall i: nat | i < |p.items| ensures p.results[i] == Some(f(p.items[i], i)) { assert ResultOk(p, i, f); }
  }

  // ----- every schedule ends -----

  function Weight(x: Worker): nat {
    match x
    case Ready => 1
    case Running(_) => 2
    case _ => 0
  }

  function TotalWeight(workers: seq<Worker>): nat {
    if workers == [] then 0 else TotalWeight(workers[..|workers| - 1]) + Weight(workers[|workers| - 1])
  }

  lemma {:induction false} WeightUpdate(workers: seq<Worker>, w: nat, x: Worker)
    requires w < |workers|
    ensures TotalWeight(workers[w := x]) == TotalWeight(workers) - Weight(workers[w]) + Weight(x)
  {
    var n := |workers| - 1;
    if w < n {
      WeightUpdate(workers[..n], w, x);
      assert workers[w := x][..n] == workers[..n][w := x];
    } else {
      assert workers[w := x][..n] == workers[..n];
    }
  }

  /** Steps still possible at most. */
  function Fuel<T, R>(p: Pool<T, R>): nat {
    2 * (if p.next < |p.items| then |p.items| - p.next else 0) + TotalWeight(p.workers)
  }

  lemma {:induction false} StepBurnsFuel<T, R>(p: Pool<T, R>, e: Event, f: (T, nat) -> R)
    requires Enabled(p, e)
    ensures Fuel(Apply(p, e, f)) < Fuel(p)
  {
    WeightUpdate(p.workers, e.w, Apply(p, e, f).workers[e.w]);
  }

  lemma {:induction false} ReadyWeight(n: nat)
    ensures TotalWeight(seq(n, _ => Ready)) == n
  {
    if n > 0 {
      assert seq(n, _ => Ready)[..n - 1] == seq(n - 1, _ => Ready);
      ReadyWeight(n - 1);
    }
  }

  lemma {:induction false} RunIsShort<T, R>(p: Pool<T, R>, run: seq<Event>, f: (T, nat) -> R)
    requires ValidRun(p, run, f)
    ensures |run| + Fuel(After(p, run, f)) <= Fuel(p)
    decreases |run|
  {
    if run != [] {
      StepBurnsFuel(p, run[0], f);
      RunIsShort(Apply(p, run[0], f), run[1..], f);
    }
  }

  /** No schedule runs forever, and one that cannot go on has ended every worker. */
  lemma {:induction false} EveryScheduleEnds<T, R>(items: seq<T>, limit: int, run: seq<Event>, f: (T, nat) -> R)
    requires ValidRun(Start<T, R>(items, limit), run, f)
    ensures |run| <= 2 * |items| + Width(limit, |items|)
    ensures AllEnded(After(Start<T, R>(items, limit), run, f).workers)
         || exists e :: Enabled(After(Start<T, R>(items, limit), run, f), e)
  {
    var p := Start<T, R>(items, limit);
    RunIsShort(p, run, f);
    ReadyWeight(Width(limit, |items|));
    StartInv<T, R>(items, limit, f);
    RunKeepsInv(p, run, f);
    var q := After(p, run, f);
    if !AllEnded(q.workers) {
      var w: nat :| w < |q.workers| && !q.workers[w].Done? && !q.workers[w].Failed?;
      assert WorkerOk(q, w);
      assert Enabled(q, if q.workers[w].Ready? then Take(w) else Return(w));
    }
  }

  // ----- the shared state -----

  class Shared<T, R> {
    const items: seq<T>
    const results: array<Option<R>>
    var next: nat
    var workers: seq<Worker>
    ghost var started: seq<nat>

    ghost predicate Valid()
      reads this
    {
      results.Length == |items|
    }

    ghost function View(): Pool<T, R>
      reads this, results
    {
      Pool(items, next, workers, results[..], started)
    }

    constructor (items: seq<T>, limit: int)
      ensures Valid() && fresh(results) && View() == Start(items, limit)
    {
      this.items := items;
      next, started := 0, [];
      workers := seq(Width(limit, |items|), _ => Ready);
      results := new Option<R>[|items|](_ => None);
    }

    method TakeNext(w: nat)
      requires Valid() && Enabled(View(), Take(w))
      modifies this
      ensures Valid()
      ensures forall f :: View() == Apply(old(View()), Take(w), f)
    {
      var i := next;
      next := next + 1;
      if i >= |items| {
        workers := workers[w := Done];
        return;
      }
      workers, started := workers[w := Running(i)], started + [i];
    }

    method Store(w: nat, f: (T, nat) -> R)
      requires Valid() && Enabled(View(), Return(w))
      modifies this, results
      ensures Valid() && View() == Apply(old(View()), Return(w), f)
    {
      var i := workers[w].index;
      results[i] := Some(f(items[i], i));
      workers := workers[w := Ready];
    }
  }
}
