/** Stable insertion sort: what `Array.prototype.sort` computes, and what counting survives it. */
module Sorting {
  import opened Common

  /** Insert after every element that `x` does not strictly precede. */
  function Insert<T>(less: (T, T) -> bool, x: T, s: seq<T>): (r: seq<T>)
    ensures |r| == |s| + 1
  {
    if s == [] then [x]
    else if less(x, s[0]) then [x] + s
    else [s[0]] + Insert(less, x, s[1..])
  }

  function Sort<T>(less: (T, T) -> bool, s: seq<T>): (r: seq<T>)
    ensures |r| == |s|
  {
    if s == [] then [] else Insert(less, s[|s| - 1], Sort(less, s[..|s| - 1]))
  }

  predicate Below(a: real, b: real) {
    a < b
  }

  /** The upper median, as `sorted[floor(n / 2)]`. */
  function Middle(s: seq<real>): real
    requires s != []
  {
    Sort(Below, s)[|s| / 2]
  }

  ghost predicate Sorted<T>(less: (T, T) -> bool, s: seq<T>) {
    forall i, j | 0 <= i < j < |s| :: !less(s[j], s[i])
  }

  /** A comparator that defines an order with ties. */
  ghost predicate WeakOrder<T(!new)>(less: (T, T) -> bool) {
    && (forall a, b :: less(a, b) ==> !less(b, a))
    && (forall a, b, c :: !less(b, a) && !less(c, b) ==> !less(c, a))
  }

  lemma {:induction false} InsertPermutes<T(!new)>(less: (T, T) -> bool, x: T, s: seq<T>)
    ensures multiset(Insert(less, x, s)) == multiset(s) + multiset{x}
    ensures forall e :: e in Insert(less, x, s) <==> e == x || e in s
  {
    if s != [] && !less(x, s[0]) {
      InsertPermutes(less, x, s[1..]);
      assert s == [s[0]] + s[1..];
    }
  }

  lemma SortedCons<T(!new)>(less: (T, T) -> bool, x: T, s: seq<T>)
    requires Sorted(less, s) && forall e | e in s :: !less(e, x)
    ensures Sorted(less, [x] + s)
  {
  }

  lemma {:induction false} InsertSorts<T(!new)>(less: (T, T) -> bool, x: T, s: seq<T>)
    requires WeakOrder(less) && Sorted(less, s)
    ensures Sorted(less, Insert(less, x, s))
  {
    if s != [] {
      forall e | e in s
        ensures !less(e, s[0])
      {
        var i :| 0 <= i < |s| && s[i] == e;
      }
      if less(x, s[0]) {
        SortedCons(less, x, s);
      } else {
        InsertPermutes(less, x, s[1..]);
        InsertSorts(less, x, s[1..]);
        SortedCons(less, s[0], Insert(less, x, s[1..]));
      }
    }
  }

  lemma {:induction false} SortSorts<T(!new)>(less: (T, T) -> bool, s: seq<T>)
    requires WeakOrder(less)
    ensures Sorted(less, Sort(less, s))
    ensures multiset(Sort(less, s)) == multiset(s)
    decreases |s|
  {
    if s != [] {
      var front, x := s[..|s| - 1], s[|s| - 1];
      SortSorts(less, front);
      InsertSorts(less, x, Sort(less, front));
      InsertPermutes(less, x, Sort(less, front));
      assert s == front + [x];
    }
  }

  lemma MiddleIsMember(s: seq<real>)
    requires s != []
    ensures Middle(s) in s
  {
    assert WeakOrder(Below);
    SortSorts(Below, s);
    assert Middle(s) in multiset(Sort(Below, s));
  }

  /** How many values lie farther than `d` from `truth`. */
  function Outside(s: seq<real>, truth: real, d: real): nat {
    if s == [] then 0 else (if Abs(s[0] - truth) > d then 1 else 0) + Outside(s[1..], truth, d)
  }

  lemma {:induction false} OutsideAppend(a: seq<real>, b: seq<real>, truth: real, d: real)
    ensures Outside(a + b, truth, d) == Outside(a, truth, d) + Outside(b, truth, d)
  {
    if a == [] {
      assert a + b == b;
    } else {
      assert (a + b)[1..] == a[1..] + b;
      OutsideAppend(a[1..], b, truth, d);
    }
  }

  lemma {:induction false} OutsideInsert(less: (real, real) -> bool, x: real, s: seq<real>, truth: real, d: real)
    ensures Outside(Insert(less, x, s), truth, d) == Outside([x], truth, d) + Outside(s, truth, d)
  {
    if s != [] {
      if less(x, s[0]) {
        OutsideAppend([x], s, truth, d);
      } else {
        OutsideInsert(less, x, s[1..], truth, d);
        OutsideAppend([s[0]], Insert(less, x, s[1..]), truth, d);
        OutsideAppend([s[0]], s[1..], truth, d);
        assert s == [s[0]] + s[1..];
      }
    }
  }

  /** Sorting moves values around but not across the boundary. */
  lemma {:induction false} OutsideSort(less: (real, real) -> bool, s: seq<real>, truth: real, d: real)
    ensures Outside(Sort(less, s), truth, d) == Outside(s, truth, d)
    decreases |s|
  {
    if s != [] {
      var front, x := s[..|s| - 1], s[|s| - 1];
      OutsideSort(less, front, truth, d);
      OutsideInsert(less, x, Sort(less, front), truth, d);
      OutsideAppend(front, [x], truth, d);
      assert s == front + [x];
    }
  }

  lemma {:induction false} OutsideAtMost(s: seq<real>, truth: real, d: real)
    ensures Outside(s, truth, d) <= |s|
  {
    if s != [] {
      OutsideAtMost(s[1..], truth, d);
    }
  }

  lemma {:induction false} AllInside(s: seq<real>, truth: real, d: real)
    requires forall i | 0 <= i < |s| :: Abs(s[i] - truth) <= d
    ensures Outside(s, truth, d) == 0
  {
    if s != [] {
      AllInside(s[1..], truth, d);
    }
  }

  lemma {:induction false} AllOutside(s: seq<real>, truth: real, d: real)
    requires forall i | 0 <= i < |s| :: Abs(s[i] - truth) > d
    ensures Outside(s, truth, d) == |s|
  {
    if s != [] {
      AllOutside(s[1..], truth, d);
    }
  }

  lemma SliceOutside(s: seq<real>, from: nat, to: nat, truth: real, d: real)
    requires from <= to <= |s| && forall i | from <= i < to :: Abs(s[i] - truth) > d
    ensures Outside(s, truth, d) >= to - from
  {
    var head, middle, tail := s[..from], s[from..to], s[to..];
    assert s == head + (middle + tail);
    AllOutside(middle, truth, d);
    OutsideAppend(middle, tail, truth, d);
    OutsideAppend(head, middle + tail, truth, d);
  }
}

/** The NTP-style offset estimator (shared/sync-core/clock-estimator.ts). */
module ClockEstimation {
  import opened Common
  import opened Sorting

  datatype Exchange = Exchange(t0: real, t1: real, t2: real, t3: real)

  datatype Sample = Sample(theta: real, delta: real, t3: real)

  datatype Tuning = Tuning(ringSize: nat, windowMs: real, bestK: nat, slewThresholdMs: real, slewRatePerS: real)

  /** `uncertainty` is None for the initial Infinity, `lastRtt` None for the initial NaN. */
  datatype Estimate = Estimate(
    samples: seq<Sample>, applied: Option<real>, target: real,
    uncertainty: Option<real>, lastRtt: Option<real>, lastTick: Option<real>)

  const NO_ESTIMATE: Estimate := Estimate([], None, 0.0, None, None, None)

  function Theta(x: Exchange): real {
    (x.t1 - x.t0 + (x.t2 - x.t3)) / 2.0
  }

  function Delta(x: Exchange): real {
    x.t3 - x.t0 - (x.t2 - x.t1)
  }

  /** Lower delay first; among equals the newer one. */
  predicate Better(a: Sample, b: Sample) {
    a.delta < b.delta || (a.delta == b.delta && a.t3 > b.t3)
  }

  function Recent(samples: seq<Sample>, now: real, windowMs: real): seq<Sample> {
    if samples == [] then []
    else (if now - samples[0].t3 <= windowMs then [samples[0]] else []) + Recent(samples[1..], now, windowMs)
  }

  function Take<T>(s: seq<T>, k: nat): seq<T> {
    if |s| <= k then s else s[..k]
  }

  /** The samples the estimate is made from: the `bestK` lowest delays of the recency window. */
  function Best(samples: seq<Sample>, now: real, t: Tuning): seq<Sample> {
    Take(Sort(Better, Recent(samples, now, t.windowMs)), t.bestK)
  }

  function Thetas(best: seq<Sample>): seq<real> {
    seq(|best|, i requires 0 <= i < |best| => best[i].theta)
  }

  function Median(best: seq<Sample>): real
    requires best != []
  {
    Middle(Thetas(best))
  }

  function Recompute(e: Estimate, now: real, t: Tuning): Estimate {
    var best := Best(e.samples, now, t);
    if best == [] then e
    else
      var target := Median(best);
      var step := e.applied.None? || Abs(target - e.applied.value) >= t.slewThresholdMs;
      e.(target := target, uncertainty := Some(best[0].delta / 2.0), applied := if step then Some(target)
          else e.applied)
  }

  function KeepLast<T>(s: seq<T>, k: nat): seq<T> {
    if |s| > k then s[|s| - k..] else s
  }

  function AddSample(e: Estimate, x: Exchange, t: Tuning): (Estimate, bool) {
    if Delta(x) < 0.0 then (e, false)
    else
      var samples := KeepLast(e.samples + [Sample(Theta(x), Delta(x), x.t3)], t.ringSize);
      (Recompute(e.(samples := samples, lastRtt := Some(Delta(x))), x.t3, t), true)
  }

  function MaxStep(t: Tuning, dt: real): real {
    t.slewRatePerS * (dt / 1000.0)
  }

  function Tick(e: Estimate, now: real, t: Tuning): Estimate {
    if e.applied.None? then e
    else if e.lastTick.None? then e.(lastTick := Some(now))
    else
      var maxStep := MaxStep(t, now - e.lastTick.value);
      var diff := e.target - e.applied.value;
      var applied := if Abs(diff) <= maxStep then e.target
                     else if diff > 0.0 then e.applied.value + maxStep
                     else if diff < 0.0 then e.applied.value - maxStep
                     else e.applied.value;
      e.(applied := Some(applied), lastTick := Some(now))
  }

  function ServerNow(e: Estimate, now: real): real {
    now + e.applied.GetOr(0.0)
  }

  class ClockEstimator {
    const tuning: Tuning
    var samples: seq<Sample>
    var applied: Option<real>
    var target: real
    var uncertainty: Option<real>
    var lastRtt: Option<real>
    var lastTick: Option<real>

    ghost function View(): Estimate
      reads this
    {
      Estimate(samples, applied, target, uncertainty, lastRtt, lastTick)
    }

    constructor (tuning: Tuning)
      ensures View() == NO_ESTIMATE && this.tuning == tuning
    {
      this.tuning := tuning;
      samples, applied, target := [], None, 0.0;
      uncertainty, lastRtt, lastTick := None, None, None;
    }

    method Add(x: Exchange) returns (usable: bool)
      modifies this
      ensures (View(), usable) == AddSample(old(View()), x, tuning)
    {
      var delta := x.t3 - x.t0 - (x.t2 - x.t1);
      if delta < 0.0 {
        return false;
      }
      var theta := (x.t1 - x.t0 + (x.t2 - x.t3)) / 2.0;
      Push(Sample(theta, delta, x.t3));
      lastRtt := Some(delta);
      RecomputeTarget(x.t3);
      return true;
    }

    /** The ring keeps the newest samples. */
    method Push(s: Sample)
      modifies this`samples
      ensures samples == KeepLast(old(samples) + [s], tuning.ringSize)
    {
      samples := samples + [s];
      if |samples| > tuning.ringSize {
        samples := samples[|samples| - tuning.ringSize..];
      }
    }

    method RecomputeTarget(now: real)
      modifies this`target, this`uncertainty, this`applied
      ensures View() == Recompute(old(View()), now, tuning)
    {
      var best := Best(samples, now, tuning);
      if best == [] {
        return;
      }
      target := Median(best);
      uncertainty := Some(best[0].delta / 2.0);
      if applied.None? {
        applied := Some(target);
      } else if Abs(target - applied.value) >= tuning.slewThresholdMs {
        applied := Some(target);
      }
    }

    method AdvanceSlew(now: real)
      modifies this`applied, this`lastTick
      ensures View() == Tick(old(View()), now, tuning)
    {
      if applied.None? {
        return;
      }
      if lastTick.Some? {
        var maxStep := MaxStep(tuning, now - lastTick.value);
        var diff := target - applied.value;
        if Abs(diff) <= maxStep {
          applied := Some(target);
        } else {
          var correction := if diff > 0.0 then maxStep else if diff < 0.0 then -maxStep else 0.0;
          applied := Some(applied.value + correction);
        }
      }
      lastTick := Some(now);
    }

    /** Drop all history, as on a reconnect. */
    method Reset()
      modifies this
      ensures View() == NO_ESTIMATE
    {
      samples := [];
      applied := None;
      target := 0.0;
      uncertainty := None;
      lastRtt := None;
      lastTick := None;
    }
  }

  // ---- accuracy ----

  /** Both one-way delays are nonnegative when the server clock is `truth` ahead of the client's. */
  ghost predicate Honest(x: Exchange, truth: real) {
    x.t1 - truth >= x.t0 && x.t3 >= x.t2 - truth
  }

  /** The per-sample bound of section 8 of RFC 5905. */
  ghost predicate Accurate(s: Sample, truth: real) {
    Abs(s.theta - truth) <= s.delta / 2.0
  }

  ghost predicate AllAccurate(samples: seq<Sample>, truth: real) {
    forall s | s in samples :: Accurate(s, truth)
  }

  lemma OrdersAreWeak()
    ensures WeakOrder(Below) && WeakOrder(Better)
  {
  }

  lemma {:induction false} RecentAreSamples(samples: seq<Sample>, now: real, windowMs: real)
    ensures forall s :: s in Recent(samples, now, windowMs) <==> s in samples && now - s.t3 <= windowMs
  {
    if samples != [] {
      RecentAreSamples(samples[1..], now, windowMs);
      assert forall s :: s in samples <==> s == samples[0] || s in samples[1..];
    }
  }

  lemma CandidatesAreRecent(samples: seq<Sample>, now: real, t: Tuning)
    ensures var all := Sort(Better, Recent(samples, now, t.windowMs));
            && (forall s :: s in all <==> s in samples && now - s.t3 <= t.windowMs)
            && (forall i, j | 0 <= i < j < |all| :: all[i].delta <= all[j].delta)
            && |all| == |Recent(samples, now, t.windowMs)|
  {
    OrdersAreWeak();
    var recent := Recent(samples, now, t.windowMs);
    var all := Sort(Better, recent);
    RecentAreSamples(samples, now, t.windowMs);
    SortSorts(Better, recent);
    forall s
      ensures s in all <==> s in recent
    {
      assert s in multiset(all) <==> s in multiset(recent);
    }
  }

  /** The selection consists of recent samples in order of delay, the lowest delays of the window. */
  lemma BestAreLowestDelays(samples: seq<Sample>, now: real, t: Tuning)
    ensures var best := Best(samples, now, t);
            && (forall s | s in best :: s in samples && now - s.t3 <= t.windowMs)
            && (forall i, j | 0 <= i < j < |best| :: best[i].delta <= best[j].delta)
            && (forall s, b | s in samples && now - s.t3 <= t.windowMs && s !in best && b in best :: b.delta <= s.delta)
            && (t.bestK >= 1 && (exists s :: s in samples && now - s.t3 <= t.windowMs) ==> best != [])
  {
    CandidatesAreRecent(samples, now, t);
    TakeIsLowest(Sort(Better, Recent(samples, now, t.windowMs)), t.bestK);
  }

  lemma TakeIsLowest(all: seq<Sample>, k: nat)
    requires forall i, j | 0 <= i < j < |all| :: all[i].delta <= all[j].delta
    ensures forall s | s in Take(all, k) :: s in all
    ensures forall s, b | s in all && s !in Take(all, k) && b in Take(all, k) :: b.delta <= s.delta
  {
    forall s, b | s in all && s !in Take(all, k) && b in Take(all, k)
      ensures b.delta <= s.delta
    {
      var i :| 0 <= i < |all| && all[i] == s;
      var j :| 0 <= j < |Take(all, k)| && Take(all, k)[j] == b;
      assert Take(all, k)[j] == all[j];
    }
  }

  /** The window keeps every recent sample as often as it was taken, and nothing else. */
  lemma {:induction false} RecentIsExactly(samples: seq<Sample>, now: real, windowMs: real, s: Sample)
    ensures multiset(Recent(samples, now, windowMs))[s] == if now - s.t3 <= windowMs then multiset(samples)[s] else 0
  {
    if samples != [] {
      RecentIsExactly(samples[1..], now, windowMs, s);
      assert samples == [samples[0]] + samples[1..];
    }
  }

  /**
   * The selection is as large as it may be, takes no sample more often than the window has it, and
   * prefers the newer of two samples with the same delay.
   */
  lemma SelectionIsFull(samples: seq<Sample>, now: real, t: Tuning)
    ensures var best, recent := Best(samples, now, t), Recent(samples, now, t.windowMs);
            && |best| == (if |recent| <= t.bestK then |recent| else t.bestK)
            && multiset(best) <= multiset(recent)
            && (forall i, j | 0 <= i < j < |best| && best[i].delta == best[j].delta :: best[i].t3 >= best[j].t3)
            && (forall s, b | s in recent && s !in best && b in best && s.delta == b.delta :: s.t3 <= b.t3)
  {
    var recent := Recent(samples, now, t.windowMs);
    var all := Sort(Better, recent);
    OrdersAreWeak();
    SortSorts(Better, recent);
    TakePrefersNewer(all, t.bestK);
    assert all == Take(all, t.bestK) + all[|Take(all, t.bestK)|..];
    forall s | s in recent
      ensures s in all
    {
      assert s in multiset(all);
    }
  }

  lemma TakePrefersNewer(all: seq<Sample>, k: nat)
    requires Sorted(Better, all)
    ensures forall s, b | s in all && s !in Take(all, k) && b in Take(all, k) && s.delta == b.delta :: s.t3 <= b.t3
  {
    forall s, b | s in all && s !in Take(all, k) && b in Take(all, k) && s.delta == b.delta
      ensures s.t3 <= b.t3
    {
      var i :| 0 <= i < |all| && all[i] == s;
      var j :| 0 <= j < |Take(all, k)| && Take(all, k)[j] == b;
      assert Take(all, k)[j] == all[j];
    }
  }

  /** More than half of the selection is at least as good as its middle delay. */
  lemma FewLieOutside(best: seq<Sample>, m: nat, truth: real)
    requires m < |best| && AllAccurate(best, truth)
    requires forall i, j | 0 <= i < j < |best| :: best[i].delta <= best[j].delta
    ensures Outside(Thetas(best), truth, best[m].delta / 2.0) <= |best| - m - 1
  {
    var d, thetas := best[m].delta / 2.0, Thetas(best);
    var near, far := thetas[..m + 1], thetas[m + 1..];
    assert thetas == near + far;
    forall i | 0 <= i < |near|
      ensures Abs(near[i] - truth) <= d
    {
      assert best[i] in best && near[i] == best[i].theta;
    }
    OutsideAppend(near, far, truth, d);
    AllInside(near, truth, d);
    OutsideAtMost(far, truth, d);
  }

  /** The counting argument: were the median too far off, so would be everything on its far side. */
  lemma MedianIsAccurate(best: seq<Sample>, truth: real)
    requires best != [] && AllAccurate(best, truth)
    requires forall i, j | 0 <= i < j < |best| :: best[i].delta <= best[j].delta
    ensures Abs(Median(best) - truth) <= best[|best| / 2].delta / 2.0
  {
    var n, m := |best|, |best| / 2;
    var d := best[m].delta / 2.0;
    var sorted := Sort(Below, Thetas(best));
    OrdersAreWeak();
    SortSorts(Below, Thetas(best));
    assert Accurate(best[m], truth);
    FewLieOutside(best, m, truth);
    OutsideSort(Below, Thetas(best), truth, d);
    MiddleIsInside(sorted, truth, d);
  }

  lemma MiddleIsInside(sorted: seq<real>, truth: real, d: real)
    requires sorted != [] && Sorted(Below, sorted) && d >= 0.0
    requires Outside(sorted, truth, d) <= |sorted| - |sorted| / 2 - 1
    ensures Abs(sorted[|sorted| / 2] - truth) <= d
  {
    var m := |sorted| / 2;
    if sorted[m] > truth + d {
      SliceOutside(sorted, m, |sorted|, truth, d);
    } else if sorted[m] < truth - d {
      SliceOutside(sorted, 0, m + 1, truth, d);
    }
  }

  datatype Event = Feed(x: Exchange) | TickAt(now: real) | Restart

  function Step(e: Estimate, event: Event, t: Tuning): Estimate {
    match event
    case Feed(x) => AddSample(e, x, t).0
    case TickAt(now) => Tick(e, now, t)
    case Restart => NO_ESTIMATE
  }

  function Run(e: Estimate, events: seq<Event>, t: Tuning): Estimate
    decreases |events|
  {
    if events == [] then e else Run(Step(e, events[0], t), events[1..], t)
  }

  ghost predicate HonestRun(events: seq<Event>, truth: real) {
    forall i | 0 <= i < |events| && events[i].Feed? :: Honest(events[i].x, truth)
  }

  lemma HonestSampleIsAccurate(e: Estimate, x: Exchange, t: Tuning, truth: real)
    requires Honest(x, truth) && AllAccurate(e.samples, truth)
    ensures AllAccurate(AddSample(e, x, t).0.samples, truth)
    ensures AddSample(e, x, t).1 && Accurate(Sample(Theta(x), Delta(x), x.t3), truth)
  {
    var s := Sample(Theta(x), Delta(x), x.t3);
    assert Accurate(s, truth);
    assert forall y | y in e.samples + [s] :: y in e.samples || y == s;
  }

  lemma {:induction false} HonestRunsAreAccurate(e: Estimate, events: seq<Event>, t: Tuning, truth: real)
    requires HonestRun(events, truth) && AllAccurate(e.samples, truth)
    ensures AllAccurate(Run(e, events, t).samples, truth)
    decreases |events|
  {
    if events != [] {
      if events[0].Feed? {
        HonestSampleIsAccurate(e, events[0].x, t, truth);
      }
      HonestRunsAreAccurate(Step(e, events[0], t), events[1..], t, truth);
    }
  }

  /**
   * The estimator's accuracy for every sample history: with nonnegative one-way delays and a
   * constant true offset, every accepted exchange leaves a target that misses the truth by at
   * most half of the middle selected delay.
   */
  lemma TargetIsAccurate(events: seq<Event>, x: Exchange, t: Tuning, truth: real)
    requires HonestRun(events, truth) && Honest(x, truth)
    requires t.ringSize >= 1 && t.bestK >= 1 && t.windowMs >= 0.0
    ensures var e := AddSample(Run(NO_ESTIMATE, events, t), x, t).0;
            var best := Best(e.samples, x.t3, t);
            best != [] && Abs(e.target - truth) <= best[|best| / 2].delta / 2.0
  {
    var before := Run(NO_ESTIMATE, events, t);
    HonestRunsAreAccurate(NO_ESTIMATE, events, t, truth);
    HonestSampleIsAccurate(before, x, t, truth);
    SelectionIsAccurate(before, x, t, truth);
  }

  lemma SelectionIsAccurate(e: Estimate, x: Exchange, t: Tuning, truth: real)
    requires Honest(x, truth) && AllAccurate(AddSample(e, x, t).0.samples, truth)
    requires t.ringSize >= 1 && t.bestK >= 1 && t.windowMs >= 0.0
    ensures var e' := AddSample(e, x, t).0;
            var best := Best(e'.samples, x.t3, t);
            best != [] && Abs(e'.target - truth) <= best[|best| / 2].delta / 2.0
  {
    var s := Sample(Theta(x), Delta(x), x.t3);
    var samples := KeepLast(e.samples + [s], t.ringSize);
    assert samples[|samples| - 1] == s;
    var e1 := e.(samples := samples, lastRtt := Some(Delta(x)));
    RecomputeIsAccurate(e1, s, t, truth);
    assert AddSample(e, x, t).0 == Recompute(e1, x.t3, t);
  }

  lemma RecomputeIsAccurate(e: Estimate, s: Sample, t: Tuning, truth: real)
    requires s in e.samples && AllAccurate(e.samples, truth) && t.bestK >= 1 && t.windowMs >= 0.0
    ensures var best := Best(e.samples, s.t3, t);
            best != [] && Abs(Recompute(e, s.t3, t).target - truth) <= best[|best| / 2].delta / 2.0
  {
    BestAreLowestDelays(e.samples, s.t3, t);
    MedianIsAccurate(Best(e.samples, s.t3, t), truth);
  }

  // ---- what is held ----

  /** An exchange that took less time than the server spent on it is refused and changes nothing; all others count. */
  lemma RefusedExactlyWhenNonCausal(e: Estimate, x: Exchange, t: Tuning)
    ensures AddSample(e, x, t).1 <==> x.t3 - x.t0 >= x.t2 - x.t1
    ensures !AddSample(e, x, t).1 ==> AddSample(e, x, t).0 == e
    ensures AddSample(e, x, t).1 ==> AddSample(e, x, t).0.lastRtt == Some((x.t3 - x.t0) - (x.t2 - x.t1))
  {
  }

  /** What an event adds to the samples accepted since the last restart. */
  function Noted(before: seq<Sample>, event: Event): seq<Sample> {
    match event
    case Feed(x) => if x.t3 - x.t0 >= x.t2 - x.t1 then before + [Sample(Theta(x), Delta(x), x.t3)] else before
    case TickAt(_) => before
    case Restart => []
  }

  function Accepted(before: seq<Sample>, events: seq<Event>): seq<Sample>
    decreases |events|
  {
    if events == [] then before else Accepted(Noted(before, events[0]), events[1..])
  }

  /** The samples held are the newest `ringSize` of a history, or all of it if it is shorter. */
  ghost predicate Holds(samples: seq<Sample>, history: seq<Sample>, ringSize: nat) {
    if |history| <= ringSize then samples == history else samples == history[|history| - ringSize..]
  }

  lemma StepSamples(e: Estimate, event: Event, t: Tuning)
    ensures Step(e, event, t).samples
            == match event
               case Feed(x) =>
                 if Delta(x) < 0.0 then e.samples
                 else KeepLast(e.samples + [Sample(Theta(x), Delta(x), x.t3)], t.ringSize)
               case TickAt(_) => e.samples
               case Restart => []
  {
  }

  lemma RingKeepsNewest(samples: seq<Sample>, history: seq<Sample>, s: Sample, k: nat)
    requires Holds(samples, history, k)
    ensures Holds(KeepLast(samples + [s], k), history + [s], k)
  {
  }

  /** The ring holds exactly the newest samples accepted since the last restart. */
  lemma {:induction false} RingIsTheRecentHistory(e: Estimate, events: seq<Event>, t: Tuning, history: seq<Sample>)
    requires Holds(e.samples, history, t.ringSize)
    ensures Holds(Run(e, events, t).samples, Accepted(history, events), t.ringSize)
    decreases |events|
  {
    if events != [] {
      StepSamples(e, events[0], t);
      if events[0].Feed? {
        RingKeepsNewest(e.samples, history, Sample(Theta(events[0].x), Delta(events[0].x), events[0].x.t3), t.ringSize);
      }
      RingIsTheRecentHistory(Step(e, events[0], t), events[1..], t, Noted(history, events[0]));
    }
  }

  // ---- the reported uncertainty ----

  /** The sample with the highest lower bound on the truth. */
  lemma {:induction false} HighestLow(best: seq<Sample>) returns (m: Sample)
    requires best != []
    ensures m in best && forall s | s in best :: s.theta - s.delta / 2.0 <= m.theta - m.delta / 2.0
    decreases |best|
  {
    m := best[0];
    if |best| > 1 {
      var rest := HighestLow(best[1..]);
      m := if rest.theta - rest.delta / 2.0 > m.theta - m.delta / 2.0 then rest else m;
      assert forall s | s in best :: s == best[0] || s in best[1..];
    }
  }

  /** The sample with the lowest upper bound on the truth. */
  lemma {:induction false} LowestHigh(best: seq<Sample>) returns (m: Sample)
    requires best != []
    ensures m in best && forall s | s in best :: m.theta + m.delta / 2.0 <= s.theta + s.delta / 2.0
    decreases |best|
  {
    m := best[0];
    if |best| > 1 {
      var rest := LowestHigh(best[1..]);
      m := if rest.theta + rest.delta / 2.0 < m.theta + m.delta / 2.0 then rest else m;
      assert forall s | s in best :: s == best[0] || s in best[1..];
    }
  }

  /** Every truth that the selection admits lies within `d` of `estimate`. */
  ghost predicate Bounds(best: seq<Sample>, estimate: real, d: real) {
    forall truth | AllAccurate(best, truth) :: Abs(estimate - truth) <= d
  }

  /** Some sample admits no truth below estimate - d, and some sample none above estimate + d. */
  ghost predicate PinsDown(best: seq<Sample>, estimate: real, d: real) {
    && (exists s :: s in best && s.theta - s.delta / 2.0 >= estimate - d)
    && (exists s :: s in best && s.theta + s.delta / 2.0 <= estimate + d)
  }

  lemma BoundsExactlyWhenPinnedDown(best: seq<Sample>, estimate: real, d: real, truth: real)
    requires best != [] && AllAccurate(best, truth)
    ensures Bounds(best, estimate, d) <==> PinsDown(best, estimate, d)
  {
    var lo := HighestLow(best);
    var hi := LowestHigh(best);
    var low, high := lo.theta - lo.delta / 2.0, hi.theta + hi.delta / 2.0;
    assert Accurate(lo, truth) && Accurate(hi, truth);
    assert AllAccurate(best, low) && AllAccurate(best, high) by {
      assert forall s | s in best :: Accurate(s, truth);
    }
    if PinsDown(best, estimate, d) {
      assert estimate - d <= low && high <= estimate + d;
      forall other | AllAccurate(best, other)
        ensures Abs(estimate - other) <= d
      {
        assert Accurate(lo, other) && Accurate(hi, other);
      }
    }
  }

  /**
   * When the reported uncertainty, half the smallest selected delay, is honest: after any history,
   * it bounds the error for every truth that the selection admits if and only if some selected
   * sample rules out every truth below target - uncertainty, and some every truth above
   * target + uncertainty.
   */
  lemma UncertaintyIsHonestExactlyWhenPinnedDown(events: seq<Event>, x: Exchange, t: Tuning, truth: real)
    requires HonestRun(events, truth) && Honest(x, truth)
    requires t.ringSize >= 1 && t.bestK >= 1 && t.windowMs >= 0.0
    ensures var e := AddSample(Run(NO_ESTIMATE, events, t), x, t).0;
            var best := Best(e.samples, x.t3, t);
            && e.uncertainty.Some?
            && (Bounds(best, e.target, e.uncertainty.value) <==> PinsDown(best, e.target, e.uncertainty.value))
  {
    var before := Run(NO_ESTIMATE, events, t);
    HonestRunsAreAccurate(NO_ESTIMATE, events, t, truth);
    HonestSampleIsAccurate(before, x, t, truth);
    SelectionIsAccurate(before, x, t, truth);
    var e := AddSample(before, x, t).0;
    var best := Best(e.samples, x.t3, t);
    BestAreLowestDelays(e.samples, x.t3, t);
    assert AllAccurate(best, truth);
    BoundsExactlyWhenPinnedDown(best, e.target, e.uncertainty.value, truth);
  }

  /** The reported uncertainty is half the least delay of the window. */
  lemma UncertaintyIsHalfTheLeastDelay(e: Estimate, x: Exchange, t: Tuning)
    requires Delta(x) >= 0.0 && t.ringSize >= 1 && t.bestK >= 1 && t.windowMs >= 0.0
    ensures var e' := AddSample(e, x, t).0;
            && e'.uncertainty.Some?
            && (forall s | s in e'.samples && x.t3 - s.t3 <= t.windowMs :: 2.0 * e'.uncertainty.value <= s.delta)
            && (exists s :: s in e'.samples && x.t3 - s.t3 <= t.windowMs && 2.0 * e'.uncertainty.value == s.delta)
  {
    var fed := Sample(Theta(x), Delta(x), x.t3);
    var samples := KeepLast(e.samples + [fed], t.ringSize);
    assert samples[|samples| - 1] == fed;
    BestAreLowestDelays(samples, x.t3, t);
    var best := Best(samples, x.t3, t);
    assert best[0] in best;
    forall s | s in samples && x.t3 - s.t3 <= t.windowMs
      ensures best[0].delta <= s.delta
    {
      if s in best {
        var i :| 0 <= i < |best| && best[i] == s;
      }
    }
  }

  function Taken(x: Exchange): Sample {
    Sample(Theta(x), Delta(x), x.t3)
  }

  /** What an exchange admits is what its sample admits, whether or not the sample is still held. */
  lemma HonestExactlyWhenAccurate(x: Exchange, truth: real)
    ensures Honest(x, truth) <==> Accurate(Taken(x), truth)
  {
  }

  /** The samples of every exchange fed so far, restarts and the ring notwithstanding. */
  function History(events: seq<Event>): seq<Sample> {
    if events == [] then []
    else (if events[0].Feed? then [Taken(events[0].x)] else []) + History(events[1..])
  }

  lemma {:induction false} HistoryAdmits(events: seq<Event>, truth: real)
    ensures HonestRun(events, truth) <==> AllAccurate(History(events), truth)
  {
    if events != [] {
      HistoryAdmits(events[1..], truth);
      assert forall i | 0 < i < |events| :: events[i] == events[1..][i - 1];
      assert forall i | 0 <= i < |events[1..]| :: events[1..][i] == events[i + 1];
      if events[0].Feed? {
        HonestExactlyWhenAccurate(events[0].x, truth);
        assert History(events) == [Taken(events[0].x)] + History(events[1..]);
        assert Taken(events[0].x) in History(events);
        assert forall s | s in History(events[1..]) :: s in History(events);
      }
    }
  }

  lemma HistoryAndLastAdmit(events: seq<Event>, x: Exchange, truth: real)
    ensures HonestRun(events, truth) && Honest(x, truth) <==> AllAccurate(History(events) + [Taken(x)], truth)
  {
    HistoryAdmits(events, truth);
    HonestExactlyWhenAccurate(x, truth);
    assert Taken(x) in History(events) + [Taken(x)];
    assert forall s | s in History(events) :: s in History(events) + [Taken(x)];
  }

  /**
   * The same against everything the estimator was ever told: the reported uncertainty bounds the
   * error for every truth that all exchanges so far admit if and only if some exchange among them
   * rules out every truth below target - uncertainty, and some every truth above
   * target + uncertainty.
   */
  lemma UncertaintyIsHonestExactlyWhenHistoryPinsDown(events: seq<Event>, x: Exchange, t: Tuning, truth: real)
    requires HonestRun(events, truth) && Honest(x, truth)
    requires t.ringSize >= 1 && t.bestK >= 1 && t.windowMs >= 0.0
    ensures var e := AddSample(Run(NO_ESTIMATE, events, t), x, t).0;
            && e.uncertainty.Some?
            && ((forall other | HonestRun(events, other) &&
               Honest(x, other) :: Abs(e.target - other) <= e.uncertainty.value) <==>
                PinsDown(History(events) + [Taken(x)], e.target, e.uncertainty.value))
  {
    UncertaintyIsHonestExactlyWhenPinnedDown(events, x, t, truth);
    var e := AddSample(Run(NO_ESTIMATE, events, t), x, t).0;
    HistoryAndLastAdmit(events, x, truth);
    forall other
      ensures HonestRun(events, other) && Honest(x, other) <==> AllAccurate(History(events) + [Taken(x)], other)
    {
      HistoryAndLastAdmit(events, x, other);
    }
    BoundsExactlyWhenPinnedDown(History(events) + [Taken(x)], e.target, e.uncertainty.value, truth);
  }

  /** The samples of the failing history as the ring holds them, and the selection made of them. */
  const HELD: seq<Sample> := [Sample(0.0, 0.0, 0.0), Sample(5.0, 10.0, 10.0), Sample(5.0, 10.0, 10.0)]

  lemma HeldMedian()
    ensures Sort(Better, HELD) == HELD && Median(HELD) == 5.0
  {
    var a, b := Sample(0.0, 0.0, 0.0), Sample(5.0, 10.0, 10.0);
    assert HELD[..2] == [a, b] && [a, b][..1] == [a] && [a][..0] == [];
    assert Sort(Better, [a]) == [a];
    assert [a, b][1..] == [b] && [a][1..] == [];
    assert Insert(Better, b, []) == [b] && Insert(Better, b, [b]) == [b, b];
    assert Insert(Better, b, [a]) == [a, b];
    assert Insert(Better, b, [a, b]) == [a] + Insert(Better, b, [b]);
    assert Sort(Better, [a, b]) == [a, b];
    assert Sort(Better, HELD) == Insert(Better, b, [a, b]);
    var thetas := [0.0, 5.0, 5.0];
    assert Thetas(HELD) == thetas;
    assert thetas[..2] == [0.0, 5.0] && [0.0, 5.0][..1] == [0.0] && [0.0][..0] == [];
    assert Sort(Below, [0.0]) == [0.0];
    assert [0.0, 5.0][1..] == [5.0] && [0.0][1..] == [];
    assert Insert(Below, 5.0, []) == [5.0] && Insert(Below, 5.0, [5.0]) == [5.0, 5.0];
    assert Insert(Below, 5.0, [0.0]) == [0.0, 5.0];
    assert Insert(Below, 5.0, [0.0, 5.0]) == [0.0] + Insert(Below, 5.0, [5.0]);
    assert Sort(Below, [0.0, 5.0]) == [0.0, 5.0];
    assert Sort(Below, thetas) == [0.0, 5.0, 5.0];
  }

  lemma FeedHolds(e: Estimate, x: Exchange, t: Tuning)
    requires Delta(x) >= 0.0 && |e.samples| < t.ringSize
    ensures Step(e, Feed(x), t).samples == e.samples + [Taken(x)]
  {
  }

  lemma RunOfTwo(e: Estimate, x: Event, y: Event, t: Tuning)
    ensures Run(e, [x, y], t) == Step(Step(e, x, t), y, t)
  {
    assert [x, y][1..] == [y] && [y][1..] == [];
    assert Run(Step(e, x, t), [y], t) == Run(Step(Step(e, x, t), y, t), [], t);
  }

  /** A ring with room for them holds three accepted exchanges in order. */
  lemma ThreeAreHeld(x: Exchange, y: Exchange, z: Exchange, t: Tuning)
    requires Delta(x) >= 0.0 && Delta(y) >= 0.0 && Delta(z) >= 0.0 && t.ringSize >= 3
    ensures AddSample(Run(NO_ESTIMATE, [Feed(x), Feed(y)], t), z, t).0.samples == [Taken(x), Taken(y), Taken(z)]
  {
    var e1 := Step(NO_ESTIMATE, Feed(x), t);
    var e2 := Step(e1, Feed(y), t);
    RunOfTwo(NO_ESTIMATE, Feed(x), Feed(y), t);
    FeedHolds(NO_ESTIMATE, x, t);
    assert e1.samples == [Taken(x)];
    FeedHolds(e1, y, t);
    assert e2.samples == [Taken(x), Taken(y)];
    FeedHolds(e2, z, t);
    assert [Taken(x), Taken(y)] + [Taken(z)] == [Taken(x), Taken(y), Taken(z)];
  }

  lemma HeldAreRecent(t: Tuning)
    requires t.windowMs >= 10.0
    ensures Recent(HELD, 10.0, t.windowMs) == HELD
  {
    var b := Sample(5.0, 10.0, 10.0);
    assert HELD[1..] == [b, b] && [b, b][1..] == [b] && [b][1..] == [];
    assert Recent([b], 10.0, t.windowMs) == [b] && Recent([b, b], 10.0, t.windowMs) == [b, b];
  }

  lemma HeldReport(e: Estimate, x: Exchange, t: Tuning)
    requires Delta(x) >= 0.0 && x.t3 == 10.0 && AddSample(e, x, t).0.samples == HELD && t.bestK >= 3 &&
             t.windowMs >= 10.0
    ensures AddSample(e, x, t).0.uncertainty == Some(0.0) && AddSample(e, x, t).0.target == 5.0
  {
    HeldAreRecent(t);
    HeldMedian();
    assert Best(HELD, 10.0, t) == HELD;
  }

  /** What the estimator holds after three exchanges. */
  function AfterThree(x: Exchange, y: Exchange, z: Exchange, t: Tuning): Estimate {
    AddSample(Run(NO_ESTIMATE, [Feed(x), Feed(y)], t), z, t).0
  }

  lemma ThreeReport(x: Exchange, y: Exchange, t: Tuning)
    requires Taken(x) == Sample(0.0, 0.0, 0.0) && Taken(y) == Sample(5.0, 10.0, 10.0)
    requires t.ringSize >= 3 && t.bestK >= 3 && t.windowMs >= 10.0
    ensures AfterThree(x, y, y, t).uncertainty == Some(0.0) && AfterThree(x, y, y, t).target == 5.0
  {
    ThreeAreHeld(x, y, y, t);
    assert [Taken(x), Taken(y), Taken(y)] == HELD;
    HeldReport(Run(NO_ESTIMATE, [Feed(x), Feed(y)], t), y, t);
  }

  lemma TakenSample(x: Exchange, theta: real, delta: real)
    requires 2.0 * theta == x.t1 - x.t0 + (x.t2 - x.t3) && delta == x.t3 - x.t0 - (x.t2 - x.t1)
    ensures Taken(x) == Sample(theta, delta, x.t3)
  {
  }

  /** The exchange of a request that takes `there` to arrive and is answered in no time, seen from offset 0. */
  lemma Exchanged(there: real) returns (x: Exchange)
    requires there >= 0.0
    ensures Taken(x) == Sample(there / 2.0, there, there) && Honest(x, 0.0)
  {
    x := Exchange(0.0, there, there, there);
    TakenSample(x, there / 2.0, there);
  }

  lemma TwoFeedsAreHonest(x: Exchange, y: Exchange, truth: real)
    requires Honest(x, truth) && Honest(y, truth)
    ensures HonestRun([Feed(x), Feed(y)], truth)
  {
  }

  /**
   * It need not be: on a perfect exchange and two slanted ones, all with nonnegative one-way
   * delays and a true offset of 0, the estimator reports an uncertainty of 0 and misses by 5.
   */
  lemma SmallestDelayIsNoBound(t: Tuning)
    requires t.ringSize >= 3 && t.bestK >= 3 && t.windowMs >= 10.0
    ensures exists x, y ::
              && HonestRun([Feed(x), Feed(y)], 0.0) && Honest(y, 0.0)
              && AfterThree(x, y, y, t).uncertainty == Some(0.0) && AfterThree(x, y, y, t).target == 5.0
  {
    var x := Exchanged(0.0);
    var y := Exchanged(10.0);
    TwoFeedsAreHonest(x, y, 0.0);
    ThreeReport(x, y, t);
  }

  // ---- the slew ----

  ghost predicate Gentle(t: Tuning) {
    0.0 <= t.slewRatePerS < 1000.0 && t.slewThresholdMs > 0.0
  }

  /** Move `d` towards 0 by at most `step`. */
  function Shrink(d: real, step: real): real {
    if Abs(d) <= step then 0.0 else if d > 0.0 then d - step else d + step
  }

  lemma ShrinkTwice(d: real, a: real, b: real)
    requires a >= 0.0 && b >= 0.0
    ensures Shrink(Shrink(d, a), b) == Shrink(d, a + b)
  {
  }

  lemma ProductNonnegative(a: real, b: real)
    requires a >= 0.0 && b >= 0.0
    ensures a * b >= 0.0
  {
  }

  lemma StepBounds(t: Tuning, dt: real)
    requires Gentle(t) && dt >= 0.0
    ensures 0.0 <= MaxStep(t, dt) <= dt
  {
    var rate, s := t.slewRatePerS, dt / 1000.0;
    ProductNonnegative(rate, s);
    ProductNonnegative(1000.0 - rate, s);
    assert (1000.0 - rate) * s == 1000.0 * s - rate * s;
  }

  lemma StepsAdd(t: Tuning, a: real, b: real)
    ensures MaxStep(t, a) + MaxStep(t, b) == MaxStep(t, a + b)
  {
    var rate := t.slewRatePerS;
    assert rate * (a / 1000.0) + rate * (b / 1000.0) == rate * (a / 1000.0 + b / 1000.0);
  }

  ghost predicate Close(e: Estimate, t: Tuning) {
    e.applied.Some? ==> Abs(e.target - e.applied.value) < t.slewThresholdMs
  }

  /** The tick times of a run never decrease. */
  ghost predicate TicksOrdered(last: Option<real>, events: seq<Event>)
    decreases |events|
  {
    events == [] ||
    (if !events[0].TickAt? then TicksOrdered(last, events[1..])
     else (last.Some? ==> last.value <= events[0].now) && TicksOrdered(Some(events[0].now), events[1..]))
  }

  /** A tick shrinks the gap by the rate and never overshoots. */
  lemma TickShrinksTheGap(e: Estimate, now: real, t: Tuning)
    requires Gentle(t) && e.applied.Some? && e.lastTick.Some? && e.lastTick.value <= now
    ensures var e' := Tick(e, now, t);
            && e'.applied.Some? && e'.lastTick == Some(now) && e'.target == e.target
            && e'.target - e'.applied.value == Shrink(e.target - e.applied.value, MaxStep(t, now - e.lastTick.value))
  {
    StepBounds(t, now - e.lastTick.value);
  }

  /** After every sample and every tick, the applied offset is within the slew threshold of the target. */
  lemma {:induction false} AppliedStaysClose(e: Estimate, events: seq<Event>, t: Tuning, last: Option<real>)
    requires Gentle(t) && Close(e, t) && TicksOrdered(last, events)
    requires e.lastTick.Some? ==> last.Some? && e.lastTick.value <= last.value
    ensures Close(Run(e, events, t), t)
    decreases |events|
  {
    if events != [] {
      var e' := Step(e, events[0], t);
      if events[0].TickAt? && e.applied.Some? && e.lastTick.Some? {
        TickShrinksTheGap(e, events[0].now, t);
        StepBounds(t, events[0].now - e.lastTick.value);
      }
      AppliedStaysClose(e', events[1..], t, if events[0].TickAt? then Some(events[0].now) else last);
    }
  }

  ghost predicate OnlyTicks(events: seq<Event>) {
    forall i | 0 <= i < |events| :: events[i].TickAt?
  }

  lemma ShrinkMoves(d: real, step: real)
    requires step >= 0.0
    ensures -step <= d - Shrink(d, step) <= step
    ensures Abs(Shrink(d, step)) <= Abs(d)
  {
  }

  /** After ticks covering a time T, the gap is exactly the initial one shrunk by rate * T. */
  lemma {:induction false} TicksShrinkTheGap(e: Estimate, events: seq<Event>, t: Tuning)
    requires Gentle(t) && e.applied.Some? && e.lastTick.Some?
    requires OnlyTicks(events) && TicksOrdered(e.lastTick, events)
    ensures var e' := Run(e, events, t);
            && e'.applied.Some? && e'.lastTick.Some? && e'.lastTick.value >= e.lastTick.value && e'.target == e.target
            && e'.target - e'.applied.value
               == Shrink(e.target - e.applied.value, MaxStep(t, e'.lastTick.value - e.lastTick.value))
    decreases |events|
  {
    if events == [] {
      assert MaxStep(t, 0.0) == 0.0;
    } else {
      var now := events[0].now;
      var e1 := Tick(e, now, t);
      TickShrinksTheGap(e, now, t);
      TicksShrinkTheGap(e1, events[1..], t);
      var a, b := now - e.lastTick.value, Run(e, events, t).lastTick.value - now;
      StepBounds(t, a);
      StepBounds(t, b);
      StepsAdd(t, a, b);
      ShrinkTwice(e.target - e.applied.value, MaxStep(t, a), MaxStep(t, b));
    }
  }

  /**
   * Between samples, over ticks covering a time T: the gap never widens or changes sign and is
   * closed once rate * T reaches it; and the mapped server time advances by between
   * (1 - rate) * T and (1 + rate) * T, so it never goes backwards.
   */
  lemma SlewLaw(e: Estimate, events: seq<Event>, t: Tuning)
    requires Gentle(t) && e.applied.Some? && e.lastTick.Some?
    requires OnlyTicks(events) && TicksOrdered(e.lastTick, events)
    ensures var e' := Run(e, events, t);
            && e'.applied.Some? && e'.lastTick.Some?
            && var elapsed, before, after := e'.lastTick.value - e.lastTick.value, e.target - e.applied.value,
               e'.target - e'.applied.value;
            && Abs(after) <= Abs(before) && (before >= 0.0 ==> after >= 0.0) && (before <= 0.0 ==> after <= 0.0)
            && (Abs(before) <= MaxStep(t, elapsed) ==> e'.applied.value == e.target)
            && var advance := ServerNow(e', e'.lastTick.value) - ServerNow(e, e.lastTick.value);
            0.0 <= elapsed - MaxStep(t, elapsed) <= advance <= elapsed + MaxStep(t, elapsed)
  {
    TicksShrinkTheGap(e, events, t);
    var elapsed := Run(e, events, t).lastTick.value - e.lastTick.value;
    StepBounds(t, elapsed);
    ShrinkMoves(e.target - e.applied.value, MaxStep(t, elapsed));
  }

  // ---- samples and the slew ----

  /**
   * A sample that moves the target by less than the threshold leaves the mapped time alone, for the
   * ticks to slew; an accepted one that moves it farther, or is the first, steps to the target.
   */
  lemma SmallMovesAreLeftToTheSlew(e: Estimate, x: Exchange, t: Tuning, now: real)
    ensures var e' := AddSample(e, x, t).0;
            && (e.applied.Some? && Abs(e'.target - e.applied.value) < t.slewThresholdMs ==>
                  e'.applied == e.applied && ServerNow(e', now) == ServerNow(e, now))
            && (AddSample(e, x, t).1 && Best(e'.samples, x.t3, t) != []
                && !(e.applied.Some? && Abs(e'.target - e.applied.value) < t.slewThresholdMs) ==>
                  e'.applied == Some(e'.target))
            && e'.lastTick == e.lastTick
  {
  }

  /** The first tick starts the clock of the slew and moves nothing; before the first sample none does anything. */
  lemma FirstTickOnlyStarts(e: Estimate, now: real, t: Tuning)
    requires e.applied.None? || e.lastTick.None?
    ensures Tick(e, now, t) == if e.applied.None? then e else e.(lastTick := Some(now))
  {
  }

  /** Every sample of the run moves the target by less than the threshold. */
  ghost predicate Smooth(e: Estimate, events: seq<Event>, t: Tuning)
    decreases |events|
  {
    events == [] ||
    (&& !events[0].Restart?
     && (events[0].Feed? ==>
           e.applied.Some? && Abs(Step(e, events[0], t).target - e.applied.value) < t.slewThresholdMs)
     && Smooth(Step(e, events[0], t), events[1..], t))
  }

  lemma TickMovesLittle(e: Estimate, now: real, t: Tuning)
    requires Gentle(t) && e.applied.Some? && e.lastTick.Some? && e.lastTick.value <= now
    ensures var e', step := Tick(e, now, t), MaxStep(t, now - e.lastTick.value);
            && e'.applied.Some? && e'.lastTick == Some(now)
            && e.applied.value - step <= e'.applied.value <= e.applied.value + step
  {
    TickShrinksTheGap(e, now, t);
    StepBounds(t, now - e.lastTick.value);
    ShrinkMoves(e.target - e.applied.value, MaxStep(t, now - e.lastTick.value));
  }

  /**
   * The slew law with samples coming in: over any run of ticks and of samples that move the target
   * by less than the threshold, covering a ticked time T, the mapped server time advances by between
   * (1 - rate) * T and (1 + rate) * T, so it never goes backwards.
   */
  lemma {:induction false} SmoothRunsNeverJump(e: Estimate, events: seq<Event>, t: Tuning)
    requires Gentle(t) && e.applied.Some? && e.lastTick.Some?
    requires Smooth(e, events, t) && TicksOrdered(e.lastTick, events)
    ensures var e' := Run(e, events, t);
            && e'.applied.Some? && e'.lastTick.Some?
            && var elapsed := e'.lastTick.value - e.lastTick.value;
               var advance := ServerNow(e', e'.lastTick.value) - ServerNow(e, e.lastTick.value);
               0.0 <= elapsed - MaxStep(t, elapsed) <= advance <= elapsed + MaxStep(t, elapsed) && elapsed >= 0.0
    decreases |events|
  {
    if events == [] {
      assert MaxStep(t, 0.0) == 0.0;
    } else {
      var e1 := Step(e, events[0], t);
      if events[0].Feed? {
        SmallMovesAreLeftToTheSlew(e, events[0].x, t, e.lastTick.value);
        SmoothRunsNeverJump(e1, events[1..], t);
      } else {
        TickMovesLittle(e, events[0].now, t);
        SmoothRunsNeverJump(e1, events[1..], t);
        var a, b := events[0].now - e.lastTick.value, Run(e, events, t).lastTick.value - events[0].now;
        StepBounds(t, a);
        StepsAdd(t, a, b);
        StepBounds(t, a + b);
      }
    }
  }

  lemma {:induction false} RunsJoin(e: Estimate, xs: seq<Event>, ys: seq<Event>, t: Tuning)
    ensures Run(e, xs + ys, t) == Run(Run(e, xs, t), ys, t)
    decreases |xs|
  {
    if xs == [] {
      assert xs + ys == ys;
    } else {
      assert (xs + ys)[1..] == xs[1..] + ys;
      RunsJoin(Step(e, xs[0], t), xs[1..], ys, t);
    }
  }

  lemma {:induction false} TicksKeepTheTarget(e: Estimate, ticks: seq<Event>, t: Tuning)
    requires OnlyTicks(ticks)
    ensures Run(e, ticks, t).target == e.target && (Run(e, ticks, t).applied.Some? <==> e.applied.Some?)
    decreases |ticks|
  {
    if ticks != [] {
      TicksKeepTheTarget(Step(e, ticks[0], t), ticks[1..], t);
    }
  }

  /**
   * End to end: after any history of honest exchanges and ordered ticks that ends in an exchange and
   * any number of ticks, the mapped server time is off by less than half the middle selected delay
   * plus the slew threshold.
   */
  lemma ServerNowIsAccurate(events: seq<Event>, x: Exchange, ticks: seq<Event>, t: Tuning, truth: real, now: real)
    requires HonestRun(events, truth) && Honest(x, truth) && OnlyTicks(ticks) && Gentle(t)
    requires t.ringSize >= 1 && t.bestK >= 1 && t.windowMs >= 0.0
    requires TicksOrdered(None, events + ([Feed(x)] + ticks))
    ensures var fed := AddSample(Run(NO_ESTIMATE, events, t), x, t).0;
            var best := Best(fed.samples, x.t3, t);
            && best != []
            && Abs(ServerNow(Run(NO_ESTIMATE, events + ([Feed(x)] + ticks), t), now) - (now + truth))
               < best[|best| / 2].delta / 2.0 + t.slewThresholdMs
  {
    var before := Run(NO_ESTIMATE, events, t);
    var fed := AddSample(before, x, t).0;
    TargetIsAccurate(events, x, t, truth);
    HonestSampleIsAccurate(before, x, t, truth) by {
      HonestRunsAreAccurate(NO_ESTIMATE, events, t, truth);
    }
    SmallMovesAreLeftToTheSlew(before, x, t, now);
    RunsJoin(NO_ESTIMATE, events, [Feed(x)] + ticks, t);
    assert ([Feed(x)] + ticks)[1..] == ticks;
    assert Run(before, [Feed(x)] + ticks, t) == Run(fed, ticks, t);
    TicksKeepTheTarget(fed, ticks, t);
    AppliedStaysClose(NO_ESTIMATE, events + ([Feed(x)] + ticks), t, None);
  }
}
