/** The per-caller token bucket (video-sync-backend/src/auth/rate-bucket.ts). */
module RateBuckets {
  import opened Common

  datatype Bucket = Bucket(tokens: real, at: real)

  datatype Limits = Limits(capacity: real, refillPerSecond: real)

  /** What `elapsedMs` of waiting adds. */
  function Refill(l: Limits, elapsedMs: real): real {
    l.refillPerSecond * (elapsedMs / 1000.0)
  }

  /** The tokens a caller has at `now`; an unknown caller is full. */
  function Level(l: Limits, b: Option<Bucket>, now: real): real {
    if b.None? then l.capacity
    else Min(l.capacity, b.value.tokens + Refill(l, Max(0.0, now - b.value.at)))
  }

  function Took(l: Limits, b: Option<Bucket>, now: real): (Bucket, bool) {
    var level := Level(l, b, now);
    if level < 1.0 then (Bucket(level, now), false) else (Bucket(level - 1.0, now), true)
  }

  predicate Idle(b: Bucket, now: real, idleMs: real) {
    now - b.at > idleMs
  }

  function Get(buckets: map<string, Bucket>, key: string): Option<Bucket> {
    if key in buckets then Some(buckets[key]) else None
  }

  class RateBucket {
    const limits: Limits
    var buckets: map<string, Bucket>

    constructor (limits: Limits)
      ensures this.limits == limits && buckets == map[]
    {
      this.limits := limits;
      buckets := map[];
    }

    method Take(key: string, now: real) returns (ok: bool)
      modifies this`buckets
      ensures var (b, granted) := Took(limits, Get(old(buckets), key), now);
              buckets == old(buckets)[key := b] && ok == granted
    {
      var bucket := if key in buckets then buckets[key] else Bucket(limits.capacity, now);
      var tokens := Min(limits.capacity, bucket.tokens + Refill(limits, Max(0.0, now - bucket.at)));
      FreshIsFull(limits, now);
      if tokens < 1.0 {
        buckets := buckets[key := Bucket(tokens, now)];
        return false;
      }
      buckets := buckets[key := Bucket(tokens - 1.0, now)];
      return true;
    }

    method Peek(key: string, now: real) returns (ok: bool)
      ensures ok == Took(limits, Get(buckets, key), now).1
    {
      if key !in buckets {
        return limits.capacity >= 1.0;
      }
      var bucket := buckets[key];
      var tokens := Min(limits.capacity, bucket.tokens + Refill(limits, Max(0.0, now - bucket.at)));
      return tokens >= 1.0;
    }

    method Sweep(now: real, idleMs: real)
      modifies this`buckets
      ensures buckets == map key | key in old(buckets) && !Idle(old(buckets)[key], now, idleMs) :: old(buckets)[key]
    {
      ghost var before := buckets;
      var todo := buckets.Keys;
      while todo != {}
        invariant todo <= before.Keys
        invariant forall key :: key in buckets <==> key in before && (key in todo || !Idle(before[key], now, idleMs))
        invariant forall key | key in buckets :: buckets[key] == before[key]
        decreases todo
      {
        var key :| key in todo;
        if now - buckets[key].at > idleMs {
          buckets := buckets - {key};
        }
        todo := todo - {key};
      }
    }
  }

  lemma FreshIsFull(l: Limits, now: real)
    ensures Min(l.capacity, l.capacity + Refill(l, Max(0.0, now - now))) == l.capacity
  {
    assert Max(0.0, now - now) == 0.0;
    assert Refill(l, 0.0) == 0.0;
  }

  // ---- the guest door: two buckets, one decision ----

  class GuestDoor {
    const guestBucket: RateBucket
    const guestGlobalBucket: RateBucket

    constructor ()
      ensures fresh(guestBucket) && fresh(guestGlobalBucket) && guestBucket != guestGlobalBucket
      ensures guestBucket.limits == Limits(10.0, 10.0 / 3600.0) &&
              guestGlobalBucket.limits == Limits(300.0, 300.0 / 3600.0)
    {
      guestBucket := new RateBucket(Limits(10.0, 10.0 / 3600.0));
      guestGlobalBucket := new RateBucket(Limits(300.0, 300.0 / 3600.0));
    }

    /**
     * A guest is admitted exactly when both limits allow it, and then each bucket pays one token;
     * a request that either refuses costs neither anything.
     */
    method Admit(ip: string, now: real) returns (admitted: bool)
      requires guestBucket != guestGlobalBucket
      modifies guestBucket, guestGlobalBucket
      ensures admitted <==> Level(guestBucket.limits, Get(old(guestBucket.buckets), ip), now) >= 1.0 &&
                            Level(guestGlobalBucket.limits, Get(old(guestGlobalBucket.buckets), "all"), now) >= 1.0
      ensures !admitted ==> guestBucket.buckets == old(guestBucket.buckets) &&
                            guestGlobalBucket.buckets == old(guestGlobalBucket.buckets)
      ensures admitted ==>
                && guestBucket.buckets == old(guestBucket.buckets)[ip :=
                     Bucket(Level(guestBucket.limits, Get(old(guestBucket.buckets), ip), now) - 1.0, now)]
                && guestGlobalBucket.buckets == old(guestGlobalBucket.buckets)["all" :=
                     Bucket(Level(guestGlobalBucket.limits, Get(old(guestGlobalBucket.buckets), "all"), now) - 1.0,
                         now)]
    {
      var mine := guestBucket.Peek(ip, now);
      if !mine {
        return false;
      }
      var everyones := guestGlobalBucket.Peek("all", now);
      if !everyones {
        return false;
      }
      var _ := guestBucket.Take(ip, now);
      var _ := guestGlobalBucket.Take("all", now);
      return true;
    }
  }

  // ---- runs on one key ----

  datatype Event = TakeAt(now: real) | SweepAt(now: real, idleMs: real)

  function Step(l: Limits, b: Option<Bucket>, e: Event): Option<Bucket> {
    match e
    case TakeAt(now) => Some(Took(l, b, now).0)
    case SweepAt(now, idleMs) => if b.Some? && Idle(b.value, now, idleMs) then None else b
  }

  function Granted(l: Limits, b: Option<Bucket>, e: Event): nat {
    if e.TakeAt? && Took(l, b, e.now).1 then 1 else 0
  }

  /** Requests admitted over the run. */
  function Admitted(l: Limits, b: Option<Bucket>, es: seq<Event>): nat
    decreases |es|
  {
    if es == [] then 0 else Granted(l, b, es[0]) + Admitted(l, Step(l, b, es[0]), es[1..])
  }

  ghost predicate Ordered(last: real, es: seq<Event>)
    decreases |es|
  {
    es == [] || (last <= es[0].now && Ordered(es[0].now, es[1..]))
  }

  ghost predicate Sound(l: Limits) {
    l.capacity >= 0.0 && l.refillPerSecond >= 0.0
  }

  ghost predicate Valid(l: Limits, b: Option<Bucket>, now: real) {
    b.Some? ==> 0.0 <= b.value.tokens <= l.capacity && b.value.at <= now
  }

  /** An idle time that refills any bucket. */
  ghost predicate LongEnough(l: Limits, idleMs: real) {
    idleMs >= 0.0 && Refill(l, idleMs) >= l.capacity
  }

  ghost predicate SafeSweeps(l: Limits, es: seq<Event>) {
    forall i | 0 <= i < |es| && es[i].SweepAt? :: LongEnough(l, es[i].idleMs)
  }

  lemma RefillGrows(l: Limits, a: real, b: real)
    requires Sound(l) && 0.0 <= a <= b
    ensures 0.0 <= Refill(l, a) <= Refill(l, b)
  {
    var r := l.refillPerSecond;
    Monotone(r, 0.0, a / 1000.0);
    Monotone(r, a / 1000.0, b / 1000.0);
  }

  lemma Monotone(r: real, x: real, y: real)
    requires r >= 0.0 && x <= y
    ensures r * x <= r * y
  {
  }

  lemma RefillAdds(l: Limits, a: real, b: real)
    ensures Refill(l, a) + Refill(l, b) == Refill(l, a + b)
  {
    var r := l.refillPerSecond;
    assert r * (a / 1000.0) + r * (b / 1000.0) == r * (a / 1000.0 + b / 1000.0);
  }

  /** Waiting from `now` to `later` raises the level by at most the refill, and never lowers it. */
  lemma LevelGrows(l: Limits, b: Option<Bucket>, now: real, later: real)
    requires Sound(l) && Valid(l, b, now) && now <= later
    ensures 0.0 <= Level(l, b, now) <= Level(l, b, later) <= l.capacity
    ensures Level(l, b, later) <= Level(l, b, now) + Refill(l, later - now)
  {
    RefillGrows(l, 0.0, later - now);
    if b.Some? {
      var x, y := now - b.value.at, later - b.value.at;
      RefillGrows(l, 0.0, x);
      RefillGrows(l, x, y);
      RefillAdds(l, x, later - now);
    }
  }

  /** A long enough idle bucket is full, so forgetting it changes nothing. */
  lemma IdleIsFull(l: Limits, b: Bucket, now: real, idleMs: real)
    requires Sound(l) && 0.0 <= b.tokens && LongEnough(l, idleMs) && Idle(b, now, idleMs)
    ensures Level(l, Some(b), now) == l.capacity
  {
    RefillGrows(l, idleMs, now - b.at);
  }

  /** A step spends exactly what it grants. */
  lemma StepSpends(l: Limits, b: Option<Bucket>, e: Event)
    requires Sound(l) && Valid(l, b, e.now) && (e.SweepAt? ==> LongEnough(l, e.idleMs))
    ensures Valid(l, Step(l, b, e), e.now)
    ensures Level(l, Step(l, b, e), e.now) == Level(l, b, e.now) - Granted(l, b, e) as real
  {
    LevelGrows(l, b, e.now, e.now);
    if e.SweepAt? {
      if b.Some? && Idle(b.value, e.now, e.idleMs) {
        IdleIsFull(l, b.value, e.now, e.idleMs);
      }
    } else {
      assert Refill(l, 0.0) == 0.0;
    }
  }

  function End(last: real, es: seq<Event>): real
    decreases |es|
  {
    if es == [] then last else End(es[0].now, es[1..])
  }

  /** Conservation: what was admitted and what is left is at most what was there plus the refill. */
  lemma {:induction false} TokensAreConserved(l: Limits, b: Option<Bucket>, es: seq<Event>, start: real)
    requires Sound(l) && Valid(l, b, start) && Ordered(start, es) && SafeSweeps(l, es)
    ensures start <= End(start, es)
    ensures Admitted(l, b, es) as real <= Level(l, b, start) + Refill(l, End(start, es) - start)
    decreases |es|
  {
    if es == [] {
      LevelGrows(l, b, start, start);
      RefillGrows(l, 0.0, 0.0);
    } else {
      var e := es[0];
      LevelGrows(l, b, start, e.now);
      StepSpends(l, b, e);
      TokensAreConserved(l, Step(l, b, e), es[1..], e.now);
      RefillAdds(l, e.now - start, End(start, es) - e.now);
    }
  }

  /**
   * Over any window of any run, of `lengthMs` milliseconds and whatever happened before it, a caller
   * is admitted at most capacity + refill * length times, sweeps included.
   */
  lemma AdmissionsAreBounded(l: Limits, b: Option<Bucket>, es: seq<Event>, lengthMs: real)
    requires Sound(l) && es != [] && Valid(l, b, es[0].now) && Ordered(es[0].now, es) && SafeSweeps(l, es)
    requires lengthMs == End(es[0].now, es) - es[0].now
    ensures 1000.0 * (Admitted(l, b, es) as real - l.capacity) <= l.refillPerSecond * lengthMs
  {
    TokensAreConserved(l, b, es, es[0].now);
    LevelGrows(l, b, es[0].now, es[0].now);
    InMilliseconds(l, Admitted(l, b, es) as real, lengthMs);
  }

  lemma InMilliseconds(l: Limits, admitted: real, lengthMs: real)
    requires admitted <= l.capacity + Refill(l, lengthMs)
    ensures 1000.0 * (admitted - l.capacity) <= l.refillPerSecond * lengthMs
  {
    RefillIsTheRate(l, lengthMs);
  }

  /** A thousand milliseconds add a second's refill. */
  lemma RefillIsTheRate(l: Limits, ms: real)
    ensures 1000.0 * Refill(l, ms) == l.refillPerSecond * ms
  {
    var r, x := l.refillPerSecond, ms / 1000.0;
    assert ms == 1000.0 * x;
    Regroup(r, x);
  }

  lemma Regroup(r: real, x: real)
    ensures 1000.0 * (r * x) == r * (1000.0 * x)
  {
  }

  // ---- sweeps are unobservable ----

  function WithoutSweeps(es: seq<Event>): seq<Event> {
    if es == [] then [] else (if es[0].SweepAt? then [] else [es[0]]) + WithoutSweeps(es[1..])
  }

  /** The answers given to the requests of a run. */
  function Answers(l: Limits, b: Option<Bucket>, es: seq<Event>): seq<bool>
    decreases |es|
  {
    if es == [] then []
    else (if es[0].TakeAt? then [Took(l, b, es[0].now).1] else []) + Answers(l, Step(l, b, es[0]), es[1..])
  }

  ghost predicate SameLevels(l: Limits, a: Option<Bucket>, b: Option<Bucket>, now: real) {
    forall t | now <= t :: Level(l, a, t) == Level(l, b, t)
  }

  lemma SweepKeepsLevels(l: Limits, a: Option<Bucket>, b: Option<Bucket>, e: Event, last: real)
    requires Sound(l) && Valid(l, a, last) && SameLevels(l, a, b, last) && last <= e.now
    requires e.SweepAt? && LongEnough(l, e.idleMs)
    ensures SameLevels(l, Step(l, a, e), b, e.now)
  {
    if a.Some? && Idle(a.value, e.now, e.idleMs) {
      IdleIsFull(l, a.value, e.now, e.idleMs);
      forall t | e.now <= t
        ensures Level(l, None, t) == Level(l, b, t)
      {
        LevelGrows(l, a, e.now, t);
        assert Level(l, a, t) == Level(l, b, t);
      }
    }
  }

  /** No caller can tell whether the sweeper ran. */
  lemma {:induction false} SweepsAreUnobservable(l: Limits, a: Option<Bucket>, b: Option<Bucket>, es: seq<Event>,
                                                 last: real)
    requires Sound(l) && Valid(l, a, last) && SameLevels(l, a, b, last) && Ordered(last, es) && SafeSweeps(l, es)
    ensures Answers(l, a, es) == Answers(l, b, WithoutSweeps(es))
    decreases |es|
  {
    if es != [] {
      var e, rest := es[0], es[1..];
      LevelGrows(l, a, last, e.now);
      StepSpends(l, a, e);
      if e.SweepAt? {
        SweepKeepsLevels(l, a, b, e, last);
        SweepsAreUnobservable(l, Step(l, a, e), b, rest, e.now);
        assert WithoutSweeps(es) == WithoutSweeps(rest);
      } else {
        assert Level(l, a, e.now) == Level(l, b, e.now);
        SweepsAreUnobservable(l, Step(l, a, e), Step(l, b, e), rest, e.now);
        assert WithoutSweeps(es) == [e] + WithoutSweeps(rest);
        assert WithoutSweeps(es)[1..] == WithoutSweeps(rest);
      }
    }
  }

  /** Forgetting keeps the level exactly when the idle time refills a whole bucket. */
  lemma SweepIsSafeExactlyWhenLongEnough(l: Limits, idleMs: real)
    requires Sound(l) && l.capacity > 0.0 && idleMs >= 0.0
    ensures LongEnough(l, idleMs) <==>
            forall b: Bucket, now | 0.0 <= b.tokens <= l.capacity &&
                Idle(b, now, idleMs) :: Level(l, Some(b), now) == l.capacity
  {
    if LongEnough(l, idleMs) {
      forall b: Bucket, now | 0.0 <= b.tokens <= l.capacity && Idle(b, now, idleMs)
        ensures Level(l, Some(b), now) == l.capacity
      {
        IdleIsFull(l, b, now, idleMs);
      }
    } else {
      var now := BarelyIdle(l, idleMs);
      var b := Bucket(0.0, 0.0);
      assert 0.0 <= b.tokens <= l.capacity && Idle(b, now, idleMs) && Level(l, Some(b), now) < l.capacity;
    }
  }

  lemma BarelyIdle(l: Limits, idleMs: real) returns (now: real)
    requires Sound(l) && idleMs >= 0.0 && Refill(l, idleMs) < l.capacity
    ensures now > idleMs && Refill(l, now) < l.capacity
  {
    var r := l.refillPerSecond;
    if r == 0.0 {
      now := idleMs + 1.0;
    } else {
      var slack := (l.capacity - Refill(l, idleMs)) / 2.0;
      var extra := slack / r;
      Divided(slack, r);
      now := idleMs + 1000.0 * extra;
      RefillAdds(l, idleMs, 1000.0 * extra);
      assert Refill(l, 1000.0 * extra) == r * extra;
    }
  }

  lemma Divided(a: real, r: real)
    requires r > 0.0 && a > 0.0
    ensures a / r * r == a && a / r > 0.0
  {
  }

  // ---- when exactly sweeps can be told ----

  function Final(l: Limits, b: Option<Bucket>, es: seq<Event>): Option<Bucket>
    decreases |es|
  {
    if es == [] then b else Final(l, Step(l, b, es[0]), es[1..])
  }

  lemma {:induction false} RunsJoin(l: Limits, b: Option<Bucket>, xs: seq<Event>, ys: seq<Event>, start: real)
    ensures Final(l, b, xs + ys) == Final(l, Final(l, b, xs), ys)
    ensures Admitted(l, b, xs + ys) == Admitted(l, b, xs) + Admitted(l, Final(l, b, xs), ys)
    ensures End(start, xs + ys) == End(End(start, xs), ys)
    ensures Ordered(start, xs + ys) <==> Ordered(start, xs) && Ordered(End(start, xs), ys)
    ensures WithoutSweeps(xs + ys) == WithoutSweeps(xs) + WithoutSweeps(ys)
    decreases |xs|
  {
    if xs == [] {
      assert xs + ys == ys;
    } else {
      assert (xs + ys)[1..] == xs[1..] + ys;
      RunsJoin(l, Step(l, b, xs[0]), xs[1..], ys, xs[0].now);
    }
  }

  function Yes(answers: seq<bool>): nat {
    if answers == [] then 0 else (if answers[0] then 1 else 0) + Yes(answers[1..])
  }

  lemma {:induction false} AdmittedAreYes(l: Limits, b: Option<Bucket>, es: seq<Event>)
    ensures Yes(Answers(l, b, es)) == Admitted(l, b, es)
    decreases |es|
  {
    if es != [] {
      AdmittedAreYes(l, Step(l, b, es[0]), es[1..]);
      if es[0].TakeAt? {
        assert Answers(l, b, es)[1..] == Answers(l, Step(l, b, es[0]), es[1..]);
      } else {
        assert Answers(l, b, es) == Answers(l, Step(l, b, es[0]), es[1..]);
      }
    }
  }

  lemma LevelLater(l: Limits, b: Option<Bucket>, now: real, later: real)
    requires Sound(l) && Valid(l, b, now) && now <= later
    ensures Level(l, b, later) == Min(l.capacity, Level(l, b, now) + Refill(l, later - now))
  {
    RefillGrows(l, 0.0, later - now);
    if b.Some? {
      RefillAdds(l, now - b.value.at, later - now);
    }
  }

  function Takes(n: nat, now: real): seq<Event> {
    if n == 0 then [] else [TakeAt(now)] + Takes(n - 1, now)
  }

  /** As many requests at one instant as there are whole tokens are all granted. */
  lemma {:induction false} TakesAreGranted(l: Limits, b: Option<Bucket>, n: nat, now: real)
    requires Sound(l) && Valid(l, b, now) && Level(l, b, now) >= n as real
    ensures Admitted(l, b, Takes(n, now)) == n == |Takes(n, now)|
    ensures Ordered(now, Takes(n, now)) && End(now, Takes(n, now)) == now &&
            WithoutSweeps(Takes(n, now)) == Takes(n, now)
    ensures var b' := Final(l, b, Takes(n, now)); Valid(l, b', now) && Level(l, b', now) == Level(l, b, now) - n as real
    decreases n
  {
    if n > 0 {
      assert Takes(n, now)[1..] == Takes(n - 1, now);
      StepSpends(l, b, TakeAt(now));
      TakesAreGranted(l, Step(l, b, TakeAt(now)), n - 1, now);
    }
  }

  /** The wait, in milliseconds, for the fraction beyond the whole tokens of `level` to become one more. */
  function Wait(l: Limits, level: real): real
    requires l.refillPerSecond > 0.0
  {
    (1.0 - (level - level.Floor as real)) / l.refillPerSecond * 1000.0
  }

  lemma WaitRefills(l: Limits, level: real)
    requires l.refillPerSecond > 0.0
    ensures Wait(l, level) >= 0.0 && Refill(l, Wait(l, level)) == 1.0 - (level - level.Floor as real)
  {
    Divided(1.0 - (level - level.Floor as real), l.refillPerSecond);
  }

  /** Spend every whole token of `level`, then the next one the moment it is there. */
  function Probe(l: Limits, level: real, now: real): seq<Event>
    requires level >= 0.0
  {
    Takes(level.Floor, now) + if l.refillPerSecond > 0.0 then [TakeAt(now + Wait(l, level))] else []
  }

  /** How much a probe of `level` lets in at most: a token more than there are whole ones, if tokens refill. */
  function Yield(l: Limits, level: real): nat
    requires level >= 0.0
  {
    level.Floor + if l.refillPerSecond > 0.0 then 1 else 0
  }

  lemma ProbeShape(l: Limits, level: real, now: real)
    requires Sound(l) && level >= 0.0
    ensures var es := Probe(l, level, now);
            && Ordered(now, es) && WithoutSweeps(es) == es && SafeSweeps(l, es)
            && Refill(l, End(now, es) - now) == if l.refillPerSecond > 0.0 then 1.0 - (level - level.Floor as real)
               else 0.0
  {
    var n := level.Floor;
    TakesHaveNoSweeps(n, now);
    if l.refillPerSecond > 0.0 {
      var last := [TakeAt(now + Wait(l, level))];
      WaitRefills(l, level);
      RunsJoin(l, None, Takes(n, now), last, now);
      assert last[1..] == [];
      assert WithoutSweeps(last) == last;
      assert End(now, last) == now + Wait(l, level);
      assert Ordered(now, last);
    } else {
      assert Probe(l, level, now) == Takes(n, now);
      assert Refill(l, 0.0) == 0.0;
    }
  }

  lemma {:induction false} TakesHaveNoSweeps(n: nat, now: real)
    ensures Ordered(now, Takes(n, now)) && End(now, Takes(n, now)) == now &&
            WithoutSweeps(Takes(n, now)) == Takes(n, now)
    ensures forall i | 0 <= i < |Takes(n, now)| :: Takes(n, now)[i].TakeAt?
    decreases n
  {
    if n > 0 {
      assert Takes(n, now)[1..] == Takes(n - 1, now);
      TakesHaveNoSweeps(n - 1, now);
    }
  }

  /** A probe of a caller's own level is granted throughout, and leaves less than a token. */
  lemma ProbeIsGranted(l: Limits, b: Option<Bucket>, now: real)
    requires Sound(l) && l.capacity >= 1.0 && Valid(l, b, now) && Level(l, b, now) >= 0.0
    ensures var level := Level(l, b, now);
            var es := Probe(l, level, now);
            && Admitted(l, b, es) == Yield(l, level)
            && var b' := Final(l, b, es);
               Valid(l, b', End(now, es))
               && Level(l, b', End(now, es)) == if l.refillPerSecond > 0.0 then 0.0 else level - level.Floor as real
  {
    var level := Level(l, b, now);
    var n := level.Floor;
    TakesAreGranted(l, b, n, now);
    if l.refillPerSecond > 0.0 {
      var spent, at := Final(l, b, Takes(n, now)), now + Wait(l, level);
      RunsJoin(l, b, Takes(n, now), [TakeAt(at)], now);
      WaitRefills(l, level);
      LevelLater(l, spent, now, at);
      OneTake(l, spent, at, now);
      StepSpends(l, spent, TakeAt(at));
    } else {
      assert Probe(l, level, now) == Takes(n, now);
    }
  }

  lemma OneTake(l: Limits, b: Option<Bucket>, at: real, start: real)
    ensures Final(l, b, [TakeAt(at)]) == Step(l, b, TakeAt(at)) && End(start, [TakeAt(at)]) == at
    ensures Admitted(l, b, [TakeAt(at)]) == Granted(l, b, TakeAt(at))
  {
    assert [TakeAt(at)][1..] == [];
    assert Final(l, Step(l, b, TakeAt(at)), []) == Step(l, b, TakeAt(at));
    assert Admitted(l, Step(l, b, TakeAt(at)), []) == 0;
    assert End(at, []) == at;
  }

  /** A probe of a higher level than a caller has is not granted throughout: tokens are conserved. */
  lemma ProbeExposesLess(l: Limits, b: Option<Bucket>, level: real, now: real)
    requires Sound(l) && Valid(l, b, now) && level >= 0.0
    requires if l.refillPerSecond > 0.0 then Level(l, b, now) < level else Level(l, b, now) < level.Floor as real
    ensures Admitted(l, b, Probe(l, level, now)) < Yield(l, level)
  {
    ProbeShape(l, level, now);
    TokensAreConserved(l, b, Probe(l, level, now), now);
  }

  ghost predicate SweptAfter(es: seq<Event>, idleMs: real) {
    forall i | 0 <= i < |es| && es[i].SweepAt? :: es[i].idleMs == idleMs
  }

  /** No run of requests and sweeps with this idle time is answered otherwise than without the sweeps. */
  ghost predicate Unobservable(l: Limits, idleMs: real) {
    forall es, start | Ordered(start, es) &&
        SweptAfter(es, idleMs) :: Answers(l, None, es) == Answers(l, None, WithoutSweeps(es))
  }

  /** Exhaust a caller, let the sweeper forget it too early, and exhaust it again. */
  function Exposure(l: Limits, idleMs: real, gap: real): seq<Event>
    requires l.capacity >= 0.0
  {
    var first := Probe(l, l.capacity, 0.0);
    var at := End(0.0, first) + gap;
    first + ([SweepAt(at, idleMs)] + Probe(l, l.capacity, at))
  }

  lemma SweepStep(l: Limits, b: Option<Bucket>, at: real, idleMs: real, rest: seq<Event>, start: real)
    ensures var es := [SweepAt(at, idleMs)] + rest;
            && Admitted(l, b, es) == Admitted(l, Step(l, b, SweepAt(at, idleMs)), rest)
            && WithoutSweeps(es) == WithoutSweeps(rest)
            && (Ordered(start, es) <==> start <= at && Ordered(at, rest))
  {
    assert ([SweepAt(at, idleMs)] + rest)[1..] == rest;
  }

  lemma LastTakeStamps(l: Limits, b: Option<Bucket>, now: real)
    requires Sound(l) && l.capacity >= 1.0 && b.None?
    ensures var es := Probe(l, l.capacity, now); Final(l, b, es).Some? && Final(l, b, es).value.at == End(now, es)
  {
    var n := l.capacity.Floor;
    TakesStamp(l, b, n, now);
    if l.refillPerSecond > 0.0 {
      var at := now + Wait(l, l.capacity);
      RunsJoin(l, b, Takes(n, now), [TakeAt(at)], now);
      OneTake(l, Final(l, b, Takes(n, now)), at, End(now, Takes(n, now)));
    } else {
      assert Probe(l, l.capacity, now) == Takes(n, now);
    }
  }

  lemma {:induction false} TakesStamp(l: Limits, b: Option<Bucket>, n: nat, now: real)
    requires n > 0 || (b.Some? && b.value.at == now)
    ensures var b' := Final(l, b, Takes(n, now)); b'.Some? && b'.value.at == now && End(now, Takes(n, now)) == now
    decreases n
  {
    if n > 0 {
      assert Takes(n, now)[1..] == Takes(n - 1, now);
      TakesStamp(l, Step(l, b, TakeAt(now)), n - 1, now);
    }
  }

  lemma ExposureTells(l: Limits, idleMs: real, gap: real)
    requires Sound(l) && l.capacity >= 1.0 && idleMs >= 0.0 && gap > idleMs && Refill(l, gap) < l.capacity
    ensures var es := Exposure(l, idleMs, gap);
            Ordered(0.0, es) && Admitted(l, None, es) > Admitted(l, None, WithoutSweeps(es))
  {
    var c, first := l.capacity, Probe(l, l.capacity, 0.0);
    var ended := End(0.0, first);
    var at := ended + gap;
    var second, sweep := Probe(l, c, at), [SweepAt(at, idleMs)];
    ProbeShape(l, c, 0.0);
    ProbeShape(l, c, at);
    ProbeIsGranted(l, None, 0.0);
    ProbeIsGranted(l, None, at);
    LastTakeStamps(l, None, 0.0);
    var b := Final(l, None, first);
    LevelLater(l, b, ended, at);
    ProbeExposesLess(l, b, c, at);
    SweepStep(l, b, at, idleMs, second, ended);
    RunsJoin(l, None, first, sweep + second, 0.0);
    RunsJoin(l, None, first, second, 0.0);
  }

  lemma ExposureIsSwept(l: Limits, idleMs: real, gap: real)
    requires Sound(l)
    ensures SweptAfter(Exposure(l, idleMs, gap), idleMs)
  {
    var first := Probe(l, l.capacity, 0.0);
    var at := End(0.0, first) + gap;
    ProbeTakes(l, l.capacity, 0.0);
    ProbeTakes(l, l.capacity, at);
  }

  lemma ProbeTakes(l: Limits, level: real, now: real)
    requires level >= 0.0
    ensures forall i | 0 <= i < |Probe(l, level, now)| :: Probe(l, level, now)[i].TakeAt?
  {
    TakesHaveNoSweeps(level.Floor, now);
  }

  /** Where not even one token fits, every request is refused, swept or not. */
  lemma {:induction false} NothingToObserve(l: Limits, a: Option<Bucket>, b: Option<Bucket>, es: seq<Event>)
    requires l.capacity < 1.0
    ensures Answers(l, a, es) == Answers(l, b, WithoutSweeps(es))
    decreases |es|
  {
    if es != [] {
      var e, rest := es[0], es[1..];
      if e.SweepAt? {
        NothingToObserve(l, Step(l, a, e), b, rest);
        assert WithoutSweeps(es) == WithoutSweeps(rest);
      } else {
        NothingToObserve(l, Step(l, a, e), Step(l, b, e), rest);
        assert WithoutSweeps(es) == [e] + WithoutSweeps(rest);
        assert WithoutSweeps(es)[1..] == WithoutSweeps(rest);
      }
    }
  }

  /**
   * The sweeper can never be told from its absence if and only if its idle time refills a whole
   * bucket, or no bucket holds a token at all.
   */
  lemma SweepsAreUnobservableExactlyWhenLongEnough(l: Limits, idleMs: real)
    requires Sound(l) && idleMs >= 0.0
    ensures Unobservable(l, idleMs) <==> LongEnough(l, idleMs) || l.capacity < 1.0
  {
    if LongEnough(l, idleMs) || l.capacity < 1.0 {
      forall es, start | Ordered(start, es) && SweptAfter(es, idleMs)
        ensures Answers(l, None, es) == Answers(l, None, WithoutSweeps(es))
      {
        if l.capacity < 1.0 {
          NothingToObserve(l, None, None, es);
        } else {
          SweepsAreUnobservable(l, None, None, es, start);
        }
      }
    } else {
      var gap := BarelyIdle(l, idleMs);
      var es := Exposure(l, idleMs, gap);
      ExposureTells(l, idleMs, gap);
      ExposureIsSwept(l, idleMs, gap);
      AdmittedAreYes(l, None, es);
      AdmittedAreYes(l, None, WithoutSweeps(es));
    }
  }

  /** Both guest buckets may be swept hourly. */
  lemma GuestSweepsAreSafe()
    ensures LongEnough(Limits(10.0, 10.0 / 3600.0), 3600000.0) && LongEnough(Limits(300.0, 300.0 / 3600.0), 3600000.0)
  {
  }
}
