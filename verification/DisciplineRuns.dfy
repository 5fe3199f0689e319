/** What the servo's estimator and its commands guarantee over whole runs. */
module DisciplineRuns {
  import opened Common
  import opened DriftControl
  import opened Discipline
  import opened DriftCorrections

  // ---- the drift-rate estimator ----

  function Pow(x: real, n: nat): real {
    if n == 0 then 1.0 else x * Pow(x, n - 1)
  }

  function Geometric(x: real, f: real, n: nat): real {
    Pow(f, n) * x
  }

  /** (bHat, P) after a sequence of measurements. */
  function LearnAll(bHat: real, p: real, ms: seq<real>, f: real): (real, real)
    requires 0.0 < f < 1.0 && 1.0 - f <= p <= 1.0
    decreases |ms|
  {
    if ms == [] then (bHat, p)
    else
      CovarianceStays(bHat, p, ms[0], f);
      var learned := Learn(bHat, p, ms[0], f);
      LearnAll(learned.0, learned.1, ms[1..], f)
  }

  lemma Quotient(a: real, q: real)
    requires q != 0.0
    ensures a / q * q == a
  {
  }

  lemma Scale(a: real, b: real, q: real)
    requires q >= 0.0 && a <= b
    ensures a * q <= b * q
  {
  }

  lemma Strict(a: real, b: real, q: real)
    requires a < b && q > 0.0
    ensures a * q < b * q
  {
  }

  lemma Unscale(a: real, b: real, q: real)
    requires q > 0.0 && a * q <= b * q
    ensures a <= b
  {
    if a > b {
      Strict(b, a, q);
    }
  }

  lemma Cancel(a: real, b: real, q: real)
    requires q > 0.0 && a * q == b * q
    ensures a == b
  {
    Unscale(a, b, q);
    Unscale(b, a, q);
  }

  /** The gain, and what is left of the old estimate: (1 - g) * (f + p) == f, so 1 - g <= f. */
  lemma GainBounds(p: real, f: real, g: real, q: real)
    requires 0.0 < f < 1.0 && 1.0 - f <= p <= 1.0 && q == f + p && g == Gain(p, f)
    ensures g * q == p && (1.0 - g) * q == f
    ensures 0.0 <= g <= 1.0 && 1.0 - g <= f
  {
    Quotient(p, q);
    assert g * q == p;
    assert (1.0 - g) * q == q - g * q;
    Scale(1.0, q, f);
    Unscale(1.0 - g, f, q);
    Unscale(0.0, g, q);
    Unscale(g, 1.0, q);
  }

  /** In closed form the covariance becomes p / (f + p). */
  lemma CovarianceIs(bHat: real, p: real, m: real, f: real, q: real)
    requires 0.0 < f < 1.0 && 1.0 - f <= p <= 1.0 && q == f + p
    ensures Learn(bHat, p, m, f).1 * q == p
  {
    var g, r := Gain(p, f), p / f;
    GainBounds(p, f, g, q);
    Quotient(p, f);
    Reorder(1.0 - g, r, q);
    assert ((1.0 - g) * q) * r == f * r;
  }

  lemma Reorder(a: real, b: real, c: real)
    ensures (a * b) * c == (a * c) * b
  {
  }

  lemma FixedPoint(p: real, f: real, q: real)
    requires 0.0 < f && 1.0 - f <= p && q == f + p
    ensures (1.0 - f) * q <= p
  {
    Scale(1.0 - f, p, f);
    assert (1.0 - f) * q == (1.0 - f) * f + p - p * f;
  }

  /** The covariance never increases and never falls below its fixed point 1 - f. */
  lemma CovarianceStays(bHat: real, p: real, m: real, f: real)
    requires 0.0 < f < 1.0 && 1.0 - f <= p <= 1.0
    ensures 1.0 - f <= Learn(bHat, p, m, f).1 <= p
  {
    var q := f + p;
    CovarianceIs(bHat, p, m, f, q);
    FixedPoint(p, f, q);
    Scale(1.0, q, p);
    Between(Learn(bHat, p, m, f).1, 1.0 - f, p, q);
  }

  lemma Between(x: real, lo: real, hi: real, q: real)
    requires q > 0.0 && lo * q <= x * q <= hi * q
    ensures lo <= x <= hi
  {
    Unscale(lo, x, q);
    Unscale(x, hi, q);
  }

  /** How far the estimate is off, beyond what the measurements themselves are. */
  function Excess(bHat: real, b: real, noise: real): real {
    Max(Abs(bHat - b) - noise, 0.0)
  }

  lemma Sum(a: real, b: real, kx: real, kn: real, n: real)
    requires a <= kx + kn && b <= n - kn
    ensures a + b <= kx + n
  {
  }

  lemma MixUpper(keep: real, e: real, d: real, x: real, noise: real)
    requires 0.0 <= keep <= 1.0 && e <= x + noise && d <= noise
    ensures keep * e + (1.0 - keep) * d <= keep * x + noise
  {
    var y, rest := x + noise, 1.0 - keep;
    Scale(e, y, keep);
    Scale(d, noise, rest);
    assert keep * y == keep * x + keep * noise;
    assert rest * noise == noise - keep * noise;
    Sum(keep * e, rest * d, keep * x, keep * noise, noise);
  }

  lemma Bracket(mixed: real, negated: real, kx: real, fx: real, noise: real)
    requires mixed <= kx + noise && negated <= kx + noise && negated == -mixed && kx <= fx
    ensures Abs(mixed) - noise <= fx
  {
  }

  lemma Mix(keep: real, e: real, d: real, x: real, noise: real, f: real)
    requires 0.0 <= keep <= f < 1.0 && x >= 0.0
    requires Abs(e) <= x + noise && Abs(d) <= noise
    ensures Abs(keep * e + (1.0 - keep) * d) - noise <= f * x && 0.0 <= f * x
  {
    var rest := 1.0 - keep;
    MixUpper(keep, e, d, x, noise);
    MixUpper(keep, -e, -d, x, noise);
    Scale(keep, f, x);
    Scale(0.0, f, x);
    assert keep * (-e) == -(keep * e) && rest * (-d) == -(rest * d);
    Bracket(keep * e + rest * d, keep * (-e) + rest * (-d), keep * x, f * x, noise);
  }

  lemma GainRange(p: real, f: real)
    requires 0.0 < f < 1.0 && 1.0 - f <= p <= 1.0
    ensures 0.0 <= Gain(p, f) <= 1.0 && 1.0 - Gain(p, f) <= f
  {
    GainBounds(p, f, Gain(p, f), f + p);
  }

  lemma LearnMixes(bHat: real, p: real, m: real, f: real, b: real)
    requires f + p != 0.0 && f != 0.0
    ensures var keep := 1.0 - Gain(p, f);
            Learn(bHat, p, m, f).0 - b == keep * (bHat - b) + (1.0 - keep) * (m - b)
  {
    var g := Gain(p, f);
    assert g * (m - bHat) == g * (m - b) - g * (bHat - b);
  }

  /** One update with a measurement within `noise` of b shrinks the excess error by the forgetting factor. */
  lemma UpdateContracts(bHat: real, p: real, m: real, f: real, b: real, noise: real)
    requires 0.0 < f < 1.0 && 1.0 - f <= p <= 1.0 && Abs(m - b) <= noise
    ensures Excess(Learn(bHat, p, m, f).0, b, noise) <= f * Excess(bHat, b, noise)
  {
    GainRange(p, f);
    LearnMixes(bHat, p, m, f, b);
    Mix(1.0 - Gain(p, f), bHat - b, m - b, Excess(bHat, b, noise), noise, f);
  }

  /** An error that shrinks by the factor f with each of n updates. */
  function Decayed(x: real, f: real, n: nat): real
    decreases n
  {
    if n == 0 then x else Decayed(f * x, f, n - 1)
  }

  lemma {:induction false} DecayIsMonotone(x: real, y: real, f: real, n: nat)
    requires 0.0 <= f && x <= y
    ensures Decayed(x, f, n) <= Decayed(y, f, n)
    decreases n
  {
    if n > 0 {
      Scale(x, y, f);
      DecayIsMonotone(f * x, f * y, f, n - 1);
    }
  }

  lemma {:induction false} DecayIsGeometric(x: real, f: real, n: nat)
    ensures Decayed(x, f, n) == Pow(f, n) * x
    decreases n
  {
    if n > 0 {
      DecayIsGeometric(f * x, f, n - 1);
      Reorder(f, Pow(f, n - 1), x);
      assert Pow(f, n - 1) * (f * x) == (f * x) * Pow(f, n - 1);
      Reorder(f, x, Pow(f, n - 1));
    }
  }

  lemma {:induction false} CovarianceRange(bHat: real, p: real, ms: seq<real>, f: real)
    requires 0.0 < f < 1.0 && 1.0 - f <= p <= 1.0
    ensures 1.0 - f <= LearnAll(bHat, p, ms, f).1 <= p
    decreases |ms|
  {
    if ms != [] {
      var learned := Learn(bHat, p, ms[0], f);
      CovarianceStays(bHat, p, ms[0], f);
      CovarianceRange(learned.0, learned.1, ms[1..], f);
    }
  }

  lemma UpdateDecays(bHat: real, p: real, m: real, f: real, b: real, noise: real, n: nat)
    requires 0.0 < f < 1.0 && 1.0 - f <= p <= 1.0 && Abs(m - b) <= noise
    ensures Decayed(Excess(Learn(bHat, p, m, f).0, b, noise), f, n) <= Decayed(Excess(bHat, b, noise), f, n + 1)
  {
    UpdateContracts(bHat, p, m, f, b, noise);
    DecayStep(Excess(Learn(bHat, p, m, f).0, b, noise), Excess(bHat, b, noise), f, n);
  }

  lemma DecayStep(x1: real, x: real, f: real, n: nat)
    requires 0.0 <= f && x1 <= f * x
    ensures Decayed(x1, f, n) <= Decayed(x, f, n + 1)
  {
    DecayIsMonotone(x1, f * x, f, n);
  }

  lemma {:induction false} ErrorDecays(bHat: real, p: real, ms: seq<real>, f: real, b: real, noise: real)
    requires 0.0 < f < 1.0 && 1.0 - f <= p <= 1.0
    requires forall i | 0 <= i < |ms| :: Abs(ms[i] - b) <= noise
    ensures Excess(LearnAll(bHat, p, ms, f).0, b, noise) <= Decayed(Excess(bHat, b, noise), f, |ms|)
    decreases |ms|
  {
    if ms != [] {
      var learned := Learn(bHat, p, ms[0], f);
      CovarianceStays(bHat, p, ms[0], f);
      UpdateDecays(bHat, p, ms[0], f, b, noise, |ms| - 1);
      ErrorDecays(learned.0, learned.1, ms[1..], f, b, noise);
    }
  }

  /**
   * After n measurements within `noise` of b, the estimate is off by at most the noise plus
   * forgetting^n times the initial error, and the covariance has not left [1 - forgetting, p].
   */
  lemma EstimateConverges(bHat: real, p: real, ms: seq<real>, f: real, b: real, noise: real)
    requires 0.0 < f < 1.0 && 1.0 - f <= p <= 1.0
    requires forall i | 0 <= i < |ms| :: Abs(ms[i] - b) <= noise
    ensures 1.0 - f <= LearnAll(bHat, p, ms, f).1 <= p
    ensures Excess(LearnAll(bHat, p, ms, f).0, b, noise) <= Geometric(Excess(bHat, b, noise), f, |ms|)
  {
    CovarianceRange(bHat, p, ms, f);
    ErrorDecays(bHat, p, ms, f, b, noise);
    AtMostGeometric(Excess(LearnAll(bHat, p, ms, f).0, b, noise), Excess(bHat, b, noise), f, |ms|);
  }

  lemma AtMostGeometric(y: real, x: real, f: real, n: nat)
    requires y <= Decayed(x, f, n)
    ensures y <= Geometric(x, f, n)
  {
    DecayIsGeometric(x, f, n);
  }

  /** A player with skew b at rate r, believed to be at `believed`: the measurement is b plus the error of belief. */
  lemma MeasurementIsSkewPlusBeliefError(last: real, dt: real, r: real, b: real, believed: real)
    requires dt > 0.0
    ensures MeasuredRate(last + ((r - 1.0) + b) * dt, last, dt, believed) == b + (r - believed)
  {
    var x := (r - 1.0) + b;
    var y := (last + x * dt - last) / dt;
    assert last + x * dt - last == x * dt;
    Quotient(x * dt, dt);
    Cancel(y, x, dt);
  }

  /**
   * Feed-forward: with the skew known and the command inside the clamp, a player obeying it drifts
   * exactly as the PI feedback alone dictates, as if it had no skew at all.
   */
  lemma KnownSkewIsCancelled(integral: real, b: real, drift: real, v: ServoTuning)
    requires v.clampSpan >= 0.0
    ensures var r := Command(integral, b, drift, v);
            && Abs(r - 1.0) <= v.clampSpan
            && (Abs(r - 1.0) < v.clampSpan ==> (r - 1.0) + b == -(v.kp * drift + v.ki * integral))
            && (r == 1.0 + v.clampSpan && v.clampSpan > 0.0 ==> (r - 1.0) + b <= -(v.kp * drift + v.ki * integral))
            && (r == 1.0 - v.clampSpan && v.clampSpan > 0.0 ==> (r - 1.0) + b >= -(v.kp * drift + v.ki * integral))
  {
    FeedForward(v.kp * drift, v.ki * integral, b, v.clampSpan);
  }

  lemma FeedForward(proportional: real, integrated: real, b: real, span: real)
    requires span >= 0.0
    ensures var r := Clamp(1.0 - proportional - integrated - b, 1.0 - span, 1.0 + span);
            && Abs(r - 1.0) <= span
            && (Abs(r - 1.0) < span ==> (r - 1.0) + b == -(proportional + integrated))
            && (r == 1.0 + span && span > 0.0 ==> (r - 1.0) + b <= -(proportional + integrated))
            && (r == 1.0 - span && span > 0.0 ==> (r - 1.0) + b >= -(proportional + integrated))
  {
    ClampIsNearest(1.0 - proportional - integrated - b, 1.0 - span, 1.0 + span);
  }

  lemma ClampIsNearest(x: real, lo: real, hi: real)
    requires lo <= hi
    ensures var r := Clamp(x, lo, hi);
            && lo <= r <= hi && (lo < r < hi ==> r == x)
            && (r == hi && lo < hi ==> x >= hi) && (r == lo && lo < hi ==> x <= lo)
  {
  }

  // ---- whole runs ----

  datatype Event = Eval(input: Input) | Suspend | Resume | RateReported(rate: real)

  ghost predicate Bounded(s: Servo, v: ServoTuning) {
    && 1.0 - v.forgetting <= s.rlsP <= 1.0
    && Abs(s.lastCommand - 1.0) <= v.clampSpan
    && Abs(s.integral) <= v.integralClampS
    && s.reactive.mode != NUDGING && !s.reactive.rateApplied
  }

  ghost predicate Sane(v: ServoTuning) {
    Forgets(v) && v.clampSpan >= 0.0 && v.integralClampS >= 0.0
  }

  function Step(s: Servo, e: Event, v: ServoTuning, t: Tuning): (Servo, Action)
    requires Forgets(v) && s.rlsP > 0.0
  {
    match e
    case Eval(input) => EvaluateServo(s, input, v, t)
    case Suspend => (Reset(s).(reactive := Suspended(s.reactive)), NoAction)
    case Resume => (s.(reactive := Resumed(s.reactive, t)), NoAction)
    case RateReported(rate) => (s.(appliedRate := rate), NoAction)
  }

  /** Without fractional rates the inner controller never starts to nudge. */
  lemma InnerNeverNudges(s: State, input: Input, t: Tuning)
    requires s.mode != NUDGING && !s.rateApplied && !input.fractionalRateOK
    ensures var (s', a) := Evaluate(s, input, t);
            s'.mode != NUDGING && !s'.rateApplied && !a.SetRate? && !a.ClearRate?
  {
  }

  lemma ClampBounds(x: real, lo: real, hi: real)
    requires lo <= hi
    ensures lo <= Clamp(x, lo, hi) <= hi
  {
  }

  lemma UpdateKeepsBounded(s: Servo, drift: real, now: real, v: ServoTuning)
    requires Sane(v) && Bounded(s, v)
    ensures Bounded(Updated(s, drift, now, v), v) && Updated(s, drift, now, v).rlsP <= s.rlsP
  {
    if s.lastT.Some? && s.lastDrift.Some? {
      var dt := now - s.lastT.value;
      if 0.0 < dt < 2.0 {
        CovarianceStays(s.bHat, s.rlsP, MeasuredRate(drift, s.lastDrift.value, dt, s.appliedRate), v.forgetting);
        ClampBounds(s.integral + drift * dt, -v.integralClampS, v.integralClampS);
      }
    }
  }

  lemma ServoKeepsBounded(s: Servo, input: Input, v: ServoTuning)
    requires Sane(v) && Bounded(s, v)
    ensures var (s', a) := Servoed(s, input, v);
            Bounded(s', v) && s'.rlsP <= s.rlsP && (a.SetRate? ==> Abs(a.rate - 1.0) <= v.clampSpan)
  {
    var drift := s.reactive.lastDrift;
    UpdateKeepsBounded(s, drift, input.tLocal / 1000.0, v);
    var s1 := Updated(s, drift, input.tLocal / 1000.0, v);
    ClampBounds(1.0 - v.kp * drift - v.ki * s1.integral - s1.bHat, 1.0 - v.clampSpan, 1.0 + v.clampSpan);
  }

  lemma StepKeepsBounded(s: Servo, e: Event, v: ServoTuning, t: Tuning)
    requires Sane(v) && Bounded(s, v)
    ensures var (s', a) := Step(s, e, v, t);
            Bounded(s', v) && s'.rlsP <= s.rlsP && (a.SetRate? ==> Abs(a.rate - 1.0) <= v.clampSpan)
  {
    if e.Eval? {
      InnerNeverNudges(s.reactive, e.input.(fractionalRateOK := false), t);
      var (inner, act) := Evaluate(s.reactive, e.input.(fractionalRateOK := false), t);
      if act == NoAction && inner.mode == LOCKED {
        ServoKeepsBounded(s.(reactive := inner), e.input, v);
      }
    }
  }

  /**
   * Over every run: commands stay within the clamp, the integral within its own, the covariance
   * within [1 - forgetting, 1] without ever increasing, and the inner controller never nudges.
   */
  lemma {:induction false} RunsAreBounded(s: Servo, es: seq<Event>, v: ServoTuning, t: Tuning)
    requires Sane(v) && Bounded(s, v)
    ensures Bounded(Run(s, es, v, t), v) && Run(s, es, v, t).rlsP <= s.rlsP
    ensures forall a | a in Actions(s, es, v, t) :: a.SetRate? ==> Abs(a.rate - 1.0) <= v.clampSpan
    decreases |es|
  {
    if es != [] {
      StepKeepsBounded(s, es[0], v, t);
      RunsAreBounded(Step(s, es[0], v, t).0, es[1..], v, t);
    }
  }

  ghost function Run(s: Servo, es: seq<Event>, v: ServoTuning, t: Tuning): Servo
    requires Sane(v) && Bounded(s, v)
    decreases |es|
  {
    if es == [] then s
    else
      StepKeepsBounded(s, es[0], v, t);
      Run(Step(s, es[0], v, t).0, es[1..], v, t)
  }

  ghost function Actions(s: Servo, es: seq<Event>, v: ServoTuning, t: Tuning): seq<Action>
    requires Sane(v) && Bounded(s, v)
    decreases |es|
  {
    if es == [] then []
    else
      StepKeepsBounded(s, es[0], v, t);
      var (s', a) := Step(s, es[0], v, t);
      [a] + Actions(s', es[1..], v, t)
  }

  // ---- the estimate over whole runs ----

  /** What a tick feeds the estimator: a measurement if the servo steers and an interval can be measured. */
  function Measured(s: Servo, e: Event, t: Tuning, v: ServoTuning): seq<real> {
    if !e.Eval? then []
    else
      var (inner, act) := Evaluate(s.reactive, e.input.(fractionalRateOK := false), t);
      if act != NoAction || inner.mode != LOCKED || Abs(inner.lastDrift) > v.servoZoneS || s.lastT.None? ||
          s.lastDrift.None? then []
      else
        var dt := e.input.tLocal / 1000.0 - s.lastT.value;
        if !(0.0 < dt < 2.0) then [] else [MeasuredRate(inner.lastDrift, s.lastDrift.value, dt, s.appliedRate)]
  }

  /** Every measurement of a run, in order. */
  ghost function Measurements(s: Servo, es: seq<Event>, v: ServoTuning, t: Tuning): seq<real>
    requires Sane(v) && Bounded(s, v)
    decreases |es|
  {
    if es == [] then []
    else
      StepKeepsBounded(s, es[0], v, t);
      Measured(s, es[0], t, v) + Measurements(Step(s, es[0], v, t).0, es[1..], v, t)
  }

  lemma StepLearns(s: Servo, e: Event, v: ServoTuning, t: Tuning)
    requires Sane(v) && Bounded(s, v)
    ensures var s', ms := Step(s, e, v, t).0, Measured(s, e, t, v);
            (s'.bHat, s'.rlsP) == if ms == [] then (s.bHat, s.rlsP) else Learn(s.bHat, s.rlsP, ms[0], v.forgetting)
    ensures |Measured(s, e, t, v)| <= 1
  {
  }

  lemma LearnFirst(bHat: real, p: real, m: real, ms: seq<real>, f: real)
    requires 0.0 < f < 1.0 && 1.0 - f <= p <= 1.0
    ensures var learned := Learn(bHat, p, m, f);
            && 1.0 - f <= learned.1 <= 1.0
            && LearnAll(bHat, p, [m] + ms, f) == LearnAll(learned.0, learned.1, ms, f)
  {
    CovarianceStays(bHat, p, m, f);
    assert ([m] + ms)[1..] == ms;
  }

  /** A run's estimate is what its measurements teach, and nothing else touches it. */
  lemma {:induction false} RunLearns(s: Servo, es: seq<Event>, v: ServoTuning, t: Tuning)
    requires Sane(v) && Bounded(s, v)
    ensures (Run(s, es, v, t).bHat, Run(s, es, v, t).rlsP) ==
            LearnAll(s.bHat, s.rlsP, Measurements(s, es, v, t), v.forgetting)
    decreases |es|
  {
    if es != [] {
      var s', ms := Step(s, es[0], v, t).0, Measured(s, es[0], t, v);
      StepKeepsBounded(s, es[0], v, t);
      StepLearns(s, es[0], v, t);
      RunLearns(s', es[1..], v, t);
      var rest := Measurements(s', es[1..], v, t);
      if ms == [] {
        assert ms + rest == rest;
      } else {
        assert ms == [ms[0]];
        LearnFirst(s.bHat, s.rlsP, ms[0], rest, v.forgetting);
      }
    }
  }

  /**
   * Over every run of the servo, suspensions, seeks and resets included: if its measurements were
   * within `noise` of b, the estimate is off by at most the noise plus forgetting^n times the
   * initial excess, n being their number.
   */
  lemma RunEstimateConverges(s: Servo, es: seq<Event>, v: ServoTuning, t: Tuning, b: real, noise: real)
    requires Sane(v) && Bounded(s, v)
    requires var ms := Measurements(s, es, v, t); forall i | 0 <= i < |ms| :: Abs(ms[i] - b) <= noise
    ensures Excess(Run(s, es, v, t).bHat, b, noise)
            <= Geometric(Excess(s.bHat, b, noise), v.forgetting, |Measurements(s, es, v, t)|)
  {
    RunLearns(s, es, v, t);
    EstimateConverges(s.bHat, s.rlsP, Measurements(s, es, v, t), v.forgetting, b, noise);
  }

  // ---- what the servo does ----

  /** The inner controller is locked and quiet, and the drift is the servo's to correct. */
  ghost predicate Steers(s: Servo, input: Input, v: ServoTuning, t: Tuning) {
    var (inner, act) := Evaluate(s.reactive, input.(fractionalRateOK := false), t);
    act == NoAction && inner.mode == LOCKED && Abs(inner.lastDrift) <= v.servoZoneS
  }

  /**
   * Whatever the inner controller does is done. Otherwise a rate is commanded exactly when the servo
   * steers and its command differs from the rate it believes applied by the hysteresis or more, and
   * cleared exactly when an active servo stands down because the player does not play.
   */
  lemma ServoActsExactly(s: Servo, input: Input, v: ServoTuning, t: Tuning)
    requires Sane(v) && Bounded(s, v)
    ensures var (s', a) := EvaluateServo(s, input, v, t);
            var (inner, act) := Evaluate(s.reactive, input.(fractionalRateOK := false), t);
            && s'.reactive == inner
            && (act != NoAction ==> a == act)
            && (a.SetRate? <==> Steers(s, input, v, t) && Abs(s'.lastCommand - s.appliedRate) >= v.commandHysteresis)
            && (a.SetRate? ==> a.rate == s'.lastCommand == s'.appliedRate)
            && (a.ClearRate? <==>
                act == NoAction && inner.mode != LOCKED && s.servoActive && input.playerState != Playing)
            && (Steers(s, input, v, t) ==>
                  && s'.lastCommand == Command(s'.integral, s'.bHat, inner.lastDrift, v) && s'.servoActive
                  && s'.lastT == Some(input.tLocal / 1000.0) && s'.lastDrift == Some(inner.lastDrift))
  {
    InnerNeverNudges(s.reactive, input.(fractionalRateOK := false), t);
  }

  /** The servo owns its zone: from LOCKED the inner controller seeks only at its edge, beyond, or on a gross desync. */
  lemma ZoneIsTheServos(s: State, input: Input, v: ServoTuning, t: Tuning)
    requires s.mode == LOCKED && input.timeline.Some? && input.timeline.value.isPlaying && !input.fractionalRateOK
    requires !Gross(s, input, InnerTuning(v, t))
    ensures var (s', a) := Evaluate(s, input, InnerTuning(v, t)); a.SeekTo? ==> Abs(s'.lastDrift) >= v.servoZoneS
  {
    SeeksExactlyWhenDue(s, input, InnerTuning(v, t));
  }

  /** `next` is `before` grown by `added`, stopped at the bound. */
  ghost predicate GrownWithin(before: real, added: real, bound: real, next: real) {
    if Abs(before + added) <= bound then next == before + added
    else next == if before + added > 0.0 then bound else -bound
  }

  lemma ClampGrows(before: real, added: real, bound: real)
    requires bound >= 0.0
    ensures GrownWithin(before, added, bound, Clamp(before + added, -bound, bound))
  {
  }

  /** The next integral: grown by drift times interval, unless held or no interval can be measured. */
  ghost predicate Accumulated(before: real, lastT: Option<real>, lastDrift: Option<real>, held: bool,
                              drift: real, now: real, bound: real, next: real) {
    if lastT.None? || lastDrift.None? || !(0.0 < now - lastT.value < 2.0) || held then next == before
    else GrownWithin(before, drift * (now - lastT.value), bound, next)
  }

  lemma UpdateAccumulatesDrift(s: Servo, drift: real, now: real, v: ServoTuning)
    requires Sane(v) && s.rlsP > 0.0
    ensures Accumulated(s.integral, s.lastT, s.lastDrift, Clamped(s, v), drift, now, v.integralClampS,
                        Updated(s, drift, now, v).integral)
  {
    if s.lastT.Some? {
      ClampGrows(s.integral, drift * (now - s.lastT.value), v.integralClampS);
    }
  }

  lemma SteeringIsTheServos(s: Servo, input: Input, v: ServoTuning, t: Tuning)
    requires Sane(v) && Bounded(s, v)
    ensures var s' := EvaluateServo(s, input, v, t).0;
            var inner := Evaluate(s.reactive, input.(fractionalRateOK := false), t).0;
            if Steers(s, input, v, t)
            then s'.integral == Updated(s.(reactive := inner), inner.lastDrift, input.tLocal / 1000.0, v).integral
            else s'.integral == s.integral || s'.integral == 0.0
  {
  }

  /**
   * The integral is the drift accumulated over the measured intervals: a steering tick adds drift
   * times interval, stopping at the bound, unless the last command was at its own clamp or no
   * interval can be measured; a tick that does not steer keeps it or starts it over.
   */
  lemma IntegralAccumulatesDrift(s: Servo, input: Input, v: ServoTuning, t: Tuning)
    requires Sane(v) && Bounded(s, v)
    ensures var next := EvaluateServo(s, input, v, t).0.integral;
            var inner := Evaluate(s.reactive, input.(fractionalRateOK := false), t).0;
            if !Steers(s, input, v, t) then next == s.integral || next == 0.0
            else Accumulated(s.integral, s.lastT, s.lastDrift, Clamped(s, v), inner.lastDrift, input.tLocal / 1000.0,
                             v.integralClampS, next)
  {
    SteeringIsTheServos(s, input, v, t);
    var inner := Evaluate(s.reactive, input.(fractionalRateOK := false), t).0;
    UpdateAccumulatesDrift(s.(reactive := inner), inner.lastDrift, input.tLocal / 1000.0, v);
  }

  /** A seek and a suspension start the servo over, but for what it learned of the skew. */
  lemma SeeksAndSuspensionsStartOver(s: Servo, e: Event, v: ServoTuning, t: Tuning)
    requires Sane(v) && Bounded(s, v) && (e.Suspend? || Step(s, e, v, t).1.SeekTo?)
    ensures var s' := Step(s, e, v, t).0;
            && s'.integral == 0.0 && s'.lastT.None? && s'.lastDrift.None? && !s'.servoActive
            && s'.appliedRate == 1.0 && s'.lastCommand == 1.0 && s'.bHat == s.bHat && s'.rlsP == s.rlsP
  {
    if e.Eval? {
      ServoActsExactly(s, e.input, v, t);
    }
  }

  // ---- the servo's belief about the player ----

  /** The executor: it applies the action and reports the rate it set. */
  function PlayerRate(rate: real, a: Action): real {
    match a
    case SeekTo(_) => 1.0
    case ClearRate => 1.0
    case SetRate(r) => r
    case _ => rate
  }

  function Belief(s: Servo, a: Action): real {
    match a
    case SeekTo(_) => 1.0
    case ClearRate => 1.0
    case SetRate(r) => r
    case _ => s.appliedRate
  }

  /** The tick restarts a stopped player. */
  ghost predicate Restarts(s: Servo, input: Input) {
    && s.reactive.mode != SUSPENDED && input.timeline.Some? && input.timeline.value.isPlaying
    && (input.playerState == Paused || input.playerState == Cued)
  }

  /**
   * The servo's belief about the playback rate stays true across a tick and its execution if and
   * only if the tick is not a restart of a player that the servo had left at another rate than 1:
   * there it resets the belief without clearing the rate.
   */
  lemma BeliefIsTrueExactlyUnlessRestarted(s: Servo, input: Input, rate: real, v: ServoTuning, t: Tuning)
    requires Sane(v) && Bounded(s, v) && s.appliedRate == rate
    ensures var (s', a) := EvaluateServo(s, input, v, t);
            Belief(s', a) == PlayerRate(rate, a) <==> !(Restarts(s, input) && s.servoActive && rate != 1.0)
  {
    InnerNeverNudges(s.reactive, input.(fractionalRateOK := false), t);
  }

  /** The tick restarts a player that the servo had left at another rate than 1. */
  ghost predicate Misleads(s: Servo, rate: real, e: Event) {
    e.Eval? && Restarts(s, e.input) && s.servoActive && rate != 1.0
  }

  /**
   * Servo and player together: a tick is executed and its rate reported, a suspension comes with
   * rate 1 restored, and a report tells the rate the player has taken.
   */
  function Driven(s: Servo, rate: real, e: Event, v: ServoTuning, t: Tuning): (Servo, real)
    requires Forgets(v) && s.rlsP > 0.0
  {
    var (s', a) := Step(s, e, v, t);
    match e
    case Eval(_) => (s'.(appliedRate := Belief(s', a)), PlayerRate(rate, a))
    case Suspend => (s', 1.0)
    case Resume => (s', rate)
    case RateReported(reported) => (s', reported)
  }

  lemma DrivenKeepsBounded(s: Servo, rate: real, e: Event, v: ServoTuning, t: Tuning)
    requires Sane(v) && Bounded(s, v)
    ensures Bounded(Driven(s, rate, e, v, t).0, v)
  {
    StepKeepsBounded(s, e, v, t);
  }

  ghost function Drive(s: Servo, rate: real, es: seq<Event>, v: ServoTuning, t: Tuning): (Servo, real)
    requires Sane(v) && Bounded(s, v)
    decreases |es|
  {
    if es == [] then (s, rate)
    else
      DrivenKeepsBounded(s, rate, es[0], v, t);
      var (s', rate') := Driven(s, rate, es[0], v, t);
      Drive(s', rate', es[1..], v, t)
  }

  ghost predicate NeverMisled(s: Servo, rate: real, es: seq<Event>, v: ServoTuning, t: Tuning)
    requires Sane(v) && Bounded(s, v)
    decreases |es|
  {
    es == [] ||
    (DrivenKeepsBounded(s, rate, es[0], v, t);
     var (s', rate') := Driven(s, rate, es[0], v, t);
     !Misleads(s, rate, es[0]) && NeverMisled(s', rate', es[1..], v, t))
  }

  /** One event keeps the belief true if and only if it is not such a restart. */
  lemma DrivenKeepsBelief(s: Servo, rate: real, e: Event, v: ServoTuning, t: Tuning)
    requires Sane(v) && Bounded(s, v) && s.appliedRate == rate
    ensures var (s', rate') := Driven(s, rate, e, v, t); s'.appliedRate == rate' <==> !Misleads(s, rate, e)
  {
    if e.Eval? {
      BeliefIsTrueExactlyUnlessRestarted(s, e.input, rate, v, t);
    }
  }

  /** In every run without such a restart the servo knows the rate of its player throughout. */
  lemma {:induction false} BeliefHoldsWithoutRestarts(s: Servo, rate: real, es: seq<Event>, v: ServoTuning, t: Tuning)
    requires Sane(v) && Bounded(s, v) && s.appliedRate == rate && NeverMisled(s, rate, es, v, t)
    ensures Drive(s, rate, es, v, t).0.appliedRate == Drive(s, rate, es, v, t).1
    decreases |es|
  {
    if es != [] {
      DrivenKeepsBounded(s, rate, es[0], v, t);
      DrivenKeepsBelief(s, rate, es[0], v, t);
      var (s', rate') := Driven(s, rate, es[0], v, t);
      BeliefHoldsWithoutRestarts(s', rate', es[1..], v, t);
    }
  }
}
