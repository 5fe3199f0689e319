/** What the drift controller guarantees over whole runs: seek pacing and rate ownership. */
module DriftRuns {
  import opened Common
  import opened Timelines
  import opened DriftControl
  import opened Sorting

  datatype Event = Eval(input: Input) | Suspend | Resume

  function Step(s: State, e: Event, t: Tuning): (State, Action) {
    match e
    case Eval(input) => Evaluate(s, input, t)
    case Suspend => (Suspended(s), NoAction)
    case Resume => (Resumed(s, t), NoAction)
  }

  function Run(s: State, es: seq<Event>, t: Tuning): State
    decreases |es|
  {
    if es == [] then s else Run(Step(s, es[0], t).0, es[1..], t)
  }

  /** The action answered to event `i` of the run. */
  function ActionAt(s: State, es: seq<Event>, i: nat, t: Tuning): Action
    requires i < |es|
  {
    Step(Run(s, es[..i], t), es[i], t).1
  }

  function Clock(last: real, e: Event): real {
    if e.Eval? then e.input.tLocal else last
  }

  /** Local time never decreases along the run. */
  ghost predicate Ordered(last: real, es: seq<Event>)
    decreases |es|
  {
    es == [] || (last <= Clock(last, es[0]) && Ordered(Clock(last, es[0]), es[1..]))
  }

  function Latest(last: real, es: seq<Event>): real
    decreases |es|
  {
    if es == [] then last else Latest(Clock(last, es[0]), es[1..])
  }

  lemma {:induction false} RunSplits(s: State, es: seq<Event>, i: nat, last: real, t: Tuning)
    requires i <= |es|
    ensures Run(s, es, t) == Run(Run(s, es[..i], t), es[i..], t)
    ensures Ordered(last, es) ==> Ordered(last, es[..i]) && Ordered(Latest(last, es[..i]), es[i..])
    decreases i
  {
    if i > 0 {
      RunSplits(Step(s, es[0], t).0, es[1..], i - 1, Clock(last, es[0]), t);
      assert es[..i][1..] == es[1..][..i - 1] && es[1..][i - 1..] == es[i..];
    } else {
      assert es[..0] == [] && es[0..] == es;
    }
  }

  // ---- pacing ----

  /** The one seek that is not paced: a single reading beyond the instant threshold. */
  ghost predicate GrossDesync(s: State, input: Input, t: Tuning) {
    && input.timeline.Some? && input.timeline.value.isPlaying && input.playerState == Playing
    && s.mode != SEEKING && s.mode != SUSPENDED
    && Abs(RawDrift(input, input.timeline.value)) > t.instantSeekS
  }

  /** No time stamp lies in the future, and a nudge is never older than the last seek. */
  ghost predicate Timed(s: State, now: real) {
    && (s.lastSeekAt.Some? ==> s.lastSeekAt.value <= now)
    && (s.mode == NUDGING ==>
          && s.nudgeSince.Some? && s.nudgeSince.value <= now
          && (s.lastSeekAt.Some? ==> s.lastSeekAt.value <= s.nudgeSince.value))
  }

  /** How one playing tick treats the seek clock. */
  lemma PlayingIsPaced(s: State, input: Input, tl: Timeline, t: Tuning, last: real)
    requires Timed(s, last) && last <= input.tLocal && t.nudgeStuckMs >= t.seekSpacingMs
    ensures var (s', a) := WhilePlaying(s, input, tl, t);
            && Timed(s', input.tLocal)
            && (if a.SeekTo? then s'.lastSeekAt == Some(input.tLocal) else s'.lastSeekAt == s.lastSeekAt)
            && (a.SeekTo? && !(s.mode != SEEKING && Abs(RawDrift(input, tl)) > t.instantSeekS) && s.lastSeekAt.Some? ==>
                  input.tLocal - s.lastSeekAt.value >= t.seekSpacingMs)
  {
  }

  lemma PausedIsPaced(s: State, input: Input, tl: Timeline, t: Tuning, last: real)
    requires Timed(s, last) && last <= input.tLocal
    ensures var (s', a) := WhileRoomPaused(s, input, tl, t);
            && Timed(s', input.tLocal) && !a.StartPlayer?
            && (if a.SeekTo? then s'.lastSeekAt == Some(input.tLocal) else s'.lastSeekAt == s.lastSeekAt)
            && (a.SeekTo? && s.lastSeekAt.Some? ==> input.tLocal - s.lastSeekAt.value >= t.seekSpacingMs)
  {
  }

  lemma StepIsPaced(s: State, e: Event, t: Tuning, last: real)
    requires Timed(s, last) && last <= Clock(last, e) && t.nudgeStuckMs >= t.seekSpacingMs
    ensures var (s', a) := Step(s, e, t);
            && Timed(s', Clock(last, e))
            && (if a.SeekTo? || a.StartPlayer? then e.Eval? && s'.lastSeekAt == Some(e.input.tLocal)
                else s'.lastSeekAt == s.lastSeekAt)
            && (a.SeekTo? && !GrossDesync(s, e.input, t) && s.lastSeekAt.Some? ==>
                  e.input.tLocal - s.lastSeekAt.value >= t.seekSpacingMs)
  {
    if e.Eval? && e.input.timeline.Some? {
      PlayingIsPaced(s, e.input, e.input.timeline.value, t, last);
      PausedIsPaced(s, e.input, e.input.timeline.value, t, last);
    }
  }

  lemma {:induction false} RunIsTimed(s: State, es: seq<Event>, t: Tuning, last: real)
    requires Timed(s, last) && Ordered(last, es) && t.nudgeStuckMs >= t.seekSpacingMs
    ensures Timed(Run(s, es, t), Latest(last, es))
    ensures s.lastSeekAt.Some? ==>
              Run(s, es, t).lastSeekAt.Some? && s.lastSeekAt.value <= Run(s, es, t).lastSeekAt.value
    decreases |es|
  {
    if es != [] {
      StepIsPaced(s, es[0], t, last);
      RunIsTimed(Step(s, es[0], t).0, es[1..], t, Clock(last, es[0]));
    }
  }

  /**
   * Over any run with nondecreasing local time, every seek outside the gross-desync path comes at
   * least seekSpacingMs after every earlier seek and play-start, suspensions notwithstanding.
   */
  lemma SeeksAreSpaced(es: seq<Event>, t: Tuning, last: real, i: nat, j: nat)
    requires t.nudgeStuckMs >= t.seekSpacingMs && Ordered(last, es)
    requires i < j < |es| && es[i].Eval? && es[j].Eval?
    requires ActionAt(Initial(t), es, i, t).SeekTo? || ActionAt(Initial(t), es, i, t).StartPlayer?
    requires ActionAt(Initial(t), es, j, t).SeekTo? && !GrossDesync(Run(Initial(t), es[..j], t), es[j].input, t)
    ensures es[j].input.tLocal - es[i].input.tLocal >= t.seekSpacingMs
  {
    var start := Initial(t);
    var before := Run(start, es[..i], t);
    var after := Step(before, es[i], t).0;
    var now := Latest(last, es[..i]);
    RunSplits(start, es, i, last, t);
    RunIsTimed(start, es[..i], t, last);
    StepIsPaced(before, es[i], t, now);
    var middle := es[i + 1..j];
    MiddleOfRun(start, es, i, j, last, t);
    RunIsTimed(after, middle, t, Clock(now, es[i]));
    StepIsPaced(Run(after, middle, t), es[j], t, Latest(Clock(now, es[i]), middle));
  }

  /** The run up to `j`, seen from just after `i`. */
  lemma MiddleOfRun(s: State, es: seq<Event>, i: nat, j: nat, last: real, t: Tuning)
    requires i < j < |es| && Ordered(last, es)
    ensures Run(s, es[..j], t) == Run(Step(Run(s, es[..i], t), es[i], t).0, es[i + 1..j], t)
    ensures var now := Clock(Latest(last, es[..i]), es[i]);
            Ordered(now, es[i + 1..j]) && Latest(now, es[i + 1..j]) <= Clock(Latest(now, es[i + 1..j]), es[j])
  {
    RunSplits(s, es[..j], i, last, t);
    assert es[..j][..i] == es[..i] && es[..j][i..] == es[i..j];
    assert es[i..j][1..] == es[i + 1..j];
    MiddleIsOrdered(s, es, i, j, last, t);
  }

  lemma MiddleIsOrdered(s: State, es: seq<Event>, i: nat, j: nat, last: real, t: Tuning)
    requires i < j < |es| && Ordered(last, es)
    ensures var now := Clock(Latest(last, es[..i]), es[i]);
            Ordered(now, es[i + 1..j]) && Latest(now, es[i + 1..j]) <= Clock(Latest(now, es[i + 1..j]), es[j])
  {
    RunSplits(s, es, i, last, t);
    var rest, now := es[i + 1..], Clock(Latest(last, es[..i]), es[i]);
    assert es[i..][1..] == rest;
    RunSplits(s, rest, j - i - 1, now, t);
    assert rest[..j - i - 1] == es[i + 1..j] && rest[j - i - 1..][0] == es[j];
  }

  ghost predicate RoomPlays(e: Event) {
    e.Eval? && e.input.timeline.Some? && e.input.timeline.value.isPlaying
  }

  /** Out of SEEKING, the cooldown of the last seek has passed. */
  ghost predicate Cooled(s: State, now: real, t: Tuning) {
    s.mode != SUSPENDED && (s.mode == SEEKING || (s.lastSeekAt.Some? ==> now - s.lastSeekAt.value >= t.seekCooldownMs))
  }

  lemma PlayingStepCools(s: State, e: Event, t: Tuning, last: real)
    requires Cooled(s, last, t) && last <= Clock(last, e) && RoomPlays(e)
    ensures var (s', a) := Step(s, e, t);
            && Cooled(s', e.input.tLocal, t)
            && (if a.SeekTo? || a.StartPlayer? then s'.lastSeekAt == Some(e.input.tLocal)
               else s'.lastSeekAt == s.lastSeekAt)
            && (a.SeekTo? && s.lastSeekAt.Some? ==> e.input.tLocal - s.lastSeekAt.value >= t.seekCooldownMs)
  {
  }

  lemma {:induction false} PlayingRunCools(s: State, es: seq<Event>, t: Tuning, last: real)
    requires Cooled(s, last, t) && Ordered(last, es) && s.lastSeekAt.Some? && s.lastSeekAt.value <= last
    requires forall k | 0 <= k < |es| :: RoomPlays(es[k])
    ensures var s' := Run(s, es, t);
            Cooled(s', Latest(last, es), t) && s'.lastSeekAt.Some? && s.lastSeekAt.value <= s'.lastSeekAt.value
    decreases |es|
  {
    if es != [] {
      PlayingStepCools(s, es[0], t, last);
      PlayingRunCools(Step(s, es[0], t).0, es[1..], t, Clock(last, es[0]));
    }
  }

  /** While the room keeps playing without suspension, even gross-desync seeks are a cooldown apart. */
  lemma SeeksAreCooled(s: State, es: seq<Event>, t: Tuning, last: real, i: nat, j: nat)
    requires Ordered(last, es) && i < j < |es|
    requires forall k | i <= k <= j :: RoomPlays(es[k])
    requires ActionAt(s, es, i, t).SeekTo? && ActionAt(s, es, j, t).SeekTo?
    ensures es[j].input.tLocal - es[i].input.tLocal >= t.seekCooldownMs
  {
    var before := Run(s, es[..i], t);
    var after := Step(before, es[i], t).0;
    PlayingSeekEntersSeeking(before, es[i], t);
    MiddleOfRun(s, es, i, j, last, t);
    var now := Clock(Latest(last, es[..i]), es[i]);
    var middle := es[i + 1..j];
    assert forall k | 0 <= k < |middle| :: middle[k] == es[i + 1 + k];
    PlayingRunCools(after, middle, t, now);
    PlayingStepCools(Run(after, middle, t), es[j], t, Latest(now, middle));
  }

  lemma PlayingSeekEntersSeeking(s: State, e: Event, t: Tuning)
    requires RoomPlays(e) && Step(s, e, t).1.SeekTo?
    ensures var s' := Step(s, e, t).0; s'.mode == SEEKING && s'.lastSeekAt == Some(e.input.tLocal)
  {
  }

  // ---- the lead ----

  /** A lead learned from residuals stays between 0 and its maximum. */
  lemma {:induction false} LeadStaysBounded(s: State, es: seq<Event>, t: Tuning)
    requires 0.0 <= s.seekLead <= t.seekLeadMaxS
    ensures 0.0 <= Run(s, es, t).seekLead <= t.seekLeadMaxS
    decreases |es|
  {
    if es != [] {
      LeadStep(s, es[0], t);
      LeadStaysBounded(Step(s, es[0], t).0, es[1..], t);
    }
  }

  lemma LeadStep(s: State, e: Event, t: Tuning)
    requires 0.0 <= s.seekLead <= t.seekLeadMaxS
    ensures 0.0 <= Step(s, e, t).0.seekLead <= t.seekLeadMaxS
  {
  }

  // ---- the playback rate ----

  /** The executor's side: a seek, a cleared rate and a suspension restore rate 1. */
  function Executed(rate: real, e: Event, a: Action): real {
    if e.Suspend? then 1.0
    else match a
      case SeekTo(_) => 1.0
      case ClearRate => 1.0
      case SetRate(r) => r
      case _ => rate
  }

  function RunRate(s: State, rate: real, es: seq<Event>, t: Tuning): real
    decreases |es|
  {
    if es == [] then rate
    else var (s', a) := Step(s, es[0], t); RunRate(s', Executed(rate, es[0], a), es[1..], t)
  }

  /**
   * Who owns the playback rate: without the flag the player is at 1; any other rate is the nudge
   * of the recorded sign; and NUDGING means that nudge is in effect and timed.
   */
  ghost predicate RateOwned(s: State, rate: real, t: Tuning) {
    && (!s.rateApplied ==> rate == 1.0)
    && (rate != 1.0 ==> s.nudgeSign in {-1, 1} && rate == 1.0 - s.nudgeSign as real * t.nudgeRate)
    && (s.mode == NUDGING ==>
          && s.rateApplied && s.nudgeSince.Some? && s.nudgeSign in {-1, 1}
          && rate == 1.0 - s.nudgeSign as real * t.nudgeRate)
  }

  lemma PlayingKeepsRateOwned(s: State, rate: real, input: Input, tl: Timeline, t: Tuning)
    requires RateOwned(s, rate, t)
    ensures var (s', a) := WhilePlaying(s, input, tl, t); RateOwned(s', Executed(rate, Eval(input), a), t)
  {
  }

  lemma StepKeepsRateOwned(s: State, rate: real, e: Event, t: Tuning)
    requires RateOwned(s, rate, t)
    ensures var (s', a) := Step(s, e, t); RateOwned(s', Executed(rate, e, a), t)
  {
    if e.Eval? && e.input.timeline.Some? {
      PlayingKeepsRateOwned(s, rate, e.input, e.input.timeline.value, t);
    }
  }

  /** In every run the controller's belief about the playback rate is truthful. */
  lemma {:induction false} RateIsOwned(s: State, rate: real, es: seq<Event>, t: Tuning)
    requires RateOwned(s, rate, t)
    ensures RateOwned(Run(s, es, t), RunRate(s, rate, es, t), t)
    decreases |es|
  {
    if es != [] {
      var (s', a) := Step(s, es[0], t);
      StepKeepsRateOwned(s, rate, es[0], t);
      RateIsOwned(s', Executed(rate, es[0], a), es[1..], t);
    }
  }

  // ---- LOCKED does not mean rate 1 ----

  /** A playing room whose player is found stopped: it is started. */
  ghost predicate Restart(e: Event) {
    RoomPlays(e) && (e.input.playerState == Paused || e.input.playerState == Cued)
  }

  /** A paused room whose player has stopped by itself, close enough or too soon to be sought. */
  ghost predicate PausedWithoutSeek(s: State, e: Event, t: Tuning) {
    && e.Eval? && e.input.timeline.Some? && !e.input.timeline.value.isPlaying
    && e.input.playerState != Playing && e.input.playerState != Buffering
    && (|| Abs(e.input.playerTime - e.input.timeline.value.mediaTime) <= t.pausedReconcileS
        || !LongerAgo(s.lastSeekAt, e.input.tLocal, t.seekSpacingMs))
  }

  /** The steps that leave a nudge without clearing it. */
  ghost predicate Leaks(s: State, e: Event, t: Tuning) {
    s.mode == NUDGING && (e.Resume? || Restart(e) || PausedWithoutSeek(s, e, t))
  }

  /**
   * Exactly three kinds of steps leave NUDGING with the nudge still applied: a resume, the start
   * of a stopped player, and a tick of a paused room that does not seek. Every other step that
   * leaves NUDGING restores rate 1.
   */
  lemma NudgeIsLeftOnExactlyByLeaks(s: State, rate: real, e: Event, t: Tuning)
    requires RateOwned(s, rate, t) && s.mode == NUDGING && t.nudgeRate != 0.0
    ensures var (s', a) := Step(s, e, t);
            && (Leaks(s, e, t) ==> s'.mode != NUDGING)
            && (s'.mode != NUDGING ==> (Executed(rate, e, a) != 1.0 <==> Leaks(s, e, t)))
            && (Leaks(s, e, t) ==> Executed(rate, e, a) == rate)
  {
  }

  ghost predicate Leakless(s: State, es: seq<Event>, t: Tuning)
    decreases |es|
  {
    es == [] || (!Leaks(s, es[0], t) && Leakless(Step(s, es[0], t).0, es[1..], t))
  }

  /** Only NUDGING plays at another rate than 1. */
  ghost predicate RateFollowsMode(s: State, rate: real, t: Tuning) {
    RateOwned(s, rate, t) && (s.mode != NUDGING ==> rate == 1.0)
  }

  lemma UnnudgedStepsKeepRateOne(s: State, e: Event, t: Tuning)
    requires s.mode != NUDGING
    ensures var (s', a) := Step(s, e, t); s'.mode != NUDGING ==> Executed(1.0, e, a) == 1.0
  {
  }

  /** In every run without such a step LOCKED, like every mode but NUDGING, does mean rate 1. */
  lemma {:induction false} LockedMeansRateOneWithoutLeaks(s: State, rate: real, es: seq<Event>, t: Tuning)
    requires RateFollowsMode(s, rate, t) && Leakless(s, es, t)
    ensures RateFollowsMode(Run(s, es, t), RunRate(s, rate, es, t), t)
    decreases |es|
  {
    if es != [] {
      var e := es[0];
      var (s', a) := Step(s, e, t);
      StepKeepsRateOwned(s, rate, e, t);
      if s.mode != NUDGING {
        UnnudgedStepsKeepRateOne(s, e, t);
      } else if t.nudgeRate != 0.0 {
        NudgeIsLeftOnExactlyByLeaks(s, rate, e, t);
      }
      LockedMeansRateOneWithoutLeaks(s', Executed(rate, e, a), es[1..], t);
    }
  }

  ghost predicate QuietWindow(s: State, t: Tuning) {
    forall x | x in s.driftWindow :: Abs(x) <= t.deadbandS
  }

  ghost predicate QuietTick(e: Event, t: Tuning) {
    RoomPlays(e) && e.input.playerState == Playing && Abs(RawDrift(e.input, e.input.timeline.value)) <= t.deadbandS
  }

  ghost predicate SteadyTick(s: State, e: Event, t: Tuning) {
    QuietTick(e, t) && !Within(s.lastSeekAt, e.input.tLocal, t.seekCooldownMs)
  }

  /** An in-band tick after a start settles towards LOCKED without touching the rate. */
  lemma SteadyTickSettles(s: State, e: Event, t: Tuning)
    requires (s.mode == SEEKING || s.mode == LOCKED) && QuietWindow(s, t) && SteadyTick(s, e, t) &&
             t.deadbandS <= t.instantSeekS
    ensures var (s', a) := Step(s, e, t);
            && a.NoAction? && QuietWindow(s', t) && s'.lastSeekAt == s.lastSeekAt
            && (s'.mode == LOCKED || (s'.mode == SEEKING && s'.stableEvals == s.stableEvals + 1))
            && (s.mode == LOCKED || s.stableEvals + 1 >= t.postSeekStableEvals ==> s'.mode == LOCKED)
  {
    QuietReading(s.driftWindow, RawDrift(e.input, e.input.timeline.value), t.deadbandS);
  }

  lemma QuietReading(window: seq<real>, raw: real, band: real)
    requires Abs(raw) <= band && forall x | x in window :: Abs(x) <= band
    ensures var w := Pushed(window, raw); Abs(Middle(w)) <= band && forall x | x in w :: Abs(x) <= band
  {
    var w := Pushed(window, raw);
    assert forall x | x in w :: x in window || x == raw;
    MiddleIsMember(w);
  }

  lemma {:induction false} SteadyRunSettles(s: State, rate: real, es: seq<Event>, t: Tuning)
    requires (s.mode == SEEKING || s.mode == LOCKED) && QuietWindow(s, t) && t.deadbandS <= t.instantSeekS
    requires forall k | 0 <= k < |es| :: SteadyTick(s, es[k], t)
    ensures RunRate(s, rate, es, t) == rate
    ensures s.mode == LOCKED || (es != [] && s.stableEvals + |es| >= t.postSeekStableEvals) ==>
            Run(s, es, t).mode == LOCKED
    decreases |es|
  {
    if es != [] {
      SteadyTickSettles(s, es[0], t);
      SteadyRunSettles(Step(s, es[0], t).0, rate, es[1..], t);
    }
  }

  /** Where a leak leads: LOCKED at once, or SEEKING or PAUSED_SYNC on the way there. */
  lemma LeakKeepsTheNudge(s: State, rate: real, e: Event, t: Tuning)
    requires RateOwned(s, rate, t) && t.nudgeRate != 0.0 && Leaks(s, e, t)
    ensures var (s', a) := Step(s, e, t);
            && rate != 1.0 && Executed(rate, e, a) == rate
            && (e.Resume? ==> s'.mode == LOCKED && s'.driftWindow == [])
            && (Restart(e) ==> s'.mode == SEEKING && s'.driftWindow == [] && s'.stableEvals == 0)
            && (PausedWithoutSeek(s, e, t) ==>
                  s'.mode == PAUSED_SYNC && s'.driftWindow == s.driftWindow && s'.lastSeekAt == s.lastSeekAt)
  {
  }

  /** A quiet tick after a paused room reports LOCKED and touches no rate. */
  lemma QuietTickLocks(s: State, e: Event, t: Tuning)
    requires s.mode == PAUSED_SYNC && QuietWindow(s, t) && t.deadbandS <= t.instantSeekS && QuietTick(e, t)
    ensures var (s', a) := Step(s, e, t); s'.mode == LOCKED && a.NoAction?
  {
    QuietReading(s.driftWindow, RawDrift(e.input, e.input.timeline.value), t.deadbandS);
  }

  /** Quiet ticks that suit where the leak led: none, enough to settle, or one. */
  ghost predicate Settling(s: State, leak: Event, es: seq<Event>, t: Tuning) {
    var s' := Step(s, leak, t).0;
    if leak.Resume? then es == []
    else if Restart(leak) then es != [] && |es| >= t.postSeekStableEvals &&
        forall k | 0 <= k < |es| :: SteadyTick(s', es[k], t)
    else |es| == 1 && QuietWindow(s, t) && QuietTick(es[0], t)
  }

  /**
   * LOCKED does not mean rate 1: after every leak, quiet ticks lead to LOCKED with the nudge still
   * applied. Together with the run above, leaks are exactly what can go wrong.
   */
  lemma LockedMayStillBeNudged(s: State, rate: real, leak: Event, es: seq<Event>, t: Tuning)
    requires RateOwned(s, rate, t) && t.nudgeRate != 0.0 && t.deadbandS <= t.instantSeekS
    requires Leaks(s, leak, t) && Settling(s, leak, es, t)
    ensures Run(s, [leak] + es, t).mode == LOCKED && RunRate(s, rate, [leak] + es, t) == rate != 1.0
  {
    var (s', a) := Step(s, leak, t);
    assert ([leak] + es)[1..] == es;
    LeakKeepsTheNudge(s, rate, leak, t);
    if Restart(leak) {
      SteadyRunSettles(s', rate, es, t);
    } else if !leak.Resume? {
      QuietTickLocks(s', es[0], t);
      assert es[1..] == [];
      assert Run(s', es, t) == Step(s', es[0], t).0;
      assert RunRate(s', rate, es, t) == Executed(rate, es[0], Step(s', es[0], t).1);
    }
  }
}
