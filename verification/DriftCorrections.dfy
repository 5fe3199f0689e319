/**
 * What the drift controller does about a drift: when exactly each action is taken, that a lasting
 * drift is corrected, that an outlier is not, that the seek lead converges, and that nothing from
 * before a suspension survives it.
 */
module DriftCorrections {
  import opened Common
  import opened Timelines
  import opened DriftControl
  import opened Sorting
  import ClockEstimation
  import opened DriftRuns

  // ---- when exactly each action is taken ----

  ghost predicate BothPlay(input: Input) {
    input.timeline.Some? && input.timeline.value.isPlaying && input.playerState == Playing
  }

  /** A reading that a settled controller takes for a gross desync. */
  ghost predicate Gross(s: State, input: Input, t: Tuning) {
    && BothPlay(input) && s.mode != SEEKING
    && Abs(input.playerTime - Project(input.timeline.value, input.serverNow)) > t.instantSeekS
  }

  /** A settled controller sees `drift` outside the deadband, and has for long enough, or comes from buffering. */
  ghost predicate Sustained(s: State, input: Input, drift: real, t: Tuning) {
    && BothPlay(input) && s.mode != SEEKING && !Gross(s, input, t) && Abs(drift) > t.deadbandS
    && (s.outOfBandCount + 1 >= t.sustainEvals || s.mode == BUFFERING)
  }

  ghost predicate Nudgeable(input: Input, drift: real, t: Tuning) {
    input.fractionalRateOK && Abs(drift) <= t.rateZoneMaxS
  }

  function Side(drift: real): int {
    if drift > 0.0 then 1 else -1
  }

  ghost predicate Stuck(s: State, input: Input, t: Tuning) {
    s.nudgeSince.Some? && input.tLocal - s.nudgeSince.value > t.nudgeStuckMs
  }

  ghost predicate Spaced(s: State, input: Input, d: real) {
    s.lastSeekAt.None? || input.tLocal - s.lastSeekAt.value >= d
  }

  /** The room is paused and the player, which is not playing, stands elsewhere. */
  ghost predicate Misplaced(s: State, input: Input, t: Tuning) {
    && input.timeline.Some? && !input.timeline.value.isPlaying
    && input.playerState != Playing && input.playerState != Buffering
    && Abs(input.playerTime - input.timeline.value.mediaTime) > t.pausedReconcileS
    && (s.lastSeekAt.None? || input.tLocal - s.lastSeekAt.value > t.seekSpacingMs)
  }

  /** The reasons to seek, all of them. */
  ghost predicate SeekDue(s: State, input: Input, drift: real, t: Tuning) {
    || Misplaced(s, input, t)
    || Gross(s, input, t)
    || (BothPlay(input) && s.mode == SEEKING && Abs(drift) > t.deadbandS
        && Spaced(s, input, t.seekCooldownMs) && Spaced(s, input, t.seekSpacingMs))
    || (Sustained(s, input, drift, t) && Nudgeable(input, drift, t)
        && s.mode == NUDGING && s.nudgeSign == Side(drift) && Stuck(s, input, t))
    || (Sustained(s, input, drift, t) && !Nudgeable(input, drift, t)
        && (Abs(drift) >= t.seekThresholdS || s.mode == BUFFERING) && Spaced(s, input, t.seekSpacingMs))
  }

  /** A suspended controller, or one without a timeline, does nothing. */
  lemma NothingWithoutATimeline(s: State, input: Input, t: Tuning)
    requires s.mode == SUSPENDED || input.timeline.None?
    ensures Evaluate(s, input, t) == (s, NoAction)
  {
  }

  /**
   * Starts and pauses answer a disagreement between room and player, and every disagreement is
   * answered. A start is settled like a seek, but teaches the lead nothing.
   */
  lemma StartsAndPausesExactly(s: State, input: Input, t: Tuning)
    requires s.mode != SUSPENDED && input.timeline.Some?
    ensures var (s', a) := Evaluate(s, input, t);
            var room := input.timeline.value.isPlaying;
            && (a.StartPlayer? ==>
                  && s'.mode == SEEKING && s'.seekTargetS.None? && s'.lastSeekAt == Some(input.tLocal)
                  && s'.driftWindow == [] && s'.stableEvals == 0)
            && (a.StartPlayer? <==> room && (input.playerState == Paused || input.playerState == Cued))
            && (a.PausePlayer? <==> !room && input.playerState == Playing)
  {
  }

  lemma PausedRoomSeeksExactly(s: State, input: Input, tl: Timeline, t: Tuning)
    requires input.timeline == Some(tl) && !tl.isPlaying && input.playerState != Buffering
    ensures var (s', a) := WhileRoomPaused(s, input, tl, t);
            && (a.SeekTo? <==> Misplaced(s, input, t))
            && (a.SeekTo? ==> a.mediaTime == tl.mediaTime && s'.lastSeekAt == Some(input.tLocal))
            && s'.seeksIssued == s.seeksIssued + if a.SeekTo? then 1 else 0
  {
  }

  lemma SettlingSeeksExactly(s: State, input: Input, tl: Timeline, drift: real, t: Tuning)
    requires tl.isPlaying && s.mode == SEEKING
    ensures var (s', a) := WhileSeeking(s, input, tl, drift, t);
            && (a.SeekTo? <==>
                Abs(drift) > t.deadbandS && Spaced(s, input, t.seekCooldownMs) && Spaced(s, input, t.seekSpacingMs))
            && (a.SeekTo? ==> Sought(s, s', a, input, tl))
            && s'.seeksIssued == s.seeksIssued + (if a.SeekTo? then 1 else 0) && s'.lastDrift == s.lastDrift
  {
  }

  /** The state and the target of a seek in a playing room. */
  ghost predicate Sought(s: State, s': State, a: Action, input: Input, tl: Timeline)
    requires a.SeekTo?
  {
    && s'.mode == SEEKING && s'.lastSeekAt == Some(input.tLocal) && s'.seekTargetS.Some?
    && s'.driftWindow == [] && s'.stableEvals == 0 && !s'.rateApplied
    && a.mediaTime == Max(0.0, Project(tl, input.serverNow) + s'.seekLead)
  }

  lemma OutOfBandSeeksExactly(s: State, input: Input, tl: Timeline, drift: real, wasBuffering: bool, t: Tuning)
    requires tl.isPlaying
    ensures var (s', a) := OutOfBand(s, input, tl, drift, wasBuffering, t);
            && (a.SeekTo? <==>
                && (s.outOfBandCount + 1 >= t.sustainEvals || wasBuffering)
                && if Nudgeable(input, drift, t)
                   then s.mode == NUDGING && s.nudgeSign == Side(drift) && Stuck(s, input, t)
                   else (Abs(drift) >= t.seekThresholdS || wasBuffering) && Spaced(s, input, t.seekSpacingMs))
            && (a.SeekTo? ==> Sought(s, s', a, input, tl))
            && s'.seeksIssued == s.seeksIssued + (if a.SeekTo? then 1 else 0) && s'.lastDrift == s.lastDrift
  {
  }

  lemma PlayingSeeksExactly(s: State, input: Input, tl: Timeline, t: Tuning)
    requires input.timeline == Some(tl) && tl.isPlaying && input.playerState == Playing
    ensures var (s', a) := WhilePlaying(s, input, tl, t);
            && (a.SeekTo? <==> SeekDue(s, input, s'.lastDrift, t))
            && (a.SeekTo? ==> Sought(s, s', a, input, tl))
            && s'.seeksIssued == s.seeksIssued + if a.SeekTo? then 1 else 0
  {
    var raw := RawDrift(input, tl);
    var s1 := Observed(s, raw);
    SettlingSeeksExactly(s1.(mode := SEEKING), input, tl, s1.lastDrift, t);
    OutOfBandSeeksExactly(s1, input, tl, s1.lastDrift, s.mode == BUFFERING, t);
  }

  /** A seek is issued exactly for these reasons, and goes where the room is. */
  lemma SeeksExactlyWhenDue(s: State, input: Input, t: Tuning)
    requires s.mode != SUSPENDED && input.timeline.Some?
    ensures var (s', a) := Evaluate(s, input, t);
            var tl := input.timeline.value;
            && (a.SeekTo? <==> SeekDue(s, input, s'.lastDrift, t))
            && s'.seeksIssued == s.seeksIssued + (if a.SeekTo? then 1 else 0)
            && (a.SeekTo? ==>
                  if tl.isPlaying then Sought(s, s', a, input, tl)
                  else a.mediaTime == tl.mediaTime && s'.lastSeekAt == Some(input.tLocal))
  {
    var tl := input.timeline.value;
    if !tl.isPlaying && input.playerState != Buffering {
      PausedRoomSeeksExactly(s, input, tl, t);
    } else if tl.isPlaying && input.playerState == Playing {
      PlayingSeeksExactly(s, input, tl, t);
    }
  }

  /** In particular a gross desync is corrected on the spot, by the very reading that shows it. */
  lemma GrossDesyncIsSoughtAtOnce(s: State, input: Input, t: Tuning)
    requires s.mode != SUSPENDED && Gross(s, input, t)
    ensures Evaluate(s, input, t).1.SeekTo?
  {
    SeeksExactlyWhenDue(s, input, t);
  }

  /** A nudge is set exactly when a lasting small drift has none yet or one of the wrong sign; it opposes the drift. */
  lemma NudgesExactlyWhenDue(s: State, input: Input, t: Tuning)
    requires s.mode != SUSPENDED && input.timeline.Some?
    ensures var (s', a) := Evaluate(s, input, t);
            var drift := s'.lastDrift;
            && (a.SetRate? <==>
                && Sustained(s, input, drift, t) && Nudgeable(input, drift, t)
                && (s.mode != NUDGING || s.nudgeSign != Side(drift)))
            && (a.SetRate? ==>
                  && a.rate == 1.0 - Side(drift) as real * t.nudgeRate
                  && s'.mode == NUDGING && s'.nudgeSince == Some(input.tLocal) && s'.nudgesIssued == s.nudgesIssued + 1)
            && (!a.SetRate? ==> s'.nudgesIssued == s.nudgesIssued)
  {
  }

  /** The rate is cleared exactly when a nudge has done its work, or the player buffers with a rate applied. */
  lemma ClearsExactlyWhenDue(s: State, input: Input, t: Tuning)
    requires s.mode != SUSPENDED && input.timeline.Some?
    ensures var (s', a) := Evaluate(s, input, t);
            var drift := s'.lastDrift;
            a.ClearRate? <==>
            || (input.playerState == Buffering && s.rateApplied)
            || (BothPlay(input) && s.mode == NUDGING && !Gross(s, input, t)
                && Abs(drift) <= t.deadbandS && Abs(drift) <= t.nudgeExitS)
  {
  }

  /** A stall is remembered, so that the first playing tick after it catches up, unless a seek is settling. */
  lemma StallsAreRemembered(s: State, input: Input, t: Tuning)
    requires s.mode != SUSPENDED && input.timeline.Some? && input.playerState == Buffering
    ensures Evaluate(s, input, t).0.mode == if s.mode == SEEKING then SEEKING else BUFFERING
  {
  }

  /**
   * The hysteresis counts consecutive readings outside the deadband: one inside starts it over, and
   * so does a seek; ticks without a reading leave it.
   */
  lemma HysteresisCountsConsecutiveReadings(s: State, input: Input, t: Tuning)
    ensures var (s', a) := Evaluate(s, input, t);
            s'.outOfBandCount ==
              if s.mode == SUSPENDED || !BothPlay(input) then s.outOfBandCount
              else if a.SeekTo? then 0
              else if s.mode == SEEKING then s.outOfBandCount
              else if Abs(s'.lastDrift) <= t.deadbandS then 0
              else s.outOfBandCount + 1
  {
  }

  /**
   * A settling seek is locked after as many consecutive readings inside the deadband, past the
   * cooldown, as asked for; one outside starts the count over.
   */
  lemma SettlingCountsConsecutiveReadings(s: State, input: Input, t: Tuning)
    requires s.mode == SEEKING && BothPlay(input)
    ensures var (s', a) := Evaluate(s, input, t);
            var stable := s.stableEvals + 1;
            if !Spaced(s, input, t.seekCooldownMs) then s'.mode == SEEKING && s'.stableEvals == s.stableEvals
            else if Abs(s'.lastDrift) > t.deadbandS then s'.mode == SEEKING && s'.stableEvals == 0
            else if stable >= t.postSeekStableEvals then s'.mode == LOCKED && s'.stableEvals == 0
            else s'.mode == SEEKING && s'.stableEvals == stable
  {
  }

  // ---- a lasting drift is corrected, an outlier is not ----

  /** On the given side, ahead or behind, by at least `least`. */
  ghost predicate Off(drift: real, ahead: bool, least: real) {
    if ahead then drift >= least else drift <= -least
  }

  ghost predicate OnSide(window: seq<real>, ahead: bool, least: real, most: real) {
    forall x | x in window :: Off(x, ahead, least) && Abs(x) <= most
  }

  lemma MiddleIsOnSide(window: seq<real>, raw: real, ahead: bool, least: real, most: real)
    requires OnSide(window, ahead, least, most) && Off(raw, ahead, least) && Abs(raw) <= most
    ensures var w := Pushed(window, raw);
            OnSide(w, ahead, least, most) && Off(Middle(w), ahead, least) && Abs(Middle(w)) <= most
  {
    var w := Pushed(window, raw);
    assert forall x | x in w :: x in window || x == raw;
    MiddleIsMember(w);
  }

  /** A playing tick that shows a drift on one side, beyond `least`, and not gross. */
  ghost predicate Drifting(e: Event, t: Tuning, ahead: bool, least: real) {
    && e.Eval? && BothPlay(e.input)
    && var raw := RawDrift(e.input, e.input.timeline.value); Off(raw, ahead, least) && Abs(raw) <= t.instantSeekS
  }

  /** Such a drift is within the controller's means: small enough to nudge, or large enough and late enough to seek. */
  ghost predicate Correctable(s: State, e: Event, t: Tuning, least: real)
    requires e.Eval?
  {
    if e.input.fractionalRateOK then t.instantSeekS <= t.rateZoneMaxS
    else least >= t.seekThresholdS && Spaced(s, e.input, t.seekSpacingMs)
  }

  lemma OutOfBandActs(s: State, input: Input, tl: Timeline, drift: real, t: Tuning)
    requires s.mode == LOCKED
    requires if input.fractionalRateOK then Abs(drift) <= t.rateZoneMaxS
             else Abs(drift) >= t.seekThresholdS && Spaced(s, input, t.seekSpacingMs)
    ensures var (s', a) := OutOfBand(s, input, tl, drift, false, t);
            if s.outOfBandCount + 1 >= t.sustainEvals then a.SetRate? || a.SeekTo?
            else a.NoAction? && s' == s.(outOfBandCount := s.outOfBandCount + 1)
  {
  }

  lemma DriftingTick(s: State, e: Event, t: Tuning, ahead: bool, least: real)
    requires s.mode == LOCKED && OnSide(s.driftWindow, ahead, least, t.instantSeekS)
    requires Drifting(e, t, ahead, least) && least > t.deadbandS && t.deadbandS >= 0.0 && Correctable(s, e, t, least)
    ensures var (s', a) := Step(s, e, t);
            if s.outOfBandCount + 1 >= t.sustainEvals then a.SetRate? || a.SeekTo?
            else
              && a.NoAction? && s'.mode == LOCKED && s'.outOfBandCount == s.outOfBandCount + 1
              && s'.lastSeekAt == s.lastSeekAt && OnSide(s'.driftWindow, ahead, least, t.instantSeekS)
  {
    var tl := e.input.timeline.value;
    var raw := RawDrift(e.input, tl);
    MiddleIsOnSide(s.driftWindow, raw, ahead, least, t.instantSeekS);
    var s1 := Observed(s, raw);
    OutOfBandActs(s1, e.input, tl, s1.lastDrift, t);
    assert Step(s, e, t) == OutOfBand(s1, e.input, tl, s1.lastDrift, false, t);
  }

  /**
   * A lasting drift is corrected: from LOCKED, once as many readings in a row as the hysteresis asks
   * for show a drift on one side that the controller has the means to correct, one of them is
   * answered by a nudge or a seek.
   */
  lemma {:induction false} LastingDriftIsCorrected(s: State, es: seq<Event>, t: Tuning, ahead: bool, least: real)
    returns (k: nat)
    requires s.mode == LOCKED && OnSide(s.driftWindow, ahead, least, t.instantSeekS)
    requires forall i | 0 <= i < |es| :: Drifting(es[i], t, ahead, least) && Correctable(s, es[i], t, least)
    requires least > t.deadbandS && t.deadbandS >= 0.0 && es != [] && s.outOfBandCount + |es| >= t.sustainEvals
    ensures k < |es| && (ActionAt(s, es, k, t).SetRate? || ActionAt(s, es, k, t).SeekTo?)
    decreases |es|
  {
    var (s', a) := Step(s, es[0], t);
    DriftingTick(s, es[0], t, ahead, least);
    if s.outOfBandCount + 1 >= t.sustainEvals {
      k := 0;
      assert es[..0] == [];
    } else {
      var rest := es[1..];
      assert forall i | 0 <= i < |rest| :: rest[i] == es[i + 1];
      var later := LastingDriftIsCorrected(s', rest, t, ahead, least);
      assert es[..later + 1][1..] == rest[..later];
      k := later + 1;
    }
  }

  /** After a resume the first such reading is enough. */
  lemma ResumedControllerActsAtOnce(s: State, e: Event, t: Tuning, ahead: bool, least: real)
    requires Drifting(e, t, ahead, least) && least > t.deadbandS && t.deadbandS >= 0.0 && Correctable(s, e, t, least)
    ensures var a := Step(Resumed(s, t), e, t).1; a.SetRate? || a.SeekTo?
  {
    DriftingTick(Resumed(s, t), e, t, ahead, least);
  }

  /** The median guards against outliers: of three readings, one may be anything. */
  lemma OneOutlierOfThreeIsHarmless(window: seq<real>, raw: real, band: real)
    requires |window| == 2 && band >= 0.0
    requires Outside(window + [raw], 0.0, band) <= 1
    ensures Abs(Middle(Pushed(window, raw))) <= band
  {
    var w := window + [raw];
    assert Pushed(window, raw) == w;
    assert WeakOrder(Below);
    SortSorts(Below, w);
    OutsideSort(Below, w, 0.0, band);
    ClockEstimation.MiddleIsInside(Sort(Below, w), 0.0, band);
  }

  /** The window is the last three readings of the current stretch. */
  lemma WindowKeepsTheLastThree(s: State, raw: real)
    ensures var w := Observed(s, raw).driftWindow;
            && |w| == (if |s.driftWindow| < 3 then |s.driftWindow| + 1 else |s.driftWindow|)
            && w[|w| - 1] == raw
            && forall i | 0 <= i < |w| - 1 :: w[i] == s.driftWindow[|s.driftWindow| - |w| + 1 + i]
  {
  }

  // ---- the seek lead converges ----

  /** A seek has settled, or missed: the one moment its residual is learned from. */
  ghost predicate Learns(s: State, e: Event, t: Tuning) {
    && s.mode == SEEKING && s.seekTargetS.Some? && e.Eval? && BothPlay(e.input)
    && Spaced(s, e.input, t.seekCooldownMs)
    && var drift := Observed(s, RawDrift(e.input, e.input.timeline.value)).lastDrift;
       if Abs(drift) <= t.deadbandS then s.stableEvals + 1 >= t.postSeekStableEvals
       else Spaced(s, e.input, t.seekSpacingMs)
  }

  /** The lead changes at those moments only, by half the residual within its bounds. */
  lemma LeadLearnsHalfTheResidual(s: State, e: Event, t: Tuning)
    ensures var s' := Step(s, e, t).0;
            if Learns(s, e, t) then s'.seekLead == Min(t.seekLeadMaxS, Max(0.0, s.seekLead - s'.lastDrift / 2.0))
            else s'.seekLead == s.seekLead
  {
  }

  /**
   * Geometric convergence: a player that lands late by `latency` shows, after a seek with a lead, the
   * difference of the two; each seek learned from halves the error of the lead.
   */
  lemma LeadErrorHalves(s: State, e: Event, t: Tuning, latency: real)
    requires Learns(s, e, t) && 0.0 <= latency <= t.seekLeadMaxS && 0.0 <= s.seekLead <= t.seekLeadMaxS
    requires Step(s, e, t).0.lastDrift == s.seekLead - latency
    ensures 2.0 * (Step(s, e, t).0.seekLead - latency) == s.seekLead - latency
  {
    LeadLearnsHalfTheResidual(s, e, t);
  }

  // ---- a suspension forgets ----

  /** Equal but for the counters and the last reported drift, which decide nothing. */
  ghost predicate Indistinct(a: State, b: State) {
    a == b.(seeksIssued := a.seeksIssued, nudgesIssued := a.nudgesIssued, lastDrift := a.lastDrift)
  }

  /** Past the reading, only the counters differ. */
  ghost predicate SameButCounts(a: State, b: State) {
    a == b.(seeksIssued := a.seeksIssued, nudgesIssued := a.nudgesIssued)
  }

  lemma LearningKeepsIndistinct(a: State, b: State, drift: real, t: Tuning, stable: nat)
    requires SameButCounts(a, b)
    ensures SameButCounts(LearnedLead(a.(stableEvals := stable), drift, t),
                          LearnedLead(b.(stableEvals := stable), drift, t))
  {
  }

  lemma SeekKeepsIndistinct(a: State, b: State, input: Input, tl: Timeline)
    requires SameButCounts(a, b)
    ensures var (a', x), (b', y) := IssueSeek(a, input, tl), IssueSeek(b, input, tl); SameButCounts(a', b') && x == y
  {
  }

  lemma SettlingKeepsIndistinct(a: State, b: State, input: Input, tl: Timeline, drift: real, t: Tuning)
    requires SameButCounts(a, b)
    ensures var (a', x), (b', y) := WhileSeeking(a, input, tl, drift, t), WhileSeeking(b, input, tl, drift, t);
            SameButCounts(a', b') && x == y
  {
    LearningKeepsIndistinct(a, b, drift, t, a.stableEvals + 1);
    LearningKeepsIndistinct(a, b, drift, t, 0);
    var x, y := LearnedLead(a.(stableEvals := 0), drift, t), LearnedLead(b.(stableEvals := 0), drift, t);
    SeekKeepsIndistinct(x, y, input, tl);
  }

  lemma NudgeKeepsIndistinct(a: State, b: State, input: Input, tl: Timeline, drift: real, t: Tuning)
    requires SameButCounts(a, b)
    ensures var (a', x), (b', y) := Nudge(a, input, tl, drift, t), Nudge(b, input, tl, drift, t);
            SameButCounts(a', b') && x == y
  {
  }

  lemma OutOfBandKeepsIndistinct(a: State, b: State, input: Input, tl: Timeline, drift: real, buffered: bool, t: Tuning)
    requires SameButCounts(a, b)
    ensures var (a', x) := OutOfBand(a, input, tl, drift, buffered, t);
            var (b', y) := OutOfBand(b, input, tl, drift, buffered, t);
            SameButCounts(a', b') && x == y
  {
    var n := a.outOfBandCount + 1;
    NudgeKeepsIndistinct(a.(outOfBandCount := n), b.(outOfBandCount := n), input, tl, drift, t);
  }

  lemma DecideKeepsIndistinct(a: State, b: State, input: Input, tl: Timeline, raw: real, buffered: bool, t: Tuning)
    requires SameButCounts(a, b)
    ensures var (a', x), (b', y) := Decide(a, input, tl, raw, buffered, t), Decide(b, input, tl, raw, buffered, t);
            SameButCounts(a', b') && x == y
  {
    SettlingKeepsIndistinct(a, b, input, tl, a.lastDrift, t);
    OutOfBandKeepsIndistinct(a, b, input, tl, a.lastDrift, buffered, t);
  }

  lemma PlayingKeepsIndistinct(a: State, b: State, input: Input, tl: Timeline, t: Tuning)
    requires Indistinct(a, b)
    ensures var (a', x), (b', y) := WhilePlaying(a, input, tl, t), WhilePlaying(b, input, tl, t);
            Indistinct(a', b') && x == y
  {
    var raw := RawDrift(input, tl);
    assert SameButCounts(Observed(a, raw), Observed(b, raw));
    DecideKeepsIndistinct(Observed(a, raw), Observed(b, raw), input, tl, raw, a.mode == BUFFERING, t);
  }

  lemma LifecycleKeepsIndistinct(a: State, b: State, input: Input, tl: Timeline, t: Tuning)
    requires Indistinct(a, b)
    ensures var (a', x), (b', y) := WhileBuffering(a), WhileBuffering(b); Indistinct(a', b') && x == y
    ensures var (a', x), (b', y) := WhileRoomPaused(a, input, tl, t), WhileRoomPaused(b, input, tl, t);
            Indistinct(a', b') && x == y
    ensures var (a', x), (b', y) := StartPlaying(a, input), StartPlaying(b, input); Indistinct(a', b') && x == y
  {
  }

  lemma EvaluateKeepsIndistinct(a: State, b: State, input: Input, t: Tuning)
    requires Indistinct(a, b)
    ensures var (a', x), (b', y) := Evaluate(a, input, t), Evaluate(b, input, t); Indistinct(a', b') && x == y
  {
    if a.mode != SUSPENDED && input.timeline.Some? {
      LifecycleKeepsIndistinct(a, b, input, input.timeline.value, t);
      PlayingKeepsIndistinct(a, b, input, input.timeline.value, t);
    }
  }

  lemma StepKeepsIndistinct(a: State, b: State, e: Event, t: Tuning)
    requires Indistinct(a, b)
    ensures var (a', x), (b', y) := Step(a, e, t), Step(b, e, t); Indistinct(a', b') && x == y
  {
    match e
    case Eval(input) => EvaluateKeepsIndistinct(a, b, input, t);
    case Suspend =>
    case Resume =>
  }

  lemma {:induction false} RunKeepsIndistinct(a: State, b: State, es: seq<Event>, i: nat, t: Tuning)
    requires Indistinct(a, b) && i < |es|
    ensures ActionAt(a, es, i, t) == ActionAt(b, es, i, t)
    decreases i
  {
    StepKeepsIndistinct(a, b, es[0], t);
    if i == 0 {
      assert es[..0] == [];
    } else {
      RunKeepsIndistinct(Step(a, es[0], t).0, Step(b, es[0], t).0, es[1..], i - 1, t);
      assert es[..i][1..] == es[1..][..i - 1];
    }
  }

  /**
   * A resumed controller never acts on what it saw before the suspension: two controllers that
   * agree on when they last sought and on the lead they learned answer every run alike after it.
   */
  lemma SuspensionForgets(a: State, b: State, es: seq<Event>, i: nat, t: Tuning)
    requires a.lastSeekAt == b.lastSeekAt && a.seekLead == b.seekLead && i < |es|
    ensures ActionAt(Resumed(Suspended(a), t), es, i, t) == ActionAt(Resumed(Suspended(b), t), es, i, t)
  {
    RunKeepsIndistinct(Resumed(Suspended(a), t), Resumed(Suspended(b), t), es, i, t);
  }
}
