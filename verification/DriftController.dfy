/**
 * The drift-correction state machine (shared/sync-core/drift-controller.ts).
 *
 * `Evaluate` specifies one control tick; the class is proved to compute it field by field. What
 * the controller owes its player over whole runs is proved in DriftRuns.
 */
module DriftControl {
  import opened Common
  import opened Timelines
  import opened Sorting

  datatype Lifecycle = Unstarted | Playing | Paused | Buffering | Ended | Cued

  datatype Input = Input(
    tLocal: real, serverNow: real, playerTime: real, playerState: Lifecycle,
    timeline: Option<Timeline>, fractionalRateOK: bool)

  datatype Action = NoAction | SeekTo(mediaTime: real) | SetRate(rate: real) | ClearRate | StartPlayer | PausePlayer

  datatype Mode = LOCKED | NUDGING | SEEKING | BUFFERING | PAUSED_SYNC | SUSPENDED

  datatype Tuning = Tuning(
    deadbandS: real, seekThresholdS: real, sustainEvals: nat, instantSeekS: real,
    seekSpacingMs: real, seekCooldownMs: real, postSeekStableEvals: nat,
    seekLeadS: real, seekLeadMaxS: real, rateZoneMaxS: real, nudgeRate: real,
    nudgeExitS: real, nudgeStuckMs: real, pausedReconcileS: real)

  /** `lastSeekAt` is None for the initial -Infinity. */
  datatype State = State(
    mode: Mode, driftWindow: seq<real>, outOfBandCount: nat, lastSeekAt: Option<real>,
    seekTargetS: Option<real>, stableEvals: nat, nudgeSince: Option<real>, rateApplied: bool,
    nudgeSign: int, seekLead: real, seeksIssued: nat, nudgesIssued: nat, lastDrift: real)

  function Initial(t: Tuning): State {
    State(LOCKED, [], 0, None, None, 0, None, false, 0, t.seekLeadS, 0, 0, 0.0)
  }

  function Suspended(s: State): State {
    s.(mode := SUSPENDED, driftWindow := [], outOfBandCount := 0, rateApplied := false, nudgeSign := 0,
       nudgeSince := None, seekTargetS := None, stableEvals := 0)
  }

  function Resumed(s: State, t: Tuning): State {
    s.(mode := LOCKED, driftWindow := [], outOfBandCount := t.sustainEvals)
  }

  /** Less than `d` ms have passed since `since`; never true of the infinite past. */
  predicate Within(since: Option<real>, now: real, d: real) {
    since.Some? && now - since.value < d
  }

  predicate LongerAgo(since: Option<real>, now: real, d: real) {
    since.None? || now - since.value > d
  }

  function LearnedLead(s: State, drift: real, t: Tuning): State {
    if s.seekTargetS.None? then s
    else s.(seekLead := Min(t.seekLeadMaxS, Max(0.0, s.seekLead - drift * 0.5)), seekTargetS := None)
  }

  function IssueSeek(s: State, input: Input, tl: Timeline): (State, Action) {
    var lead := if tl.isPlaying then s.seekLead else 0.0;
    var target := Project(tl, input.serverNow) + lead;
    (s.(mode := SEEKING, lastSeekAt := Some(input.tLocal), stableEvals := 0, outOfBandCount := 0, driftWindow := [],
        seeksIssued := s.seeksIssued + 1, rateApplied := false, nudgeSign := 0, seekTargetS := Some(target)),
     SeekTo(Max(0.0, target)))
  }

  function WhileBuffering(s: State): (State, Action) {
    var s1 := if s.mode == SEEKING then s else s.(mode := BUFFERING);
    if s.rateApplied then (s1.(rateApplied := false, nudgeSign := 0, nudgeSince := None), ClearRate) else (s1, NoAction)
  }

  function WhileRoomPaused(s: State, input: Input, tl: Timeline, t: Tuning): (State, Action) {
    if input.playerState == Playing then (s, PausePlayer)
    else
      var s1 := s.(mode := PAUSED_SYNC);
      if Abs(input.playerTime - tl.mediaTime) > t.pausedReconcileS &&
          LongerAgo(s.lastSeekAt, input.tLocal, t.seekSpacingMs)
      then (s1.(lastSeekAt := Some(input.tLocal), seeksIssued := s.seeksIssued + 1), SeekTo(tl.mediaTime))
      else (s1, NoAction)
  }

  function StartPlaying(s: State, input: Input): (State, Action) {
    (s.(mode := SEEKING, lastSeekAt := Some(input.tLocal), seekTargetS := None, stableEvals := 0, driftWindow := []),
        StartPlayer)
  }

  /** Drift readings of the last three evaluations, newest last. */
  function Pushed(window: seq<real>, raw: real): (w: seq<real>)
    ensures w != []
  {
    var w := window + [raw];
    if |w| > 3 then w[1..] else w
  }

  function WhileSeeking(s: State, input: Input, tl: Timeline, drift: real, t: Tuning): (State, Action) {
    if Within(s.lastSeekAt, input.tLocal, t.seekCooldownMs) then (s, NoAction)
    else if Abs(drift) <= t.deadbandS then
      var s1 := s.(stableEvals := s.stableEvals + 1);
      if s1.stableEvals >= t.postSeekStableEvals then
          (LearnedLead(s1, drift, t).(mode := LOCKED, stableEvals := 0), NoAction)
      else (s1, NoAction)
    else
      var s1 := s.(stableEvals := 0);
      if Within(s.lastSeekAt, input.tLocal, t.seekSpacingMs) then (s1, NoAction)
      else IssueSeek(LearnedLead(s1, drift, t), input, tl)
  }

  function NudgeRateFor(sign: int, t: Tuning): real {
    if sign > 0 then 1.0 - t.nudgeRate else 1.0 + t.nudgeRate
  }

  function Nudge(s: State, input: Input, tl: Timeline, drift: real, t: Tuning): (State, Action) {
    var want := if drift > 0.0 then 1 else -1;
    if s.mode != NUDGING then
      (s.(mode := NUDGING, nudgeSince := Some(input.tLocal), rateApplied := true, nudgeSign := want,
          nudgesIssued := s.nudgesIssued + 1),
       SetRate(NudgeRateFor(want, t)))
    else if want != s.nudgeSign then
      (s.(nudgeSign := want, nudgeSince := Some(input.tLocal), nudgesIssued := s.nudgesIssued + 1),
          SetRate(NudgeRateFor(want, t)))
    else if s.nudgeSince.Some? && input.tLocal - s.nudgeSince.value > t.nudgeStuckMs then
      IssueSeek(s.(nudgeSince := None, rateApplied := false, nudgeSign := 0), input, tl)
    else (s, NoAction)
  }

  function OutOfBand(s: State, input: Input, tl: Timeline, drift: real, wasBuffering: bool, t: Tuning)
    : (State, Action)
  {
    var s1 := s.(outOfBandCount := s.outOfBandCount + 1);
    if s1.outOfBandCount < t.sustainEvals && !wasBuffering then (s1, NoAction)
    else if input.fractionalRateOK && Abs(drift) <= t.rateZoneMaxS then Nudge(s1, input, tl, drift, t)
    else if Abs(drift) >= t.seekThresholdS || wasBuffering then
      if Within(s1.lastSeekAt, input.tLocal, t.seekSpacingMs) then (s1, NoAction) else IssueSeek(s1, input, tl)
    else (if s1.mode != NUDGING then s1.(mode := LOCKED) else s1, NoAction)
  }

  function InBand(s: State, drift: real, t: Tuning): (State, Action) {
    var s1 := s.(outOfBandCount := 0);
    if s.mode == NUDGING && Abs(drift) <= t.nudgeExitS then
      (s1.(mode := LOCKED, nudgeSince := None, rateApplied := false, nudgeSign := 0), ClearRate)
    else (if s.mode != NUDGING then s1.(mode := LOCKED) else s1, NoAction)
  }

  function RawDrift(input: Input, tl: Timeline): real {
    input.playerTime - Project(tl, input.serverNow)
  }

  /** Record the newest reading; the drift is the median of the window. */
  function Observed(s: State, raw: real): State {
    var window := Pushed(s.driftWindow, raw);
    s.(mode := if s.mode == BUFFERING then LOCKED else s.mode, driftWindow := window, lastDrift := Middle(window))
  }

  function Decide(s: State, input: Input, tl: Timeline, raw: real, wasBuffering: bool, t: Tuning): (State, Action) {
    if s.mode == SEEKING then WhileSeeking(s, input, tl, s.lastDrift, t)
    else if Abs(raw) > t.instantSeekS then IssueSeek(s, input, tl)
    else if Abs(s.lastDrift) <= t.deadbandS then InBand(s, s.lastDrift, t)
    else OutOfBand(s, input, tl, s.lastDrift, wasBuffering, t)
  }

  function WhilePlaying(s: State, input: Input, tl: Timeline, t: Tuning): (State, Action) {
    var raw := RawDrift(input, tl);
    Decide(Observed(s, raw), input, tl, raw, s.mode == BUFFERING, t)
  }

  function Evaluate(s: State, input: Input, t: Tuning): (State, Action) {
    if s.mode == SUSPENDED || input.timeline.None? then (s, NoAction)
    else
      var tl := input.timeline.value;
      if input.playerState == Buffering then WhileBuffering(s)
      else if !tl.isPlaying then WhileRoomPaused(s, input, tl, t)
      else if input.playerState == Paused || input.playerState == Cued then StartPlaying(s, input)
      else if input.playerState != Playing then (s, NoAction)
      else WhilePlaying(s, input, tl, t)
  }

  class DriftController {
    const tuning: Tuning
    var mode: Mode
    var driftWindow: seq<real>
    var outOfBandCount: nat
    var lastSeekAt: Option<real>
    var seekTargetS: Option<real>
    var stableEvals: nat
    var nudgeSince: Option<real>
    var rateApplied: bool
    var nudgeSign: int
    var seekLead: real
    var seeksIssued: nat
    var nudgesIssued: nat
    var lastDrift: real

    ghost function View(): State
      reads this
    {
      State(mode, driftWindow, outOfBandCount, lastSeekAt, seekTargetS, stableEvals, nudgeSince, rateApplied,
            nudgeSign, seekLead, seeksIssued, nudgesIssued, lastDrift)
    }

    constructor (tuning: Tuning)
      ensures this.tuning == tuning && View() == Initial(tuning)
    {
      this.tuning := tuning;
      mode, driftWindow, outOfBandCount, lastSeekAt, seekTargetS := LOCKED, [], 0, None, None;
      stableEvals, nudgeSince, rateApplied, nudgeSign := 0, None, false, 0;
      seekLead, seeksIssued, nudgesIssued, lastDrift := tuning.seekLeadS, 0, 0, 0.0;
    }

    method Suspend()
      modifies this
      ensures View() == Suspended(old(View()))
    {
      mode := SUSPENDED;
      driftWindow := [];
      outOfBandCount := 0;
      rateApplied := false;
      nudgeSign := 0;
      nudgeSince := None;
      seekTargetS := None;
      stableEvals := 0;
    }

    method Resume()
      modifies this
      ensures View() == Resumed(old(View()), tuning)
    {
      mode := LOCKED;
      driftWindow := [];
      outOfBandCount := tuning.sustainEvals;
    }

    method Tick(input: Input) returns (action: Action)
      modifies this
      ensures (View(), action) == Evaluate(old(View()), input, tuning)
    {
      if mode == SUSPENDED || input.timeline.None? {
        return NoAction;
      }
      var tl := input.timeline.value;
      if input.playerState == Buffering {
        if mode != SEEKING {
          mode := BUFFERING;
        }
        if rateApplied {
          rateApplied := false;
          nudgeSign := 0;
          nudgeSince := None;
          return ClearRate;
        }
        return NoAction;
      }
      if !tl.isPlaying {
        action := Reconcile(input, tl);
        return;
      }
      if input.playerState == Paused || input.playerState == Cued {
        mode := SEEKING;
        lastSeekAt := Some(input.tLocal);
        seekTargetS := None;
        stableEvals := 0;
        driftWindow := [];
        return StartPlayer;
      }
      if input.playerState != Playing {
        return NoAction;
      }
      action := Track(input, tl);
    }

    method Reconcile(input: Input, tl: Timeline) returns (action: Action)
      modifies this
      ensures (View(), action) == WhileRoomPaused(old(View()), input, tl, tuning)
    {
      if input.playerState == Playing {
        return PausePlayer;
      }
      mode := PAUSED_SYNC;
      var err := Abs(input.playerTime - tl.mediaTime);
      if err > tuning.pausedReconcileS && LongerAgo(lastSeekAt, input.tLocal, tuning.seekSpacingMs) {
        lastSeekAt := Some(input.tLocal);
        seeksIssued := seeksIssued + 1;
        return SeekTo(tl.mediaTime);
      }
      return NoAction;
    }

    /** The drift logic proper: the room and the player are both playing. */
    method Track(input: Input, tl: Timeline) returns (action: Action)
      modifies this
      ensures (View(), action) == WhilePlaying(old(View()), input, tl, tuning)
    {
      var wasBuffering := mode == BUFFERING;
      var expected := Project(tl, input.serverNow);
      var rawDrift := input.playerTime - expected;
      Observe(rawDrift);
      action := Dispatch(input, tl, rawDrift, wasBuffering);
    }

    method Observe(rawDrift: real)
      modifies this`mode, this`driftWindow, this`lastDrift
      ensures View() == Observed(old(View()), rawDrift)
    {
      if mode == BUFFERING {
        mode := LOCKED;
      }
      driftWindow := driftWindow + [rawDrift];
      if |driftWindow| > 3 {
        driftWindow := driftWindow[1..];
      }
      lastDrift := Middle(driftWindow);
    }

    method Dispatch(input: Input, tl: Timeline, rawDrift: real, wasBuffering: bool) returns (action: Action)
      modifies this
      ensures (View(), action) == Decide(old(View()), input, tl, rawDrift, wasBuffering, tuning)
    {
      if mode == SEEKING {
        action := Settle(input, tl, lastDrift);
      } else if Abs(rawDrift) > tuning.instantSeekS {
        action := Seek(input, tl);
      } else if Abs(lastDrift) <= tuning.deadbandS {
        action := Relax(lastDrift);
      } else {
        action := Correct(input, tl, lastDrift, wasBuffering);
      }
    }

    method Relax(drift: real) returns (action: Action)
      modifies this
      ensures (View(), action) == InBand(old(View()), drift, tuning)
    {
      outOfBandCount := 0;
      if mode == NUDGING && Abs(drift) <= tuning.nudgeExitS {
        mode := LOCKED;
        nudgeSince := None;
        rateApplied := false;
        nudgeSign := 0;
        return ClearRate;
      }
      if mode != NUDGING {
        mode := LOCKED;
      }
      return NoAction;
    }

    method Settle(input: Input, tl: Timeline, drift: real) returns (action: Action)
      modifies this
      ensures (View(), action) == WhileSeeking(old(View()), input, tl, drift, tuning)
    {
      if Within(lastSeekAt, input.tLocal, tuning.seekCooldownMs) {
        return NoAction;
      }
      if Abs(drift) <= tuning.deadbandS {
        stableEvals := stableEvals + 1;
        if stableEvals >= tuning.postSeekStableEvals {
          if seekTargetS.Some? {
            seekLead := Min(tuning.seekLeadMaxS, Max(0.0, seekLead - drift * 0.5));
            seekTargetS := None;
          }
          mode := LOCKED;
          stableEvals := 0;
        }
        return NoAction;
      }
      stableEvals := 0;
      if Within(lastSeekAt, input.tLocal, tuning.seekSpacingMs) {
        return NoAction;
      }
      if seekTargetS.Some? {
        seekLead := Min(tuning.seekLeadMaxS, Max(0.0, seekLead - drift * 0.5));
        seekTargetS := None;
      }
      action := Seek(input, tl);
    }

    method Correct(input: Input, tl: Timeline, drift: real, wasBuffering: bool) returns (action: Action)
      modifies this
      ensures (View(), action) == OutOfBand(old(View()), input, tl, drift, wasBuffering, tuning)
    {
      outOfBandCount := outOfBandCount + 1;
      if outOfBandCount < tuning.sustainEvals && !wasBuffering {
        return NoAction;
      }
      if input.fractionalRateOK && Abs(drift) <= tuning.rateZoneMaxS {
        var wantSign := if drift > 0.0 then 1 else -1;
        if mode != NUDGING {
          mode := NUDGING;
          nudgeSince := Some(input.tLocal);
          rateApplied := true;
          nudgeSign := wantSign;
          nudgesIssued := nudgesIssued + 1;
          return SetRate(if wantSign > 0 then 1.0 - tuning.nudgeRate else 1.0 + tuning.nudgeRate);
        }
        if wantSign != nudgeSign {
          nudgeSign := wantSign;
          nudgeSince := Some(input.tLocal);
          nudgesIssued := nudgesIssued + 1;
          return SetRate(if wantSign > 0 then 1.0 - tuning.nudgeRate else 1.0 + tuning.nudgeRate);
        }
        if nudgeSince.Some? && input.tLocal - nudgeSince.value > tuning.nudgeStuckMs {
          nudgeSince := None;
          rateApplied := false;
          nudgeSign := 0;
          action := Seek(input, tl);
          return;
        }
        return NoAction;
      }
      if Abs(drift) >= tuning.seekThresholdS || wasBuffering {
        if Within(lastSeekAt, input.tLocal, tuning.seekSpacingMs) {
          return NoAction;
        }
        action := Seek(input, tl);
        return;
      }
      if mode != NUDGING {
        mode := LOCKED;
      }
      return NoAction;
    }

    method Seek(input: Input, tl: Timeline) returns (action: Action)
      modifies this
      ensures (View(), action) == IssueSeek(old(View()), input, tl)
    {
      mode := SEEKING;
      lastSeekAt := Some(input.tLocal);
      stableEvals := 0;
      outOfBandCount := 0;
      driftWindow := [];
      seeksIssued := seeksIssued + 1;
      rateApplied := false;
      nudgeSign := 0;
      var lead := if tl.isPlaying then seekLead else 0.0;
      var target := Project(tl, input.serverNow) + lead;
      seekTargetS := Some(target);
      return SeekTo(Max(0.0, target));
    }
  }
}
