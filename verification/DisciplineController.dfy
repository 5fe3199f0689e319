/**
 * The predictive clock-discipline servo (shared/sync-core/discipline-controller.ts): a PI loop
 * with a recursively estimated drift rate, around an inner drift controller that keeps the
 * lifecycle and the gross errors.
 */
module Discipline {
  import opened Common
  import opened DriftControl

  datatype ServoTuning = ServoTuning(
    kp: real, ki: real, forgetting: real, clampSpan: real,
    commandHysteresis: real, servoZoneS: real, integralClampS: real)

  datatype Servo = Servo(
    reactive: State, integral: real, bHat: real, rlsP: real, lastDrift: Option<real>, lastT: Option<real>,
    appliedRate: real, lastCommand: real, servoActive: bool)

  /** The inner controller's seek threshold moves to the edge of the servo zone. */
  function InnerTuning(v: ServoTuning, t: Tuning): Tuning {
    t.(seekThresholdS := v.servoZoneS)
  }

  function InitialServo(t: Tuning): Servo {
    Servo(Initial(t), 0.0, 0.0, 1.0, None, None, 1.0, 1.0, false)
  }

  function Reset(s: Servo): Servo {
    s.(integral := 0.0, lastDrift := None, lastT := None, servoActive := false, appliedRate := 1.0, lastCommand := 1.0)
  }

  /** Scalar recursive least squares with forgetting. */
  function Gain(p: real, forgetting: real): real
    requires forgetting + p != 0.0
  {
    p / (forgetting + p)
  }

  function Learn(bHat: real, p: real, measured: real, forgetting: real): (real, real)
    requires forgetting + p != 0.0 && forgetting != 0.0
  {
    var g := Gain(p, forgetting);
    (bHat + g * (measured - bHat), (1.0 - g) * (p / forgetting))
  }

  function Clamp(x: real, lo: real, hi: real): real {
    Max(lo, Min(hi, x))
  }

  predicate Clamped(s: Servo, v: ServoTuning) {
    Abs(s.lastCommand - 1.0) >= v.clampSpan - 0.000000001
  }

  /** The tunings for which the estimator divides by nothing but positive numbers. */
  predicate Forgets(v: ServoTuning) {
    0.0 < v.forgetting < 1.0
  }

  /** One measurement of the drift rate, corrected for the rate believed to be applied. */
  function MeasuredRate(drift: real, lastDrift: real, dt: real, appliedRate: real): real
    requires dt != 0.0
  {
    (drift - lastDrift) / dt - (appliedRate - 1.0)
  }

  function Integrated(integral: real, drift: real, dt: real, bound: real): real {
    Clamp(integral + drift * dt, -bound, bound)
  }

  function Updated(s: Servo, drift: real, now: real, v: ServoTuning): Servo
    requires Forgets(v) && s.rlsP > 0.0
  {
    if s.lastT.None? || s.lastDrift.None? then s
    else
      var dt := now - s.lastT.value;
      if !(0.0 < dt < 2.0) then s
      else
        var learned := Learn(s.bHat, s.rlsP, MeasuredRate(drift, s.lastDrift.value, dt, s.appliedRate), v.forgetting);
        s.(bHat := learned.0, rlsP := learned.1,
           integral := if Clamped(s, v) then s.integral else Integrated(s.integral, drift, dt, v.integralClampS))
  }

  function Command(integral: real, bHat: real, drift: real, v: ServoTuning): real {
    Clamp(1.0 - v.kp * drift - v.ki * integral - bHat, 1.0 - v.clampSpan, 1.0 + v.clampSpan)
  }

  /** The steady playing state: estimate, integrate, command. */
  function Servoed(s: Servo, input: Input, v: ServoTuning): (Servo, Action)
    requires Forgets(v) && s.rlsP > 0.0
  {
    var drift, now := s.reactive.lastDrift, input.tLocal / 1000.0;
    if Abs(drift) > v.servoZoneS then (s, NoAction)
    else
      var s1 := Updated(s, drift, now, v).(lastT := Some(now), lastDrift := Some(drift));
      var r := Command(s1.integral, s1.bHat, drift, v);
      var s2 := s1.(lastCommand := r, servoActive := true);
      if Abs(r - s2.appliedRate) < v.commandHysteresis then (s2, NoAction)
      else (s2.(appliedRate := r), SetRate(r))
  }

  /** `t` is the tuning of the inner controller, which never sees fractional rates. */
  function EvaluateServo(s: Servo, input: Input, v: ServoTuning, t: Tuning): (Servo, Action)
    requires Forgets(v) && s.rlsP > 0.0
  {
    var (inner, act) := Evaluate(s.reactive, input.(fractionalRateOK := false), t);
    var s1 := s.(reactive := inner);
    if act.SeekTo? then (Reset(s1), act)
    else if act != NoAction || inner.mode != LOCKED then
      if s.servoActive && input.playerState != Playing then (Reset(s1), if act == NoAction then ClearRate else act)
      else (s1, act)
    else Servoed(s1, input, v)
  }

  class DisciplineController {
    const servo: ServoTuning
    const reactive: DriftController
    var integral: real
    var bHat: real
    var rlsP: real
    var lastDrift: Option<real>
    var lastT: Option<real>
    var appliedRate: real
    var lastCommand: real
    var servoActive: bool

    ghost function View(): Servo
      reads this, reactive
    {
      Servo(reactive.View(), integral, bHat, rlsP, lastDrift, lastT, appliedRate, lastCommand, servoActive)
    }

    constructor (servo: ServoTuning, tuning: Tuning)
      ensures fresh(reactive) && this.servo == servo && reactive.tuning == InnerTuning(servo, tuning)
      ensures View() == InitialServo(tuning)
    {
      this.servo := servo;
      reactive := new DriftController(InnerTuning(servo, tuning));
      integral, bHat, rlsP, lastDrift, lastT := 0.0, 0.0, 1.0, None, None;
      appliedRate, lastCommand, servoActive := 1.0, 1.0, false;
    }

    method ResetServo()
      modifies this
      ensures View() == Reset(old(View()))
    {
      integral := 0.0;
      lastDrift := None;
      lastT := None;
      servoActive := false;
      appliedRate := 1.0;
      lastCommand := 1.0;
    }

    method Suspend()
      modifies this, reactive
      ensures View() == Reset(old(View())).(reactive := Suspended(old(View()).reactive))
    {
      reactive.Suspend();
      ResetServo();
    }

    method Resume()
      modifies reactive
      ensures View() == old(View()).(reactive := Resumed(old(View()).reactive, reactive.tuning))
    {
      reactive.Resume();
    }

    method OnRateApplied(applied: real)
      modifies this`appliedRate
      ensures View() == old(View()).(appliedRate := applied)
    {
      appliedRate := applied;
    }

    method Tick(input: Input) returns (action: Action)
      requires Forgets(servo) && rlsP > 0.0
      modifies this, reactive
      ensures (View(), action) == EvaluateServo(old(View()), input, servo, reactive.tuning)
    {
      var act := reactive.Tick(input.(fractionalRateOK := false));
      if act.SeekTo? {
        ResetServo();
        return act;
      }
      if act != NoAction || reactive.mode != LOCKED {
        if servoActive && input.playerState != Playing {
          ResetServo();
          return if act == NoAction then ClearRate else act;
        }
        return act;
      }
      action := Steer(input);
    }

    method Steer(input: Input) returns (action: Action)
      requires Forgets(servo) && rlsP > 0.0
      modifies this
      ensures (View(), action) == Servoed(old(View()), input, servo)
    {
      var drift := reactive.lastDrift;
      if Abs(drift) > servo.servoZoneS {
        return NoAction;
      }
      var now := input.tLocal / 1000.0;
      Estimate(drift, now);
      lastT := Some(now);
      lastDrift := Some(drift);
      var r := Command(integral, bHat, drift, servo);
      lastCommand := r;
      servoActive := true;
      if Abs(r - appliedRate) < servo.commandHysteresis {
        return NoAction;
      }
      appliedRate := r;
      return SetRate(r);
    }

    method Estimate(drift: real, now: real)
      requires Forgets(servo) && rlsP > 0.0
      modifies this`bHat, this`rlsP, this`integral
      ensures View() == Updated(old(View()), drift, now, servo)
    {
      if lastT.Some? && lastDrift.Some? {
        var dt := now - lastT.value;
        if 0.0 < dt < 2.0 {
          var measuredB := MeasuredRate(drift, lastDrift.value, dt, appliedRate);
          var learned := Learn(bHat, rlsP, measuredB, servo.forgetting);
          bHat := learned.0;
          rlsP := learned.1;
          var clamped := Abs(lastCommand - 1.0) >= servo.clampSpan - 0.000000001;
          if !clamped {
            integral := Integrated(integral, drift, dt, servo.integralClampS);
          }
        }
      }
    }
  }
}
