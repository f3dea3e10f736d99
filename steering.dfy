/** The steering task `task_steering`: state 0 sets up timer 2 for a 1.5 ms
    servo pulse; state 1 turns the servo setpoint into the OCR2A compare value
    with `calc_pwm`. */
module Steering {
  import opened Types
  import opened Shares

  /** OCR2A written in setup: a 1.5 ms pulse, the centred servo. */
  const SetupOcr2a: uint8 := 24

  /** `calc_pwm`: saturate the angle to -90..90, then map it to
      `24 + 0.077 * pwm`, truncated to an integer (the value is always
      positive, so truncation is the floor). */
  function CalcPwm(pwm: int8): (r: uint8)
    // the result lies in 17..30, inside the 16..31 noted beside the code
    ensures 17 <= r <= 30
    // r is the integer part of 24 + 0.077 * (the saturated angle)
    ensures 1000 * r as int <= 24000 + 77 * Clamp(pwm as int, -90, 90) < 1000 * r as int + 1000
    // angle 0 gives the setup value
    ensures pwm == 0 ==> r == SetupOcr2a
  {
    var p := Clamp(pwm as int, -90, 90);
    ((24000 + 77 * p) / 1000) as uint8
  }

  /** Every angle beyond either bound gives what the bound gives. */
  lemma CalcPwmSaturates(pwm: int8)
    ensures pwm <= -90 ==> CalcPwm(pwm) == CalcPwm(-90)
    ensures pwm >= 90 ==> CalcPwm(pwm) == CalcPwm(90)
  {
  }

  /** A larger angle never gives a shorter pulse. */
  lemma CalcPwmMonotone(a: int8, b: int8)
    requires a <= b
    ensures CalcPwm(a) <= CalcPwm(b)
  {
  }

  /** Both ends of 17..30 are reached, so 16 and 31 never are. */
  lemma CalcPwmEnds()
    ensures CalcPwm(-90) == 17 && CalcPwm(90) == 30
  {
  }

  class SteeringTask {
    /** The dispatch state inherited from the task base class. */
    var state: int
    /** OCR2A: the compare value setting the servo pulse length. */
    var ocr2a: uint8

    predicate Valid()
      reads this
    {
      state == 0 || state == 1
    }

    constructor ()
      ensures Valid() && state == 0
    {
      state, ocr2a := 0, 0;
    }

    /** One pass through `task_steering::run`'s `switch (state)`. */
    method Step(shares: Shares) returns (v: Verdict)
      modifies this`state, this`ocr2a
      ensures old(Valid()) ==> Valid() && v == Ran
      // state 0: centred pulse, then the control state, once
      ensures old(state) == 0 ==> state == 1 && ocr2a == SetupOcr2a
      // state 1: stay, and follow the servo setpoint
      ensures old(state) == 1 ==> state == 1 && ocr2a == CalcPwm(shares.servoPos)
      ensures v == IllegalState <==> old(state) != 0 && old(state) != 1
      ensures v == IllegalState ==> unchanged(this)
    {
      v := Ran;
      if state == 0 {
        // timer 2: fast PWM, non-inverting, prescaler 1024
        ocr2a := SetupOcr2a;
        state := 1;
      } else if state == 1 {
        ocr2a := CalcPwm(shares.servoPos);
      } else {
        v := IllegalState;
      }
    }
  }
}
