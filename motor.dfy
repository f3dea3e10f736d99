/** The motor task `task_motor`: state 0 sets up timer 1 for a 1.5 ms pulse;
    state 1 turns the velocity setpoint into the OCR1A compare value with
    `calc_pwm`. */
module Motor {
  import opened Types
  import opened Shares

  /** OCR1A written in setup (0x5E): a 1.5 ms pulse. */
  const SetupOcr1a: uint8 := 0x5E

  /** The `offset` that `run` sets before its loop. */
  const RunOffset: int8 := -2

  /** `calc_pwm`: saturate the velocity to -100..100, then map it to
      `offset + 94 + 0.3 * pwm`, truncated to an integer. The requirement on
      `offset` keeps that value non-negative, where C's conversion to
      `uint8_t` is defined and truncation is the floor. */
  function CalcPwm(offset: int8, pwm: int8): (r: uint8)
    requires -64 <= offset
    // the result lies 64..124 above `offset`
    ensures offset as int + 64 <= r as int <= offset as int + 124
    // r is the integer part of offset + 94 + 0.3 * (the saturated velocity)
    ensures 10 * r as int <= 10 * (offset as int + 94) + 3 * Clamp(pwm as int, -100, 100) < 10 * r as int + 10
    // velocity 0 gives offset + 94
    ensures pwm == 0 ==> r as int == offset as int + 94
  {
    var p := Clamp(pwm as int, -100, 100);
    ((10 * (offset as int + 94) + 3 * p) / 10) as uint8
  }

  /** Every velocity at or below -100 gives what -100 gives, every velocity
      at or above 100 what 100 gives. */
  lemma CalcPwmSaturates(offset: int8, pwm: int8)
    requires -64 <= offset
    ensures pwm <= -100 ==> CalcPwm(offset, pwm) == CalcPwm(offset, -100)
    ensures pwm >= 100 ==> CalcPwm(offset, pwm) == CalcPwm(offset, 100)
  {
  }

  /** A larger velocity never gives a shorter pulse. */
  lemma CalcPwmMonotone(offset: int8, a: int8, b: int8)
    requires -64 <= offset
    requires a <= b
    ensures CalcPwm(offset, a) <= CalcPwm(offset, b)
  {
  }

  /** With the offset `run` uses, velocity 0 gives 92 and every velocity
      gives a value in 62..122, both ends reached. */
  lemma RunOffsetRange(pwm: int8)
    ensures CalcPwm(RunOffset, 0) == 92
    ensures 62 <= CalcPwm(RunOffset, pwm) <= 122
    ensures CalcPwm(RunOffset, -100) == 62 && CalcPwm(RunOffset, 100) == 122
  {
  }

  /** The range 64..124 noted beside `calc_pwm` is the one for offset 0,
      where velocity 0 gives exactly the setup value 0x5E; with the offset
      `run` uses, the range is two lower and stops short of 64. */
  lemma NotedRangeIsForZeroOffset()
    ensures CalcPwm(0, -100) == 64 && CalcPwm(0, 100) == 124
    ensures CalcPwm(0, 0) == SetupOcr1a
    ensures CalcPwm(RunOffset, -100) < 64 && CalcPwm(RunOffset, 0) == SetupOcr1a - 2
  {
  }

  class MotorTask {
    /** The dispatch state inherited from the task base class. */
    var state: int
    /** `offset`, added to every pulse `calc_pwm` computes. */
    var offset: int8
    /** OCR1A (its high byte is 0): the compare value setting the pulse length. */
    var ocr1a: uint8

    predicate Valid()
      reads this
    {
      state == 0 || state == 1
    }

    /** A new task starts in state 0. The member `offset` has no value of its
        own until `run` begins, so it is taken as a parameter. */
    constructor (offset: int8)
      ensures Valid() && state == 0 && this.offset == offset
    {
      state, this.offset, ocr1a := 0, offset, 0;
    }

    /** The statement `run` executes once, before its loop. */
    method Begin()
      modifies this`offset
      ensures offset == RunOffset
    {
      offset := RunOffset;
    }

    /** One pass through `task_motor::run`'s `switch (state)`. */
    method Step(shares: Shares) returns (v: Verdict)
      requires -64 <= offset
      modifies this`state, this`ocr1a
      ensures old(Valid()) ==> Valid() && v == Ran
      // state 0: neutral pulse, then the control state, once
      ensures old(state) == 0 ==> state == 1 && ocr1a == SetupOcr1a
      // state 1: stay, and follow the velocity setpoint
      ensures old(state) == 1 ==> state == 1 && ocr1a == CalcPwm(offset, shares.motorVel)
      ensures v == IllegalState <==> old(state) != 0 && old(state) != 1
      ensures v == IllegalState ==> unchanged(this)
    {
      v := Ran;
      if state == 0 {
        // timer 1: fast PWM, non-inverting, prescaler 256, TOP in ICR1
        ocr1a := SetupOcr1a;
        state := 1;
      } else if state == 1 {
        ocr1a := CalcPwm(offset, shares.motorVel);
      } else {
        v := IllegalState;
      }
    }
  }
}
