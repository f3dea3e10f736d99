/** The arbitration task `task_car_control`: a four-state machine (0 init,
    1 drive, 2 stop, 3 obstacle-avoid) that reads the drive command and the
    measured echo width and writes the motor and servo setpoints. Both
    revisions of the task have this dispatch. */
module CarControl {
  import opened Types
  import opened Shares

  const Init: int := 0
  const Driving: int := 1
  const Stopped: int := 2
  const Avoiding: int := 3

  /** Echo width, in ticks, against which obstacle-avoid compares. */
  const Threshold: uint16 := 150

  /** Setpoints the task writes: forward speed and the two servo values. */
  const Forward: int8 := 25
  const Deflected: int8 := 90

  /** What one iteration does: the next state and the setpoints it puts, if
      any (`None`: the cell is not written this iteration), or the
      illegal-state branch. */
  datatype Effect =
    | Continue(next: int, motor: Option<int8>, servo: Option<int8>)
    | Halt

  predicate WritesMotor(e: Effect, m: int8) {
    e.Continue? && e.motor == Some(m)
  }

  predicate WritesServo(e: Effect, p: int8) {
    e.Continue? && e.servo == Some(p)
  }

  /** One pass through `task_car_control::run`'s `switch (state)`, given the
      drive command and the echo width the iteration reads. */
  function Arbitrate(state: int, drive: uint8, width: uint16): (e: Effect)
    // only the four known states run, and none of them leads back to init
    ensures e.Continue? <==> Init <= state <= Avoiding
    ensures e.Continue? ==> Driving <= e.next <= Avoiding
    // every motor value put is 0 or 25, and 25 only in the drive state
    ensures e.Continue? && e.motor.Some? ==> e.motor.value == 0 || e.motor.value == Forward
    ensures WritesMotor(e, Forward) ==> state == Driving
    // every servo value put is 0 or 90
    ensures e.Continue? && e.servo.Some? ==> e.servo.value == 0 || e.servo.value == Deflected
    // the two setpoints are always written together
    ensures e.Continue? ==> (e.motor.Some? <==> e.servo.Some?)
  {
    if state == Init then
      Continue(Stopped, Some(0), Some(0))
    else if state == Driving then
      Continue(if drive == 0 then Stopped else Driving, Some(Forward), Some(0))
    else if state == Stopped then
      Continue(if drive == 1 then Driving else if drive == 2 then Avoiding else Stopped,
               Some(0), Some(Deflected))
    else if state == Avoiding then
      if drive == 0 then Continue(Stopped, None, None)
      else if width < Threshold then Continue(Avoiding, Some(0), Some(Deflected))
      else if width > Threshold then Continue(Avoiding, Some(0), Some(0))
      else Continue(Avoiding, None, None)
    else
      Halt
  }

  /** Init zeroes both setpoints and always goes to stop. */
  lemma InitZeroesAndStops(drive: uint8, width: uint16)
    ensures Arbitrate(Init, drive, width) == Continue(Stopped, Some(0), Some(0))
  {
  }

  /** Drive puts speed 25 and servo 0 on every iteration, the leaving one
      included, and leaves exactly when the command is 0; in particular a
      command of 2 never goes straight from drive to obstacle-avoid. */
  lemma DrivingLeavesOnlyOnStop(drive: uint8, width: uint16)
    ensures var e := Arbitrate(Driving, drive, width);
            WritesMotor(e, Forward) && WritesServo(e, 0) &&
            (e.next == Stopped <==> drive == 0) &&
            (e.next == Driving <==> drive != 0)
  {
  }

  /** Stop puts speed 0 and servo 90 on every iteration, the leaving one
      included; command 1 goes to drive, 2 to obstacle-avoid, anything else stays. */
  lemma StoppedFollowsCommand(drive: uint8, width: uint16)
    ensures var e := Arbitrate(Stopped, drive, width);
            WritesMotor(e, 0) && WritesServo(e, Deflected) &&
            (e.next == Driving <==> drive == 1) &&
            (e.next == Avoiding <==> drive == 2) &&
            (e.next == Stopped <==> drive != 1 && drive != 2)
  {
  }

  /** Obstacle-avoid: command 0 goes to stop without putting a setpoint;
      otherwise it stays, holds the motor at 0, and steers by the echo width
      against the 150-tick threshold, putting nothing at exactly 150. */
  lemma AvoidingSteersByWidth(drive: uint8, width: uint16)
    ensures var e := Arbitrate(Avoiding, drive, width);
            (drive == 0 ==> e == Continue(Stopped, None, None)) &&
            (drive != 0 ==> e.next == Avoiding) &&
            (drive != 0 && width < Threshold ==> WritesMotor(e, 0) && WritesServo(e, Deflected)) &&
            (drive != 0 && width > Threshold ==> WritesMotor(e, 0) && WritesServo(e, 0)) &&
            (drive != 0 && width == Threshold ==> e.motor == None && e.servo == None)
  {
  }

  /** One reading of the two input cells per iteration. */
  datatype Sample = Sample(drive: uint8, width: uint16)

  /** The state after running the task on `samples`, one per iteration
      (the state a halting iteration leaves is kept). */
  function StateAfter(state: int, samples: seq<Sample>): int
    decreases |samples|
  {
    if samples == [] then state
    else
      var e := Arbitrate(state, samples[0].drive, samples[0].width);
      StateAfter(if e.Continue? then e.next else state, samples[1..])
  }

  /** The setpoints the task has put after running on `samples`, starting
      from the values the cells held. */
  function SetpointsAfter(state: int, motor: int8, servo: int8, samples: seq<Sample>): (int8, int8)
    decreases |samples|
  {
    if samples == [] then (motor, servo)
    else
      var e := Arbitrate(state, samples[0].drive, samples[0].width);
      if e.Halt? then SetpointsAfter(state, motor, servo, samples[1..])
      else
        SetpointsAfter(e.next,
                       if e.motor.Some? then e.motor.value else motor,
                       if e.servo.Some? then e.servo.value else servo,
                       samples[1..])
  }

  /** Started from any of the four states, the task never reaches the
      illegal-state branch, whatever commands and widths it reads, and after
      its first iteration it is never back in init. */
  lemma {:induction false} NeverIllegal(state: int, samples: seq<Sample>, k: nat)
    requires Init <= state <= Avoiding
    requires k < |samples|
    ensures Arbitrate(StateAfter(state, samples[..k]), samples[k].drive, samples[k].width).Continue?
    ensures Driving <= StateAfter(state, samples[..k + 1]) <= Avoiding
    decreases k
  {
    if k > 0 {
      var e := Arbitrate(state, samples[0].drive, samples[0].width);
      assert samples[..k][1..] == samples[1..][..k - 1];
      assert samples[..k + 1][1..] == samples[1..][..k];
      NeverIllegal(e.next, samples[1..], k - 1);
    }
  }

  /** Once the setpoint cells hold values from {0, 25} and {0, 90}, as they
      do after init, they keep doing so whatever the task reads. */
  lemma {:induction false} SetpointsStayInRange(state: int, motor: int8, servo: int8, samples: seq<Sample>)
    requires motor == 0 || motor == Forward
    requires servo == 0 || servo == Deflected
    ensures var (m, p) := SetpointsAfter(state, motor, servo, samples);
            (m == 0 || m == Forward) && (p == 0 || p == Deflected)
    decreases |samples|
  {
    if samples != [] {
      var e := Arbitrate(state, samples[0].drive, samples[0].width);
      if e.Halt? {
        SetpointsStayInRange(state, motor, servo, samples[1..]);
      } else {
        SetpointsStayInRange(e.next,
                             if e.motor.Some? then e.motor.value else motor,
                             if e.servo.Some? then e.servo.value else servo,
                             samples[1..]);
      }
    }
  }

  class CarControlTask {
    /** The dispatch state inherited from the task base class. */
    var state: int

    predicate Valid()
      reads this
    {
      Init <= state <= Avoiding
    }

    constructor ()
      ensures Valid() && state == Init
    {
      state := Init;
    }

    /** One pass through `task_car_control::run`'s `switch (state)`. The
        `modifies` clause is the statement that the task never writes the
        drive command or the echo width. */
    method Step(shares: Shares) returns (v: Verdict)
      modifies this`state, shares`motorVel, shares`servoPos
      ensures old(Valid()) ==> Valid() && v == Ran
      ensures var e := Arbitrate(old(state), old(shares.driveState), old(shares.width1));
              (v == IllegalState <==> e.Halt?) &&
              state == (if e.Continue? then e.next else old(state)) &&
              (e.Continue? && e.motor.Some? ==> shares.motorVel == e.motor.value) &&
              (e.Continue? && e.servo.Some? ==> shares.servoPos == e.servo.value) &&
              (e.Halt? || e.motor.None? ==> shares.motorVel == old(shares.motorVel)) &&
              (e.Halt? || e.servo.None? ==> shares.servoPos == old(shares.servoPos))
    {
      v := Ran;
      if state == Init {
        shares.motorVel := 0;
        shares.servoPos := 0;
        state := Stopped;
      } else if state == Driving {
        if shares.driveState == 0 {
          state := Stopped;
        }
        shares.motorVel := Forward;
        shares.servoPos := 0;
      } else if state == Stopped {
        if shares.driveState == 1 {
          state := Driving;
        } else if shares.driveState == 2 {
          state := Avoiding;
        }
        shares.motorVel := 0;
        shares.servoPos := Deflected;
      } else if state == Avoiding {
        if shares.driveState == 0 {
          state := Stopped;
        } else if shares.width1 < Threshold {
          shares.motorVel := 0;
          shares.servoPos := Deflected;
        } else if shares.width1 > Threshold {
          shares.motorVel := 0;
          shares.servoPos := 0;
        }
      } else {
        v := IllegalState;
      }
    }
  }
}
