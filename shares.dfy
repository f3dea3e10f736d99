/** The `TaskShare` cells through which the tasks and the input-capture
    interrupt handler exchange values. Each cell holds the latest value put into
    it; the masked (`get`/`put`) and the in-handler (`ISR_get`/`ISR_put`)
    accessors have the same value semantics, so both are plain field reads and
    writes here. */
module Shares {
  import opened Types

  class Shares {
    /** `p_motor_vel`: requested motor velocity, -100..100. */
    var motorVel: int8
    /** `p_servo_pos`: requested servo angle, -90..90. */
    var servoPos: int8
    /** `p_drive_state`: drive command, 0 stop, 1 drive, 2 obstacle-avoid. */
    var driveState: uint8
    /** `edge_1`: non-zero while the next capture interrupt is a rising edge. */
    var edge1: int8
    /** `width_1`: the last measured echo pulse width, in timer ticks. */
    var width1: uint16

    /** Creation of the cells in `main`. Only `p_drive_state` is given a value
        before the scheduler starts; what the other cells hold before their
        first `put` is whatever the cell's own constructor leaves there, so it
        is taken as a parameter. */
    constructor (motor: int8, servo: int8, edge: int8, width: uint16)
      ensures driveState == 0
      ensures motorVel == motor && servoPos == servo
      ensures edge1 == edge && width1 == width
    {
      motorVel, servoPos := motor, servo;
      edge1, width1 := edge, width;
      driveState := 0;
    }
  }
}
