# Car controller: echo timing, arbitration and actuation

A model of the control logic of a FreeRTOS car controller on an AVR
microcontroller. Four pieces are modelled:

- the TIMER3 input-capture interrupt handler in `code/main.cpp`, which turns the
  rising and falling edges of an ultrasonic echo into a pulse width by toggling
  the capture edge (ICES3) and the `edge_1` flag, restarting TCNT3 at the
  rising edge and storing it into `width_1` at the falling edge;
- the ultrasonic trigger task `task_USR1`, which arms that capture and then
  flips the trigger pin PC1 on every iteration through its `ECHO` member;
- the arbitration task `task_car_control`, a four-state machine (0 init,
  1 drive, 2 stop, 3 obstacle-avoid) that reads the drive command
  `p_drive_state` and the echo width `width_1` and writes the setpoints
  `p_motor_vel` and `p_servo_pos`, with a 150-tick threshold;
- the actuation tasks `task_motor` and `task_steering`, whose `calc_pwm`
  saturates a setpoint and maps it linearly to a timer compare value.

The shared `TaskShare` cells are the fields of one `Shares` object
(`shares.dfy`) with the widths of `code/shares.h`: `int8` for the setpoints and
`edge_1`, `uint8` for the drive command, `uint16` for `width_1`; a read returns
the latest value written. Each task is a class with the `state` field of its
base class and a `Step` method for one pass through its `switch (state)`; the
`default:` branch is the `IllegalState` verdict, after which nothing changes.
Where a step is specified by a function (`EchoCapture.Capture`,
`CarControl.Arbitrate`, `Usr1.Toggle`, the two `CalcPwm`), the method's
postcondition ties the new state to that function, and the properties are
proved about the function. `System.EchoThenAvoid` runs the pieces together:
one echo of `d` ticks, measured by the handler and acted upon by the
arbitration, steering and motor tasks.

`calc_pwm` computes in floating point; the model uses the exact rational value
truncated to an integer: `(10*(offset+94) + 3*pwm) / 10` for the motor and
`(24000 + 77*pwm) / 1000` for the steering, both on a non-negative numerator,
where C's truncation is the floor. The motor's `offset` is an `int8` member
(declared in `Final/task_motor.h:65`) that `run` sets to -2 before its loop.

Both revisions of `task_car_control` (`Final/` and `code/`) have the same
dispatch and are one model; the rows below cite one or the other. The two
revisions of `task_USR1` differ only in that the one under `code/` prints
`width_1` when it raises the trigger; `Usr1Task.printsWidth` selects it and
`Step` returns the printed value.

Three points of the code's behaviour worth stating:

- The trigger task seeds `edge_1` = 1 together with rising-edge capture, so the
  first interrupt takes the handler's rising branch; the seed is consistent
  (`Usr1.Usr1Task.Step` establishes `EdgeSenseAgrees`).
- The stop state writes servo 90 (full deflection); in
  obstacle-avoid, a width below 150 writes servo 90 and one above 150 writes 0,
  so a 300-tick echo centres the servo; at exactly 150 nothing is written.
- The arbitration writes its setpoints for the state it is in, whether or not
  the iteration leaves it (drive and stop), and writes nothing when
  obstacle-avoid leaves on command 0.
- State 0 of the trigger task leaves `ECHO` = 0 with the pin already high, so
  the first state-1 iteration keeps the pin high: the first trigger pulse
  lasts two iterations, and the pin follows `ECHO` only from then on
  (`Usr1.StartUpTrigger`).

Two notes on `calc_pwm` that the lemmas make precise: the range 64..124 noted
beside the motor's conversion is the range for offset 0; with the offset -2
that `run` uses it is 62..122, and velocity 0 gives 92 while setup writes 94
(`Motor.NotedRangeIsForZeroOffset`). The steering range is 17..30, inside the
noted 16..31.

## Model

| member | source | states |
|---|---|---|
| `Shares.Shares.constructor` | code/main.cpp:96-116 | the cells are created and `p_drive_state` holds 0 before the scheduler starts |
| `EchoCapture.Capture` | code/main.cpp:153-171 | one handler invocation toggles `edge_1` to 0 or 1 (1 exactly when it was 0); afterwards ICES3 is set exactly when `edge_1` is 1, whatever held before; a falling edge stores the count read on entry in `width_1` and leaves TCNT3 alone; a rising edge restarts TCNT3 and keeps `width_1` |
| `EchoCapture.TimerCaptureIsr` | code/main.cpp:153-171 | the handler's effect on ICES3, TCNT3, `edge_1` and `width_1` is `Capture` of the count TCNT3 held on entry, and it writes no other cell |
| `EchoCapture.RisingThenFalling` | code/main.cpp:155-169 | a rising edge, `d` counter ticks (d < 65536), then the falling edge leave `width_1` = d, `edge_1` = 1 and rising-edge capture |
| `EchoCapture.InterruptsAlternate` | code/main.cpp:157-170 | over any run of interrupts `edge_1` alternates with the parity of their number, the capture edge stays in step with it, and after a falling edge `width_1` is the count that interrupt read |
| `Usr1.Toggle` | Final/task_USR1.cpp:118-130 | a state-1 iteration turns a set `ECHO` into 0 and a clear one into 1, and leaves the pin at the level `ECHO` now has |
| `Usr1.ToggleTwice` | code/task_USR1.cpp:110-121 | from a trigger whose pin follows `ECHO`, two state-1 iterations give back both, and one alone changes them |
| `Usr1.TogglesPeriodic` | Final/task_USR1.cpp:110-132 | from a trigger whose pin follows `ECHO`, any even number of state-1 iterations restores `ECHO` and the pin, any odd number equals one iteration |
| `Usr1.StartUpTrigger` | Final/task_USR1.cpp:84-129 | state 0 leaves `ECHO` 0 with the pin high, which is not a trigger whose pin follows `ECHO`; the first state-1 iteration keeps the pin high, two iterations end with the pin low, and from the first iteration on the pin follows `ECHO` |
| `Usr1.Usr1Task.Step` | Final/task_USR1.cpp:78-139 | state 0 sets `ECHO` 0, `edge_1` 1, `width_1` 0, rising-edge capture and the trigger high, moves to 1 and leaves ICES3 in step with `edge_1`; state 1 toggles `ECHO` and the pin, stays, writes no cell nor the timer, and (code/ revision) prints `width_1` on the 0 to 1 flip; any other state is the illegal-state branch and changes nothing |
| `CarControl.Arbitrate` | Final/task_car_control.cpp:60-133 | exactly the states 0..3 run and lead to a state in 1..3 (never back to init); others halt and write nothing; motor values written are 0 or 25, 25 only in drive; servo values written are 0 or 90; the two setpoints are written together |
| `CarControl.InitZeroesAndStops` | Final/task_car_control.cpp:64-71 | init writes motor 0 and servo 0 and moves to stop |
| `CarControl.DrivingLeavesOnlyOnStop` | Final/task_car_control.cpp:75-84 | drive writes motor 25 and servo 0 on every iteration, the leaving one included, moves to stop iff the command is 0 and otherwise stays, so never goes to obstacle-avoid directly |
| `CarControl.StoppedFollowsCommand` | Final/task_car_control.cpp:88-101 | stop writes motor 0 and servo 90 on every iteration; command 1 moves to drive, 2 to obstacle-avoid, anything else stays |
| `CarControl.AvoidingSteersByWidth` | code/task_car_control.cpp:97-118 | obstacle-avoid with command 0 moves to stop writing nothing; otherwise it stays and writes motor 0 with servo 90 below 150 ticks, servo 0 above, nothing at exactly 150 |
| `CarControl.NeverIllegal` | code/task_car_control.cpp:54-127 | started in any of the four states, the task never reaches the illegal-state branch for any sequence of commands and widths, and after each iteration its state is in 1..3 |
| `CarControl.SetpointsStayInRange` | code/task_car_control.cpp:61-114 | once the setpoint cells hold values in {0, 25} and {0, 90}, any number of iterations keeps them there |
| `CarControl.CarControlTask.Step` | code/task_car_control.cpp:46-135 | one iteration moves the state and writes exactly the setpoints `Arbitrate` gives for the command and width read, writes neither of those two cells, and keeps states 0..3 free of the illegal-state branch |
| `Motor.CalcPwm` | code/task_motor.cpp:143-155 | the result is the integer part of `offset + 94 + 0.3 * v`, v the velocity saturated to -100..100; it lies in offset+64..offset+124 and velocity 0 gives offset+94 |
| `Motor.CalcPwmSaturates` | code/task_motor.cpp:146-151 | every velocity at or below -100 maps like -100, every one at or above 100 like 100 |
| `Motor.CalcPwmMonotone` | code/task_motor.cpp:146-154 | a larger velocity never gives a smaller compare value |
| `Motor.RunOffsetRange` | code/task_motor.cpp:143-154 | with the offset -2 set before the loop, velocity 0 gives 92 and every velocity gives 62..122, both ends reached |
| `Motor.NotedRangeIsForZeroOffset` | code/task_motor.cpp:153-154 | the noted 64..124 is the range for offset 0, where velocity 0 gives the setup value 0x5E; with offset -2 the result goes below 64 and velocity 0 gives 0x5E - 2 |
| `Motor.MotorTask.Begin` | code/task_motor.cpp:63 | `run` sets `offset` to -2 before its loop |
| `Motor.MotorTask.Step` | code/task_motor.cpp:70-123 | state 0 writes OCR1A 0x5E and moves to 1; state 1 stays and writes `calc_pwm` of the velocity setpoint; any other state is the illegal-state branch and changes nothing |
| `Steering.CalcPwm` | code/task_steering.cpp:133-145 | the result is the integer part of `24 + 0.077 * a`, a the angle saturated to -90..90; it lies in 17..30, inside the noted 16..31, and angle 0 gives the setup value 24 |
| `Steering.CalcPwmSaturates` | code/task_steering.cpp:136-141 | every angle beyond either bound maps like the bound |
| `Steering.CalcPwmMonotone` | code/task_steering.cpp:136-144 | a larger angle never gives a smaller compare value |
| `Steering.CalcPwmEnds` | code/task_steering.cpp:143-144 | angles -90 and 90 give 17 and 30 |
| `Steering.SteeringTask.Step` | code/task_steering.cpp:69-114 | state 0 writes OCR2A 24 and moves to 1; state 1 stays and writes `calc_pwm` of the servo setpoint; any other state is the illegal-state branch and changes nothing |
| `System.MeasureEcho` | code/main.cpp:155-169 | on the timer and cells themselves: with `edge_1` set, a rising-edge interrupt, `d` counter ticks and a falling-edge interrupt leave `width_1` = d, `edge_1` = 1 and rising-edge capture |
| `System.EchoThenAvoid` | code/main.cpp:109-148 | from start-up with the drive command set to obstacle-avoid, an echo of `d` ticks gives `width_1` = d, motor 0 (OCR1A 92), and servo 90 (OCR2A 30) unless d > 150, when servo 0 (OCR2A 24) |

## Left out

- The radio task (`code/task_radio.cpp`) and the user-interface task: SPI and serial register I/O with no logic beyond it.
- Interleaving of the capture interrupt inside a task iteration: in this model the handler never runs in the middle of a `Step`. In the source, state 0 of the trigger task enables the capture interrupt (TIMSK3) before it seeds `edge_1` and `width_1`, so a capture there could be overwritten by the seeding.
- The cells `p_enc_read` and `p_rf_ping`: no modelled task reads or writes them.
- Register setup in every state 0 (TCCRn, DDRx, ICR1, TIMSK3, TIFR3, prescalers, OCR high bytes): only ICES3, TCNT3, the trigger pin PC1, OCR1A and OCR2A are modelled.
- FreeRTOS scheduling, priorities, `delay_ms`, the endless `for (;;)` loops and the `runs` counter: concurrency and timing; one `Step` is one iteration, and the free-running counter is `Timer3.Count`.
- Interrupt masking in `TaskShare` (`get`/`put` against `ISR_get`/`ISR_put`): `taskshare.h` is not part of this model; both paths are plain reads and writes, and a step that reads a cell twice reads it once.
- CarControl.CarControlTask.Step: state 2 reads `p_drive_state` twice in the source; the model reads it once, which differs only if another task writes the command between the two reads.
- The floating-point arithmetic of `calc_pwm` (`float` on this target): the exact rational value truncated to an integer is used instead.
- Motor.CalcPwm: requires `offset >= -64`, where the value is non-negative for every velocity; below that C's conversion of a negative value to `uint8_t` is undefined. The only offset `run` sets is -2.
- The serial messages and the watchdog reset of every `default:` branch: the branch is the `IllegalState` verdict only; the print of `width_1` in the `code/` revision of `task_USR1` is returned as a value.
- The types of `state` (base class `TaskBase`) and `ECHO` (`task_USR1.h`): those headers are not part of this model, so both are unbounded integers.
- `hello.c`: an LED blink loop, I/O only.
