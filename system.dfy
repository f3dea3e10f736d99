/** The tasks and the capture interrupt together, wired through the cells
    `main` creates: one echo measured by the handler and acted upon by the
    arbitration, the steering and the motor task. */
module System {
  import opened Types
  import opened Shares
  import opened EchoCapture
  import Usr1
  import CarControl
  import Motor
  import Steering

  /** One echo: its rising edge arrives after the counter has run `t0`
      ticks, its falling edge `d` ticks later. */
  method MeasureEcho(timer: Timer3, shares: Shares, t0: nat, d: nat)
    requires shares.edge1 != 0
    requires d < 0x1_0000
    modifies timer, shares`edge1, shares`width1
    ensures shares.width1 as int == d && shares.edge1 == 1 && timer.ices3
  {
    timer.Count(t0);
    TimerCaptureIsr(timer, shares);
    assert timer.tcnt3 == 0;
    timer.Count(d);
    TimerCaptureIsr(timer, shares);
  }

  /** The arbitration leaves init; then another task (the user interface or
      the radio, neither of which is modelled) puts 2, obstacle-avoid, into
      the drive command; and the arbitration enters obstacle-avoid. */
  method EnterAvoid(car: CarControl.CarControlTask, shares: Shares)
    requires car.state == CarControl.Init
    modifies car, shares`motorVel, shares`servoPos, shares`driveState
    ensures car.state == CarControl.Avoiding && shares.driveState == 2
    ensures shares.motorVel == 0 && shares.servoPos == CarControl.Deflected
  {
    var v := car.Step(shares);
    shares.driveState := 2;
    v := car.Step(shares);
  }

  /** One obstacle-avoid iteration on the measured width, after the stop
      state has left the servo at 90. */
  method AvoidOnWidth(car: CarControl.CarControlTask, shares: Shares)
    requires car.state == CarControl.Avoiding && shares.driveState == 2
    requires shares.motorVel == 0 && shares.servoPos == CarControl.Deflected
    modifies car, shares`motorVel, shares`servoPos
    ensures car.state == CarControl.Avoiding && shares.motorVel == 0
    ensures shares.servoPos == if shares.width1 > CarControl.Threshold then 0 else CarControl.Deflected
  {
    var v := car.Step(shares);
  }

  /** The steering and motor tasks set up their timers and then follow the
      setpoints once. */
  method Actuate(steering: Steering.SteeringTask, motor: Motor.MotorTask, shares: Shares)
    requires steering.state == 0 && motor.state == 0 && motor.offset == Motor.RunOffset
    modifies steering, motor
    ensures steering.ocr2a == Steering.CalcPwm(shares.servoPos)
    ensures motor.ocr1a == Motor.CalcPwm(Motor.RunOffset, shares.motorVel)
  {
    var v := steering.Step(shares);
    v := steering.Step(shares);
    v := motor.Step(shares);
    v := motor.Step(shares);
  }

  /** From power-on: the trigger task arms the capture, the arbitration
      leaves init, the drive command is set to obstacle-avoid, the arbitration
      enters obstacle-avoid, the echo's rising edge arrives after `t0` ticks
      and its falling edge `d` ticks later, and the arbitration, steering and
      motor tasks run on the measured width. The initial content of the
      cells other than the drive command is arbitrary. */
  method EchoThenAvoid(t0: nat, d: nat, motor0: int8, servo0: int8, edge0: int8, width0: uint16)
    returns (width: uint16, motorVel: int8, servoPos: int8, ocr1a: uint8, ocr2a: uint8)
    requires d < 0x1_0000
    // the handler measured the echo exactly
    ensures width as int == d
    // obstacle-avoid never drives the motor; the motor task holds 92
    ensures motorVel == 0 && ocr1a == 92
    // a near echo deflects the servo fully; a far one centres it; at exactly
    // 150 ticks nothing is put and the stop state's 90 is kept
    ensures servoPos == (if d > 150 then 0 else CarControl.Deflected)
    ensures ocr2a == (if d > 150 then Steering.SetupOcr2a else 30)
  {
    var shares := new Shares(motor0, servo0, edge0, width0);
    var timer := new Timer3();
    var usr1 := new Usr1.Usr1Task(false);
    var car := new CarControl.CarControlTask();
    var steering := new Steering.SteeringTask();
    var motor := new Motor.MotorTask(0);
    motor.Begin();

    var v, printed := usr1.Step(timer, shares);
    assert shares.edge1 == 1;
    EnterAvoid(car, shares);

    MeasureEcho(timer, shares, t0, d);
    width := shares.width1;

    AvoidOnWidth(car, shares);
    Steering.CalcPwmEnds();
    Motor.RunOffsetRange(0);
    Actuate(steering, motor, shares);
    motorVel, servoPos, ocr1a, ocr2a := shares.motorVel, shares.servoPos, motor.ocr1a, steering.ocr2a;
  }
}
