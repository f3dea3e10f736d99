/** The ultrasonic trigger task `task_USR1`. State 0 arms rising-edge capture
    on timer 3 and seeds the handler's cells; state 1 flips the trigger pin
    PC1 on every iteration, through the `ECHO` member. Both revisions of the
    task share this dispatch; the one under `code/` also prints `width_1`
    whenever it raises the trigger. */
module Usr1 {
  import opened Types
  import opened Shares
  import opened EchoCapture

  /** The task's `ECHO` member and the level of the trigger pin PC1. */
  datatype Trigger = Trigger(echo: int, pin: bool)

  /** The pin follows `ECHO` once a state-1 iteration has run. */
  predicate InStep(t: Trigger) {
    (t.echo == 0 || t.echo == 1) && (t.pin <==> t.echo == 1)
  }

  /** One state-1 iteration: a set `ECHO` drives the pin low and clears
      itself, a clear one drives the pin high and sets itself. */
  function Toggle(t: Trigger): (r: Trigger)
    ensures r.echo == 0 || r.echo == 1
    ensures r.echo == 1 <==> t.echo == 0
    ensures InStep(r)
  {
    if t.echo != 0 then Trigger(0, false) else Trigger(1, true)
  }

  /** `n` state-1 iterations. */
  function Toggles(t: Trigger, n: nat): Trigger
  {
    if n == 0 then t else Toggle(Toggles(t, n - 1))
  }

  /** From a trigger whose pin follows `ECHO`, two iterations give back both
      `ECHO` and the pin level. */
  lemma ToggleTwice(t: Trigger)
    requires InStep(t)
    ensures Toggle(Toggle(t)) == t
    ensures Toggle(t) != t
  {
  }

  /** From a trigger whose pin follows `ECHO`, the trigger is periodic with
      period two iterations. */
  lemma {:induction false} TogglesPeriodic(t: Trigger, n: nat)
    requires InStep(t)
    ensures Toggles(t, 2 * n) == t
    ensures Toggles(t, 2 * n + 1) == Toggle(t)
  {
    if n > 0 {
      TogglesPeriodic(t, n - 1);
      assert Toggles(t, 2 * n) == Toggle(Toggle(Toggles(t, 2 * (n - 1))));
      ToggleTwice(t);
    }
  }

  /** What state 0 leaves: `ECHO` clear but the pin already high. */
  const ArmedTrigger: Trigger := Trigger(0, true)

  /** The trigger state 0 leaves does not have its pin following `ECHO`:
      the first state-1 iteration keeps the pin high, so the first pulse
      lasts two iterations and two iterations from start-up end with the pin
      low; from the first iteration on, the pin follows `ECHO`. */
  lemma StartUpTrigger(n: nat)
    ensures !InStep(ArmedTrigger)
    ensures Toggle(ArmedTrigger) == Trigger(1, true)
    ensures Toggles(ArmedTrigger, 2) == Trigger(0, false) != ArmedTrigger
    ensures n > 0 ==> InStep(Toggles(ArmedTrigger, n))
  {
  }

  class Usr1Task {
    /** The dispatch state inherited from the task base class. */
    var state: int
    /** `ECHO`, the trigger toggle kept between iterations. */
    var echo: int
    /** PORTC bit PC1, the sensor's trigger input. */
    var trigger: bool
    /** True for the revision that prints `width_1` when it raises the trigger. */
    const printsWidth: bool

    predicate Valid()
      reads this
    {
      state == 0 || state == 1
    }

    /** A new task starts in state 0; `ECHO` and the pin are set there before
        they are ever read. */
    constructor (printsWidth: bool)
      ensures Valid() && state == 0
      ensures this.printsWidth == printsWidth
    {
      state, echo, trigger := 0, 0, false;
      this.printsWidth := printsWidth;
    }

    /** One pass through `task_USR1::run`'s `switch (state)`. `printed` is
        the value written to the serial port, if any. */
    method Step(timer: Timer3, shares: Shares) returns (v: Verdict, printed: Option<uint16>)
      modifies this`state, this`echo, this`trigger, timer`ices3, shares`edge1, shares`width1
      ensures old(Valid()) ==> Valid() && v == Ran
      // state 0: seed the handler, arm rising-edge capture, raise the trigger
      ensures old(state) == 0 ==>
                state == 1 && Trigger(echo, trigger) == ArmedTrigger && timer.ices3 &&
                shares.edge1 == 1 && shares.width1 == 0 && printed == None
      ensures old(state) == 0 ==> EdgeSenseAgrees(StateOf(timer, shares))
      // state 1: flip the trigger, stay in state 1, leave the handler's cells alone
      ensures old(state) == 1 ==>
                state == 1 && Trigger(echo, trigger) == Toggle(Trigger(old(echo), old(trigger))) &&
                unchanged(timer, shares)
      ensures old(state) == 1 ==>
                printed == if printsWidth && old(echo) == 0 then Some(old(shares.width1)) else None
      // anything else: the illegal-state branch, and nothing changes
      ensures v == IllegalState <==> old(state) != 0 && old(state) != 1
      ensures v == IllegalState ==> unchanged(this, timer, shares) && printed == None
    {
      printed := None;
      if state == 0 {
        echo := 0;
        // TCCR3B = 0, then rising-edge capture with the 1024 prescaler
        timer.ices3 := true;
        shares.edge1 := 1;
        shares.width1 := 0;
        trigger := true;
        state := 1;
        v := Ran;
      } else if state == 1 {
        if echo != 0 {
          trigger := false;
          echo := 0;
        } else {
          if printsWidth {
            printed := Some(shares.width1);
          }
          trigger := true;
          echo := 1;
        }
        v := Ran;
      } else {
        v := IllegalState;
      }
    }
  }
}
