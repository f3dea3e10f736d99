/** Fixed-width integer types of the AVR target, and the small datatypes that
    every task of the controller shares. */
module Types {

  /** `int8_t`: motor velocity, servo position and the edge flag. */
  newtype int8 = x: int | -128 <= x < 128

  /** `uint8_t`: the drive command and the 8-bit compare registers. */
  newtype uint8 = x: int | 0 <= x < 256

  /** `uint16_t`: the pulse width and the 16-bit timer counter. */
  newtype uint16 = x: int | 0 <= x < 0x1_0000

  datatype Option<+T> = None | Some(value: T)

  /** What one pass through a task's `switch (state)` amounts to: a recognised
      state ran, or the `default:` branch was reached, which reports an illegal
      state and forces a watchdog reset. */
  datatype Verdict = Ran | IllegalState

  /** The saturation every `calc_pwm` applies to its argument before mapping it. */
  function Clamp(x: int, lo: int, hi: int): (c: int)
    requires lo <= hi
    ensures lo <= c <= hi
    ensures lo <= x <= hi ==> c == x
    ensures x <= lo ==> c == lo
    ensures hi <= x ==> c == hi
  {
    if x < lo then lo else if x > hi then hi else x
  }
}
