/** Echo timing: the TIMER3 input-capture interrupt handler of `main.cpp`.
    One timer, one interrupt line and the `edge_1` toggle give a pulse-width
    measurement: at a rising edge the handler switches the capture to the
    falling edge and restarts the counter; at the falling edge it switches
    back to the rising edge and stores the count in `width_1`. */
module EchoCapture {
  import opened Types
  import opened Shares

  /** The two pieces of timer 3 the measurement uses: the ICES3 bit of
      TCCR3B (set: capture on a rising edge) and the counter TCNT3. */
  class Timer3 {
    var ices3: bool
    var tcnt3: uint16

    /** Power-on values of the registers: TCCR3B and TCNT3 read zero. */
    constructor ()
      ensures !ices3 && tcnt3 == 0
    {
      ices3, tcnt3 := false, 0;
    }

    /** The hardware counts `d` ticks between two interrupts. */
    method Count(d: nat)
      modifies this`tcnt3
      ensures tcnt3 == Advance(old(tcnt3), d)
    {
      tcnt3 := Advance(tcnt3, d);
    }
  }

  /** TCNT3 after `d` more ticks: a 16-bit counter that wraps around. */
  function Advance(t: uint16, d: nat): (r: uint16)
    ensures t as int + d < 0x1_0000 ==> r as int == t as int + d
    ensures (t as int + d - r as int) % 0x1_0000 == 0
  {
    ((t as int + d) % 0x1_0000) as uint16
  }

  /** Everything the handler reads or writes: the two cells and the two
      pieces of the timer. */
  datatype EchoState = EchoState(edge: int8, width: uint16, ices3: bool, tcnt3: uint16)

  function StateOf(timer: Timer3, shares: Shares): EchoState
    reads timer, shares
  {
    EchoState(shares.edge1, shares.width1, timer.ices3, timer.tcnt3)
  }

  /** The capture edge agrees with the toggle: rising-edge capture exactly when
      `edge_1` says the next interrupt is a rising edge. */
  predicate EdgeSenseAgrees(s: EchoState) {
    s.ices3 <==> s.edge == 1
  }

  /** One invocation of the handler, given the count TCNT3 held on entry. */
  function Capture(s: EchoState, count: uint16): (r: EchoState)
    // the toggle: the flag ends as 0 or 1, and as 1 exactly when it was 0
    ensures r.edge == 0 || r.edge == 1
    ensures r.edge == 1 <==> s.edge == 0
    // whatever held before, the capture edge afterwards matches the flag
    ensures EdgeSenseAgrees(r)
    // a falling edge records the count read on entry and leaves the counter running
    ensures s.edge == 0 ==> r.width == count && r.tcnt3 == s.tcnt3
    // a rising edge restarts the counter and keeps the last measurement
    ensures s.edge != 0 ==> r.width == s.width && r.tcnt3 == 0
  {
    if s.edge != 0 then
      s.(ices3 := false, tcnt3 := 0, edge := 0)
    else
      s.(ices3 := true, width := count, edge := 1)
  }

  /** ISR(TIMER3_CAPT_vect). The `modifies` clause is the statement that the
      handler writes no cell but `edge_1` and `width_1`. */
  method TimerCaptureIsr(timer: Timer3, shares: Shares)
    modifies timer, shares`edge1, shares`width1
    ensures StateOf(timer, shares) == Capture(old(StateOf(timer, shares)), old(timer.tcnt3))
  {
    var count1 := timer.tcnt3;
    if shares.edge1 != 0 {
      // rising edge: capture the falling edge next, restart the counter
      timer.ices3 := false;
      timer.tcnt3 := 0;
      shares.edge1 := 0;
    } else {
      // falling edge: capture the rising edge next, store the pulse width
      timer.ices3 := true;
      shares.width1 := count1;
      shares.edge1 := 1;
    }
  }

  /** The handler run once per entry of `counts`, each entry being the count
      TCNT3 held when that interrupt fired. */
  function Interrupts(s: EchoState, counts: seq<uint16>): EchoState
  {
    if counts == [] then s
    else Capture(Interrupts(s, counts[..|counts| - 1]), counts[|counts| - 1])
  }

  /** A rising edge, `d` ticks of the counter, then the falling edge: the
      width is `d` and the toggle is back to "next edge rising". */
  lemma RisingThenFalling(s: EchoState, c0: uint16, d: nat)
    requires s.edge != 0
    requires d < 0x1_0000
    ensures var s1 := Capture(s, c0);
            var s2 := s1.(tcnt3 := Advance(s1.tcnt3, d));
            var s3 := Capture(s2, s2.tcnt3);
            s3.edge == 1 && s3.ices3 && s3.width as int == d
  {
  }

  /** Over any run of interrupts the flag alternates, the capture edge stays
      in step with it once the handler has run, and whenever the last
      interrupt was a falling edge the width is the count it read. */
  lemma {:induction false} InterruptsAlternate(s: EchoState, counts: seq<uint16>)
    requires s.edge == 0 || s.edge == 1
    ensures var r := Interrupts(s, counts);
            r.edge == if |counts| % 2 == 0 then s.edge else 1 - s.edge
    ensures |counts| > 0 ==> EdgeSenseAgrees(Interrupts(s, counts))
    ensures |counts| > 0 && Interrupts(s, counts).edge == 1 ==>
              Interrupts(s, counts).width == counts[|counts| - 1]
  {
    if counts != [] {
      InterruptsAlternate(s, counts[..|counts| - 1]);
    }
  }
}
