/** `delay_ms`: a calibrated busy-wait made of two nested countdowns over 16-bit
    counters. Its duration in real time depends on the processor; what the model
    keeps is how many times each loop runs. */
module Delay {
  import opened Machine

  /** FDIV: the start value of the inner countdown. */
  const FDIV: u16 := 70

  /** The number of outer passes `delay_ms(ms)` makes: `--ms` on a 16-bit
      counter that reaches 0 only after `ms` decrements, or after 65536 when
      `ms` starts at 0 and wraps to 0xFFFF. */
  function Passes(ms: u16): nat
  {
    if ms == 0 then 0x1_0000 else ms as int
  }

  /** One inner countdown: `i = FDIV; while (--i) ;` runs its empty body
      FDIV - 1 times. Returns how many times the body ran. */
  method Spin() returns (spins: nat)
    ensures spins == FDIV as int - 1
  {
    var i: u16 := FDIV;
    i := i - 1;
    spins := 0;
    while i != 0
      invariant 0 <= i < FDIV
      invariant spins + i as int == FDIV as int - 1
      decreases i
    {
      spins := spins + 1;
      i := i - 1;
    }
  }

  /** `do { i = FDIV; while (--i) ; } while (--ms);` with `ms` a 16-bit counter.
      Returns the number of outer passes and the total number of inner
      iterations. */
  method DelayMs(ms: u16) returns (passes: nat, spins: nat)
    ensures ms != 0 ==> passes == ms as int
    ensures ms == 0 ==> passes == 0x1_0000
    ensures spins == passes * (FDIV as int - 1)
  {
    var m := ms;
    passes, spins := 0, 0;
    while true
      invariant passes < Passes(ms)
      invariant m as int == (Passes(ms) - passes) % 0x1_0000
      invariant spins == passes * (FDIV as int - 1)
      decreases Passes(ms) - passes
    {
      var s := Spin();
      spins := spins + s;
      passes := passes + 1;
      m := if m == 0 then 0xFFFF else m - 1;
      if m == 0 {
        break;
      }
    }
  }
}
