/** Machine-level values of the STC89C52RC firmware: the 16-bit `unsigned int`
    of the sdcc 8051 target, the 8-bit port registers, the single-bit masks the
    animations build with `0x1U << k`, and the accumulated patterns of a trace
    sweep. Port registers are active-low: a 0 bit lights its LED segment. */
module Machine {

  /** `unsigned int` on the 8051 target is 16 bits wide. */
  newtype u16 = x: int | 0 <= x < 0x1_0000

  /** SEG_OFF: every segment of a quadrant dark. */
  const SEG_OFF: bv8 := 0xFF
  /** SEG_ON: every segment of a quadrant lit. */
  const SEG_ON: bv8 := 0x00

  /** Assigning a 16-bit value to an 8-bit port keeps its low byte. */
  function Low8(x: bv16): (r: bv8)
    ensures r as bv16 == x & 0xFF
  {
    (x & 0xFF) as bv8
  }

  /** `PORT = ~PORT`: the port value is promoted to a 16-bit int, complemented
      and truncated back to 8 bits, which complements all eight bits. */
  function Complement(x: bv8): (r: bv8)
    ensures r == !x
  {
    Low8(!(x as bv16))
  }

  /** `~(0x1U << k)`, computed in 16 bits. */
  function Mask(k: nat): bv16
    requires k < 8
  {
    !((1 as bv16) << k)
  }

  /** Bit `b` of `x` is 1, that is, segment `b` is dark. */
  predicate IsSet(x: bv8, b: nat)
    requires b < 8
  {
    (x >> b) & 1 == 1
  }

  /** `PORT = ~(0x1U << k)`: the byte the port receives has only bit k cleared,
      so exactly segment k is lit (OneLitBits). */
  function OneLit(k: nat): bv8
    requires k < 8
  {
    Low8(Mask(k))
  }

  /** `PORT &= ~(0x1U << k)`: the port is widened to 16 bits, masked and
      truncated back; only bit k is cleared, every other bit is kept
      (ClearBitBits). */
  function ClearBit(x: bv8, k: nat): bv8
    requires k < 8
  {
    Low8(x as bv16 & Mask(k))
  }

  /** Exactly bit k of OneLit(k) is 0. */
  lemma OneLitBits(k: nat)
    requires k < 8
    ensures forall b :: 0 <= b < 8 ==> (IsSet(OneLit(k), b) <==> b != k)
  {
    forall b | 0 <= b < 8
      ensures IsSet(OneLit(k), b) <==> b != k
    {}
  }

  /** Masking in 16 bits and truncating is masking with the truncated mask. */
  lemma ClearBitMask(x: bv8, k: nat)
    requires k < 8
    ensures ClearBit(x, k) == x & OneLit(k)
  {
  }

  /** ClearBit clears bit k and keeps every other bit. */
  lemma ClearBitBits(x: bv8, k: nat)
    requires k < 8
    ensures forall b :: 0 <= b < 8 ==> (IsSet(ClearBit(x, k), b) <==> IsSet(x, b) && b != k)
  {
    ClearBitMask(x, k);
    AndBits(x, OneLit(k));
    OneLitBits(k);
  }

  lemma AndBit(x: bv8, y: bv8, b: nat)
    requires b < 8
    ensures IsSet(x & y, b) <==> IsSet(x, b) && IsSet(y, b)
  {
  }

  lemma AndBits(x: bv8, y: bv8)
    ensures forall b :: 0 <= b < 8 ==> (IsSet(x & y, b) <==> IsSet(x, b) && IsSet(y, b))
  {
    forall b | 0 <= b < 8
      ensures IsSet(x & y, b) <==> IsSet(x, b) && IsSet(y, b)
    {
      AndBit(x, y, b);
    }
  }

  /** The number of lit (zero) bits among bits 0 .. n-1 of `x`. */
  function ZerosBelow(x: bv8, n: nat): nat
    requires n <= 8
  {
    if n == 0 then 0 else ZerosBelow(x, n - 1) + (if IsSet(x, n - 1) then 0 else 1)
  }

  /** The number of lit segments of a quadrant. */
  function ZeroCount(x: bv8): nat
  {
    ZerosBelow(x, 8)
  }

  /** The direction of a sweep: `Down` uses bit 7-j at step j (`0x1U << (7-j)`),
      `Up` uses bit j (`0x1U << j`). */
  datatype Dir = Down | Up

  function BitAt(d: Dir, j: nat): (b: nat)
    requires j < 8
    ensures b < 8
  {
    if d == Down then 7 - j else j
  }

  /** The value of a quadrant that starts dark and has gone through the first
      `j` steps of a trace sweep in direction `d` (`PORT &= ~(0x1U << bit)`). */
  function Swept(d: Dir, j: nat): bv8
    requires j <= 8
  {
    if j == 0 then SEG_OFF else ClearBit(Swept(d, j - 1), BitAt(d, j - 1))
  }

  /** After j steps of a sweep, exactly the segments of steps 0 .. j-1 are lit. */
  lemma {:induction false} SweptBits(d: Dir, j: nat, k: nat)
    requires j <= 8 && k < 8
    ensures IsSet(Swept(d, j), BitAt(d, k)) <==> j <= k
  {
    if j > 0 {
      SweptBits(d, j - 1, k);
      ClearBitBits(Swept(d, j - 1), BitAt(d, j - 1));
    }
  }

  /** A sweep never lights a segment back off: every bit cleared after i steps
      is still cleared after j >= i steps. */
  lemma {:induction false} SweptShrinks(d: Dir, i: nat, j: nat)
    requires i <= j <= 8
    ensures Swept(d, j) & Swept(d, i) == Swept(d, j)
  {
    if i < j {
      SweptShrinks(d, i, j - 1);
    }
  }

  /** A complete sweep lights the whole quadrant. */
  lemma SweptFull(d: Dir)
    ensures Swept(d, 8) == SEG_ON
  {
    if d == Down {
      assert Swept(Down, 4) == 0x0F;
    } else {
      assert Swept(Up, 4) == 0xF0;
    }
  }

  /** Clearing a dark segment lights one more segment, among any prefix of
      bits that contains it. */
  lemma {:induction false} ClearBitZeros(x: bv8, k: nat, n: nat)
    requires k < 8 && n <= 8 && IsSet(x, k)
    ensures ZerosBelow(ClearBit(x, k), n) == ZerosBelow(x, n) + (if k < n then 1 else 0)
  {
    if n > 0 {
      ClearBitZeros(x, k, n - 1);
      ClearBitBits(x, k);
    }
  }

  /** After j steps of a sweep exactly j segments are lit. */
  lemma {:induction false} SweptZeroCount(d: Dir, j: nat)
    requires j <= 8
    ensures ZeroCount(Swept(d, j)) == j
  {
    if j > 0 {
      SweptZeroCount(d, j - 1);
      SweptBits(d, j - 1, j - 1);
      ClearBitZeros(Swept(d, j - 1), BitAt(d, j - 1), 8);
    }
  }

  /** A chase step lights exactly one segment. */
  lemma OneLitZeroCount(k: nat)
    requires k < 8
    ensures ZeroCount(OneLit(k)) == 1
  {
    assert OneLit(k) == ClearBit(SEG_OFF, k);
    ClearBitZeros(SEG_OFF, k, 8);
  }

  /** CLR_WDT, the int constant `1 << 4`. */
  const CLR_WDT: bv16 := 0x10

  /** `WDT_CONTR |= 1 << 4`: the 16-bit constant is or-ed into the 8-bit
      register; bit 4 (CLR_WDT) becomes 1 and every other bit is kept. */
  function WatchdogClear(w: bv8): (r: bv8)
    ensures r & 0x10 == 0x10
    ensures r & 0xEF == w & 0xEF
  {
    Low8(w as bv16 | CLR_WDT)
  }

  /** Clearing the watchdog twice is clearing it once: a second pass of the
      main loop leaves WDT_CONTR as the first did. */
  lemma WatchdogClearTwice(w: bv8)
    ensures WatchdogClear(WatchdogClear(w)) == WatchdogClear(w)
  {
  }
}
