/** The firmware of bling-heart.c as imperative code over the four quadrant
    port registers. Every routine assigns the ports in place, making the
    source's writes in the source's order (the chase and trace routines
    through loops over their lane and phase tables); a ghost log records each
    port write and each `delay_ms` request, the way a mock clock and a logging
    port adapter would, and each routine is proved to produce the event
    sequence of its choreography. A ghost counter records each watchdog
    write. */
module BlingHeart {
  import opened Machine
  import opened Events
  import opened Choreography
  import Delay

  class Display {
    /** HEART_UL = P0, HEART_LL = P1, HEART_UR = P2, HEART_LR = P3. */
    var ul: bv8
    var ll: bv8
    var ur: bv8
    var lr: bv8
    /** The watchdog control register WDT_CONTR. */
    var wdtContr: bv8
    /** How many times `WDT_CONTR |= 1 << 4` has been executed. */
    ghost var wdtClears: nat

    /** Every port write and every `delay_ms` request so far, in order. */
    ghost var log: Log
    /** The registers at power-on. */
    ghost const start: Regs

    function View(): Regs
      reads this
    {
      Regs(ul, ll, ur, lr)
    }

    /** The registers hold what the writes of the log leave behind. */
    ghost predicate Valid()
      reads this
    {
      View() == Replay(start, log)
    }

    /** The device at power-on, with whatever the registers hold. */
    constructor (r: Regs, wdt: bv8)
      ensures Valid()
      ensures View() == r && start == r && log == Boot
      ensures wdtContr == wdt && wdtClears == 0
    {
      ul, ll, ur, lr := r.ul, r.ll, r.ur, r.lr;
      wdtContr := wdt;
      wdtClears := 0;
      start := r;
      log := Boot;
    }

    /** `delay_ms(ms)`: the busy-wait runs, and the request is recorded. */
    method DelayMs(ms: u16)
      modifies this`log
      requires Valid()
      ensures Valid()
      ensures log == old(log).Then(Wait(ms))
      ensures Frames(start, log) == old(Frames(start, log)) + [View()]
    {
      var passes, spins := Delay.DelayMs(ms);
      log := log.Then(Wait(ms));
    }

    /** Port `p` is assigned `v` (`HEART_UL = v` and its three siblings). */
    method Put(p: Port, v: bv8)
      modifies this`ul, this`ll, this`ur, this`lr, this`log
      requires Valid()
      ensures Valid()
      ensures View() == old(View()).Set(p, v)
      ensures log == old(log).Then(Write(p, v))
    {
      match p {
        case UL => ul := v;
        case LL => ll := v;
        case UR => ur := v;
        case LR => lr := v;
      }
      log := log.Then(Write(p, v));
    }

    /** Segment `k` of port `p` is lit: `HEART_UL &= ~(0x1U << k)` and its
        siblings, a read of the port followed by a write. */
    method Clear(p: Port, k: nat)
      requires k < 8
      modifies this`ul, this`ll, this`ur, this`lr, this`log
      requires Valid()
      ensures Valid()
      ensures View() == old(View()).Set(p, ClearBit(old(View()).Get(p), k))
      ensures log == old(log).Then(Write(p, ClearBit(old(View()).Get(p), k)))
    {
      Put(p, ClearBit(View().Get(p), k));
    }

    /** `bh_all_off`. */
    method AllOff()
      modifies this`ul, this`ll, this`ur, this`lr, this`log
      requires Valid()
      ensures Valid()
      ensures View() == ALL_OFF
      ensures log == AllOffLog(old(log))
    {
      Put(LR, SEG_OFF);
      Put(LL, SEG_OFF);
      Put(UR, SEG_OFF);
      Put(UL, SEG_OFF);
    }

    /** `bh_all_on`. */
    method AllOn()
      modifies this`ul, this`ll, this`ur, this`lr, this`log
      requires Valid()
      ensures Valid()
      ensures View() == ALL_ON
      ensures log == AllOnLog(old(log))
    {
      Put(LR, SEG_ON);
      Put(LL, SEG_ON);
      Put(UR, SEG_ON);
      Put(UL, SEG_ON);
    }

    /** `bh_all_toggle`: each port is read and assigned its complement. */
    method AllToggle()
      modifies this`ul, this`ll, this`ur, this`lr, this`log
      requires Valid()
      ensures Valid()
      ensures View() == Toggled(old(View()))
      ensures log == ToggleLog(old(log), old(View()))
    {
      Put(LR, Complement(lr));
      Put(LL, Complement(ll));
      Put(UR, Complement(ur));
      Put(UL, Complement(ul));
    }

    /** `bh_setup`. */
    method Setup()
      modifies this`ul, this`ll, this`ur, this`lr, this`log
      requires Valid()
      ensures Valid()
      ensures View() == ALL_OFF
      ensures log == SetupLog(old(log))
    {
      AllOff();
      DelayMs(50);
    }

    /** `bh_quadrant_dance(count)`: no `bh_all_off` before the loop, so a call
        with count 0 leaves the registers as they were. */
    method QuadrantDance(count: u16)
      modifies this`ul, this`ll, this`ur, this`lr, this`log
      requires Valid()
      ensures Valid()
      ensures count == 0 ==> View() == old(View())
      ensures count > 0 ==> View() == DIAGONAL_MAIN
      ensures log == QuadrantDanceLog(old(log), count as nat)
    {
      var i: u16 := 0;
      while i < count
        invariant Valid()
        invariant i <= count
        invariant i == 0 ==> View() == old(View())
        invariant i > 0 ==> View() == DIAGONAL_MAIN
        invariant log == QuadrantDanceLog(old(log), i as nat)
      {
        QuadrantDanceBody();
        i := i + 1;
      }
    }

    /** The loop body of `bh_quadrant_dance`: the main diagonal (UL, LR) lit,
        then toggled to the anti-diagonal; the same again starting from the
        anti-diagonal, which leaves the main diagonal lit. */
    method QuadrantDanceBody()
      modifies this`ul, this`ll, this`ur, this`lr, this`log
      requires Valid()
      ensures Valid()
      ensures View() == DIAGONAL_MAIN
      ensures log == QuadrantDanceRound(old(log))
    {
      AllOff();
      DelayMs(250);
      Put(UL, SEG_ON);
      Put(LR, SEG_ON);
      assert View() == DIAGONAL_MAIN;
      DelayMs(250);
      AllToggle();
      DelayMs(250);
      AllOff();
      DelayMs(250);
      Put(LL, SEG_ON);
      Put(UR, SEG_ON);
      assert View() == DIAGONAL_ANTI;
      DelayMs(250);
      AllToggle();
      DelayMs(250);
    }

    /** `bh_quadrant_chase(count)`. */
    method QuadrantChase(count: u16)
      modifies this`ul, this`ll, this`ur, this`lr, this`log
      requires Valid()
      ensures Valid()
      ensures View() == ALL_OFF
      ensures log == QuadrantChaseLog(old(log), count as nat)
    {
      AllOff();
      var i: u16 := 0;
      while i < count
        invariant Valid()
        invariant i <= count
        invariant View() == ALL_OFF
        invariant log == QuadrantChaseLog(old(log), i as nat)
      {
        QuadrantChaseBody();
        i := i + 1;
      }
    }

    /** The loop body of `bh_quadrant_chase`: UL, LL, UR, LR lit one after the
        other, then darkened in the same order, 250 ms after each write. */
    method QuadrantChaseBody()
      modifies this`ul, this`ll, this`ur, this`lr, this`log
      requires Valid()
      ensures Valid()
      ensures View() == ALL_OFF
      ensures log == QuadrantChaseRound(old(log))
    {
      Put(UL, SEG_ON);
      DelayMs(250);
      Put(LL, SEG_ON);
      DelayMs(250);
      Put(UR, SEG_ON);
      DelayMs(250);
      Put(LR, SEG_ON);
      DelayMs(250);
      Put(UL, SEG_OFF);
      DelayMs(250);
      Put(LL, SEG_OFF);
      DelayMs(250);
      Put(UR, SEG_OFF);
      DelayMs(250);
      Put(LR, SEG_OFF);
      DelayMs(250);
    }

    /** `bh_solid_flash(count)`. */
    method SolidFlash(count: u16)
      modifies this`ul, this`ll, this`ur, this`lr, this`log
      requires Valid()
      ensures Valid()
      ensures View() == ALL_OFF
      ensures log == SolidFlashLog(old(log), count as nat)
    {
      AllOff();
      var i: u16 := 0;
      while i < count
        invariant Valid()
        invariant i <= count
        invariant View() == ALL_OFF
        invariant log == SolidFlashLog(old(log), i as nat)
      {
        AllOn();
        DelayMs(250);
        AllOff();
        DelayMs(250);
        i := i + 1;
      }
    }

    /** One of the four blocks of a chase routine: the `for (j = 0; j < 8; j++)`
        loop that lights a single segment of `lane.port` per step, then the
        write that darkens the port again. */
    method Chase(lane: Lane)
      modifies this`ul, this`ll, this`ur, this`lr, this`log
      requires Valid()
      ensures Valid()
      ensures View() == old(View()).Set(lane.port, SEG_OFF)
      ensures log == ChaseLane(old(log), lane)
    {
      ghost var lit := View().Get(lane.port);
      SetGet(View(), lane.port);
      for j := 0 to 8
        invariant Valid()
        invariant View() == old(View()).Set(lane.port, lit)
        invariant j > 0 ==> lit == OneLit(BitAt(lane.dir, j - 1))
        invariant log == ChaseSteps(old(log), lane, j)
      {
        SetSet(old(View()), lane.port, lit, OneLit(BitAt(lane.dir, j)));
        Put(lane.port, OneLit(BitAt(lane.dir, j)));
        lit := OneLit(BitAt(lane.dir, j));
        DelayMs(50);
      }
      SetSet(old(View()), lane.port, lit, SEG_OFF);
      Put(lane.port, SEG_OFF);
    }

    /** `bh_fullon_chase_cw(count)`. */
    method FullonChaseCw(count: u16)
      modifies this`ul, this`ll, this`ur, this`lr, this`log
      requires Valid()
      ensures Valid()
      ensures View() == ALL_OFF
      ensures log == ChaseLog(old(log), CHASE_CW, count as nat)
    {
      AllOff();
      var i: u16 := 0;
      while i < count
        invariant Valid()
        invariant i <= count
        invariant View() == ALL_OFF
        invariant log == ChaseLog(old(log), CHASE_CW, i as nat)
      {
        ghost var start := log;
        Chase(CHASE_CW[0]);
        Chase(CHASE_CW[1]);
        Chase(CHASE_CW[2]);
        Chase(CHASE_CW[3]);
        ChaseRoundFour(start, CHASE_CW);
        i := i + 1;
      }
    }

    /** `bh_fullon_chase_ccw(count)`. */
    method FullonChaseCcw(count: u16)
      modifies this`ul, this`ll, this`ur, this`lr, this`log
      requires Valid()
      ensures Valid()
      ensures View() == ALL_OFF
      ensures log == ChaseLog(old(log), CHASE_CCW, count as nat)
    {
      AllOff();
      var i: u16 := 0;
      while i < count
        invariant Valid()
        invariant i <= count
        invariant View() == ALL_OFF
        invariant log == ChaseLog(old(log), CHASE_CCW, i as nat)
      {
        ghost var start := log;
        Chase(CHASE_CCW[0]);
        Chase(CHASE_CCW[1]);
        Chase(CHASE_CCW[2]);
        Chase(CHASE_CCW[3]);
        ChaseRoundFour(start, CHASE_CCW);
        i := i + 1;
      }
    }

    /** The body of a trace loop at step `j`: each lane's port loses segment
        BitAt(dir, j), lane by lane, as the `&=` statements do in order. */
    method TraceStep(lanes: seq<Lane>, j: nat)
      requires j < 8 && DistinctPorts(lanes)
      requires forall k :: 0 <= k < |lanes| ==> View().Get(lanes[k].port) == Swept(lanes[k].dir, j)
      modifies this`ul, this`ll, this`ur, this`lr, this`log
      requires Valid()
      ensures Valid()
      ensures View() == SweptRegs(old(View()), lanes, j + 1)
      ensures log == SweepWrites(old(log), lanes, j + 1)
    {
      for k := 0 to |lanes|
        invariant Valid()
        invariant View() == SweptRegs(old(View()), lanes[..k], j + 1)
        invariant log == SweepWrites(old(log), lanes[..k], j + 1)
      {
        assert lanes[..k + 1][..k] == lanes[..k];
        assert !Drives(lanes[..k], lanes[k].port);
        SweptRegsOther(old(View()), lanes[..k], j + 1, lanes[k].port);
        Clear(lanes[k].port, BitAt(lanes[k].dir, j));
      }
      assert lanes[..|lanes|] == lanes;
    }

    /** One `for (j = 0; j < 8; j++)` loop of a trace routine: its lanes fill
        up one segment per step, `ph.ms` after each step. */
    method Trace(ph: Phase)
      requires DistinctPorts(ph.lanes)
      requires forall k :: 0 <= k < |ph.lanes| ==> View().Get(ph.lanes[k].port) == SEG_OFF
      modifies this`ul, this`ll, this`ur, this`lr, this`log
      requires Valid()
      ensures Valid()
      ensures View() == SweptRegs(old(View()), ph.lanes, 8)
      ensures log == TraceSteps(old(log), ph, 8)
    {
      SweptRegsNone(View(), ph.lanes);
      for j := 0 to 8
        invariant Valid()
        invariant View() == SweptRegs(old(View()), ph.lanes, j)
        invariant log == TraceSteps(old(log), ph, j)
      {
        forall k | 0 <= k < |ph.lanes|
          ensures View().Get(ph.lanes[k].port) == Swept(ph.lanes[k].dir, j)
        {
          SweptRegsLane(old(View()), ph.lanes, j, k);
        }
        TraceStep(ph.lanes, j);
        SweptRegsAgain(old(View()), ph.lanes, j, j + 1);
        DelayMs(ph.ms);
      }
    }

    /** The loop body of a trace routine: its phases one after the other,
        then `bh_all_off` and 50 ms. */
    method TraceBody(phases: seq<Phase>)
      requires View() == ALL_OFF && DisjointPhases(phases)
      modifies this`ul, this`ll, this`ur, this`lr, this`log
      requires Valid()
      ensures Valid()
      ensures View() == ALL_OFF
      ensures log == TraceRound(old(log), phases)
    {
      for k := 0 to |phases|
        invariant Valid()
        invariant forall m, p: Port :: k <= m < |phases| && Drives(phases[m].lanes, p) ==> View().Get(p) == SEG_OFF
        invariant log == TracePhases(old(log), phases[..k])
      {
        ghost var before := View();
        assert forall m, p: Port :: k < m < |phases| && Drives(phases[m].lanes, p) ==> before.Get(p) == SEG_OFF;
        forall n | 0 <= n < |phases[k].lanes|
          ensures View().Get(phases[k].lanes[n].port) == SEG_OFF
        {
          assert Drives(phases[k].lanes, phases[k].lanes[n].port);
        }
        Trace(phases[k]);
        forall m, p: Port | k + 1 <= m < |phases| && Drives(phases[m].lanes, p)
          ensures View().Get(p) == SEG_OFF
        {
          assert !Drives(phases[k].lanes, p);
          SweptRegsOther(before, phases[k].lanes, 8, p);
        }
        assert phases[..k + 1][..k] == phases[..k];
      }
      assert phases[..|phases|] == phases;
      AllOff();
      DelayMs(50);
    }

    /** `bh_fullon_trace_cw(count)`: each quadrant in turn fills up one segment
        per step and stays lit until the final `bh_all_off`. */
    method FullonTraceCw(count: u16)
      modifies this`ul, this`ll, this`ur, this`lr, this`log
      requires Valid()
      ensures Valid()
      ensures View() == ALL_OFF
      ensures log == TraceLog(old(log), FULLON_TRACE_CW, count as nat)
    {
      AllOff();
      FullonTraceCwDisjoint();
      var i: u16 := 0;
      while i < count
        invariant Valid()
        invariant i <= count
        invariant View() == ALL_OFF
        invariant log == TraceLog(old(log), FULLON_TRACE_CW, i as nat)
      {
        TraceBody(FULLON_TRACE_CW);
        i := i + 1;
      }
    }

    /** `bh_fullon_trace_ccw(count)`: each quadrant in turn fills up one segment
        per step and stays lit until the final `bh_all_off`. */
    method FullonTraceCcw(count: u16)
      modifies this`ul, this`ll, this`ur, this`lr, this`log
      requires Valid()
      ensures Valid()
      ensures View() == ALL_OFF
      ensures log == TraceLog(old(log), FULLON_TRACE_CCW, count as nat)
    {
      AllOff();
      FullonTraceCcwDisjoint();
      var i: u16 := 0;
      while i < count
        invariant Valid()
        invariant i <= count
        invariant View() == ALL_OFF
        invariant log == TraceLog(old(log), FULLON_TRACE_CCW, i as nat)
      {
        TraceBody(FULLON_TRACE_CCW);
        i := i + 1;
      }
    }

    /** `bh_trace_top_to_bottom(count)`: the upper quadrants fill together, then
        the lower ones. */
    method TraceTopToBottom(count: u16)
      modifies this`ul, this`ll, this`ur, this`lr, this`log
      requires Valid()
      ensures Valid()
      ensures View() == ALL_OFF
      ensures log == TraceLog(old(log), TOP_TO_BOTTOM, count as nat)
    {
      AllOff();
      VerticalTracesDisjoint(TOP_TO_BOTTOM);
      var i: u16 := 0;
      while i < count
        invariant Valid()
        invariant i <= count
        invariant View() == ALL_OFF
        invariant log == TraceLog(old(log), TOP_TO_BOTTOM, i as nat)
      {
        TraceBody(TOP_TO_BOTTOM);
        i := i + 1;
      }
    }

    /** `bh_trace_bottom_to_top(count)`: the lower quadrants fill together, then
        the upper ones. */
    method TraceBottomToTop(count: u16)
      modifies this`ul, this`ll, this`ur, this`lr, this`log
      requires Valid()
      ensures Valid()
      ensures View() == ALL_OFF
      ensures log == TraceLog(old(log), BOTTOM_TO_TOP, count as nat)
    {
      AllOff();
      VerticalTracesDisjoint(BOTTOM_TO_TOP);
      var i: u16 := 0;
      while i < count
        invariant Valid()
        invariant i <= count
        invariant View() == ALL_OFF
        invariant log == TraceLog(old(log), BOTTOM_TO_TOP, i as nat)
      {
        TraceBody(BOTTOM_TO_TOP);
        i := i + 1;
      }
    }

    /** `bh_trace_top_and_bottom(count)`: all four quadrants fill together,
        100 ms per step. */
    method TraceTopAndBottom(count: u16)
      modifies this`ul, this`ll, this`ur, this`lr, this`log
      requires Valid()
      ensures Valid()
      ensures View() == ALL_OFF
      ensures log == TraceLog(old(log), TOP_AND_BOTTOM, count as nat)
    {
      AllOff();
      FourWayTracesDisjoint(TOP_AND_BOTTOM);
      var i: u16 := 0;
      while i < count
        invariant Valid()
        invariant i <= count
        invariant View() == ALL_OFF
        invariant log == TraceLog(old(log), TOP_AND_BOTTOM, i as nat)
      {
        TraceBody(TOP_AND_BOTTOM);
        i := i + 1;
      }
    }

    /** `bh_trace_middle_to_bt(count)`: all four quadrants fill together in the
        opposite directions, 100 ms per step. */
    method TraceMiddleToBt(count: u16)
      modifies this`ul, this`ll, this`ur, this`lr, this`log
      requires Valid()
      ensures Valid()
      ensures View() == ALL_OFF
      ensures log == TraceLog(old(log), MIDDLE_TO_BT, count as nat)
    {
      AllOff();
      FourWayTracesDisjoint(MIDDLE_TO_BT);
      var i: u16 := 0;
      while i < count
        invariant Valid()
        invariant i <= count
        invariant View() == ALL_OFF
        invariant log == TraceLog(old(log), MIDDLE_TO_BT, i as nat)
      {
        TraceBody(MIDDLE_TO_BT);
        i := i + 1;
      }
    }

    /** `bh_trace_left_to_right(count)`: the left quadrants fill together, then
        the right ones. */
    method TraceLeftToRight(count: u16)
      modifies this`ul, this`ll, this`ur, this`lr, this`log
      requires Valid()
      ensures Valid()
      ensures View() == ALL_OFF
      ensures log == TraceLog(old(log), LEFT_TO_RIGHT, count as nat)
    {
      AllOff();
      HorizontalTracesDisjoint(LEFT_TO_RIGHT);
      var i: u16 := 0;
      while i < count
        invariant Valid()
        invariant i <= count
        invariant View() == ALL_OFF
        invariant log == TraceLog(old(log), LEFT_TO_RIGHT, i as nat)
      {
        TraceBody(LEFT_TO_RIGHT);
        i := i + 1;
      }
    }

    /** `bh_trace_right_to_left(count)`: the right quadrants fill together, then
        the left ones. */
    method TraceRightToLeft(count: u16)
      modifies this`ul, this`ll, this`ur, this`lr, this`log
      requires Valid()
      ensures Valid()
      ensures View() == ALL_OFF
      ensures log == TraceLog(old(log), RIGHT_TO_LEFT, count as nat)
    {
      AllOff();
      HorizontalTracesDisjoint(RIGHT_TO_LEFT);
      var i: u16 := 0;
      while i < count
        invariant Valid()
        invariant i <= count
        invariant View() == ALL_OFF
        invariant log == TraceLog(old(log), RIGHT_TO_LEFT, i as nat)
      {
        TraceBody(RIGHT_TO_LEFT);
        i := i + 1;
      }
    }

    /** `bh_trace_left_and_right(count)`: the same writes as
        `bh_trace_top_and_bottom`. */
    method TraceLeftAndRight(count: u16)
      modifies this`ul, this`ll, this`ur, this`lr, this`log
      requires Valid()
      ensures Valid()
      ensures View() == ALL_OFF
      ensures log == TraceLog(old(log), LEFT_AND_RIGHT, count as nat)
    {
      AllOff();
      FourWayTracesDisjoint(LEFT_AND_RIGHT);
      var i: u16 := 0;
      while i < count
        invariant Valid()
        invariant i <= count
        invariant View() == ALL_OFF
        invariant log == TraceLog(old(log), LEFT_AND_RIGHT, i as nat)
      {
        TraceBody(LEFT_AND_RIGHT);
        i := i + 1;
      }
    }

    /** `bh_trace_middle_to_lr(count)`: the same writes as
        `bh_trace_middle_to_bt`. */
    method TraceMiddleToLr(count: u16)
      modifies this`ul, this`ll, this`ur, this`lr, this`log
      requires Valid()
      ensures Valid()
      ensures View() == ALL_OFF
      ensures log == TraceLog(old(log), MIDDLE_TO_LR, count as nat)
    {
      AllOff();
      FourWayTracesDisjoint(MIDDLE_TO_LR);
      var i: u16 := 0;
      while i < count
        invariant Valid()
        invariant i <= count
        invariant View() == ALL_OFF
        invariant log == TraceLog(old(log), MIDDLE_TO_LR, i as nat)
      {
        TraceBody(MIDDLE_TO_LR);
        i := i + 1;
      }
    }

    /** `WDT_CONTR |= 1 << 4`: the watchdog is cleared, and the write is
        counted. */
    method ClearWatchdog()
      modifies this`wdtContr, this`wdtClears
      ensures wdtContr == WatchdogClear(old(wdtContr))
      ensures wdtClears == old(wdtClears) + 1
    {
      wdtContr := WatchdogClear(wdtContr);
      wdtClears := wdtClears + 1;
    }

    /** The animations of one pass of the `while (1)` body of `main`: the
        fifteen routines with count 3. */
    method MainPass()
      modifies this`ul, this`ll, this`ur, this`lr, this`log
      requires Valid()
      ensures Valid()
      ensures View() == ALL_OFF
      ensures log == PassLog(old(log))
    {
      SolidFlash(3);

      QuadrantChase(3);
      QuadrantDance(3);

      FullonChaseCw(3);
      FullonChaseCcw(3);

      FullonTraceCw(3);
      FullonTraceCcw(3);

      TraceTopToBottom(3);
      TraceBottomToTop(3);
      TraceTopAndBottom(3);
      TraceMiddleToBt(3);

      TraceLeftToRight(3);
      TraceRightToLeft(3);
      TraceLeftAndRight(3);
      TraceMiddleToLr(3);
    }

    /** `main`, cut off after `passes` passes of its endless loop: `bh_setup`,
        then the passes, each the animations followed by
        `WDT_CONTR |= 1 << 4` to clear the watchdog. */
    method RunMain(passes: nat)
      modifies this`ul, this`ll, this`ur, this`lr, this`log, this`wdtContr, this`wdtClears
      requires Valid()
      ensures Valid()
      ensures View() == ALL_OFF
      ensures log == RunLog(old(log), passes)
      ensures wdtContr == if passes == 0 then old(wdtContr) else WatchdogClear(old(wdtContr))
      ensures passes > 0 ==> wdtContr & 0x10 == 0x10
      ensures wdtContr & 0xEF == old(wdtContr) & 0xEF
      ensures wdtClears == old(wdtClears) + passes
    {
      Setup();
      var k := 0;
      while k < passes
        invariant Valid()
        invariant k <= passes
        invariant View() == ALL_OFF
        invariant log == RunLog(old(log), k)
        invariant wdtContr == if k == 0 then old(wdtContr) else WatchdogClear(old(wdtContr))
        invariant wdtClears == old(wdtClears) + k
      {
        WatchdogClearTwice(old(wdtContr));
        MainPass();
        ClearWatchdog();
        k := k + 1;
      }
    }
  }
}
