# bling-heart firmware, modelled in Dafny

`src/bling-heart.c` is the firmware of a heart-shaped LED kit built around an
STC89C52RC (an 8051). Thirty-two LEDs are arranged in four quadrants, one
8-bit port each: HEART_UL = P0, HEART_LL = P1, HEART_UR = P2, HEART_LR = P3.
The ports are active-low, so `SEG_OFF` is 0xFF and `SEG_ON` is 0x00. After
`bh_setup`, `main` loops forever through fifteen animation routines, each called
with count 3, and then sets the watchdog-clear bit. The routines only assign
the four ports and call the busy-wait `delay_ms`.

The model is split into modules:

- `Machine` (machine.dfy) holds the machine-level values:
  - the 16-bit `unsigned int` of the sdcc 8051 target (`u16`);
  - the mask `~(0x1U << k)`, computed in 16 bits and truncated to a port byte;
  - `PORT &= mask`, `PORT = ~PORT` and `WDT_CONTR |= 1 << 4`;
  - the pattern a quadrant holds after `j` steps of a trace sweep;
  - segment counting.
- `Delay` (delay.dfy) is `delay_ms`, modelled as its two nested 16-bit countdowns and what they count.
- `Events` (events.dfy) is the observable behaviour:
  - the four registers (`Regs`);
  - a log of port writes and `delay_ms` requests;
  - `Replay`, the registers after a log;
  - `Frames`, what the heart shows during each delay;
  - `Delays`, the list of delay arguments.
- `Choreography` (choreography.dfy) states, for every routine, the exact sequence of writes and delays it appends to the log. It also holds the lane and phase tables of the chase and trace routines, and facts about which ports those tables drive.
- `BlingHeart` (bling_heart.dfy) is the firmware as imperative code. A class `Display` holds the four port registers and `WDT_CONTR`, and has one method per routine. Each method assigns the registers in place and records its writes and delays in a ghost log. A ghost counter records each watchdog write. Each is proved to leave the log its choreography describes, and to leave the registers in the state stated in its contract.
- `Animations` (animations.dfy) replays those logs to derive what each routine shows:
  - the registers after it;
  - every frame displayed, with how many segments are lit and which ones;
  - the delays requested and their total.

  It covers one pass of `main` and any number of passes.

Two pairs of routines are textually identical in the code:
- `bh_trace_top_and_bottom` and `bh_trace_left_and_right`;
- `bh_trace_middle_to_bt` and `bh_trace_middle_to_lr`.

Their tables are equal, and `DuplicateTraces` proves that each pair produces the same log. The loop of `main` calls eight `bh_trace_*` routines, all of them modelled.

## Model

| member | source | states |
|---|---|---|
| Machine.Complement | src/bling-heart.c:97-100 | `PORT = ~PORT` promotes to 16 bits, complements and truncates; the byte that lands is the 8-bit complement |
| Machine.Mask | src/bling-heart.c:171 | `~(0x1U << k)` computed as a 16-bit `unsigned int` (definition) |
| Machine.OneLit | src/bling-heart.c:171 | `PORT = ~(0x1U << k)`: the low byte of the 16-bit mask is what the port receives (definition) |
| Machine.ClearBit | src/bling-heart.c:242 | `PORT &= ~(0x1U << k)`: the port widened to 16 bits, masked, truncated back (definition) |
| Machine.Swept | src/bling-heart.c:241-245 | the byte a quadrant holds after j steps of `&= ~(0x1U << bit)` from SEG_OFF (definition) |
| Machine.OneLitBits | src/bling-heart.c:170-172 | `~(0x1U << k)` truncated to a port byte has exactly bit k clear: exactly segment k lit |
| Machine.OneLitZeroCount | src/bling-heart.c:170-172 | a chase write lights exactly one segment |
| Machine.ClearBitMask | src/bling-heart.c:242 | masking in 16 bits and truncating equals masking the byte with the truncated mask |
| Machine.ClearBitBits | src/bling-heart.c:242 | `PORT &= ~(0x1U << k)` clears bit k and keeps every other bit |
| Machine.ClearBitZeros | src/bling-heart.c:242 | clearing a set bit adds exactly one lit segment, within any prefix of bits that contains it |
| Machine.SweptBits | src/bling-heart.c:241-245 | after j steps of a sweep in direction d, the segment of step k is lit iff k < j |
| Machine.SweptZeroCount | src/bling-heart.c:241-245 | after j steps of a sweep exactly j segments are lit |
| Machine.SweptShrinks | src/bling-heart.c:241-245 | a sweep never relights a segment dark: bits cleared after i steps stay cleared after j >= i |
| Machine.SweptFull | src/bling-heart.c:241-263 | an 8-step sweep in either direction leaves the quadrant at 0x00 |
| Machine.WatchdogClear | src/bling-heart.c:517 | or-ing `1 << 4` into WDT_CONTR sets bit 4 and leaves the other seven bits unchanged |
| Machine.WatchdogClearTwice | src/bling-heart.c:517 | setting the watchdog bit a second time changes nothing more |
| Delay.Spin | src/bling-heart.c:68-70 | `i = FDIV; while (--i);` runs its body FDIV - 1 = 69 times |
| Delay.DelayMs | src/bling-heart.c:63-72 | the do-while makes ms passes (65536 for ms = 0) of 69 inner iterations each |
| Events.SetSet | src/bling-heart.c:175 | a second write to a port overrides the first |
| Events.TotalMsRepeat | src/bling-heart.c:308-313 | n repetitions of a delay list request n times its total |
| Choreography.SweptRegsLane | src/bling-heart.c:322-327 | after a trace step each traced port holds its lane's sweep pattern, whatever the lane order |
| Choreography.SweptRegsOther | src/bling-heart.c:322-327 | a trace step leaves the ports its lanes do not drive unchanged |
| Choreography.SweptRegsAgain | src/bling-heart.c:322-327 | re-sweeping the same lanes leaves only the newer pattern |
| Choreography.DisjointFromPorts | src/bling-heart.c:318-337 | phases whose listed ports never repeat drive pairwise disjoint ports |
| Choreography.ListedDriven | src/bling-heart.c:318-337 | every port listed in a trace's phases is driven by one of them |
| Choreography.FullonTraceCwDisjoint | src/bling-heart.c:236-268 | the four loops of `bh_fullon_trace_cw` drive UR, LR, LL, UL: each quadrant once, all four |
| Choreography.FullonTraceCcwDisjoint | src/bling-heart.c:271-302 | the four loops of `bh_fullon_trace_ccw` drive UL, LL, LR, UR: each quadrant once, all four |
| Choreography.VerticalTracesDisjoint | src/bling-heart.c:318-361 | the two phases of top_to_bottom and bottom_to_top drive each quadrant once, all four |
| Choreography.HorizontalTracesDisjoint | src/bling-heart.c:402-445 | the two phases of left_to_right and right_to_left drive each quadrant once, all four |
| Choreography.FourWayTracesDisjoint | src/bling-heart.c:364-399 | the single phase of top_and_bottom, middle_to_bt, left_and_right and middle_to_lr drives each quadrant once |
| Choreography.AllOffLog | src/bling-heart.c:75-82 | the four writes of `bh_all_off`, LR, LL, UR, UL, each SEG_OFF (definition) |
| Choreography.AllOnLog | src/bling-heart.c:85-92 | the four writes of `bh_all_on`, LR, LL, UR, UL, each SEG_ON (definition) |
| Choreography.ToggleLog | src/bling-heart.c:95-102 | the four writes of `bh_all_toggle`, LR, LL, UR, UL, each the complement of the port's value (definition) |
| Choreography.SetupLog | src/bling-heart.c:105-110 | `bh_all_off`, then `delay_ms(50)` (definition) |
| Choreography.SolidFlashRound | src/bling-heart.c:309-312 | all on, 250 ms, all off, 250 ms (definition) |
| Choreography.SolidFlashLog | src/bling-heart.c:305-315 | all off, then `count` flash iterations (definition) |
| Choreography.QuadrantChaseRound | src/bling-heart.c:144-160 | the eight writes of lines 144-160, each followed by `delay_ms(250)` (definition) |
| Choreography.QuadrantChaseLog | src/bling-heart.c:140-162 | all off, then `count` iterations (definition) |
| Choreography.QuadrantDanceRound | src/bling-heart.c:117-133 | all off, 250, UL and LR on, 250, toggle, 250, all off, 250, LL and UR on, 250, toggle, 250 (definition) |
| Choreography.QuadrantDanceLog | src/bling-heart.c:113-137 | `count` iterations with no leading all off (definition) |
| Choreography.ChaseSteps | src/bling-heart.c:170-174 | the first j passes of a chase loop: `PORT = ~(0x1U << bit)`, then 50 ms (definition) |
| Choreography.ChaseLane | src/bling-heart.c:170-175 | a chase loop of eight steps, then the port set to SEG_OFF (definition) |
| Choreography.ChaseRound | src/bling-heart.c:168-196 | the chase loops of the lanes one after another (definition) |
| Choreography.ChaseLog | src/bling-heart.c:165-197 | all off, then `count` rounds (definition) |
| Choreography.SweepWrites | src/bling-heart.c:323-324 | the `&=` statements of trace step j in statement order, each writing the lane's pattern after j steps (definition) |
| Choreography.TraceSteps | src/bling-heart.c:322-327 | the first j steps of a trace loop, each followed by the phase's delay (definition) |
| Choreography.TracePhases | src/bling-heart.c:322-333 | the trace loops of the phases one after another (definition) |
| Choreography.TraceRound | src/bling-heart.c:322-335 | the phases, then all off and 50 ms (definition) |
| Choreography.TraceLog | src/bling-heart.c:318-337 | all off, then `count` iterations (definition) |
| Choreography.PassLog | src/bling-heart.c:496-515 | the fifteen routines of the loop of `main`, in source order, each with count 3 (definition) |
| Choreography.RunLog | src/bling-heart.c:490-518 | `bh_setup`, then `passes` passes (definition) |
| Choreography.StatementsAt | src/bling-heart.c:170-171 | entry k of a loop's statement list is lane k's port with the mask of its bit at step j |
| Choreography.ChaseCwTable | src/bling-heart.c:170-190 | the four loops of `bh_fullon_chase_cw` assign UR, LR, LL with `~(0x1U << (7-j))` and UL with `~(0x1U << j)`, in that order |
| Choreography.ChaseCcwTable | src/bling-heart.c:205-225 | the four loops of `bh_fullon_chase_ccw` assign UL with `~(0x1U << (7-j))`, then LL, LR, UR with `~(0x1U << j)` |
| Choreography.FullonTraceCwTable | src/bling-heart.c:241-260 | four 50 ms loops: UR, LR, LL with `&= ~(0x1U << (7-j))`, then UL with `&= ~(0x1U << j)` |
| Choreography.FullonTraceCcwTable | src/bling-heart.c:276-293 | four 50 ms loops: UL with `&= ~(0x1U << (7-j))`, then LL, LR, UR with `&= ~(0x1U << j)` |
| Choreography.TopToBottomTable | src/bling-heart.c:322-331 | two 50 ms loops: UR and UL with 7-j; then LR with 7-j and LL with j |
| Choreography.BottomToTopTable | src/bling-heart.c:344-353 | two 50 ms loops: LL with 7-j and LR with j; then UL and UR with j |
| Choreography.TopAndBottomTable | src/bling-heart.c:368-373 | one 100 ms loop: UR, UL, LL with 7-j and LR with j |
| Choreography.MiddleToBtTable | src/bling-heart.c:387-392 | one 100 ms loop: UR, UL, LL with j and LR with 7-j |
| Choreography.LeftToRightTable | src/bling-heart.c:407-416 | two 50 ms loops: LL and UL with j; then LR with j and UR with 7-j |
| Choreography.RightToLeftTable | src/bling-heart.c:428-438 | two 50 ms loops: UR with j and LR with 7-j; then UL and LL with 7-j |
| Choreography.LeftAndRightTable | src/bling-heart.c:452-457 | one 100 ms loop: UR, UL, LL with 7-j and LR with j |
| Choreography.MiddleToLrTable | src/bling-heart.c:471-476 | one 100 ms loop: UR, UL, LL with j and LR with 7-j |
| BlingHeart.Display.DelayMs | src/bling-heart.c:63-72 | runs the countdown and records one `delay_ms(ms)` request; the frame the log shows for it is what the registers hold; every method keeps the registers equal to the replay of the log |
| BlingHeart.Display.Put | src/bling-heart.c:120-121 | assigns one port, records the write, changes no other register |
| BlingHeart.Display.Clear | src/bling-heart.c:242 | `PORT &= ~(0x1U << k)`: reads the port and writes back the masked byte |
| BlingHeart.Display.AllOff | src/bling-heart.c:75-82 | all four registers 0xFF, written in the order LR, LL, UR, UL |
| BlingHeart.Display.AllOn | src/bling-heart.c:85-92 | all four registers 0x00, written in the order LR, LL, UR, UL |
| BlingHeart.Display.AllToggle | src/bling-heart.c:95-102 | every register complemented, written in the order LR, LL, UR, UL |
| BlingHeart.Display.Setup | src/bling-heart.c:105-110 | all off, then 50 ms; ends all off |
| BlingHeart.Display.QuadrantDance | src/bling-heart.c:113-137 | count 0 leaves the registers untouched; count >= 1 ends with UL = LR = 0x00 and LL = UR = 0xFF; the log is the dance's |
| BlingHeart.Display.QuadrantDanceBody | src/bling-heart.c:117-133 | one iteration: the main diagonal, toggled, then the anti-diagonal, toggled, which ends on the main diagonal |
| BlingHeart.Display.QuadrantChase | src/bling-heart.c:140-162 | all off first; the log is `count` quadrant-chase iterations; ends all off |
| BlingHeart.Display.QuadrantChaseBody | src/bling-heart.c:144-160 | one iteration: UL, LL, UR, LR set to 0x00 then to 0xFF in that order, 250 ms after each write |
| BlingHeart.Display.SolidFlash | src/bling-heart.c:305-315 | all off first, then `count` times all on, 250 ms, all off, 250 ms; ends all off |
| BlingHeart.Display.Chase | src/bling-heart.c:170-175 | one 8-step chase over a quadrant, one segment lit per step, 50 ms each, then that quadrant set to 0xFF; other quadrants unchanged |
| BlingHeart.Display.FullonChaseCw | src/bling-heart.c:165-197 | all off, then `count` rounds of chases over UR, LR, LL (bit 7-j) and UL (bit j); ends all off |
| BlingHeart.Display.FullonChaseCcw | src/bling-heart.c:200-233 | all off, then `count` rounds of chases over UL (bit 7-j), LL, LR, UR (bit j); ends all off |
| BlingHeart.Display.TraceStep | src/bling-heart.c:323-324 | one trace step: each lane's port, in statement order, loses the segment of this step |
| BlingHeart.Display.Trace | src/bling-heart.c:322-327 | one `for j` loop of a trace: its lanes' ports, dark at the start, end with their 8-step patterns, `ms` after each step |
| BlingHeart.Display.TraceBody | src/bling-heart.c:322-335 | one trace iteration: the phases in order, then all off and 50 ms; starts and ends all off |
| BlingHeart.Display.FullonTraceCw | src/bling-heart.c:236-268 | all off, then `count` iterations of the four single-quadrant phases UR, LR, LL (bit 7-j) and UL (bit j); ends all off |
| BlingHeart.Display.FullonTraceCcw | src/bling-heart.c:271-302 | all off, then `count` iterations of the phases UL (bit 7-j), LL, LR, UR (bit j); ends all off |
| BlingHeart.Display.TraceTopToBottom | src/bling-heart.c:318-337 | all off, then `count` iterations of the phases {UR, UL} and {LR, LL}; ends all off |
| BlingHeart.Display.TraceBottomToTop | src/bling-heart.c:340-361 | all off, then `count` iterations of the phases {LL, LR} and {UL, UR}; ends all off |
| BlingHeart.Display.TraceTopAndBottom | src/bling-heart.c:364-380 | all off, then `count` iterations of one four-quadrant phase, 100 ms per step; ends all off |
| BlingHeart.Display.TraceMiddleToBt | src/bling-heart.c:383-399 | all off, then `count` iterations of one four-quadrant phase in the opposite directions, 100 ms per step; ends all off |
| BlingHeart.Display.TraceLeftToRight | src/bling-heart.c:402-421 | all off, then `count` iterations of the phases {LL, UL} and {LR, UR}; ends all off |
| BlingHeart.Display.TraceRightToLeft | src/bling-heart.c:424-445 | all off, then `count` iterations of the phases {UR, LR} and {UL, LL}; ends all off |
| BlingHeart.Display.TraceLeftAndRight | src/bling-heart.c:448-464 | the writes of `bh_trace_top_and_bottom`; ends all off |
| BlingHeart.Display.TraceMiddleToLr | src/bling-heart.c:467-483 | the writes of `bh_trace_middle_to_bt`; ends all off |
| BlingHeart.Display.ClearWatchdog | src/bling-heart.c:517 | one `WDT_CONTR |= 1 << 4`: the register becomes `WatchdogClear` of its old value and the write count goes up by exactly 1 |
| BlingHeart.Display.MainPass | src/bling-heart.c:494-515 | the fifteen routines of one loop pass in source order, each with count 3, leaving the log `PassLog` describes; ends all off from any valid state |
| BlingHeart.Display.RunMain | src/bling-heart.c:486-519 | `bh_setup`, then `passes` loop passes, each the fifteen routines and then one `WDT_CONTR |= 1 << 4`: the write count goes up by exactly `passes`; WDT_CONTR untouched with no pass and `WatchdogClear(old)` (bit 4 set, other bits kept) after any positive number; all off at the end |
| Animations.AllOffShows | src/bling-heart.c:75-82 | `bh_all_off` leaves every register 0xFF from any state, shows no frame and requests no delay |
| Animations.AllOnShows | src/bling-heart.c:85-92 | `bh_all_on` leaves every register 0x00, shows no frame and requests no delay |
| Animations.ToggleShows | src/bling-heart.c:95-102 | `bh_all_toggle` complements every register, shows no frame and requests no delay |
| Animations.ToggleInvolution | src/bling-heart.c:95-102 | toggling twice restores every register |
| Animations.SetupShows | src/bling-heart.c:105-110 | `bh_setup` shows the dark heart for one 50 ms delay |
| Animations.SolidFlashShows | src/bling-heart.c:305-315 | `bh_solid_flash(n)` shows [all on, all off] n times, requests exactly [250, 250] n times and ends all off |
| Animations.QuadrantChaseRoundShows | src/bling-heart.c:144-160 | one quadrant chase from a dark heart shows the quadrants lit one by one in the order UL, LL, UR, LR, then darkened in that order, 250 ms each, ending dark |
| Animations.QuadrantChaseShows | src/bling-heart.c:140-162 | `bh_quadrant_chase(n)` shows those 8 frames n times, 250 ms each, and ends all off |
| Animations.DiagonalsToggle | src/bling-heart.c:123-132 | toggling one lit diagonal lights the other |
| Animations.QuadrantDanceRoundShows | src/bling-heart.c:117-133 | one dance iteration from any state shows dark, main diagonal, anti-diagonal, dark, anti-diagonal, main diagonal, 250 ms each, ending on the main diagonal |
| Animations.QuadrantDanceShows | src/bling-heart.c:113-137 | count 0 leaves the registers as they were; count >= 1 leaves UL = LR = 0x00 and LL = UR = 0xFF; frames and delays are the iteration's, n times |
| Animations.ChaseFrameLit | src/bling-heart.c:170-172 | at chase step i the chased quadrant has exactly one segment lit, the one of bit 7-i or i, and the other three registers are unchanged |
| Animations.ChaseStepsShows | src/bling-heart.c:170-174 | j chase steps show the j one-segment frames, request [50] j times and leave the last step's byte |
| Animations.ChaseLaneShows | src/bling-heart.c:170-175 | a whole chase over a quadrant shows eight frames and leaves that quadrant at 0xFF |
| Animations.ChaseRoundShows | src/bling-heart.c:168-196 | a chase iteration from a dark heart ends dark after 8 frames of 50 ms per quadrant |
| Animations.ChaseShows | src/bling-heart.c:165-233 | a chase routine shows `count` rounds of its frames, 50 ms each, and ends all off |
| Animations.SweepWritesShows | src/bling-heart.c:323-324 | the writes of one trace step leave each lane's port with its pattern and show nothing |
| Animations.TraceFrameLit | src/bling-heart.c:322-327 | after trace step i a traced quadrant shows the segments of steps 0..i lit and no other, i + 1 of them |
| Animations.TraceFrameOther | src/bling-heart.c:322-327 | a quadrant no lane of the phase drives keeps its value in every frame |
| Animations.TraceFrameGrows | src/bling-heart.c:322-327 | from one trace frame to the next only segments get lit, none goes dark |
| Animations.TraceFrameFull | src/bling-heart.c:322-327 | the eighth frame of a phase shows each traced quadrant at 0x00 |
| Animations.TraceStepsShows | src/bling-heart.c:322-327 | j steps of a phase show the j accumulated frames and request [ms] j times |
| Animations.TracePhasesShows | src/bling-heart.c:322-333 | a trace's phases in order show their frames and request 8 delays per phase |
| Animations.AfterPhasesLit | src/bling-heart.c:322-333 | after disjoint phases each driven quadrant is at 0x00 and every other quadrant is unchanged |
| Animations.TraceRoundShows | src/bling-heart.c:322-335 | a trace iteration shows its phases' frames, then the dark heart for 50 ms, and ends all off |
| Animations.TraceShows | src/bling-heart.c:318-337 | a trace routine shows `count` iterations of its frames and delays and ends all off |
| Animations.TraceLightsHeart | src/bling-heart.c:236-268 | phases that drive every quadrant once leave, and show in their last frame, the whole heart lit |
| Animations.DuplicateTraces | src/bling-heart.c:448-483 | `bh_trace_left_and_right` logs exactly what `bh_trace_top_and_bottom` does, and `bh_trace_middle_to_lr` what `bh_trace_middle_to_bt` does |
| Animations.PhaseDelaysMs | src/bling-heart.c:322-333 | phases that wait `ms` per step request 8 x ms per phase |
| Animations.SolidFlashMs | src/bling-heart.c:305-315 | `bh_solid_flash(n)` requests 500 n ms |
| Animations.QuadrantChaseMs | src/bling-heart.c:140-162 | `bh_quadrant_chase(n)` requests 2000 n ms |
| Animations.QuadrantDanceMs | src/bling-heart.c:113-137 | `bh_quadrant_dance(n)` requests 1500 n ms |
| Animations.ChaseMs | src/bling-heart.c:165-197 | a chase routine over L quadrants requests 400 L ms per iteration |
| Animations.TraceMs | src/bling-heart.c:318-337 | a trace routine requests 8 x ms per phase plus 50 ms per iteration |
| Animations.FullonTraceMs | src/bling-heart.c:236-302 | `bh_fullon_trace_cw(3)` and `_ccw(3)` each request 4950 ms |
| Animations.TwoPhaseTraceMs | src/bling-heart.c:318-361 | each two-phase trace with count 3 requests 2550 ms |
| Animations.FourWayTraceMs | src/bling-heart.c:364-399 | each four-quadrant trace with count 3 requests 2550 ms |
| Animations.PassMs | src/bling-heart.c:492-518 | one pass of the main loop requests 51900 ms of delays |
| Animations.PassDark | src/bling-heart.c:492-518 | one pass of the main loop ends with the heart dark, from any state |
| Animations.SetupMs | src/bling-heart.c:105-110 | `bh_setup` requests 50 ms |
| Animations.RunDark | src/bling-heart.c:486-519 | `main` stopped after any number of passes leaves the heart dark |
| Animations.RunMs | src/bling-heart.c:486-519 | `main` stopped after n passes has requested 50 + 51900 n ms |

## Left out

- Real time is not modelled. `FOSC` is unused, and how long a delay takes depends on the processor. A delay is modelled by its argument, recorded as a `Wait` event, and by its loop counts in `Delay.DelayMs`.
- BlingHeart.Display.DelayMs: runs the countdown of `Delay.DelayMs` but records only the argument in the log, not the iteration counts.
- Hardware pin behaviour is not modelled: the 8051 read-modify-write port semantics, and P3.0/P3.1 doubling as the UART pins. Ports are plain bytes.
- The watchdog's timeout and reset are not modelled; only the bit written to `WDT_CONTR` is.
- The endless `while(1)` of `main` is bounded: BlingHeart.Display.RunMain runs a given number of passes.
- `stdio.h` is unused by the firmware and is not part of this model.
- The unrolled statements of the source are factored into helper methods:
  - `Put` is a port assignment and `Clear` an `&=`.
  - `Chase` is one `for j` block of a chase routine.
  - `TraceStep`, `Trace` and `TraceBody` are a trace step, a `for j` loop and a trace iteration. They iterate over tables of lanes (`CHASE_CW`, `FULLON_TRACE_CW`, ...) instead of repeating the statements.
  - `QuadrantChaseBody` and `QuadrantDanceBody` are loop bodies.

  The order of writes and delays is the source's. Every method's log is proved equal to the log function of module Choreography for its routine. The chase and trace log functions are defined over the same lane and phase tables as the methods, so those tables carry the transcription. The `...Table` lemmas state each table in the source's terms: the port each statement assigns and its mask `~(0x1U << (7-j))` or `~(0x1U << j)`.
