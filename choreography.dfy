/** What each animation routine of bling-heart.c does, written as the exact
    sequence of port writes and `delay_ms` requests it appends to the event log
    (each function takes the log so far and returns the log afterwards),
    together with the properties of those sequences: where the lit segments are
    after every step, which state each routine ends in, and which delays it
    requests. */
module Choreography {
  import opened Machine
  import opened Events

  // ---------------------------------------------------------------------------
  // Primitives

  /** `bh_all_off`: LR, LL, UR, UL are set to SEG_OFF, in that order. */
  function AllOffLog(l: Log): Log
  {
    l.Then(Write(LR, SEG_OFF)).Then(Write(LL, SEG_OFF))
     .Then(Write(UR, SEG_OFF)).Then(Write(UL, SEG_OFF))
  }

  /** `bh_all_on`: LR, LL, UR, UL are set to SEG_ON, in that order. */
  function AllOnLog(l: Log): Log
  {
    l.Then(Write(LR, SEG_ON)).Then(Write(LL, SEG_ON))
     .Then(Write(UR, SEG_ON)).Then(Write(UL, SEG_ON))
  }

  /** `bh_all_toggle` from registers `r`: LR, LL, UR, UL, in that order, each
      receive their complement. */
  function ToggleLog(l: Log, r: Regs): Log
  {
    l.Then(Write(LR, Complement(r.lr))).Then(Write(LL, Complement(r.ll)))
     .Then(Write(UR, Complement(r.ur))).Then(Write(UL, Complement(r.ul)))
  }

  /** The complement of every register. */
  function Toggled(r: Regs): Regs
  {
    Regs(Complement(r.ul), Complement(r.ll), Complement(r.ur), Complement(r.lr))
  }

  /** `bh_setup`: all off, then 50 ms. */
  function SetupLog(l: Log): Log
  {
    AllOffLog(l).Then(Wait(50))
  }

  // ---------------------------------------------------------------------------
  // Whole-quadrant animations

  /** One iteration of `bh_solid_flash`: all on, 250 ms, all off, 250 ms. */
  function SolidFlashRound(l: Log): Log
  {
    AllOffLog(AllOnLog(l).Then(Wait(250))).Then(Wait(250))
  }

  /** `bh_solid_flash(count)`. */
  function SolidFlashLog(l: Log, count: nat): Log
  {
    if count == 0 then AllOffLog(l) else SolidFlashRound(SolidFlashLog(l, count - 1))
  }

  /** One iteration of `bh_quadrant_chase`: UL, LL, UR, LR lit one after the
      other, then darkened in the same order, 250 ms after each write. */
  function QuadrantChaseRound(l: Log): Log
  {
    l.Then(Write(UL, SEG_ON)).Then(Wait(250))
     .Then(Write(LL, SEG_ON)).Then(Wait(250))
     .Then(Write(UR, SEG_ON)).Then(Wait(250))
     .Then(Write(LR, SEG_ON)).Then(Wait(250))
     .Then(Write(UL, SEG_OFF)).Then(Wait(250))
     .Then(Write(LL, SEG_OFF)).Then(Wait(250))
     .Then(Write(UR, SEG_OFF)).Then(Wait(250))
     .Then(Write(LR, SEG_OFF)).Then(Wait(250))
  }

  /** `bh_quadrant_chase(count)`. */
  function QuadrantChaseLog(l: Log, count: nat): Log
  {
    if count == 0 then AllOffLog(l) else QuadrantChaseRound(QuadrantChaseLog(l, count - 1))
  }

  /** The diagonal UL/LR lit, the other two dark. */
  const DIAGONAL_MAIN := Regs(SEG_ON, SEG_OFF, SEG_OFF, SEG_ON)
  /** The diagonal LL/UR lit, the other two dark. */
  const DIAGONAL_ANTI := Regs(SEG_OFF, SEG_ON, SEG_ON, SEG_OFF)

  /** One iteration of `bh_quadrant_dance`. Each toggle acts on the diagonal
      that was just lit, so the iteration ends with the other diagonal lit. */
  function QuadrantDanceRound(l: Log): Log
  {
    var a := AllOffLog(l).Then(Wait(250));
    var b := a.Then(Write(UL, SEG_ON)).Then(Write(LR, SEG_ON)).Then(Wait(250));
    var c := ToggleLog(b, DIAGONAL_MAIN).Then(Wait(250));
    var d := AllOffLog(c).Then(Wait(250));
    var e := d.Then(Write(LL, SEG_ON)).Then(Write(UR, SEG_ON)).Then(Wait(250));
    ToggleLog(e, DIAGONAL_ANTI).Then(Wait(250))
  }

  /** `bh_quadrant_dance(count)`: unlike every other routine it has no
      `bh_all_off` before its loop. */
  function QuadrantDanceLog(l: Log, count: nat): Log
  {
    if count == 0 then l else QuadrantDanceRound(QuadrantDanceLog(l, count - 1))
  }

  // ---------------------------------------------------------------------------
  // Sweeps over the eight segments of a quadrant

  /** One quadrant swept in one direction. */
  datatype Lane = Lane(port: Port, dir: Dir)

  /** The first `j` steps of a chase over one lane: step i writes the byte with
      only bit BitAt(dir, i) cleared, then waits 50 ms. */
  function ChaseSteps(l: Log, lane: Lane, j: nat): Log
    requires j <= 8
  {
    if j == 0 then l
    else ChaseSteps(l, lane, j - 1).Then(Write(lane.port, OneLit(BitAt(lane.dir, j - 1)))).Then(Wait(50))
  }

  /** A whole chase over one quadrant: eight steps, then the quadrant is set
      back to SEG_OFF. */
  function ChaseLane(l: Log, lane: Lane): Log
  {
    ChaseSteps(l, lane, 8).Then(Write(lane.port, SEG_OFF))
  }

  /** One iteration of a chase routine: its lanes chased one after the other. */
  function ChaseRound(l: Log, lanes: seq<Lane>): Log
  {
    if lanes == [] then l else ChaseLane(ChaseRound(l, lanes[..|lanes| - 1]), lanes[|lanes| - 1])
  }

  /** `bh_fullon_chase_cw` / `_ccw`, given the lanes of their four loops. */
  function ChaseLog(l: Log, lanes: seq<Lane>, count: nat): Log
  {
    if count == 0 then AllOffLog(l) else ChaseRound(ChaseLog(l, lanes, count - 1), lanes)
  }

  const CHASE_CW: seq<Lane> := [Lane(UR, Down), Lane(LR, Down), Lane(LL, Down), Lane(UL, Up)]
  const CHASE_CCW: seq<Lane> := [Lane(UL, Down), Lane(LL, Up), Lane(LR, Up), Lane(UR, Up)]

  /** Lanes traced together, each step followed by a delay of `ms`. */
  datatype Phase = Phase(lanes: seq<Lane>, ms: u16)

  /** The writes of trace step j (counted from 1), lane by lane in order: each
      port receives the pattern accumulated over j steps. */
  function SweepWrites(l: Log, lanes: seq<Lane>, j: nat): Log
    requires j <= 8
  {
    if lanes == [] then l
    else
      var last := lanes[|lanes| - 1];
      SweepWrites(l, lanes[..|lanes| - 1], j).Then(Write(last.port, Swept(last.dir, j)))
  }

  /** No port appears in two of the lanes. */
  predicate DistinctPorts(lanes: seq<Lane>)
  {
    forall a, b :: 0 <= a < b < |lanes| ==> lanes[a].port != lanes[b].port
  }

  /** Whether some lane drives port `p`. */
  predicate Drives(lanes: seq<Lane>, p: Port)
  {
    exists k :: 0 <= k < |lanes| && lanes[k].port == p
  }

  /** The registers `r` with every lane's port assigned its pattern after `j`
      steps, in lane order. */
  function SweptRegs(r: Regs, lanes: seq<Lane>, j: nat): Regs
    requires j <= 8
  {
    if lanes == [] then r
    else
      var last := lanes[|lanes| - 1];
      SweptRegs(r, lanes[..|lanes| - 1], j).Set(last.port, Swept(last.dir, j))
  }

  /** A port no lane drives keeps its value. */
  lemma {:induction false} SweptRegsOther(r: Regs, lanes: seq<Lane>, j: nat, p: Port)
    requires j <= 8 && !Drives(lanes, p)
    ensures SweptRegs(r, lanes, j).Get(p) == r.Get(p)
  {
    if lanes != [] {
      var init := lanes[..|lanes| - 1];
      assert !Drives(init, p) by {
        forall k | 0 <= k < |init| ensures init[k].port != p {
          assert init[k] == lanes[k];
        }
      }
      SweptRegsOther(r, init, j, p);
    }
  }

  /** With distinct ports, each lane's port holds that lane's pattern. */
  lemma {:induction false} SweptRegsLane(r: Regs, lanes: seq<Lane>, j: nat, k: nat)
    requires j <= 8 && DistinctPorts(lanes) && k < |lanes|
    ensures SweptRegs(r, lanes, j).Get(lanes[k].port) == Swept(lanes[k].dir, j)
  {
    var n := |lanes| - 1;
    var init := lanes[..n];
    if k < n {
      assert DistinctPorts(init) by {
        forall a, b | 0 <= a < b < |init| ensures init[a].port != init[b].port {
          assert init[a] == lanes[a] && init[b] == lanes[b];
        }
      }
      assert init[k] == lanes[k];
      SweptRegsLane(r, init, j, k);
    }
  }

  /** Sweeping again overwrites every lane: only the last pattern counts. */
  lemma SweptRegsAgain(r: Regs, lanes: seq<Lane>, i: nat, j: nat)
    requires i <= 8 && j <= 8 && DistinctPorts(lanes)
    ensures SweptRegs(SweptRegs(r, lanes, i), lanes, j) == SweptRegs(r, lanes, j)
  {
    var a := SweptRegs(SweptRegs(r, lanes, i), lanes, j);
    var b := SweptRegs(r, lanes, j);
    forall p: Port ensures a.Get(p) == b.Get(p) {
      if Drives(lanes, p) {
        var k :| 0 <= k < |lanes| && lanes[k].port == p;
        SweptRegsLane(SweptRegs(r, lanes, i), lanes, j, k);
        SweptRegsLane(r, lanes, j, k);
      } else {
        SweptRegsOther(SweptRegs(r, lanes, i), lanes, j, p);
        SweptRegsOther(r, lanes, i, p);
        SweptRegsOther(r, lanes, j, p);
      }
    }
    RegsEq(a, b);
  }

  /** Sweeping zero steps changes nothing when every lane's port is dark. */
  lemma SweptRegsNone(r: Regs, lanes: seq<Lane>)
    requires DistinctPorts(lanes)
    requires forall k :: 0 <= k < |lanes| ==> r.Get(lanes[k].port) == SEG_OFF
    ensures SweptRegs(r, lanes, 0) == r
  {
    var a := SweptRegs(r, lanes, 0);
    forall p: Port ensures a.Get(p) == r.Get(p) {
      if Drives(lanes, p) {
        var k :| 0 <= k < |lanes| && lanes[k].port == p;
        SweptRegsLane(r, lanes, 0, k);
      } else {
        SweptRegsOther(r, lanes, 0, p);
      }
    }
    RegsEq(a, r);
  }

  /** The phases of a trace routine drive pairwise different ports: within a
      phase, and from one phase to another. */
  predicate DisjointPhases(phases: seq<Phase>)
  {
    && (forall m :: 0 <= m < |phases| ==> DistinctPorts(phases[m].lanes))
    && (forall m1, m2, p: Port :: 0 <= m1 < m2 < |phases| && Drives(phases[m1].lanes, p) ==> !Drives(phases[m2].lanes, p))
  }

  /** The first `j` steps of a traced phase. */
  function TraceSteps(l: Log, ph: Phase, j: nat): Log
    requires j <= 8
  {
    if j == 0 then l else SweepWrites(TraceSteps(l, ph, j - 1), ph.lanes, j).Then(Wait(ph.ms))
  }

  /** The phases of a trace routine one after the other, eight steps each. */
  function TracePhases(l: Log, phases: seq<Phase>): Log
  {
    if phases == [] then l
    else TraceSteps(TracePhases(l, phases[..|phases| - 1]), phases[|phases| - 1], 8)
  }

  /** One iteration of a trace routine: its phases, then all off and 50 ms. */
  function TraceRound(l: Log, phases: seq<Phase>): Log
  {
    AllOffLog(TracePhases(l, phases)).Then(Wait(50))
  }

  /** A trace routine called with `count`. */
  function TraceLog(l: Log, phases: seq<Phase>, count: nat): Log
  {
    if count == 0 then AllOffLog(l) else TraceRound(TraceLog(l, phases, count - 1), phases)
  }

  /** A chase round over one lane. */
  lemma ChaseRoundOne(l: Log, lanes: seq<Lane>)
    requires |lanes| == 1
    ensures ChaseRound(l, lanes) == ChaseLane(l, lanes[0])
  {
    assert lanes[..0] == [];
  }

  /** A chase round over two lanes. */
  lemma ChaseRoundTwo(l: Log, lanes: seq<Lane>)
    requires |lanes| == 2
    ensures ChaseRound(l, lanes) == ChaseLane(ChaseLane(l, lanes[0]), lanes[1])
  {
    ChaseRoundOne(l, lanes[..1]);
  }

  /** A chase round over four lanes is the four lane chases in order. */
  lemma ChaseRoundFour(l: Log, lanes: seq<Lane>)
    requires |lanes| == 4
    ensures ChaseRound(l, lanes)
      == ChaseLane(ChaseLane(ChaseLane(ChaseLane(l, lanes[0]), lanes[1]), lanes[2]), lanes[3])
  {
    ChaseRoundTwo(l, lanes[..3][..2]);
  }

  const FULLON_TRACE_CW: seq<Phase> :=
    [Phase([Lane(UR, Down)], 50), Phase([Lane(LR, Down)], 50),
     Phase([Lane(LL, Down)], 50), Phase([Lane(UL, Up)], 50)]
  const FULLON_TRACE_CCW: seq<Phase> :=
    [Phase([Lane(UL, Down)], 50), Phase([Lane(LL, Up)], 50),
     Phase([Lane(LR, Up)], 50), Phase([Lane(UR, Up)], 50)]
  const TOP_TO_BOTTOM: seq<Phase> :=
    [Phase([Lane(UR, Down), Lane(UL, Down)], 50), Phase([Lane(LR, Down), Lane(LL, Up)], 50)]
  const BOTTOM_TO_TOP: seq<Phase> :=
    [Phase([Lane(LL, Down), Lane(LR, Up)], 50), Phase([Lane(UL, Up), Lane(UR, Up)], 50)]
  const TOP_AND_BOTTOM: seq<Phase> :=
    [Phase([Lane(UR, Down), Lane(UL, Down), Lane(LL, Down), Lane(LR, Up)], 100)]
  const MIDDLE_TO_BT: seq<Phase> :=
    [Phase([Lane(UR, Up), Lane(UL, Up), Lane(LL, Up), Lane(LR, Down)], 100)]
  const LEFT_TO_RIGHT: seq<Phase> :=
    [Phase([Lane(LL, Up), Lane(UL, Up)], 50), Phase([Lane(LR, Up), Lane(UR, Down)], 50)]
  const RIGHT_TO_LEFT: seq<Phase> :=
    [Phase([Lane(UR, Up), Lane(LR, Down)], 50), Phase([Lane(UL, Down), Lane(LL, Down)], 50)]
  const LEFT_AND_RIGHT: seq<Phase> :=
    [Phase([Lane(UR, Down), Lane(UL, Down), Lane(LL, Down), Lane(LR, Up)], 100)]
  const MIDDLE_TO_LR: seq<Phase> :=
    [Phase([Lane(UR, Up), Lane(UL, Up), Lane(LL, Up), Lane(LR, Down)], 100)]

  /** The statement each lane runs at step j, lane by lane: the port it
      assigns and the mask `~(0x1U << bit)` it uses, computed in 16 bits. */
  function Statements(lanes: seq<Lane>, j: nat): seq<(Port, bv16)>
    requires j < 8
  {
    if lanes == [] then [] else [(lanes[0].port, Mask(BitAt(lanes[0].dir, j)))] + Statements(lanes[1..], j)
  }

  /** Entry k of the statement list is lane k's statement. */
  lemma {:induction false} StatementsAt(lanes: seq<Lane>, j: nat)
    requires j < 8
    ensures |Statements(lanes, j)| == |lanes|
    ensures forall k :: 0 <= k < |lanes| ==> Statements(lanes, j)[k] == (lanes[k].port, Mask(BitAt(lanes[k].dir, j)))
  {
    if lanes != [] {
      StatementsAt(lanes[1..], j);
      forall k | 0 < k < |lanes| ensures Statements(lanes, j)[k] == (lanes[k].port, Mask(BitAt(lanes[k].dir, j))) {
        assert lanes[1..][k - 1] == lanes[k];
      }
    }
  }

  /** `bh_fullon_chase_cw`: four loops in turn, over UR, LR and LL with
      `~(0x1U << (7-j))` and over UL with `~(0x1U << j)`. */
  lemma ChaseCwTable(j: nat)
    requires j < 8
    ensures Statements(CHASE_CW, j) == [(UR, Mask(7 - j)), (LR, Mask(7 - j)), (LL, Mask(7 - j)), (UL, Mask(j))]
  {
    StatementsAt(CHASE_CW, j);
  }

  /** `bh_fullon_chase_ccw`: four loops in turn, over UL with
      `~(0x1U << (7-j))` and over LL, LR and UR with `~(0x1U << j)`. */
  lemma ChaseCcwTable(j: nat)
    requires j < 8
    ensures Statements(CHASE_CCW, j) == [(UL, Mask(7 - j)), (LL, Mask(j)), (LR, Mask(j)), (UR, Mask(j))]
  {
    StatementsAt(CHASE_CCW, j);
  }

  /** `bh_fullon_trace_cw`: four loops of 50 ms steps, over UR, LR and LL
      with `~(0x1U << (7-j))` and over UL with `~(0x1U << j)`. */
  lemma FullonTraceCwTable(j: nat)
    requires j < 8
    ensures |FULLON_TRACE_CW| == 4
    ensures FULLON_TRACE_CW[0].ms == 50 && Statements(FULLON_TRACE_CW[0].lanes, j) == [(UR, Mask(7 - j))]
    ensures FULLON_TRACE_CW[1].ms == 50 && Statements(FULLON_TRACE_CW[1].lanes, j) == [(LR, Mask(7 - j))]
    ensures FULLON_TRACE_CW[2].ms == 50 && Statements(FULLON_TRACE_CW[2].lanes, j) == [(LL, Mask(7 - j))]
    ensures FULLON_TRACE_CW[3].ms == 50 && Statements(FULLON_TRACE_CW[3].lanes, j) == [(UL, Mask(j))]
  {
    StatementsAt(FULLON_TRACE_CW[0].lanes, j);
    StatementsAt(FULLON_TRACE_CW[1].lanes, j);
    StatementsAt(FULLON_TRACE_CW[2].lanes, j);
    StatementsAt(FULLON_TRACE_CW[3].lanes, j);
  }

  /** `bh_fullon_trace_ccw`: four loops of 50 ms steps, over UL with
      `~(0x1U << (7-j))` and over LL, LR and UR with `~(0x1U << j)`. */
  lemma FullonTraceCcwTable(j: nat)
    requires j < 8
    ensures |FULLON_TRACE_CCW| == 4
    ensures FULLON_TRACE_CCW[0].ms == 50 && Statements(FULLON_TRACE_CCW[0].lanes, j) == [(UL, Mask(7 - j))]
    ensures FULLON_TRACE_CCW[1].ms == 50 && Statements(FULLON_TRACE_CCW[1].lanes, j) == [(LL, Mask(j))]
    ensures FULLON_TRACE_CCW[2].ms == 50 && Statements(FULLON_TRACE_CCW[2].lanes, j) == [(LR, Mask(j))]
    ensures FULLON_TRACE_CCW[3].ms == 50 && Statements(FULLON_TRACE_CCW[3].lanes, j) == [(UR, Mask(j))]
  {
    StatementsAt(FULLON_TRACE_CCW[0].lanes, j);
    StatementsAt(FULLON_TRACE_CCW[1].lanes, j);
    StatementsAt(FULLON_TRACE_CCW[2].lanes, j);
    StatementsAt(FULLON_TRACE_CCW[3].lanes, j);
  }

  /** `bh_trace_top_to_bottom`: a loop over UR and UL, then one over LR and
      LL, 50 ms per step. */
  lemma TopToBottomTable(j: nat)
    requires j < 8
    ensures |TOP_TO_BOTTOM| == 2
    ensures TOP_TO_BOTTOM[0].ms == 50 && Statements(TOP_TO_BOTTOM[0].lanes, j) == [(UR, Mask(7 - j)), (UL, Mask(7 - j))]
    ensures TOP_TO_BOTTOM[1].ms == 50 && Statements(TOP_TO_BOTTOM[1].lanes, j) == [(LR, Mask(7 - j)), (LL, Mask(j))]
  {
    StatementsAt(TOP_TO_BOTTOM[0].lanes, j);
    StatementsAt(TOP_TO_BOTTOM[1].lanes, j);
  }

  /** `bh_trace_bottom_to_top`: a loop over LL and LR, then one over UL and
      UR, 50 ms per step. */
  lemma BottomToTopTable(j: nat)
    requires j < 8
    ensures |BOTTOM_TO_TOP| == 2
    ensures BOTTOM_TO_TOP[0].ms == 50 && Statements(BOTTOM_TO_TOP[0].lanes, j) == [(LL, Mask(7 - j)), (LR, Mask(j))]
    ensures BOTTOM_TO_TOP[1].ms == 50 && Statements(BOTTOM_TO_TOP[1].lanes, j) == [(UL, Mask(j)), (UR, Mask(j))]
  {
    StatementsAt(BOTTOM_TO_TOP[0].lanes, j);
    StatementsAt(BOTTOM_TO_TOP[1].lanes, j);
  }

  /** `bh_trace_top_and_bottom`: one loop over UR, UL, LL and LR, 100 ms
      per step. */
  lemma TopAndBottomTable(j: nat)
    requires j < 8
    ensures |TOP_AND_BOTTOM| == 1
    ensures TOP_AND_BOTTOM[0].ms == 100 && Statements(TOP_AND_BOTTOM[0].lanes, j) == [(UR, Mask(7 - j)), (UL, Mask(7 - j)), (LL, Mask(7 - j)), (LR, Mask(j))]
  {
    StatementsAt(TOP_AND_BOTTOM[0].lanes, j);
  }

  /** `bh_trace_middle_to_bt`: one loop over UR, UL, LL and LR, 100 ms per
      step. */
  lemma MiddleToBtTable(j: nat)
    requires j < 8
    ensures |MIDDLE_TO_BT| == 1
    ensures MIDDLE_TO_BT[0].ms == 100 && Statements(MIDDLE_TO_BT[0].lanes, j) == [(UR, Mask(j)), (UL, Mask(j)), (LL, Mask(j)), (LR, Mask(7 - j))]
  {
    StatementsAt(MIDDLE_TO_BT[0].lanes, j);
  }

  /** `bh_trace_left_to_right`: a loop over LL and UL, then one over LR and
      UR, 50 ms per step. */
  lemma LeftToRightTable(j: nat)
    requires j < 8
    ensures |LEFT_TO_RIGHT| == 2
    ensures LEFT_TO_RIGHT[0].ms == 50 && Statements(LEFT_TO_RIGHT[0].lanes, j) == [(LL, Mask(j)), (UL, Mask(j))]
    ensures LEFT_TO_RIGHT[1].ms == 50 && Statements(LEFT_TO_RIGHT[1].lanes, j) == [(LR, Mask(j)), (UR, Mask(7 - j))]
  {
    StatementsAt(LEFT_TO_RIGHT[0].lanes, j);
    StatementsAt(LEFT_TO_RIGHT[1].lanes, j);
  }

  /** `bh_trace_right_to_left`: a loop over UR and LR, then one over UL and
      LL, 50 ms per step. */
  lemma RightToLeftTable(j: nat)
    requires j < 8
    ensures |RIGHT_TO_LEFT| == 2
    ensures RIGHT_TO_LEFT[0].ms == 50 && Statements(RIGHT_TO_LEFT[0].lanes, j) == [(UR, Mask(j)), (LR, Mask(7 - j))]
    ensures RIGHT_TO_LEFT[1].ms == 50 && Statements(RIGHT_TO_LEFT[1].lanes, j) == [(UL, Mask(7 - j)), (LL, Mask(7 - j))]
  {
    StatementsAt(RIGHT_TO_LEFT[0].lanes, j);
    StatementsAt(RIGHT_TO_LEFT[1].lanes, j);
  }

  /** `bh_trace_left_and_right`: one loop over UR, UL, LL and LR, 100 ms
      per step. */
  lemma LeftAndRightTable(j: nat)
    requires j < 8
    ensures |LEFT_AND_RIGHT| == 1
    ensures LEFT_AND_RIGHT[0].ms == 100 && Statements(LEFT_AND_RIGHT[0].lanes, j) == [(UR, Mask(7 - j)), (UL, Mask(7 - j)), (LL, Mask(7 - j)), (LR, Mask(j))]
  {
    StatementsAt(LEFT_AND_RIGHT[0].lanes, j);
  }

  /** `bh_trace_middle_to_lr`: one loop over UR, UL, LL and LR, 100 ms per
      step. */
  lemma MiddleToLrTable(j: nat)
    requires j < 8
    ensures |MIDDLE_TO_LR| == 1
    ensures MIDDLE_TO_LR[0].ms == 100 && Statements(MIDDLE_TO_LR[0].lanes, j) == [(UR, Mask(j)), (UL, Mask(j)), (LL, Mask(j)), (LR, Mask(7 - j))]
  {
    StatementsAt(MIDDLE_TO_LR[0].lanes, j);
  }

  /** The ports driven by the lanes, in order. */
  function Ports(lanes: seq<Lane>): seq<Port>
  {
    if lanes == [] then [] else [lanes[0].port] + Ports(lanes[1..])
  }

  /** Entry k of the port list is the port of lane k. */
  lemma {:induction false} PortsAt(lanes: seq<Lane>)
    ensures |Ports(lanes)| == |lanes|
    ensures forall k :: 0 <= k < |lanes| ==> Ports(lanes)[k] == lanes[k].port
  {
    if lanes != [] {
      PortsAt(lanes[1..]);
      forall k | 0 < k < |lanes| ensures Ports(lanes)[k] == lanes[k].port {
        assert lanes[1..][k - 1] == lanes[k];
      }
    }
  }

  /** The ports driven by the phases, phase after phase. */
  function PhasePorts(phases: seq<Phase>): seq<Port>
  {
    if phases == [] then [] else Ports(phases[0].lanes) + PhasePorts(phases[1..])
  }

  /** Every quadrant occurs among `ports`. */
  predicate CoversHeart(ports: seq<Port>)
  {
    UL in ports && LL in ports && UR in ports && LR in ports
  }

  /** No element occurs twice. */
  predicate NoRepeats<T(==)>(s: seq<T>)
  {
    forall a, b :: 0 <= a < b < |s| ==> s[a] != s[b]
  }

  /** A port some phase drives occurs among the phases' ports. */
  lemma {:induction false} DrivenListed(phases: seq<Phase>, m: nat, p: Port)
    requires m < |phases| && Drives(phases[m].lanes, p)
    ensures p in PhasePorts(phases)
  {
    if m == 0 {
      var k :| 0 <= k < |phases[0].lanes| && phases[0].lanes[k].port == p;
      PortsAt(phases[0].lanes);
      assert Ports(phases[0].lanes)[k] == p;
    } else {
      assert phases[1..][m - 1] == phases[m];
      DrivenListed(phases[1..], m - 1, p);
    }
  }

  /** A port among the phases' ports is driven by one of the phases. */
  lemma {:induction false} ListedDriven(phases: seq<Phase>, p: Port)
    requires p in PhasePorts(phases)
    ensures exists m :: 0 <= m < |phases| && Drives(phases[m].lanes, p)
  {
    var head := Ports(phases[0].lanes);
    PortsAt(phases[0].lanes);
    if p in head {
      var k :| 0 <= k < |head| && head[k] == p;
      assert Drives(phases[0].lanes, p);
    } else {
      ListedDriven(phases[1..], p);
      var m :| 0 <= m < |phases| - 1 && Drives(phases[1..][m].lanes, p);
      assert phases[1..][m] == phases[m + 1];
    }
  }

  /** The halves of a list without repeats have no repeats and share nothing. */
  lemma NoRepeatsSplit<T>(a: seq<T>, b: seq<T>)
    requires NoRepeats(a + b)
    ensures NoRepeats(a) && NoRepeats(b)
    ensures forall x :: x in a ==> x !in b
  {
    forall i, j | 0 <= i < j < |b| ensures b[i] != b[j] {
      assert b[i] == (a + b)[|a| + i] && b[j] == (a + b)[|a| + j];
    }
    forall i, j | 0 <= i < j < |a| ensures a[i] != a[j] {
      assert a[i] == (a + b)[i] && a[j] == (a + b)[j];
    }
    forall x | x in a ensures x !in b {
      var i :| 0 <= i < |a| && a[i] == x;
      if j :| 0 <= j < |b| && b[j] == x {
        assert (a + b)[i] == (a + b)[|a| + j];
      }
    }
  }

  /** Phases whose ports, listed in order, never repeat are disjoint. */
  lemma {:induction false} DisjointFromPorts(phases: seq<Phase>)
    requires NoRepeats(PhasePorts(phases))
    ensures DisjointPhases(phases)
  {
    if phases != [] {
      var head := Ports(phases[0].lanes);
      var rest := PhasePorts(phases[1..]);
      PortsAt(phases[0].lanes);
      NoRepeatsSplit(head, rest);
      DisjointFromPorts(phases[1..]);
      forall m | 0 <= m < |phases| ensures DistinctPorts(phases[m].lanes) {
        if m > 0 {
          assert phases[1..][m - 1] == phases[m];
        } else {
          forall a, b | 0 <= a < b < |head| ensures phases[0].lanes[a].port != phases[0].lanes[b].port {
            assert head[a] != head[b];
          }
        }
      }
      forall m1, m2, p: Port | 0 <= m1 < m2 < |phases| && Drives(phases[m1].lanes, p)
        ensures !Drives(phases[m2].lanes, p)
      {
        assert phases[1..][m2 - 1] == phases[m2];
        if m1 > 0 {
          assert phases[1..][m1 - 1] == phases[m1];
        } else if Drives(phases[m2].lanes, p) {
          var k :| 0 <= k < |head| && phases[0].lanes[k].port == p;
          assert head[k] == p;
          DrivenListed(phases[1..], m2 - 1, p);
        }
      }
    }
  }

  /** The phases of `bh_fullon_trace_cw` drive distinct ports, and together
      all four. */
  lemma FullonTraceCwDisjoint()
    ensures DisjointPhases(FULLON_TRACE_CW)
    ensures CoversHeart(PhasePorts(FULLON_TRACE_CW))
  {
    assert PhasePorts(FULLON_TRACE_CW) == [UR, LR, LL, UL];
    DisjointFromPorts(FULLON_TRACE_CW);
  }

  /** The phases of `bh_fullon_trace_ccw` drive distinct ports, and together
      all four. */
  lemma FullonTraceCcwDisjoint()
    ensures DisjointPhases(FULLON_TRACE_CCW)
    ensures CoversHeart(PhasePorts(FULLON_TRACE_CCW))
  {
    assert PhasePorts(FULLON_TRACE_CCW) == [UL, LL, LR, UR];
    DisjointFromPorts(FULLON_TRACE_CCW);
  }

  /** The phases of `bh_trace_top_to_bottom` and `_bottom_to_top` drive distinct
      ports, and together all four. */
  lemma VerticalTracesDisjoint(phases: seq<Phase>)
    requires phases == TOP_TO_BOTTOM || phases == BOTTOM_TO_TOP
    ensures DisjointPhases(phases)
    ensures CoversHeart(PhasePorts(phases))
  {
    if phases == TOP_TO_BOTTOM {
      assert PhasePorts(TOP_TO_BOTTOM) == [UR, UL, LR, LL];
      DisjointFromPorts(TOP_TO_BOTTOM);
    } else {
      assert PhasePorts(BOTTOM_TO_TOP) == [LL, LR, UL, UR];
      DisjointFromPorts(BOTTOM_TO_TOP);
    }
  }

  /** The phases of `bh_trace_left_to_right` and `_right_to_left` drive distinct
      ports, and together all four. */
  lemma HorizontalTracesDisjoint(phases: seq<Phase>)
    requires phases == LEFT_TO_RIGHT || phases == RIGHT_TO_LEFT
    ensures DisjointPhases(phases)
    ensures CoversHeart(PhasePorts(phases))
  {
    if phases == LEFT_TO_RIGHT {
      assert PhasePorts(LEFT_TO_RIGHT) == [LL, UL, LR, UR];
      DisjointFromPorts(LEFT_TO_RIGHT);
    } else {
      assert PhasePorts(RIGHT_TO_LEFT) == [UR, LR, UL, LL];
      DisjointFromPorts(RIGHT_TO_LEFT);
    }
  }

  /** The single phase of each four-quadrant trace drives all four ports,
      each once. */
  lemma FourWayTracesDisjoint(phases: seq<Phase>)
    requires phases == TOP_AND_BOTTOM || phases == MIDDLE_TO_BT || phases == LEFT_AND_RIGHT || phases == MIDDLE_TO_LR
    ensures DisjointPhases(phases)
    ensures CoversHeart(PhasePorts(phases))
  {
    if phases == TOP_AND_BOTTOM || phases == LEFT_AND_RIGHT {
      assert phases == TOP_AND_BOTTOM;
      assert PhasePorts(TOP_AND_BOTTOM) == [UR, UL, LL, LR];
      DisjointFromPorts(TOP_AND_BOTTOM);
    } else {
      assert phases == MIDDLE_TO_BT;
      assert PhasePorts(MIDDLE_TO_BT) == [UR, UL, LL, LR];
      DisjointFromPorts(MIDDLE_TO_BT);
    }
  }

  // ---------------------------------------------------------------------------
  // The main loop

  /** One pass of the `while(1)` body of `main`: the fifteen routines, each
      with count 3, in the order of the source. */
  function PassLog(l: Log): Log
  {
    var flash := SolidFlashLog(l, 3);
    var quadrants := QuadrantDanceLog(QuadrantChaseLog(flash, 3), 3);
    var chases := ChaseLog(ChaseLog(quadrants, CHASE_CW, 3), CHASE_CCW, 3);
    var fullon := TraceLog(TraceLog(chases, FULLON_TRACE_CW, 3), FULLON_TRACE_CCW, 3);
    var vertical :=
      TraceLog(TraceLog(TraceLog(TraceLog(fullon, TOP_TO_BOTTOM, 3), BOTTOM_TO_TOP, 3),
                        TOP_AND_BOTTOM, 3), MIDDLE_TO_BT, 3);
    TraceLog(TraceLog(TraceLog(TraceLog(vertical, LEFT_TO_RIGHT, 3), RIGHT_TO_LEFT, 3),
                      LEFT_AND_RIGHT, 3), MIDDLE_TO_LR, 3)
  }

  /** `main` stopped after `passes` passes of its loop: `bh_setup`, then the
      passes. */
  function RunLog(l: Log, passes: nat): Log
  {
    if passes == 0 then SetupLog(l) else PassLog(RunLog(l, passes - 1))
  }
}
