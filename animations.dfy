/** What the heart shows while the firmware runs: for every routine of
    bling-heart.c, the registers its event log leaves behind, the frame the
    heart displays during each `delay_ms` call, and the delays requested.
    Each fact is derived from the event logs of module Choreography by
    replaying them, independently of how the routines are written. */
module Animations {
  import opened Machine
  import opened Events
  import opened Choreography

  // ---------------------------------------------------------------------------
  // Primitives

  /** `bh_all_off` darkens every quadrant and shows nothing. */
  lemma AllOffShows(r: Regs, l: Log)
    ensures Replay(r, AllOffLog(l)) == ALL_OFF
    ensures Frames(r, AllOffLog(l)) == Frames(r, l)
    ensures Delays(AllOffLog(l)) == Delays(l)
  {
    var l1 := l.Then(Write(LR, SEG_OFF));
    var l2 := l1.Then(Write(LL, SEG_OFF));
    var l3 := l2.Then(Write(UR, SEG_OFF));
    WriteStep(r, l, LR, SEG_OFF);
    WriteStep(r, l1, LL, SEG_OFF);
    WriteStep(r, l2, UR, SEG_OFF);
    WriteStep(r, l3, UL, SEG_OFF);
  }

  /** `bh_all_on` lights every quadrant and shows nothing. */
  lemma AllOnShows(r: Regs, l: Log)
    ensures Replay(r, AllOnLog(l)) == ALL_ON
    ensures Frames(r, AllOnLog(l)) == Frames(r, l)
    ensures Delays(AllOnLog(l)) == Delays(l)
  {
    var l1 := l.Then(Write(LR, SEG_ON));
    var l2 := l1.Then(Write(LL, SEG_ON));
    var l3 := l2.Then(Write(UR, SEG_ON));
    WriteStep(r, l, LR, SEG_ON);
    WriteStep(r, l1, LL, SEG_ON);
    WriteStep(r, l2, UR, SEG_ON);
    WriteStep(r, l3, UL, SEG_ON);
  }

  /** `bh_all_toggle` complements every register and shows nothing. */
  lemma ToggleShows(r: Regs, l: Log)
    ensures Replay(r, ToggleLog(l, Replay(r, l))) == Toggled(Replay(r, l))
    ensures Frames(r, ToggleLog(l, Replay(r, l))) == Frames(r, l)
    ensures Delays(ToggleLog(l, Replay(r, l))) == Delays(l)
  {
    var s := Replay(r, l);
    var l1 := l.Then(Write(LR, Complement(s.lr)));
    var l2 := l1.Then(Write(LL, Complement(s.ll)));
    var l3 := l2.Then(Write(UR, Complement(s.ur)));
    WriteStep(r, l, LR, Complement(s.lr));
    WriteStep(r, l1, LL, Complement(s.ll));
    WriteStep(r, l2, UR, Complement(s.ur));
    WriteStep(r, l3, UL, Complement(s.ul));
  }

  /** Toggling twice restores every register. */
  lemma ToggleInvolution(r: Regs, l: Log)
    ensures Replay(r, ToggleLog(ToggleLog(l, Replay(r, l)), Toggled(Replay(r, l)))) == Replay(r, l)
  {
    var s := Replay(r, l);
    ToggleShows(r, l);
    ToggleShows(r, ToggleLog(l, s));
  }

  /** `bh_setup`: everything dark, one delay of 50 ms. */
  lemma SetupShows(r: Regs, l: Log)
    ensures Replay(r, SetupLog(l)) == ALL_OFF
    ensures Frames(r, SetupLog(l)) == Frames(r, l) + [ALL_OFF]
    ensures Delays(SetupLog(l)) == Delays(l) + [50]
  {
    AllOffShows(r, l);
    WaitStep(r, AllOffLog(l), 50);
  }

  // ---------------------------------------------------------------------------
  // Whole-quadrant animations

  /** Every iteration of `bh_solid_flash` shows the whole heart lit, then
      dark, for 250 ms each. */
  lemma {:induction false} SolidFlashShows(r: Regs, l: Log, count: nat)
    ensures Replay(r, SolidFlashLog(l, count)) == ALL_OFF
    ensures Frames(r, SolidFlashLog(l, count)) == Frames(r, l) + Repeat([ALL_ON, ALL_OFF], count)
    ensures Delays(SolidFlashLog(l, count)) == Delays(l) + Repeat([250, 250], count)
  {
    if count == 0 {
      AllOffShows(r, l);
    } else {
      var prev := SolidFlashLog(l, count - 1);
      SolidFlashShows(r, l, count - 1);
      AllOnShows(r, prev);
      WaitStep(r, AllOnLog(prev), 250);
      AllOffShows(r, AllOnLog(prev).Then(Wait(250)));
      WaitStep(r, AllOffLog(AllOnLog(prev).Then(Wait(250))), 250);
      Snoc2(Frames(r, prev), ALL_ON, ALL_OFF);
      Snoc2(Delays(prev), 250 as u16, 250 as u16);
      RepeatSnoc(Frames(r, l), [ALL_ON, ALL_OFF], count);
      RepeatSnoc(Delays(l), [250 as u16, 250], count);
    }
  }

  /** The frames of one iteration of `bh_quadrant_chase`: the quadrants lit
      in the order UL, LL, UR, LR, then darkened in the same order. */
  const QUADRANT_CHASE_FRAMES: seq<Regs> := [
    Regs(SEG_ON, SEG_OFF, SEG_OFF, SEG_OFF), Regs(SEG_ON, SEG_ON, SEG_OFF, SEG_OFF),
    Regs(SEG_ON, SEG_ON, SEG_ON, SEG_OFF), ALL_ON,
    Regs(SEG_OFF, SEG_ON, SEG_ON, SEG_ON), Regs(SEG_OFF, SEG_OFF, SEG_ON, SEG_ON),
    Regs(SEG_OFF, SEG_OFF, SEG_OFF, SEG_ON), ALL_OFF]

  /** Eight delays of 250 ms. */
  const QUADRANT_CHASE_DELAYS: seq<u16> := [250, 250, 250, 250, 250, 250, 250, 250]

  /** One iteration of `bh_quadrant_chase`, started with every quadrant dark. */
  lemma QuadrantChaseRoundShows(r: Regs, l: Log)
    requires Replay(r, l) == ALL_OFF
    ensures Replay(r, QuadrantChaseRound(l)) == ALL_OFF
    ensures Frames(r, QuadrantChaseRound(l)) == Frames(r, l) + QUADRANT_CHASE_FRAMES
    ensures Delays(QuadrantChaseRound(l)) == Delays(l) + QUADRANT_CHASE_DELAYS
  {
    var l1 := l.Then(Write(UL, SEG_ON)).Then(Wait(250));
    var l2 := l1.Then(Write(LL, SEG_ON)).Then(Wait(250));
    var l3 := l2.Then(Write(UR, SEG_ON)).Then(Wait(250));
    var l4 := l3.Then(Write(LR, SEG_ON)).Then(Wait(250));
    var l5 := l4.Then(Write(UL, SEG_OFF)).Then(Wait(250));
    var l6 := l5.Then(Write(LL, SEG_OFF)).Then(Wait(250));
    var l7 := l6.Then(Write(UR, SEG_OFF)).Then(Wait(250));
    WriteWaitStep(r, l, UL, SEG_ON, 250);
    WriteWaitStep(r, l1, LL, SEG_ON, 250);
    WriteWaitStep(r, l2, UR, SEG_ON, 250);
    WriteWaitStep(r, l3, LR, SEG_ON, 250);
    WriteWaitStep(r, l4, UL, SEG_OFF, 250);
    WriteWaitStep(r, l5, LL, SEG_OFF, 250);
    WriteWaitStep(r, l6, UR, SEG_OFF, 250);
    WriteWaitStep(r, l7, LR, SEG_OFF, 250);
    var F := QUADRANT_CHASE_FRAMES;
    Snoc8(Frames(r, l), F[0], F[1], F[2], F[3], F[4], F[5], F[6], F[7]);
    var D := QUADRANT_CHASE_DELAYS;
    Snoc8(Delays(l), D[0], D[1], D[2], D[3], D[4], D[5], D[6], D[7]);
  }

  /** `bh_quadrant_chase(count)`: everything dark, then `count` chases of the
      quadrants, 250 ms per frame. */
  lemma {:induction false} QuadrantChaseShows(r: Regs, l: Log, count: nat)
    ensures Replay(r, QuadrantChaseLog(l, count)) == ALL_OFF
    ensures Frames(r, QuadrantChaseLog(l, count)) == Frames(r, l) + Repeat(QUADRANT_CHASE_FRAMES, count)
    ensures Delays(QuadrantChaseLog(l, count)) == Delays(l) + Repeat(QUADRANT_CHASE_DELAYS, count)
  {
    if count == 0 {
      AllOffShows(r, l);
    } else {
      QuadrantChaseShows(r, l, count - 1);
      QuadrantChaseRoundShows(r, QuadrantChaseLog(l, count - 1));
      RepeatSnoc(Frames(r, l), QUADRANT_CHASE_FRAMES, count);
      RepeatSnoc(Delays(l), QUADRANT_CHASE_DELAYS, count);
    }
  }

  /** The two diagonals are each other's complement. */
  lemma DiagonalsToggle()
    ensures Toggled(DIAGONAL_MAIN) == DIAGONAL_ANTI
    ensures Toggled(DIAGONAL_ANTI) == DIAGONAL_MAIN
  {
  }

  /** The frames of one iteration of `bh_quadrant_dance`. */
  const QUADRANT_DANCE_FRAMES: seq<Regs> :=
    [ALL_OFF, DIAGONAL_MAIN, DIAGONAL_ANTI, ALL_OFF, DIAGONAL_ANTI, DIAGONAL_MAIN]

  /** Six delays of 250 ms. */
  const QUADRANT_DANCE_DELAYS: seq<u16> := [250, 250, 250, 250, 250, 250]

  /** One iteration of `bh_quadrant_dance`, from any registers. */
  lemma QuadrantDanceRoundShows(r: Regs, l: Log)
    ensures Replay(r, QuadrantDanceRound(l)) == DIAGONAL_MAIN
    ensures Frames(r, QuadrantDanceRound(l)) == Frames(r, l) + QUADRANT_DANCE_FRAMES
    ensures Delays(QuadrantDanceRound(l)) == Delays(l) + QUADRANT_DANCE_DELAYS
  {
    DiagonalsToggle();
    var a := AllOffLog(l);
    AllOffShows(r, l);
    WaitStep(r, a, 250);
    var b := a.Then(Wait(250)).Then(Write(UL, SEG_ON));
    WriteStep(r, a.Then(Wait(250)), UL, SEG_ON);
    WriteWaitStep(r, b, LR, SEG_ON, 250);
    var c := b.Then(Write(LR, SEG_ON)).Then(Wait(250));
    ToggleShows(r, c);
    WaitStep(r, ToggleLog(c, DIAGONAL_MAIN), 250);
    var d := ToggleLog(c, DIAGONAL_MAIN).Then(Wait(250));
    AllOffShows(r, d);
    WaitStep(r, AllOffLog(d), 250);
    var e := AllOffLog(d).Then(Wait(250)).Then(Write(LL, SEG_ON));
    WriteStep(r, AllOffLog(d).Then(Wait(250)), LL, SEG_ON);
    WriteWaitStep(r, e, UR, SEG_ON, 250);
    var f := e.Then(Write(UR, SEG_ON)).Then(Wait(250));
    ToggleShows(r, f);
    WaitStep(r, ToggleLog(f, DIAGONAL_ANTI), 250);
    var F := QUADRANT_DANCE_FRAMES;
    Snoc6(Frames(r, l), F[0], F[1], F[2], F[3], F[4], F[5]);
    var D := QUADRANT_DANCE_DELAYS;
    Snoc6(Delays(l), D[0], D[1], D[2], D[3], D[4], D[5]);
  }

  /** `bh_quadrant_dance(count)`: with no `bh_all_off` first, a call with
      count 0 leaves the registers as they were; otherwise the main diagonal
      is left lit. */
  lemma {:induction false} QuadrantDanceShows(r: Regs, l: Log, count: nat)
    ensures count == 0 ==> Replay(r, QuadrantDanceLog(l, count)) == Replay(r, l)
    ensures count > 0 ==> Replay(r, QuadrantDanceLog(l, count)) == DIAGONAL_MAIN
    ensures Frames(r, QuadrantDanceLog(l, count)) == Frames(r, l) + Repeat(QUADRANT_DANCE_FRAMES, count)
    ensures Delays(QuadrantDanceLog(l, count)) == Delays(l) + Repeat(QUADRANT_DANCE_DELAYS, count)
  {
    if count == 0 {
      assert Frames(r, l) + [] == Frames(r, l);
      assert Delays(l) + [] == Delays(l);
    } else {
      QuadrantDanceShows(r, l, count - 1);
      QuadrantDanceRoundShows(r, QuadrantDanceLog(l, count - 1));
      RepeatSnoc(Frames(r, l), QUADRANT_DANCE_FRAMES, count);
      RepeatSnoc(Delays(l), QUADRANT_DANCE_DELAYS, count);
    }
  }

  // ---------------------------------------------------------------------------
  // Chases

  /** The frames of the first `j` steps of a chase over `lane`, started from
      registers `s`: at step i the lane's port has only segment
      BitAt(dir, i) lit and every other port keeps its value. */
  function ChaseFrames(s: Regs, lane: Lane, j: nat): (fs: seq<Regs>)
    requires j <= 8
    ensures |fs| == j
  {
    if j == 0 then [] else ChaseFrames(s, lane, j - 1) + [s.Set(lane.port, OneLit(BitAt(lane.dir, j - 1)))]
  }

  lemma {:induction false} ChaseFrameAt(s: Regs, lane: Lane, j: nat, i: nat)
    requires i < j <= 8
    ensures ChaseFrames(s, lane, j)[i] == s.Set(lane.port, OneLit(BitAt(lane.dir, i)))
  {
    if i < j - 1 {
      ChaseFrameAt(s, lane, j - 1, i);
    }
  }

  /** Every frame of a chase lights exactly one segment of the chased
      quadrant, the one of its step, and leaves the other quadrants as they
      were. */
  lemma ChaseFrameLit(s: Regs, lane: Lane, i: nat)
    requires i < 8
    ensures ZeroCount(ChaseFrames(s, lane, 8)[i].Get(lane.port)) == 1
    ensures forall b :: 0 <= b < 8 ==> (IsSet(ChaseFrames(s, lane, 8)[i].Get(lane.port), b) <==> b != BitAt(lane.dir, i))
    ensures forall p: Port :: p != lane.port ==> ChaseFrames(s, lane, 8)[i].Get(p) == s.Get(p)
  {
    ChaseFrameAt(s, lane, 8, i);
    OneLitZeroCount(BitAt(lane.dir, i));
    OneLitBits(BitAt(lane.dir, i));
  }

  /** The first `j` steps of a chase: the lane's port is left with the
      segment of the last step lit. */
  lemma {:induction false} ChaseStepsShows(r: Regs, l: Log, lane: Lane, j: nat)
    requires j <= 8
    ensures j > 0 ==> Replay(r, ChaseSteps(l, lane, j)) == Replay(r, l).Set(lane.port, OneLit(BitAt(lane.dir, j - 1)))
    ensures Frames(r, ChaseSteps(l, lane, j)) == Frames(r, l) + ChaseFrames(Replay(r, l), lane, j)
    ensures Delays(ChaseSteps(l, lane, j)) == Delays(l) + Repeat([50], j)
  {
    var s := Replay(r, l);
    if j == 0 {
      assert Frames(r, l) + [] == Frames(r, l);
      assert Delays(l) + [] == Delays(l);
    } else {
      var prev := ChaseSteps(l, lane, j - 1);
      var v := OneLit(BitAt(lane.dir, j - 1));
      ChaseStepsShows(r, l, lane, j - 1);
      WriteWaitStep(r, prev, lane.port, v, 50);
      if j > 1 {
        SetSet(s, lane.port, OneLit(BitAt(lane.dir, j - 2)), v);
      }
      Append3(Frames(r, l), ChaseFrames(s, lane, j - 1), [s.Set(lane.port, v)]);
      RepeatSnoc(Delays(l), [50 as u16], j);
    }
  }

  /** A whole chase over one quadrant: eight frames, and the quadrant is dark
      again at the end. */
  lemma ChaseLaneShows(r: Regs, l: Log, lane: Lane)
    ensures Replay(r, ChaseLane(l, lane)) == Replay(r, l).Set(lane.port, SEG_OFF)
    ensures Frames(r, ChaseLane(l, lane)) == Frames(r, l) + ChaseFrames(Replay(r, l), lane, 8)
    ensures Delays(ChaseLane(l, lane)) == Delays(l) + Repeat([50], 8)
  {
    ChaseStepsShows(r, l, lane, 8);
    WriteStep(r, ChaseSteps(l, lane, 8), lane.port, SEG_OFF);
    SetSet(Replay(r, l), lane.port, OneLit(BitAt(lane.dir, 7)), SEG_OFF);
  }

  /** The frames of one iteration of a chase routine: its lanes chased one
      after the other over a dark heart. */
  function ChaseRoundFrames(lanes: seq<Lane>): (fs: seq<Regs>)
    ensures |fs| == 8 * |lanes|
  {
    if lanes == [] then []
    else ChaseRoundFrames(lanes[..|lanes| - 1]) + ChaseFrames(ALL_OFF, lanes[|lanes| - 1], 8)
  }

  /** Eight more 50 ms delays after those of `n` lanes. */
  lemma MoreSteps(d: seq<u16>, n: nat)
    ensures d + Repeat([50], 8 * n) + Repeat([50], 8) == d + Repeat([50], 8 * (n + 1))
  {
    Append3(d, Repeat([50 as u16], 8 * n), Repeat([50], 8));
    RepeatAdd([50 as u16], 8 * n, 8);
  }

  /** One iteration of a chase routine started on a dark heart ends on a
      dark heart, after eight frames per lane of 50 ms each. */
  lemma {:induction false} ChaseRoundShows(r: Regs, l: Log, lanes: seq<Lane>)
    requires Replay(r, l) == ALL_OFF
    ensures Replay(r, ChaseRound(l, lanes)) == ALL_OFF
    ensures Frames(r, ChaseRound(l, lanes)) == Frames(r, l) + ChaseRoundFrames(lanes)
    ensures Delays(ChaseRound(l, lanes)) == Delays(l) + Repeat([50], 8 * |lanes|)
  {
    if lanes == [] {
      assert Frames(r, l) + [] == Frames(r, l);
      assert Delays(l) + [] == Delays(l);
    } else {
      var init := lanes[..|lanes| - 1];
      var last := lanes[|lanes| - 1];
      ChaseRoundShows(r, l, init);
      ChaseLaneShows(r, ChaseRound(l, init), last);
      Append3(Frames(r, l), ChaseRoundFrames(init), ChaseFrames(ALL_OFF, last, 8));
      MoreSteps(Delays(l), |init|);
    }
  }

  /** `bh_fullon_chase_cw` / `_ccw`: everything dark, then `count` rounds of
      the lanes' chases. */
  lemma {:induction false} ChaseShows(r: Regs, l: Log, lanes: seq<Lane>, count: nat)
    ensures Replay(r, ChaseLog(l, lanes, count)) == ALL_OFF
    ensures Frames(r, ChaseLog(l, lanes, count)) == Frames(r, l) + Repeat(ChaseRoundFrames(lanes), count)
    ensures Delays(ChaseLog(l, lanes, count)) == Delays(l) + Repeat(Repeat([50], 8 * |lanes|), count)
  {
    if count == 0 {
      AllOffShows(r, l);
    } else {
      ChaseShows(r, l, lanes, count - 1);
      ChaseRoundShows(r, ChaseLog(l, lanes, count - 1), lanes);
      RepeatSnoc(Frames(r, l), ChaseRoundFrames(lanes), count);
      RepeatSnoc(Delays(l), Repeat([50 as u16], 8 * |lanes|), count);
    }
  }

  // ---------------------------------------------------------------------------
  // Traces

  /** The writes of one trace step leave every lane's port with its pattern
      after `j` steps, and show nothing. */
  lemma {:induction false} SweepWritesShows(r: Regs, l: Log, lanes: seq<Lane>, j: nat)
    requires j <= 8
    ensures Replay(r, SweepWrites(l, lanes, j)) == SweptRegs(Replay(r, l), lanes, j)
    ensures Frames(r, SweepWrites(l, lanes, j)) == Frames(r, l)
    ensures Delays(SweepWrites(l, lanes, j)) == Delays(l)
  {
    if lanes != [] {
      var init := lanes[..|lanes| - 1];
      var last := lanes[|lanes| - 1];
      SweepWritesShows(r, l, init, j);
      WriteStep(r, SweepWrites(l, init, j), last.port, Swept(last.dir, j));
    }
  }

  /** The frames of the first `j` steps of a traced phase, started from
      registers `s`: after step i every lane's port shows its pattern after
      i + 1 steps. */
  function TraceFrames(s: Regs, lanes: seq<Lane>, j: nat): (fs: seq<Regs>)
    requires j <= 8
    ensures |fs| == j
  {
    if j == 0 then [] else TraceFrames(s, lanes, j - 1) + [SweptRegs(s, lanes, j)]
  }

  lemma {:induction false} TraceFrameAt(s: Regs, lanes: seq<Lane>, j: nat, i: nat)
    requires i < j <= 8
    ensures TraceFrames(s, lanes, j)[i] == SweptRegs(s, lanes, i + 1)
  {
    if i < j - 1 {
      TraceFrameAt(s, lanes, j - 1, i);
    }
  }

  /** Frame i of a traced phase: each lane's quadrant has the segments of
      steps 0 .. i lit and no other, i + 1 of them. */
  lemma TraceFrameLit(s: Regs, lanes: seq<Lane>, i: nat, k: nat)
    requires i < 8 && k < |lanes| && DistinctPorts(lanes)
    ensures TraceFrames(s, lanes, 8)[i].Get(lanes[k].port) == Swept(lanes[k].dir, i + 1)
    ensures ZeroCount(TraceFrames(s, lanes, 8)[i].Get(lanes[k].port)) == i + 1
    ensures forall b :: 0 <= b < 8 ==> (IsSet(TraceFrames(s, lanes, 8)[i].Get(lanes[k].port), BitAt(lanes[k].dir, b)) <==> i < b)
  {
    TraceFrameAt(s, lanes, 8, i);
    SweptRegsLane(s, lanes, i + 1, k);
    SweptZeroCount(lanes[k].dir, i + 1);
    forall b | 0 <= b < 8
      ensures IsSet(Swept(lanes[k].dir, i + 1), BitAt(lanes[k].dir, b)) <==> i < b
    {
      SweptBits(lanes[k].dir, i + 1, b);
    }
  }

  /** A quadrant no lane drives is left alone by the whole phase. */
  lemma TraceFrameOther(s: Regs, lanes: seq<Lane>, i: nat, p: Port)
    requires i < 8 && !Drives(lanes, p)
    ensures TraceFrames(s, lanes, 8)[i].Get(p) == s.Get(p)
  {
    TraceFrameAt(s, lanes, 8, i);
    SweptRegsOther(s, lanes, i + 1, p);
  }

  /** From one frame to the next a trace only lights segments: every segment
      lit in frame i is still lit in frame i + 1. */
  lemma TraceFrameGrows(s: Regs, lanes: seq<Lane>, i: nat, k: nat)
    requires i < 7 && k < |lanes| && DistinctPorts(lanes)
    ensures TraceFrames(s, lanes, 8)[i + 1].Get(lanes[k].port) & TraceFrames(s, lanes, 8)[i].Get(lanes[k].port)
         == TraceFrames(s, lanes, 8)[i + 1].Get(lanes[k].port)
  {
    TraceFrameLit(s, lanes, i, k);
    TraceFrameLit(s, lanes, i + 1, k);
    SweptShrinks(lanes[k].dir, i + 1, i + 2);
  }

  /** The last frame of a traced phase shows every lane's quadrant fully lit. */
  lemma TraceFrameFull(s: Regs, lanes: seq<Lane>, k: nat)
    requires k < |lanes| && DistinctPorts(lanes)
    ensures TraceFrames(s, lanes, 8)[7].Get(lanes[k].port) == SEG_ON
  {
    TraceFrameLit(s, lanes, 7, k);
    SweptFull(lanes[k].dir);
  }

  /** The first `j` steps of a traced phase. */
  lemma {:induction false} TraceStepsShows(r: Regs, l: Log, ph: Phase, j: nat)
    requires j <= 8 && DistinctPorts(ph.lanes)
    ensures j > 0 ==> Replay(r, TraceSteps(l, ph, j)) == SweptRegs(Replay(r, l), ph.lanes, j)
    ensures Frames(r, TraceSteps(l, ph, j)) == Frames(r, l) + TraceFrames(Replay(r, l), ph.lanes, j)
    ensures Delays(TraceSteps(l, ph, j)) == Delays(l) + Repeat([ph.ms], j)
  {
    var s := Replay(r, l);
    if j == 0 {
      assert Frames(r, l) + [] == Frames(r, l);
      assert Delays(l) + [] == Delays(l);
    } else {
      var prev := TraceSteps(l, ph, j - 1);
      TraceStepsShows(r, l, ph, j - 1);
      SweepWritesShows(r, prev, ph.lanes, j);
      if j > 1 {
        SweptRegsAgain(s, ph.lanes, j - 1, j);
      }
      WaitStep(r, SweepWrites(prev, ph.lanes, j), ph.ms);
      Append3(Frames(r, l), TraceFrames(s, ph.lanes, j - 1), [SweptRegs(s, ph.lanes, j)]);
      RepeatSnoc(Delays(l), [ph.ms], j);
    }
  }

  /** The registers after the phases, each traced for eight steps, started
      from `s`. */
  function AfterPhases(s: Regs, phases: seq<Phase>): Regs
  {
    if phases == [] then s
    else SweptRegs(AfterPhases(s, phases[..|phases| - 1]), phases[|phases| - 1].lanes, 8)
  }

  /** The frames of the phases, one after the other. */
  function PhaseFrames(s: Regs, phases: seq<Phase>): (fs: seq<Regs>)
    ensures |fs| == 8 * |phases|
  {
    if phases == [] then []
    else
      var init := phases[..|phases| - 1];
      PhaseFrames(s, init) + TraceFrames(AfterPhases(s, init), phases[|phases| - 1].lanes, 8)
  }

  /** The delays of the phases: eight of each phase's `ms`. */
  function PhaseDelays(phases: seq<Phase>): seq<u16>
  {
    if phases == [] then []
    else PhaseDelays(phases[..|phases| - 1]) + Repeat([phases[|phases| - 1].ms], 8)
  }

  lemma {:induction false} TracePhasesShows(r: Regs, l: Log, phases: seq<Phase>)
    requires forall m :: 0 <= m < |phases| ==> DistinctPorts(phases[m].lanes)
    ensures Replay(r, TracePhases(l, phases)) == AfterPhases(Replay(r, l), phases)
    ensures Frames(r, TracePhases(l, phases)) == Frames(r, l) + PhaseFrames(Replay(r, l), phases)
    ensures Delays(TracePhases(l, phases)) == Delays(l) + PhaseDelays(phases)
  {
    if phases == [] {
      assert Frames(r, l) + [] == Frames(r, l);
      assert Delays(l) + [] == Delays(l);
    } else {
      var s := Replay(r, l);
      var init := phases[..|phases| - 1];
      var last := phases[|phases| - 1];
      assert forall m :: 0 <= m < |init| ==> init[m] == phases[m];
      TracePhasesShows(r, l, init);
      TraceStepsShows(r, TracePhases(l, init), last, 8);
      Append3(Frames(r, l), PhaseFrames(s, init), TraceFrames(AfterPhases(s, init), last.lanes, 8));
      Append3(Delays(l), PhaseDelays(init), Repeat([last.ms], 8));
    }
  }

  /** After its phases a trace has lit every quadrant it drives, completely,
      and left the others alone. */
  lemma {:induction false} AfterPhasesLit(s: Regs, phases: seq<Phase>, p: Port)
    requires DisjointPhases(phases)
    ensures forall m :: 0 <= m < |phases| && Drives(phases[m].lanes, p) ==> AfterPhases(s, phases).Get(p) == SEG_ON
    ensures (forall m :: 0 <= m < |phases| ==> !Drives(phases[m].lanes, p)) ==> AfterPhases(s, phases).Get(p) == s.Get(p)
  {
    if phases != [] {
      var n := |phases| - 1;
      var init := phases[..n];
      var before := AfterPhases(s, init);
      assert forall m :: 0 <= m < n ==> init[m] == phases[m];
      AfterPhasesLit(s, init, p);
      if Drives(phases[n].lanes, p) {
        var k :| 0 <= k < |phases[n].lanes| && phases[n].lanes[k].port == p;
        SweptRegsLane(before, phases[n].lanes, 8, k);
        SweptFull(phases[n].lanes[k].dir);
      } else {
        SweptRegsOther(before, phases[n].lanes, 8, p);
      }
    }
  }

  /** One iteration of a trace routine: its phases, then the heart dark for
      50 ms. */
  lemma TraceRoundShows(r: Regs, l: Log, phases: seq<Phase>)
    requires forall m :: 0 <= m < |phases| ==> DistinctPorts(phases[m].lanes)
    ensures Replay(r, TraceRound(l, phases)) == ALL_OFF
    ensures Frames(r, TraceRound(l, phases)) == Frames(r, l) + (PhaseFrames(Replay(r, l), phases) + [ALL_OFF])
    ensures Delays(TraceRound(l, phases)) == Delays(l) + (PhaseDelays(phases) + [50])
  {
    var t := TracePhases(l, phases);
    TracePhasesShows(r, l, phases);
    AllOffShows(r, t);
    WaitStep(r, AllOffLog(t), 50);
    Append3(Frames(r, l), PhaseFrames(Replay(r, l), phases), [ALL_OFF]);
    Append3(Delays(l), PhaseDelays(phases), [50]);
  }

  /** A trace routine called with `count`: everything dark, then `count`
      iterations, each from a dark heart. */
  lemma {:induction false} TraceShows(r: Regs, l: Log, phases: seq<Phase>, count: nat)
    requires forall m :: 0 <= m < |phases| ==> DistinctPorts(phases[m].lanes)
    ensures Replay(r, TraceLog(l, phases, count)) == ALL_OFF
    ensures Frames(r, TraceLog(l, phases, count)) == Frames(r, l) + Repeat(PhaseFrames(ALL_OFF, phases) + [ALL_OFF], count)
    ensures Delays(TraceLog(l, phases, count)) == Delays(l) + Repeat(PhaseDelays(phases) + [50], count)
  {
    if count == 0 {
      AllOffShows(r, l);
    } else {
      TraceShows(r, l, phases, count - 1);
      TraceRoundShows(r, TraceLog(l, phases, count - 1), phases);
      RepeatSnoc(Frames(r, l), PhaseFrames(ALL_OFF, phases) + [ALL_OFF], count);
      RepeatSnoc(Delays(l), PhaseDelays(phases) + [50], count);
    }
  }

  /** Phases that drive every port, each at most once, leave the whole heart
      lit, and the last step of the last phase already shows it so. */
  lemma TraceLightsHeart(s: Regs, phases: seq<Phase>)
    requires DisjointPhases(phases)
    requires CoversHeart(PhasePorts(phases))
    ensures |phases| > 0
    ensures AfterPhases(s, phases) == ALL_ON
    ensures PhaseFrames(s, phases)[8 * |phases| - 1] == ALL_ON
  {
    assert |phases| > 0;
    forall p: Port ensures AfterPhases(s, phases).Get(p) == SEG_ON {
      assert p in PhasePorts(phases) by {
        match p
        case UL =>
        case LL =>
        case UR =>
        case LR =>
      }
      ListedDriven(phases, p);
      AfterPhasesLit(s, phases, p);
    }
    RegsEq(AfterPhases(s, phases), ALL_ON);
    TraceFrameAt(AfterPhases(s, phases[..|phases| - 1]), phases[|phases| - 1].lanes, 8, 7);
  }

  /** `bh_trace_left_and_right` repeats `bh_trace_top_and_bottom` exactly, and
      `bh_trace_middle_to_lr` repeats `bh_trace_middle_to_bt`. */
  lemma DuplicateTraces(l: Log, count: nat)
    ensures TraceLog(l, LEFT_AND_RIGHT, count) == TraceLog(l, TOP_AND_BOTTOM, count)
    ensures TraceLog(l, MIDDLE_TO_LR, count) == TraceLog(l, MIDDLE_TO_BT, count)
  {
  }

  // ---------------------------------------------------------------------------
  // Time spent

  lemma Scale(p: int, a: int, b: int, c: int)
    requires p == a * b && b == c
    ensures p == a * c
  {
  }

  lemma MulSucc(n: int, y: int)
    ensures n * y + y == (n + 1) * y
  {
  }

  /** Delays that all request `x` add up to `x` per delay. */
  lemma {:induction false} TotalMsConst(ds: seq<u16>, x: u16)
    requires forall i :: 0 <= i < |ds| ==> ds[i] == x
    ensures TotalMs(ds) == |ds| * x as int
  {
    if ds != [] {
      TotalMsConst(ds[..|ds| - 1], x);
    }
  }

  /** A routine that appends `count` repetitions of `d` to the delays takes
      `count` times as long as one repetition. */
  lemma RepeatedMs(l: Log, after: Log, d: seq<u16>, count: nat)
    requires Delays(after) == Delays(l) + Repeat(d, count)
    ensures TotalMs(Delays(after)) == TotalMs(Delays(l)) + count * TotalMs(d)
  {
    TotalMsAppend(Delays(l), Repeat(d, count));
    TotalMsRepeat(d, count);
  }

  /** Phases that all wait `ms` after each of their eight steps. */
  lemma {:induction false} PhaseDelaysMs(phases: seq<Phase>, ms: u16)
    requires forall m :: 0 <= m < |phases| ==> phases[m].ms == ms
    ensures TotalMs(PhaseDelays(phases)) == |phases| * (8 * ms as int)
  {
    if phases != [] {
      var init := phases[..|phases| - 1];
      var y := 8 * ms as int;
      assert TotalMs(PhaseDelays(init)) == |init| * y by {
        assert forall m :: 0 <= m < |init| ==> init[m] == phases[m];
        PhaseDelaysMs(init, ms);
      }
      assert TotalMs(Repeat([ms], 8)) == y by {
        TotalMsRepeat([ms], 8);
        TotalMsConst([ms], ms);
      }
      TotalMsAppend(PhaseDelays(init), Repeat([ms], 8));
      MulSucc(|init|, y);
    }
  }

  lemma SolidFlashMs(l: Log, count: nat)
    ensures TotalMs(Delays(SolidFlashLog(l, count))) == TotalMs(Delays(l)) + 500 * count
  {
    SolidFlashShows(ALL_OFF, l, count);
    RepeatedMs(l, SolidFlashLog(l, count), [250, 250], count);
    TotalMsConst([250, 250], 250);
  }

  lemma QuadrantChaseMs(l: Log, count: nat)
    ensures TotalMs(Delays(QuadrantChaseLog(l, count))) == TotalMs(Delays(l)) + 2000 * count
  {
    QuadrantChaseShows(ALL_OFF, l, count);
    RepeatedMs(l, QuadrantChaseLog(l, count), QUADRANT_CHASE_DELAYS, count);
    TotalMsConst(QUADRANT_CHASE_DELAYS, 250);
  }

  lemma QuadrantDanceMs(l: Log, count: nat)
    ensures TotalMs(Delays(QuadrantDanceLog(l, count))) == TotalMs(Delays(l)) + 1500 * count
  {
    QuadrantDanceShows(ALL_OFF, l, count);
    RepeatedMs(l, QuadrantDanceLog(l, count), QUADRANT_DANCE_DELAYS, count);
    TotalMsConst(QUADRANT_DANCE_DELAYS, 250);
  }

  /** Eight 50 ms steps per lane. */
  lemma StepsMs(n: nat)
    ensures TotalMs(Repeat([50], 8 * n)) == 400 * n
  {
    TotalMsRepeat([50], 8 * n);
    TotalMsConst([50], 50);
    Scale(TotalMs(Repeat([50], 8 * n)), 8 * n, TotalMs([50]), 50);
  }

  /** A chase routine spends 50 ms on each of the eight steps of each lane. */
  lemma ChaseMs(l: Log, lanes: seq<Lane>, count: nat)
    ensures TotalMs(Delays(ChaseLog(l, lanes, count))) == TotalMs(Delays(l)) + count * (400 * |lanes|)
  {
    var d := Repeat([50 as u16], 8 * |lanes|);
    assert TotalMs(Delays(ChaseLog(l, lanes, count))) == TotalMs(Delays(l)) + count * TotalMs(d) by {
      ChaseShows(ALL_OFF, l, lanes, count);
      RepeatedMs(l, ChaseLog(l, lanes, count), d, count);
    }
    StepsMs(|lanes|);
    Scale(count * TotalMs(d), count, TotalMs(d), 400 * |lanes|);
  }

  /** A trace routine whose phases all wait `ms` per step spends eight steps
      per phase and 50 ms dark per iteration. */
  lemma TraceMs(l: Log, phases: seq<Phase>, ms: u16, count: nat)
    requires forall m :: 0 <= m < |phases| ==> DistinctPorts(phases[m].lanes) && phases[m].ms == ms
    ensures TotalMs(Delays(TraceLog(l, phases, count))) == TotalMs(Delays(l)) + count * (|phases| * (8 * ms as int) + 50)
  {
    var d := PhaseDelays(phases) + [50];
    assert TotalMs(Delays(TraceLog(l, phases, count))) == TotalMs(Delays(l)) + count * TotalMs(d) by {
      TraceShows(ALL_OFF, l, phases, count);
      RepeatedMs(l, TraceLog(l, phases, count), d, count);
    }
    assert TotalMs(d) == |phases| * (8 * ms as int) + 50 by {
      PhaseDelaysMs(phases, ms);
      TotalMsAppend(PhaseDelays(phases), [50]);
      TotalMsConst([50], 50);
    }
    Scale(count * TotalMs(d), count, TotalMs(d), |phases| * (8 * ms as int) + 50);
  }

  /** `bh_fullon_trace_cw` or `_ccw` with count 3: four phases of eight
      50 ms steps and 50 ms dark, three times. */
  lemma FullonTraceMs(l: Log, phases: seq<Phase>)
    requires phases == FULLON_TRACE_CW || phases == FULLON_TRACE_CCW
    ensures TotalMs(Delays(TraceLog(l, phases, 3))) == TotalMs(Delays(l)) + 4950
  {
    if phases == FULLON_TRACE_CW {
      FullonTraceCwDisjoint();
    } else {
      FullonTraceCcwDisjoint();
    }
    TraceMs(l, phases, 50, 3);
  }

  /** A two-phase trace with count 3: two phases of eight 50 ms steps and
      50 ms dark, three times. */
  lemma TwoPhaseTraceMs(l: Log, phases: seq<Phase>)
    requires phases == TOP_TO_BOTTOM || phases == BOTTOM_TO_TOP || phases == LEFT_TO_RIGHT || phases == RIGHT_TO_LEFT
    ensures TotalMs(Delays(TraceLog(l, phases, 3))) == TotalMs(Delays(l)) + 2550
  {
    if phases == TOP_TO_BOTTOM || phases == BOTTOM_TO_TOP {
      VerticalTracesDisjoint(phases);
    } else {
      HorizontalTracesDisjoint(phases);
    }
    TraceMs(l, phases, 50, 3);
  }

  /** A four-quadrant trace with count 3: one phase of eight 100 ms steps and
      50 ms dark, three times. */
  lemma FourWayTraceMs(l: Log, phases: seq<Phase>)
    requires phases == TOP_AND_BOTTOM || phases == MIDDLE_TO_BT || phases == LEFT_AND_RIGHT || phases == MIDDLE_TO_LR
    ensures TotalMs(Delays(TraceLog(l, phases, 3))) == TotalMs(Delays(l)) + 2550
  {
    FourWayTracesDisjoint(phases);
    TraceMs(l, phases, 100, 3);
  }

  /** One pass of the main loop requests 51900 ms of delays: 1500 flashing, 6000 chasing and 4500 dancing the quadrants,
      2 x 4800 chasing segments, 2 x 4950 for the full-on traces and 8 x 2550
      for the other traces. */
  lemma PassMs(l: Log)
    ensures TotalMs(Delays(PassLog(l))) == TotalMs(Delays(l)) + 51900
  {
    var a := SolidFlashLog(l, 3);
    SolidFlashMs(l, 3);
    var b := QuadrantChaseLog(a, 3);
    QuadrantChaseMs(a, 3);
    var c := QuadrantDanceLog(b, 3);
    QuadrantDanceMs(b, 3);
    var d := ChaseLog(c, CHASE_CW, 3);
    ChaseMs(c, CHASE_CW, 3);
    var e := ChaseLog(d, CHASE_CCW, 3);
    ChaseMs(d, CHASE_CCW, 3);
    var f := TraceLog(e, FULLON_TRACE_CW, 3);
    FullonTraceMs(e, FULLON_TRACE_CW);
    var g := TraceLog(f, FULLON_TRACE_CCW, 3);
    FullonTraceMs(f, FULLON_TRACE_CCW);
    var h := TraceLog(g, TOP_TO_BOTTOM, 3);
    TwoPhaseTraceMs(g, TOP_TO_BOTTOM);
    var i := TraceLog(h, BOTTOM_TO_TOP, 3);
    TwoPhaseTraceMs(h, BOTTOM_TO_TOP);
    var j := TraceLog(i, TOP_AND_BOTTOM, 3);
    FourWayTraceMs(i, TOP_AND_BOTTOM);
    var k := TraceLog(j, MIDDLE_TO_BT, 3);
    FourWayTraceMs(j, MIDDLE_TO_BT);
    var m := TraceLog(k, LEFT_TO_RIGHT, 3);
    TwoPhaseTraceMs(k, LEFT_TO_RIGHT);
    var n := TraceLog(m, RIGHT_TO_LEFT, 3);
    TwoPhaseTraceMs(m, RIGHT_TO_LEFT);
    var o := TraceLog(n, LEFT_AND_RIGHT, 3);
    FourWayTraceMs(n, LEFT_AND_RIGHT);
    FourWayTraceMs(o, MIDDLE_TO_LR);
  }

  /** One pass of the main loop ends with the heart dark. */
  lemma PassDark(r: Regs, l: Log)
    ensures Replay(r, PassLog(l)) == ALL_OFF
  {
    var flash := SolidFlashLog(l, 3);
    var quadrants := QuadrantDanceLog(QuadrantChaseLog(flash, 3), 3);
    var chases := ChaseLog(ChaseLog(quadrants, CHASE_CW, 3), CHASE_CCW, 3);
    var fullon := TraceLog(TraceLog(chases, FULLON_TRACE_CW, 3), FULLON_TRACE_CCW, 3);
    var vertical :=
      TraceLog(TraceLog(TraceLog(TraceLog(fullon, TOP_TO_BOTTOM, 3), BOTTOM_TO_TOP, 3),
                        TOP_AND_BOTTOM, 3), MIDDLE_TO_BT, 3);
    FourWayTracesDisjoint(MIDDLE_TO_LR);
    TraceShows(r, TraceLog(TraceLog(TraceLog(vertical, LEFT_TO_RIGHT, 3), RIGHT_TO_LEFT, 3), LEFT_AND_RIGHT, 3),
               MIDDLE_TO_LR, 3);
  }

  /** `main` stopped after `passes` passes leaves the heart dark. */
  lemma RunDark(r: Regs, l: Log, passes: nat)
    ensures Replay(r, RunLog(l, passes)) == ALL_OFF
  {
    if passes == 0 {
      SetupShows(r, l);
    } else {
      PassDark(r, RunLog(l, passes - 1));
    }
  }

  /** `bh_setup` waits 50 ms. */
  lemma SetupMs(l: Log)
    ensures TotalMs(Delays(SetupLog(l))) == TotalMs(Delays(l)) + 50
  {
    SetupShows(ALL_OFF, l);
    TotalMsAppend(Delays(l), [50]);
    TotalMsConst([50], 50);
  }

  /** `main` stopped after `passes` passes has requested 50 ms of setup and
      51900 ms per pass. */
  lemma {:induction false} RunMs(l: Log, passes: nat)
    ensures TotalMs(Delays(RunLog(l, passes))) == TotalMs(Delays(l)) + 50 + passes * 51900
  {
    if passes == 0 {
      SetupMs(l);
    } else {
      var prior := RunLog(l, passes - 1);
      var before := TotalMs(Delays(prior));
      assert before == TotalMs(Delays(l)) + 50 + (passes - 1) * 51900 by {
        RunMs(l, passes - 1);
      }
      assert TotalMs(Delays(PassLog(prior))) == before + 51900 by {
        PassMs(prior);
      }
      MulSucc(passes - 1, 51900);
    }
  }
}
