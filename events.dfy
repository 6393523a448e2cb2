/** The observable behaviour of the firmware: the four quadrant registers and a
    log of what the program does to them, one event per port write and one per
    `delay_ms` call (what a mock clock would record). */
module Events {
  import opened Machine

  /** The four quadrant ports: HEART_UL = P0, HEART_LL = P1, HEART_UR = P2,
      HEART_LR = P3. */
  datatype Port = UL | LL | UR | LR

  /** The values of the four quadrant registers. */
  datatype Regs = Regs(ul: bv8, ll: bv8, ur: bv8, lr: bv8)
  {
    function Get(p: Port): bv8
    {
      match p
      case UL => ul
      case LL => ll
      case UR => ur
      case LR => lr
    }

    /** The registers after `p` is assigned `v`. */
    function Set(p: Port, v: bv8): (r: Regs)
      ensures r.Get(p) == v
      ensures forall q :: q != p ==> r.Get(q) == Get(q)
    {
      match p
      case UL => this.(ul := v)
      case LL => this.(ll := v)
      case UR => this.(ur := v)
      case LR => this.(lr := v)
    }
  }

  /** A second write to the same port overrides the first. */
  lemma SetSet(r: Regs, p: Port, a: bv8, b: bv8)
    ensures r.Set(p, a).Set(p, b) == r.Set(p, b)
  {
  }

  /** Writing back the value a port already holds changes nothing. */
  lemma SetGet(r: Regs, p: Port)
    ensures r.Set(p, r.Get(p)) == r
  {
  }

  /** Two register sets are equal when every port reads the same. */
  lemma RegsEq(a: Regs, b: Regs)
    requires forall p: Port :: a.Get(p) == b.Get(p)
    ensures a == b
  {
    assert a.Get(UL) == b.Get(UL) && a.Get(LL) == b.Get(LL);
    assert a.Get(UR) == b.Get(UR) && a.Get(LR) == b.Get(LR);
  }

  /** Every quadrant dark. */
  const ALL_OFF := Regs(SEG_OFF, SEG_OFF, SEG_OFF, SEG_OFF)

  /** Every quadrant fully lit. */
  const ALL_ON := Regs(SEG_ON, SEG_ON, SEG_ON, SEG_ON)

  /** `Write(p, v)`: port p is assigned v. `Wait(ms)`: `delay_ms(ms)` is called. */
  datatype Event = Write(port: Port, value: bv8) | Wait(ms: u16)

  /** What the program has done since power-on, most recent event last:
      `Boot` is the empty history, `Snoc(prior, e)` is `prior` followed by `e`. */
  datatype Log = Boot | Snoc(prior: Log, event: Event)
  {
    /** This history followed by `e`. */
    function Then(e: Event): Log
    {
      Snoc(this, e)
    }
  }

  /** The effect of one event on the registers. */
  function Apply(r: Regs, e: Event): Regs
  {
    if e.Write? then r.Set(e.port, e.value) else r
  }

  /** The registers after the writes of `log`, starting from `r`. */
  function Replay(r: Regs, log: Log): Regs
  {
    match log
    case Boot => r
    case Snoc(prior, e) => Apply(Replay(r, prior), e)
  }

  /** What the heart shows during each `delay_ms` call of `log`, in order: the
      registers at the moment the delay starts. */
  function Frames(r: Regs, log: Log): seq<Regs>
  {
    match log
    case Boot => []
    case Snoc(prior, e) => Frames(r, prior) + (if e.Wait? then [Replay(r, prior)] else [])
  }

  /** The `delay_ms` arguments requested in `log`, in order. */
  function Delays(log: Log): seq<u16>
  {
    match log
    case Boot => []
    case Snoc(prior, e) => Delays(prior) + (if e.Wait? then [e.ms] else [])
  }

  /** The sum of the requested delays, in milliseconds. */
  function TotalMs(ds: seq<u16>): nat
  {
    if ds == [] then 0 else TotalMs(ds[..|ds| - 1]) + ds[|ds| - 1] as int
  }

  lemma {:induction false} TotalMsAppend(a: seq<u16>, b: seq<u16>)
    ensures TotalMs(a + b) == TotalMs(a) + TotalMs(b)
  {
    if b != [] {
      assert (a + b)[..|a + b| - 1] == a + b[..|b| - 1];
      TotalMsAppend(a, b[..|b| - 1]);
    } else {
      assert a + b == a;
    }
  }

  /** `s` repeated `n` times. */
  function Repeat<T>(s: seq<T>, n: nat): seq<T>
  {
    if n == 0 then [] else Repeat(s, n - 1) + s
  }

  /** Repeating `a` times and then `b` times is repeating `a + b` times. */
  lemma {:induction false} RepeatAdd<T>(s: seq<T>, a: nat, b: nat)
    ensures Repeat(s, a) + Repeat(s, b) == Repeat(s, a + b)
  {
    if b > 0 {
      RepeatAdd(s, a, b - 1);
      assert Repeat(s, a) + Repeat(s, b) == (Repeat(s, a) + Repeat(s, b - 1)) + s;
    } else {
      assert Repeat(s, a) + [] == Repeat(s, a);
    }
  }

  /** The delays of `n` repetitions add up to `n` times those of one. */
  lemma {:induction false} TotalMsRepeat(s: seq<u16>, n: nat)
    ensures TotalMs(Repeat(s, n)) == n * TotalMs(s)
  {
    if n > 0 {
      var t := TotalMs(s);
      TotalMsRepeat(s, n - 1);
      TotalMsAppend(Repeat(s, n - 1), s);
      assert (n - 1) * t + t == n * t;
    }
  }

  // Sequences grown one element at a time

  lemma Snoc2<T>(f: seq<T>, a: T, b: T)
    ensures f + [a] + [b] == f + [a, b]
  {
  }

  lemma Snoc6<T>(f: seq<T>, a: T, b: T, c: T, d: T, e: T, g: T)
    ensures f + [a] + [b] + [c] + [d] + [e] + [g] == f + [a, b, c, d, e, g]
  {
  }

  lemma Snoc8<T>(f: seq<T>, a: T, b: T, c: T, d: T, e: T, g: T, h: T, i: T)
    ensures f + [a] + [b] + [c] + [d] + [e] + [g] + [h] + [i] == f + [a, b, c, d, e, g, h, i]
  {
  }

  lemma Append3<T>(a: seq<T>, b: seq<T>, c: seq<T>)
    ensures a + b + c == a + (b + c)
  {
  }

  /** One more repetition appended after `n - 1` of them. */
  lemma RepeatSnoc<T>(f: seq<T>, s: seq<T>, n: nat)
    requires n > 0
    ensures f + Repeat(s, n - 1) + s == f + Repeat(s, n)
  {
  }

  // One event at a time

  /** A write changes one register, shows nothing and requests no delay. */
  lemma WriteStep(r: Regs, l: Log, p: Port, v: bv8)
    ensures Replay(r, l.Then(Write(p, v))) == Replay(r, l).Set(p, v)
    ensures Frames(r, l.Then(Write(p, v))) == Frames(r, l)
    ensures Delays(l.Then(Write(p, v))) == Delays(l)
  {
  }

  /** A write followed by a delay shows the registers after the write for
      that delay. */
  lemma WriteWaitStep(r: Regs, l: Log, p: Port, v: bv8, ms: u16)
    ensures Replay(r, l.Then(Write(p, v)).Then(Wait(ms))) == Replay(r, l).Set(p, v)
    ensures Frames(r, l.Then(Write(p, v)).Then(Wait(ms))) == Frames(r, l) + [Replay(r, l).Set(p, v)]
    ensures Delays(l.Then(Write(p, v)).Then(Wait(ms))) == Delays(l) + [ms]
  {
  }

  /** A delay shows the current registers and changes none. */
  lemma WaitStep(r: Regs, l: Log, ms: u16)
    ensures Replay(r, l.Then(Wait(ms))) == Replay(r, l)
    ensures Frames(r, l.Then(Wait(ms))) == Frames(r, l) + [Replay(r, l)]
    ensures Delays(l.Then(Wait(ms))) == Delays(l) + [ms]
  {
  }
}
