/** What a dispatch log does when it is replayed on the contents of the five
    buffers. Replaying the trace of each operation yields exactly the buffer
    contents the render pass promises for that operation, so the bindings
    recorded in the log and the values left in the buffers describe the same
    computation. */
module Replay {
  import opened Kernels
  import opened Dispatches

  /** The contents of the five buffers, by name. */
  type Buffers = BufferName -> Field

  function Get(s: Buffers, b: BufferName): (r: Field)
  {
    s(b)
  }

  /** `s` with buffer `b` overwritten by `f`. */
  function Set(s: Buffers, b: BufferName, f: Field): (r: Buffers)
    ensures Get(r, b) == f
  {
    c => if c == b then f else s(c)
  }

  /** All five buffers hold `n` cells. */
  predicate Uniform(s: Buffers, n: nat)
  {
    |Get(s, Temp)| == n && |Get(s, Velocity)| == n && |Get(s, Divergence)| == n &&
    |Get(s, Pressure)| == n && |Get(s, Density)| == n
  }

  /** The field a dispatch writes, computed from the buffers it reads. */
  function Output(k: Shaders, s: Buffers, e: Dispatch): (r: Field)
  {
    match e
    case AddVelocityK(src, t) => AddVelocityOf(k, src, Get(s, t))
    case AddDensityK(src, t) => AddDensityOf(k, src, Get(s, t))
    case BoundaryK(scale, b) => BoundaryOf(k, scale, Get(s, b))
    case JacobiK(f, c, rhs, _) => JacobiOf(k, f, Get(s, c), Get(s, rhs))
    case AdvectK(d, dt, src, vel, _) => AdvectOf(k, d, dt, Get(s, src), Get(s, vel))
    case DivergenceK(raw, _) => DivergenceOf(k, Get(s, raw))
    case FreeDivergenceK(vel, p, _) => FreeDivergenceOf(k, Get(s, vel), Get(s, p))
    case CopyK(src, _) => Get(s, src)
    case ClearK(v, b) => Filled(v, |Get(s, b)|)
  }

  /** One dispatch, executed with the buffers it is bound to. */
  function Apply(k: Shaders, s: Buffers, e: Dispatch): (r: Buffers)
    ensures Get(r, Written(e)) == Output(k, s, e)
  {
    Set(s, Written(e), Output(k, s, e))
  }

  /** A dispatch overwrites the one buffer it writes and nothing else. */
  lemma ApplyFrame(k: Shaders, s: Buffers, e: Dispatch, c: BufferName)
    requires c != Written(e)
    ensures Get(Apply(k, s, e), c) == Get(s, c)
  {
  }

  /** A log executed oldest dispatch first. */
  function Run(k: Shaders, s: Buffers, log: seq<Dispatch>): (r: Buffers)
    decreases |log|
  {
    if |log| == 0 then s else Apply(k, Run(k, s, log[..|log| - 1]), log[|log| - 1])
  }

  lemma RunSnoc(k: Shaders, s: Buffers, log: seq<Dispatch>, e: Dispatch)
    ensures Run(k, s, log + [e]) == Apply(k, Run(k, s, log), e)
  {
    assert (log + [e])[..|log|] == log;
  }

  /** Replaying two logs one after the other is replaying their concatenation. */
  lemma {:induction false} RunAppend(k: Shaders, s: Buffers, a: seq<Dispatch>, b: seq<Dispatch>)
    ensures Run(k, s, a + b) == Run(k, Run(k, s, a), b)
    decreases |b|
  {
    if |b| == 0 {
      assert a + b == a;
    } else {
      var b' := b[..|b| - 1];
      assert b == b' + [b[|b| - 1]];
      assert a + b == (a + b') + [b[|b| - 1]];
      RunSnoc(k, s, a + b', b[|b| - 1]);
      RunAppend(k, s, a, b');
      RunSnoc(k, Run(k, s, a), b', b[|b| - 1]);
    }
  }

  /** A buffer that no dispatch of the log writes keeps its contents. */
  lemma {:induction false} RunFrame(k: Shaders, s: Buffers, log: seq<Dispatch>, c: BufferName)
    requires forall e :: e in log ==> Written(e) != c
    ensures Get(Run(k, s, log), c) == Get(s, c)
    decreases |log|
  {
    if |log| > 0 {
      assert log[|log| - 1] in log;
      assert forall e :: e in log[..|log| - 1] ==> e in log;
      RunFrame(k, s, log[..|log| - 1], c);
    }
  }

  /** Replaying a prefix whose result is known, then a middle part and one
      last dispatch. */
  lemma RunTail(k: Shaders, s: Buffers, a: seq<Dispatch>, mid: seq<Dispatch>, e: Dispatch, x: Buffers)
    requires Run(k, s, a) == x
    ensures Run(k, s, a + mid + [e]) == Apply(k, Run(k, x, mid), e)
  {
    RunSnoc(k, s, a + mid, e);
    RunAppend(k, s, a, mid);
  }

  /** Replaying a prefix whose result is known, then one more dispatch. */
  lemma RunSnocFrom(k: Shaders, s: Buffers, a: seq<Dispatch>, e: Dispatch, x: Buffers)
    requires Run(k, s, a) == x
    ensures Run(k, s, a + [e]) == Apply(k, x, e)
  {
    RunSnoc(k, s, a, e);
  }

  /** The tail every ping-pong loop ends with: copy the last iterate back
      from the scratch buffer when it is there, then clear the scratch buffer. */
  lemma CopyBackClear(k: Shaders, x: Buffers, b: BufferName, n: nat)
    requires b != Temp
    ensures var r := Apply(k, Run(k, x, CopyBack(b, n)), ClearK(Zero, Temp));
      Get(r, b) == Get(x, PingPongCurrent(b, n)) &&
      Get(r, Temp) == Filled(Zero, |Get(x, Temp)|) &&
      forall c :: c != b && c != Temp ==> Get(r, c) == Get(x, c)
  {
    var y := Run(k, x, CopyBack(b, n));
    if n % 2 == 1 {
      assert CopyBack(b, n) == [] + [CopyK(Temp, b)];
      RunSnoc(k, x, [], CopyK(Temp, b));
      ApplyFrame(k, x, CopyK(Temp, b), Temp);
      forall c | c != b
        ensures Get(y, c) == Get(x, c)
      {
        ApplyFrame(k, x, CopyK(Temp, b), c);
      }
    } else {
      assert CopyBack(b, n) == [];
    }
    forall c | c != Temp
      ensures Get(Apply(k, y, ClearK(Zero, Temp)), c) == Get(y, c)
    {
      ApplyFrame(k, y, ClearK(Zero, Temp), c);
    }
  }

  // ---- Diffuse ----

  /** One diffusion sweep on explicit buffer contents: relax `cur` against
      itself into `res`. */
  lemma ApplyDiffuseSweep(k: Shaders, f: Factors, cur: BufferName, res: BufferName, r0: Buffers)
    requires cur != res
    ensures var r := Apply(k, r0, JacobiK(f, cur, cur, res));
      Get(r, res) == JacobiOf(k, f, Get(r0, cur), Get(r0, cur)) && Get(r, cur) == Get(r0, cur)
  {
  }

  /** The diffusion sweeps write only `b` and the scratch buffer. */
  lemma RunDiffuseSweepsFrame(k: Shaders, f: Factors, b: BufferName, s: Buffers, n: nat, c: BufferName)
    requires c != b && c != Temp
    ensures Get(Run(k, s, DiffuseSweeps(f, b, n)), c) == Get(s, c)
  {
    DiffuseSweepsWrites(f, b, n);
    RunFrame(k, s, DiffuseSweeps(f, b, n), c);
  }

  /** After n diffusion sweeps over `b` the n-th iterate is in the buffer the
      next sweep would read: `b` when n is even, the scratch buffer when n is
      odd. */
  lemma {:induction false} RunDiffuseSweeps(k: Shaders, f: Factors, b: BufferName, s: Buffers, n: nat)
    requires b != Temp && |Get(s, Temp)| == |Get(s, b)|
    ensures var r := Run(k, s, DiffuseSweeps(f, b, n));
      Get(r, PingPongCurrent(b, n)) == DiffusionIterate(k, f, Get(s, b), n) &&
      |Get(r, b)| == |Get(s, b)| && |Get(r, Temp)| == |Get(s, b)|
  {
    if n > 0 {
      RunDiffuseSweeps(k, f, b, s, n - 1);
      var prev := DiffuseSweeps(f, b, n - 1);
      var cur, res := PingPongCurrent(b, n - 1), PingPongResult(b, n - 1);
      PingPongLast(b, n);
      RunSnoc(k, s, prev, DiffuseSweep(f, b, n - 1));
      ApplyDiffuseSweep(k, f, cur, res, Run(k, s, prev));
    }
  }

  /** Replaying Diffuse on `b` leaves the n-th diffusion iterate in `b`, a
      cleared scratch buffer, and every other buffer as it was. */
  lemma RunDiffuse(k: Shaders, f: Factors, b: BufferName, s: Buffers, n: nat)
    requires b != Temp && |Get(s, Temp)| == |Get(s, b)|
    ensures var r := Run(k, s, DiffuseTrace(f, b, n));
      Get(r, b) == DiffusionIterate(k, f, Get(s, b), n) &&
      Get(r, Temp) == Filled(Zero, |Get(s, b)|) &&
      forall c :: c != b && c != Temp ==> Get(r, c) == Get(s, c)
  {
    var sweeps := DiffuseSweeps(f, b, n);
    RunDiffuseSweeps(k, f, b, s, n);
    forall c | c != b && c != Temp
      ensures Get(Run(k, s, sweeps), c) == Get(s, c)
    {
      RunDiffuseSweepsFrame(k, f, b, s, n, c);
    }
    RunTail(k, s, sweeps, CopyBack(b, n), ClearK(Zero, Temp), Run(k, s, sweeps));
    CopyBackClear(k, Run(k, s, sweeps), b, n);
  }

  // ---- Advect ----

  /** Replaying Advect leaves the advected field in the source, a cleared
      scratch buffer, and every other buffer as it was. */
  lemma RunAdvect(k: Shaders, dissipation: real, dt: real, src: BufferName, vel: BufferName, s: Buffers)
    requires src != Temp && vel != Temp
    ensures var r := Run(k, s, AdvectTrace(dissipation, dt, src, vel));
      Get(r, src) == AdvectOf(k, dissipation, dt, Get(s, src), Get(s, vel)) &&
      Get(r, Temp) == Filled(Zero, |Get(s, src)|) &&
      forall c :: c != src && c != Temp ==> Get(r, c) == Get(s, c)
  {
    var a := AdvectK(dissipation, dt, src, vel, Temp);
    var x1 := Apply(k, s, a);
    RunSnocFrom(k, s, [], a, s);
    assert [] + [a] == [a];
    var x2 := Apply(k, x1, CopyK(Temp, src));
    RunSnocFrom(k, s, [a], CopyK(Temp, src), x1);
    RunSnocFrom(k, s, [a] + [CopyK(Temp, src)], ClearK(Zero, Temp), x2);
    ApplyFrame(k, s, a, src);
    ApplyFrame(k, x1, CopyK(Temp, src), Temp);
    ApplyFrame(k, x2, ClearK(Zero, Temp), src);
    forall c | c != src && c != Temp
      ensures Get(Apply(k, x2, ClearK(Zero, Temp)), c) == Get(s, c)
    {
      ApplyFrame(k, s, a, c);
      ApplyFrame(k, x1, CopyK(Temp, src), c);
      ApplyFrame(k, x2, ClearK(Zero, Temp), c);
    }
  }

  // ---- Project ----

  /** One pressure sweep on explicit buffer contents: mirror the borders of
      `cur`, then relax it against `d` into `res`. */
  lemma ApplyPressureSweep(k: Shaders, f: Factors, cur: BufferName, d: BufferName, res: BufferName, r0: Buffers)
    requires cur != d && res != d && cur != res
    ensures var r2 := Apply(k, Apply(k, r0, BoundaryK(1.0, cur)), JacobiK(f, cur, d, res));
      Get(r2, res) == PressureSweepOf(k, f, Get(r0, cur), Get(r0, d)) &&
      |Get(r2, cur)| == |Get(r0, cur)| &&
      forall c :: c != cur && c != res ==> Get(r2, c) == Get(r0, c)
  {
  }

  /** The pressure sweeps write only `p` and the scratch buffer. */
  lemma RunPressureSweepsFrame(k: Shaders, f: Factors, p: BufferName, d: BufferName, s: Buffers, n: nat, c: BufferName)
    requires c != p && c != Temp
    ensures Get(Run(k, s, ProjectSweeps(f, p, d, n)), c) == Get(s, c)
  {
    ProjectSweepsShape(f, p, d, n);
    RunFrame(k, s, ProjectSweeps(f, p, d, n), c);
  }

  /** A log that extends one whose replay is known replays from there. */
  lemma RunThen(k: Shaders, s: Buffers, a: seq<Dispatch>, b: seq<Dispatch>, log: seq<Dispatch>, x: Buffers)
    requires log == a + b && Run(k, s, a) == x
    ensures Run(k, s, log) == Run(k, x, b)
  {
    RunAppend(k, s, a, b);
  }

  /** The buffer contents after replaying the first `n` sweeps of the
      pressure solve, one sweep at a time. */
  function SweepState(k: Shaders, f: Factors, p: BufferName, d: BufferName, s: Buffers, n: nat): (r: Buffers)
  {
    if n == 0 then s else Run(k, SweepState(k, f, p, d, s, n - 1), ProjectSweep(f, p, d, n - 1))
  }

  /** Replaying the sweeps as one log is replaying them one at a time. */
  lemma {:induction false} RunProjectSweeps(k: Shaders, f: Factors, p: BufferName, d: BufferName, s: Buffers, n: nat)
    ensures Run(k, s, ProjectSweeps(f, p, d, n)) == SweepState(k, f, p, d, s, n)
  {
    if n > 0 {
      RunProjectSweeps(k, f, p, d, s, n - 1);
      RunThen(k, s, ProjectSweeps(f, p, d, n - 1), ProjectSweep(f, p, d, n - 1), ProjectSweeps(f, p, d, n), SweepState(k, f, p, d, s, n - 1));
    } else {
      assert ProjectSweeps(f, p, d, n) == [];
    }
  }

  /** Sweep `i` replayed on `x`: the buffer it writes holds the relaxed,
      border-mirrored contents of the buffer it reads; `d` is untouched. */
  lemma RunOneSweep(k: Shaders, f: Factors, p: BufferName, d: BufferName, x: Buffers, i: nat)
    requires p != Temp && d != p && d != Temp
    ensures var r := Run(k, x, ProjectSweep(f, p, d, i));
      Get(r, PingPongResult(p, i)) == PressureSweepOf(k, f, Get(x, PingPongCurrent(p, i)), Get(x, d)) &&
      Get(r, d) == Get(x, d) &&
      (|Get(x, p)| == |Get(x, Temp)| ==> |Get(r, p)| == |Get(x, p)| && |Get(r, Temp)| == |Get(x, p)|)
  {
    var cur, res := PingPongCurrent(p, i), PingPongResult(p, i);
    var bnd, jac := BoundaryK(1.0, cur), JacobiK(f, cur, d, res);
    assert ProjectSweep(f, p, d, i) == ([] + [bnd]) + [jac];
    RunSnoc(k, x, [], bnd);
    RunSnoc(k, x, [] + [bnd], jac);
    ApplyPressureSweep(k, f, cur, d, res, x);
  }

  /** After n sweeps from `p` against `d`, the n-th pressure iterate is in
      the buffer the next sweep would read: `p` when n is even, the scratch
      buffer when n is odd. */
  lemma {:induction false} SweepStateIterate(k: Shaders, f: Factors, p: BufferName, d: BufferName, s: Buffers, n: nat)
    requires p != Temp && d != p && d != Temp && |Get(s, Temp)| == |Get(s, p)|
    ensures var r := SweepState(k, f, p, d, s, n);
      Get(r, PingPongCurrent(p, n)) == PressureIterate(k, f, Get(s, p), Get(s, d), n) &&
      Get(r, d) == Get(s, d) && |Get(r, p)| == |Get(s, p)| && |Get(r, Temp)| == |Get(s, p)|
  {
    if n > 0 {
      SweepStateIterate(k, f, p, d, s, n - 1);
      RunOneSweep(k, f, p, d, SweepState(k, f, p, d, s, n - 1), n - 1);
      PingPongLast(p, n);
    } else {
      assert SweepState(k, f, p, d, s, n) == s;
    }
  }

  /** The replayed sweeps of the pressure solve compute PressureIterate. */
  lemma RunPressureSweeps(k: Shaders, f: Factors, p: BufferName, d: BufferName, s: Buffers, n: nat)
    requires p != Temp && d != p && d != Temp && |Get(s, Temp)| == |Get(s, p)|
    ensures var r := Run(k, s, ProjectSweeps(f, p, d, n));
      Get(r, PingPongCurrent(p, n)) == PressureIterate(k, f, Get(s, p), Get(s, d), n) &&
      |Get(r, p)| == |Get(s, p)| && |Get(r, Temp)| == |Get(s, p)|
  {
    RunProjectSweeps(k, f, p, d, s, n);
    SweepStateIterate(k, f, p, d, s, n);
  }

  /** Replaying the pressure solve leaves the n-th pressure iterate in `p`
      and a cleared scratch buffer; nothing else changes. */
  lemma RunPressureSolve(k: Shaders, f: Factors, p: BufferName, d: BufferName, s: Buffers, n: nat)
    requires p != Temp && d != p && d != Temp && |Get(s, Temp)| == |Get(s, p)|
    ensures var r := Run(k, s, PressureSolveTrace(f, p, d, n));
      Get(r, p) == PressureIterate(k, f, Get(s, p), Get(s, d), n) &&
      Get(r, Temp) == Filled(Zero, |Get(s, p)|) &&
      forall c :: c != p && c != Temp ==> Get(r, c) == Get(s, c)
  {
    var sweeps := ProjectSweeps(f, p, d, n);
    RunPressureSweeps(k, f, p, d, s, n);
    forall c | c != p && c != Temp
      ensures Get(Run(k, s, sweeps), c) == Get(s, c)
    {
      RunPressureSweepsFrame(k, f, p, d, s, n, c);
    }
    RunTail(k, s, sweeps, CopyBack(p, n), ClearK(Zero, Temp), Run(k, s, sweeps));
    CopyBackClear(k, Run(k, s, sweeps), p, n);
  }

  /** The end of Project on buffer contents `x`: mirror the pressure's
      borders, subtract its gradient from the velocity into the scratch
      buffer, copy that back and clear the scratch buffer. */
  lemma ProjectTail(k: Shaders, x: Buffers, v: BufferName, p: BufferName)
    requires v != p && v != Temp && p != Temp
    ensures var r := Apply(k, Apply(k, Apply(k, Apply(k, x, BoundaryK(1.0, p)), FreeDivergenceK(v, p, Temp)), CopyK(Temp, v)), ClearK(Zero, Temp));
      var pressure := BoundaryOf(k, 1.0, Get(x, p));
      Get(r, p) == pressure && Get(r, v) == FreeDivergenceOf(k, Get(x, v), pressure) &&
      Get(r, Temp) == Filled(Zero, |Get(x, v)|) &&
      forall c :: c != v && c != p && c != Temp ==> Get(r, c) == Get(x, c)
  {
    var x1 := Apply(k, x, BoundaryK(1.0, p));
    var x2 := Apply(k, x1, FreeDivergenceK(v, p, Temp));
    var x3 := Apply(k, x2, CopyK(Temp, v));
    ApplyFrame(k, x, BoundaryK(1.0, p), v);
    ApplyFrame(k, x1, FreeDivergenceK(v, p, Temp), p);
    ApplyFrame(k, x2, CopyK(Temp, v), p);
    ApplyFrame(k, x3, ClearK(Zero, Temp), p);
    ApplyFrame(k, x3, ClearK(Zero, Temp), v);
    ApplyFrame(k, x2, CopyK(Temp, v), Temp);
    forall c | c != v && c != p && c != Temp
      ensures Get(Apply(k, x3, ClearK(Zero, Temp)), c) == Get(x, c)
    {
      ApplyFrame(k, x, BoundaryK(1.0, p), c);
      ApplyFrame(k, x1, FreeDivergenceK(v, p, Temp), c);
      ApplyFrame(k, x2, CopyK(Temp, v), c);
      ApplyFrame(k, x3, ClearK(Zero, Temp), c);
    }
  }

  /** Project replayed segment by segment. */
  lemma ProjectSegments(k: Shaders, f: Factors, v: BufferName, d: BufferName, p: BufferName, s: Buffers, n: nat)
    ensures Run(k, s, ProjectTrace(f, v, d, p, n)) ==
      var x2 := Run(k, Apply(k, s, DivergenceK(v, d)), PressureSolveTrace(f, p, d, n));
      Apply(k, Apply(k, Apply(k, Apply(k, x2, BoundaryK(1.0, p)), FreeDivergenceK(v, p, Temp)), CopyK(Temp, v)), ClearK(Zero, Temp))
  {
    var div := DivergenceK(v, d);
    var x1 := Apply(k, s, div);
    RunSnocFrom(k, s, [], div, s);
    assert [] + [div] == [div];
    var solve := PressureSolveTrace(f, p, d, n);
    var x2 := Run(k, x1, solve);
    RunThen(k, s, [div], solve, [div] + solve, x1);
    var t2 := [div] + solve;
    var y1 := Apply(k, x2, BoundaryK(1.0, p));
    RunSnocFrom(k, s, t2, BoundaryK(1.0, p), x2);
    var y2 := Apply(k, y1, FreeDivergenceK(v, p, Temp));
    RunSnocFrom(k, s, t2 + [BoundaryK(1.0, p)], FreeDivergenceK(v, p, Temp), y1);
    var y3 := Apply(k, y2, CopyK(Temp, v));
    RunSnocFrom(k, s, t2 + [BoundaryK(1.0, p)] + [FreeDivergenceK(v, p, Temp)], CopyK(Temp, v), y2);
    RunSnocFrom(k, s, t2 + [BoundaryK(1.0, p)] + [FreeDivergenceK(v, p, Temp)] + [CopyK(Temp, v)], ClearK(Zero, Temp), y3);
  }

  /** Replaying Project gives the divergence of the old velocity in `d`, the
      relaxed and border-mirrored pressure in `p`, the divergence-free
      velocity in `v` and a cleared scratch buffer, as ProjectOf says. */
  lemma RunProject(k: Shaders, f: Factors, v: BufferName, d: BufferName, p: BufferName, s: Buffers, n: nat, cells: nat)
    requires v != d && v != p && d != p && v != Temp && d != Temp && p != Temp
    requires Uniform(s, cells)
    ensures var r := Run(k, s, ProjectTrace(f, v, d, p, n));
      var o := ProjectOf(k, f, n, Get(s, v), Get(s, p));
      Get(r, v) == o.velocity && Get(r, d) == o.divergence && Get(r, p) == o.pressure &&
      Get(r, Temp) == Filled(Zero, cells) &&
      forall c :: c != v && c != d && c != p && c != Temp ==> Get(r, c) == Get(s, c)
  {
    ProjectSegments(k, f, v, d, p, s, n);
    var div := DivergenceK(v, d);
    var x1 := Apply(k, s, div);
    ApplyFrame(k, s, div, v);
    ApplyFrame(k, s, div, p);
    ApplyFrame(k, s, div, Temp);
    var x2 := Run(k, x1, PressureSolveTrace(f, p, d, n));
    RunPressureSolve(k, f, p, d, x1, n);
    ProjectTail(k, x2, v, p);
    forall c | c != v && c != d && c != p && c != Temp
      ensures Get(x2, c) == Get(s, c)
    {
      ApplyFrame(k, s, div, c);
    }
  }

  // ---- The two steps of a frame ----

  /** The velocity step replayed segment by segment. */
  lemma VelocityStepSegments(k: Shaders, src: VelocitySource, fd: Factors, fp: Factors, dt: real, n: nat, s: Buffers)
    ensures Run(k, s, VelocityStepTrace(src, fd, fp, dt, n)) ==
      var bnd := BoundaryK(-1.0, Velocity);
      var proj := ProjectTrace(fp, Velocity, Divergence, Pressure, n);
      var s2 := Apply(k, Apply(k, s, AddVelocityK(src, Velocity)), bnd);
      var s4 := Apply(k, Run(k, s2, DiffuseTrace(fd, Velocity, n)), bnd);
      var s7 := Apply(k, Run(k, Run(k, s4, proj), AdvectTrace(0.999, dt, Velocity, Velocity)), bnd);
      Run(k, s7, proj)
  {
    var bnd := BoundaryK(-1.0, Velocity);
    var proj := ProjectTrace(fp, Velocity, Divergence, Pressure, n);
    var a0 := [AddVelocityK(src, Velocity)];
    RunSnoc(k, s, [], AddVelocityK(src, Velocity));
    assert [] + a0 == a0;
    var t1 := a0 + [bnd];
    RunSnoc(k, s, a0, bnd);
    var t2 := t1 + DiffuseTrace(fd, Velocity, n);
    RunAppend(k, s, t1, DiffuseTrace(fd, Velocity, n));
    var t3 := t2 + [bnd];
    RunSnoc(k, s, t2, bnd);
    var t4 := t3 + proj;
    RunAppend(k, s, t3, proj);
    var t5 := t4 + AdvectTrace(0.999, dt, Velocity, Velocity);
    RunAppend(k, s, t4, AdvectTrace(0.999, dt, Velocity, Velocity));
    var t6 := t5 + [bnd];
    RunSnoc(k, s, t5, bnd);
    RunAppend(k, s, t6, proj);
  }

  /** Replaying the velocity step yields VelocityStepOf in the velocity,
      divergence and pressure buffers, a cleared scratch buffer and an
      untouched density buffer. */
  lemma RunVelocityStep(k: Shaders, src: VelocitySource, fd: Factors, fp: Factors, dt: real, n: nat, s: Buffers, cells: nat)
    requires Uniform(s, cells)
    ensures var r := Run(k, s, VelocityStepTrace(src, fd, fp, dt, n));
      var o := VelocityStepOf(k, src, fd, fp, dt, n, Get(s, Velocity), Get(s, Pressure));
      Get(r, Velocity) == o.velocity && Get(r, Divergence) == o.divergence && Get(r, Pressure) == o.pressure &&
      Get(r, Temp) == Filled(Zero, cells) && Get(r, Density) == Get(s, Density)
  {
    var bnd := BoundaryK(-1.0, Velocity);
    var proj := ProjectTrace(fp, Velocity, Divergence, Pressure, n);
    VelocityStepSegments(k, src, fd, fp, dt, n, s);

    var s1 := Apply(k, s, AddVelocityK(src, Velocity));
    ApplyFrame(k, s, AddVelocityK(src, Velocity), Temp);
    ApplyFrame(k, s, AddVelocityK(src, Velocity), Divergence);
    ApplyFrame(k, s, AddVelocityK(src, Velocity), Pressure);
    ApplyFrame(k, s, AddVelocityK(src, Velocity), Density);
    var s2 := Apply(k, s1, bnd);
    ApplyFrame(k, s1, bnd, Temp);
    ApplyFrame(k, s1, bnd, Divergence);
    ApplyFrame(k, s1, bnd, Pressure);
    ApplyFrame(k, s1, bnd, Density);
    var injected := BoundaryOf(k, -1.0, AddVelocityOf(k, src, Get(s, Velocity)));
    assert Get(s2, Velocity) == injected;

    var s3 := Run(k, s2, DiffuseTrace(fd, Velocity, n));
    RunDiffuse(k, fd, Velocity, s2, n);
    var s4 := Apply(k, s3, bnd);
    ApplyFrame(k, s3, bnd, Temp);
    ApplyFrame(k, s3, bnd, Divergence);
    ApplyFrame(k, s3, bnd, Pressure);
    ApplyFrame(k, s3, bnd, Density);
    var diffused := BoundaryOf(k, -1.0, DiffusionIterate(k, fd, injected, n));
    assert Get(s4, Velocity) == diffused;
    assert Get(s4, Pressure) == Get(s, Pressure) && Get(s4, Density) == Get(s, Density);
    assert Uniform(s4, cells);

    var s5 := Run(k, s4, proj);
    RunProject(k, fp, Velocity, Divergence, Pressure, s4, n, cells);
    var first := ProjectOf(k, fp, n, diffused, Get(s, Pressure));
    assert Get(s5, Velocity) == first.velocity && Get(s5, Pressure) == first.pressure;
    assert Get(s5, Density) == Get(s, Density);

    var s6 := Run(k, s5, AdvectTrace(0.999, dt, Velocity, Velocity));
    RunAdvect(k, 0.999, dt, Velocity, Velocity, s5);
    var s7 := Apply(k, s6, bnd);
    ApplyFrame(k, s6, bnd, Temp);
    ApplyFrame(k, s6, bnd, Divergence);
    ApplyFrame(k, s6, bnd, Pressure);
    ApplyFrame(k, s6, bnd, Density);
    var advected := BoundaryOf(k, -1.0, AdvectOf(k, 0.999, dt, first.velocity, first.velocity));
    assert Get(s7, Velocity) == advected && Get(s7, Pressure) == first.pressure;
    assert Get(s7, Density) == Get(s, Density);
    assert Uniform(s7, cells);

    RunProject(k, fp, Velocity, Divergence, Pressure, s7, n, cells);
  }

  /** The density step replayed segment by segment. */
  lemma DensityStepSegments(k: Shaders, src: DensitySource, fd: Factors, dt: real, n: nat, s: Buffers)
    ensures Run(k, s, DensityStepTrace(src, fd, dt, n)) ==
      var bnd := BoundaryK(0.0, Density);
      var s2 := Apply(k, Apply(k, s, AddDensityK(src, Density)), bnd);
      var s4 := Apply(k, Run(k, s2, DiffuseTrace(fd, Density, n)), bnd);
      Apply(k, Run(k, s4, AdvectTrace(0.996, dt, Density, Velocity)), bnd)
  {
    var bnd := BoundaryK(0.0, Density);
    var a0 := [AddDensityK(src, Density)];
    RunSnoc(k, s, [], AddDensityK(src, Density));
    assert [] + a0 == a0;
    var t1 := a0 + [bnd];
    RunSnoc(k, s, a0, bnd);
    var t2 := t1 + DiffuseTrace(fd, Density, n);
    RunAppend(k, s, t1, DiffuseTrace(fd, Density, n));
    var t3 := t2 + [bnd];
    RunSnoc(k, s, t2, bnd);
    var t4 := t3 + AdvectTrace(0.996, dt, Density, Velocity);
    RunAppend(k, s, t3, AdvectTrace(0.996, dt, Density, Velocity));
    RunSnoc(k, s, t4, bnd);
  }

  /** Replaying the density step yields DensityStepOf, transported by the
      velocity in the buffers, in the density buffer, a cleared scratch
      buffer, and the other three buffers unchanged. */
  lemma RunDensityStep(k: Shaders, src: DensitySource, fd: Factors, dt: real, n: nat, s: Buffers, cells: nat)
    requires Uniform(s, cells)
    ensures var r := Run(k, s, DensityStepTrace(src, fd, dt, n));
      Get(r, Density) == DensityStepOf(k, src, fd, dt, n, Get(s, Density), Get(s, Velocity)) &&
      Get(r, Temp) == Filled(Zero, cells) && Get(r, Velocity) == Get(s, Velocity) &&
      Get(r, Divergence) == Get(s, Divergence) && Get(r, Pressure) == Get(s, Pressure)
  {
    var bnd := BoundaryK(0.0, Density);
    DensityStepSegments(k, src, fd, dt, n, s);

    var s1 := Apply(k, s, AddDensityK(src, Density));
    ApplyFrame(k, s, AddDensityK(src, Density), Temp);
    ApplyFrame(k, s, AddDensityK(src, Density), Velocity);
    ApplyFrame(k, s, AddDensityK(src, Density), Divergence);
    ApplyFrame(k, s, AddDensityK(src, Density), Pressure);
    var s2 := Apply(k, s1, bnd);
    ApplyFrame(k, s1, bnd, Temp);
    ApplyFrame(k, s1, bnd, Velocity);
    ApplyFrame(k, s1, bnd, Divergence);
    ApplyFrame(k, s1, bnd, Pressure);
    var injected := BoundaryOf(k, 0.0, AddDensityOf(k, src, Get(s, Density)));
    assert Get(s2, Density) == injected;

    var s3 := Run(k, s2, DiffuseTrace(fd, Density, n));
    RunDiffuse(k, fd, Density, s2, n);
    var s4 := Apply(k, s3, bnd);
    ApplyFrame(k, s3, bnd, Temp);
    ApplyFrame(k, s3, bnd, Velocity);
    ApplyFrame(k, s3, bnd, Divergence);
    ApplyFrame(k, s3, bnd, Pressure);
    var diffused := BoundaryOf(k, 0.0, DiffusionIterate(k, fd, injected, n));
    assert Get(s4, Density) == diffused;
    assert Get(s4, Velocity) == Get(s, Velocity) && Get(s4, Divergence) == Get(s, Divergence);
    assert Get(s4, Pressure) == Get(s, Pressure);

    var s5 := Run(k, s4, AdvectTrace(0.996, dt, Density, Velocity));
    RunAdvect(k, 0.996, dt, Density, Velocity, s4);
    ApplyFrame(k, s5, bnd, Temp);
    ApplyFrame(k, s5, bnd, Velocity);
    ApplyFrame(k, s5, bnd, Divergence);
    ApplyFrame(k, s5, bnd, Pressure);
  }
}
